/** The home-page banner carousel (src/components/home/HeroBanner.tsx): one index into
    the list of active advertisements, stepped by the arrows, the auto-advance timer
    and the dots. All operands of `%` below are non-negative, where JavaScript's
    truncating remainder and Dafny's Euclidean one agree. */
module HeroBanner {

  /** `(prev + 1) % ads.length`: the next arrow and the timer tick. */
  function NextIndex(i: int, n: int): (j: int)
    requires n > 0 && 0 <= i
    ensures 0 <= j < n
  {
    (i + 1) % n
  }

  /** `(prev - 1 + ads.length) % ads.length`: the previous arrow. */
  function PreviousIndex(i: int, n: int): (j: int)
    requires n > 0 && 0 <= i
    ensures 0 <= j < n
  {
    (i - 1 + n) % n
  }

  /** What the banner renders. */
  datatype View =
    | Loading
    | Fallback                                  // no active advertisement
    | Showing(index: int, controls: bool)       // one ad; with controls: arrows, dots and the timer

  /** The rendered view for `n` loaded ads at `index`. */
  function ViewOf(isLoading: bool, n: nat, index: int): (v: View)
    ensures isLoading ==> v == Loading
    ensures !isLoading && n == 0 ==> v == Fallback
    ensures !isLoading && n >= 1 ==> v == Showing(index, n > 1)
    ensures v.Showing? ==> n >= 1 && v.index == index && (v.controls <==> n > 1)
  {
    if isLoading then Loading
    else if n == 0 then Fallback
    else Showing(index, n > 1)
  }

  class Carousel {
    var adCount: nat
    var currentIndex: int

    /** With at least one ad the index points at one of them; it starts at 0. */
    ghost predicate Valid()
      reads this
    {
      0 <= currentIndex && (adCount >= 1 ==> currentIndex < adCount)
    }

    constructor ()
      ensures Valid() && adCount == 0 && currentIndex == 0
    {
      adCount := 0;
      currentIndex := 0;
    }

    /** The ads arrive; the index is not reset. */
    method AdsLoaded(n: nat)
      requires Valid() && adCount == 0 && currentIndex == 0
      modifies this
      ensures Valid() && adCount == n && currentIndex == 0
    {
      adCount := n;
    }

    /** The next arrow. It exists only when there is more than one ad. */
    method GoToNext()
      requires Valid() && adCount > 1
      modifies this
      ensures Valid() && adCount == old(adCount)
      ensures currentIndex == NextIndex(old(currentIndex), adCount)
    {
      currentIndex := (currentIndex + 1) % adCount;
    }

    /** The previous arrow. It exists only when there is more than one ad. */
    method GoToPrevious()
      requires Valid() && adCount > 1
      modifies this
      ensures Valid() && adCount == old(adCount)
      ensures currentIndex == PreviousIndex(old(currentIndex), adCount)
    {
      currentIndex := (currentIndex - 1 + adCount) % adCount;
    }

    /** The auto-advance timer; it is only started when there is more than one ad. */
    method Tick()
      requires Valid() && adCount > 1
      modifies this
      ensures Valid() && adCount == old(adCount)
      ensures currentIndex == NextIndex(old(currentIndex), adCount)
    {
      currentIndex := (currentIndex + 1) % adCount;
    }

    /** Dot k, one per ad, shown only when there is more than one ad. */
    method SelectDot(k: nat)
      requires Valid() && adCount > 1 && k < adCount
      modifies this
      ensures Valid() && adCount == old(adCount) && currentIndex == k
    {
      currentIndex := k;
    }
  }

  /** Next wraps from the last ad to the first and otherwise moves one on. */
  lemma NextWraps(i: int, n: int)
    requires n >= 1 && 0 <= i < n
    ensures NextIndex(i, n) == if i == n - 1 then 0 else i + 1
  {
    if i == n - 1 {
      assert i + 1 == n;
    } else {
      assert 0 <= i + 1 < n;
    }
  }

  /** Previous wraps from the first ad to the last and otherwise moves one back. */
  lemma PreviousWraps(i: int, n: int)
    requires n >= 1 && 0 <= i < n
    ensures PreviousIndex(i, n) == if i == 0 then n - 1 else i - 1
  {
    if i == 0 {
      assert i - 1 + n == n - 1;
    } else {
      assert i - 1 + n == (i - 1) + n;
      assert (i - 1 + n) / n == 1;
    }
  }

  /** Previous undoes next and next undoes previous. */
  lemma PreviousAfterNext(i: int, n: int)
    requires n >= 1 && 0 <= i < n
    ensures PreviousIndex(NextIndex(i, n), n) == i
    ensures NextIndex(PreviousIndex(i, n), n) == i
  {
    NextWraps(i, n);
    PreviousWraps(NextIndex(i, n), n);
    PreviousWraps(i, n);
    NextWraps(PreviousIndex(i, n), n);
  }

  /** The index after `k` ticks from `i`. */
  function Steps(i: int, n: int, k: nat): (j: int)
    requires n >= 1 && 0 <= i < n
    ensures 0 <= j < n
  {
    if k == 0 then i else NextIndex(Steps(i, n, k - 1), n)
  }

  /** Up to one full turn, `k` ticks move the index `k` places on, wrapping once past the end. */
  lemma {:induction false} StepsWithinTurn(i: int, n: int, k: nat)
    requires n >= 1 && 0 <= i < n && k <= n
    ensures Steps(i, n, k) == if i + k < n then i + k else i + k - n
  {
    if k > 0 {
      StepsWithinTurn(i, n, k - 1);
      NextWraps(Steps(i, n, k - 1), n);
    }
  }

  /** As many ticks as there are ads bring the carousel back to the ad it started on. */
  lemma FullTurn(i: int, n: int)
    requires n >= 1 && 0 <= i < n
    ensures Steps(i, n, n) == i
  {
    StepsWithinTurn(i, n, n);
  }
}
