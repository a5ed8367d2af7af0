/** Values and list operations shared by the storefront's hooks, pages and admin sections. */
module Common {

  /** A value that may be absent: JavaScript's `undefined`/`null`. */
  datatype Option<+T> = None | Some(value: T)

  /** The price a shopper pays per unit: the discount price when there is one
      and it is not zero (JavaScript's `discountPrice || price` treats 0 as
      absent), otherwise the list price. */
  function EffectivePrice(price: int, discount: Option<int>): (p: int)
    ensures p == price || (discount.Some? && p == discount.value)
    ensures (discount == None || discount == Some(0)) ==> p == price
    ensures discount.Some? && discount.value != 0 ==> p == discount.value
  {
    match discount
    case Some(d) => if d != 0 then d else price
    case None => price
  }

  /** `text || null`: an empty text field is stored as null. */
  function NullIfEmpty(text: string): (r: Option<string>)
    ensures r == None <==> text == ""
    ensures r.Some? ==> r.value == text
  {
    if text == "" then None else Some(text)
  }

  /** `value || ""`: a null or empty text shows as the empty string. */
  function EmptyIfNull(value: Option<string>): (text: string)
    ensures value == None ==> text == ""
    ensures value.Some? ==> text == value.value
  {
    match value
    case Some(s) => s
    case None => ""
  }

  /** `Array.prototype.filter`: the elements of `s` that `keep` accepts, in their order. */
  function Filter<T(!new)>(s: seq<T>, keep: T -> bool): (r: seq<T>)
    ensures |r| <= |s|
    ensures forall x :: x in r <==> x in s && keep(x)
  {
    if s == [] then []
    else (if keep(s[0]) then [s[0]] else []) + Filter(s[1..], keep)
  }

  /** Filtering distributes over concatenation: the kept elements stay in their relative order. */
  lemma {:induction false} FilterAppend<T(!new)>(a: seq<T>, b: seq<T>, keep: T -> bool)
    ensures Filter(a + b, keep) == Filter(a, keep) + Filter(b, keep)
  {
    if a == [] {
      assert a + b == b;
    } else {
      assert (a + b)[0] == a[0];
      assert (a + b)[1..] == a[1..] + b;
      FilterAppend(a[1..], b, keep);
    }
  }

  /** Filtering a list with one more element at the end. */
  lemma FilterSnoc<T(!new)>(s: seq<T>, x: T, keep: T -> bool)
    ensures Filter(s + [x], keep) == Filter(s, keep) + (if keep(x) then [x] else [])
  {
    FilterAppend(s, [x], keep);
    assert [x][1..] == [];
  }

  /** A filter that every element passes is the identity. */
  lemma {:induction false} FilterKeepsAll<T(!new)>(s: seq<T>, keep: T -> bool)
    requires forall i :: 0 <= i < |s| ==> keep(s[i])
    ensures Filter(s, keep) == s
  {
    if s != [] {
      FilterKeepsAll(s[1..], keep);
    }
  }

  /** Filtering by a stricter predicate after a looser one is filtering by the stricter one. */
  lemma {:induction false} FilterFilter<T(!new)>(s: seq<T>, outer: T -> bool, inner: T -> bool)
    requires forall x :: inner(x) ==> outer(x)
    ensures Filter(Filter(s, outer), inner) == Filter(s, inner)
  {
    if s != [] {
      FilterFilter(s[1..], outer, inner);
      if outer(s[0]) {
        assert Filter(s, outer) == [s[0]] + Filter(s[1..], outer);
        FilterAppend([s[0]], Filter(s[1..], outer), inner);
      } else {
        assert !inner(s[0]);
        assert Filter(s, outer) == Filter(s[1..], outer);
        assert Filter(s, inner) == Filter(s[1..], inner);
      }
    }
  }

  /** A filter that no element passes is empty. */
  lemma {:induction false} FilterKeepsNone<T(!new)>(s: seq<T>, keep: T -> bool)
    requires forall i :: 0 <= i < |s| ==> !keep(s[i])
    ensures Filter(s, keep) == []
  {
    if s != [] {
      FilterKeepsNone(s[1..], keep);
    }
  }
}
