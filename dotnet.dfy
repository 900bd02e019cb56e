/** The few .NET framework facilities the modelled code relies on:
    the two exception types it throws, string.IsNullOrWhiteSpace, and the
    LINQ operators Where, Select, DefaultIfEmpty and Sum over sequences. */
module DotNet {
  import opened Wrappers

  /** The exceptions the modelled code throws. ArgumentNullException carries
      the parameter name, ArgumentException its message; ForeignException is
      any exception thrown by code outside this model (such as the data
      context), identified by its type name and message. */
  datatype Exception =
    | ArgumentNullException(paramName: string)
    | ArgumentException(message: string)
    | ForeignException(typeName: string, message: string)

  /** Every character of `s` is white space according to `isWhiteSpace`,
      which stands for Char.IsWhiteSpace (its Unicode tables are not modelled). */
  function AllWhiteSpace(s: string, isWhiteSpace: char -> bool): (r: bool)
    ensures r <==> forall i :: 0 <= i < |s| ==> isWhiteSpace(s[i])
  {
    if s == [] then true
    else isWhiteSpace(s[0]) && AllWhiteSpace(s[1..], isWhiteSpace)
  }

  /** string.IsNullOrWhiteSpace: null, empty, or made only of white space. */
  function IsNullOrWhiteSpace(value: Option<string>, isWhiteSpace: char -> bool): (r: bool)
    ensures value == None ==> r
    ensures value == Some("") ==> r
    ensures value.Some? ==>
      (r <==> forall i :: 0 <= i < |value.value| ==> isWhiteSpace(value.value[i]))
  {
    match value
    case None => true
    case Some(s) => AllWhiteSpace(s, isWhiteSpace)
  }

  /** Enumerable.Where: the elements satisfying `p`, in their original order. */
  function Where<T(!new)>(s: seq<T>, p: T -> bool): (r: seq<T>)
    ensures |r| <= |s|
    ensures forall i :: 0 <= i < |r| ==> p(r[i])
    ensures forall x :: multiset(r)[x] == if p(x) then multiset(s)[x] else 0
  {
    if s == [] then []
    else
      var rest := Where(s[1..], p);
      assert s == [s[0]] + s[1..];
      assert multiset(s) == multiset{s[0]} + multiset(s[1..]);
      if p(s[0]) then [s[0]] + rest else rest
  }

  /** Enumerable.Select: one projected element per source element, in order. */
  function Select<A, B>(s: seq<A>, f: A -> B): (r: seq<B>)
    ensures |r| == |s|
    ensures forall i :: 0 <= i < |s| ==> r[i] == f(s[i])
  {
    if s == [] then [] else [f(s[0])] + Select(s[1..], f)
  }

  /** Filtering distributes over concatenation, so the kept elements stay in
      their original relative order. */
  lemma {:induction false} WhereAppend<T(!new)>(a: seq<T>, b: seq<T>, p: T -> bool)
    ensures Where(a + b, p) == Where(a, p) + Where(b, p)
  {
    if a == [] {
      assert a + b == b;
    } else {
      assert (a + b)[0] == a[0];
      assert (a + b)[1..] == a[1..] + b;
      WhereAppend(a[1..], b, p);
    }
  }

  /** Appending one element appends its projection. */
  lemma SelectAppendOne<A, B>(s: seq<A>, x: A, f: A -> B)
    ensures Select(s + [x], f) == Select(s, f) + [f(x)]
  {
  }

  /** Enumerable.DefaultIfEmpty: the sequence itself, or a single default
      element when it is empty. */
  function DefaultIfEmpty<T>(s: seq<T>, default: T): (r: seq<T>)
    ensures r != []
    ensures s != [] ==> r == s
    ensures s == [] ==> r == [default]
  {
    if s == [] then [default] else s
  }

  /** Enumerable.Sum over integers (unbounded; see README for overflow):
      0 for no elements, and never negative when no element is. */
  function Sum(s: seq<int>): (r: int)
    ensures s == [] ==> r == 0
    ensures |s| == 1 ==> r == s[0]
    ensures (forall i :: 0 <= i < |s| ==> s[i] >= 0) ==> r >= 0
  {
    if s == [] then 0
    else
      assert forall i :: 0 <= i < |s[1..]| ==> s[1..][i] == s[i + 1];
      s[0] + Sum(s[1..])
  }

  /** DefaultIfEmpty(0) never changes a sum: an empty query sums to zero. */
  lemma SumDefaultIfEmptyZero(s: seq<int>)
    ensures Sum(DefaultIfEmpty(s, 0)) == Sum(s)
  {
  }
}
