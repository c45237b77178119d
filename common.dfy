/** Shared value types of the plot model: optional values and results for the
    source's exceptions, real-valued geometry, insertion-ordered maps and the
    JSON-like option values that plot specifications are made of. */
module Common {

  datatype Option<T> = None | Some(value: T)

  /** The kind of exception the source throws. */
  datatype Error =
    | IllegalArgument(msg: string)       // require(...) / IllegalArgumentException
    | IllegalState(msg: string)          // check(...) / error(...) / IllegalStateException
    | Unsupported(msg: string)           // UNSUPPORTED(...) / reduce on an empty list
    | IndexOutOfBounds(msg: string)      // list or string index past the end
    | NoSuchElement(msg: string)         // Map.getValue on a missing key
    | NullPointer(msg: string)           // `!!` on a null value

  datatype Result<T> = Ok(value: T) | Err(error: Error)

  // ---------------------------------------------------------------------------
  // Geometry (DoubleVector / DoubleRectangle / DoubleSpan) over real numbers.

  datatype Vec = Vec(x: real, y: real) {
    function Add(o: Vec): Vec { Vec(x + o.x, y + o.y) }
    function Sub(o: Vec): Vec { Vec(x - o.x, y - o.y) }
  }

  const ZeroVec: Vec := Vec(0.0, 0.0)

  function Min(a: real, b: real): (r: real)
    ensures r <= a && r <= b && (r == a || r == b)
  {
    if a <= b then a else b
  }

  function Max(a: real, b: real): (r: real)
    ensures r >= a && r >= b && (r == a || r == b)
  {
    if a >= b then a else b
  }

  /** A rectangle given by its origin (left, top) and its dimension. */
  datatype Rect = Rect(origin: Vec, dimension: Vec) {
    function Left(): real { origin.x }
    function Top(): real { origin.y }
    function Width(): real { dimension.x }
    function Height(): real { dimension.y }
    function Right(): real { origin.x + dimension.x }
    function Bottom(): real { origin.y + dimension.y }
  }

  /** DoubleRectangle.span(a, b): the rectangle spanned by two corner points. */
  function SpanRect(a: Vec, b: Vec): (r: Rect)
    ensures r.Left() == Min(a.x, b.x) && r.Right() == Max(a.x, b.x)
    ensures r.Top() == Min(a.y, b.y) && r.Bottom() == Max(a.y, b.y)
    ensures r.Width() >= 0.0 && r.Height() >= 0.0
  {
    Rect(Vec(Min(a.x, b.x), Min(a.y, b.y)), Vec(Max(a.x, b.x) - Min(a.x, b.x), Max(a.y, b.y) - Min(a.y, b.y)))
  }

  /** DoubleRectangle.union: the smallest rectangle holding both corners of both rectangles. */
  function Union(a: Rect, b: Rect): (r: Rect)
    ensures r.Left() == Min(a.Left(), b.Left()) && r.Top() == Min(a.Top(), b.Top())
    ensures r.Right() == Max(a.Right(), b.Right()) && r.Bottom() == Max(a.Bottom(), b.Bottom())
  {
    var o := Vec(Min(a.Left(), b.Left()), Min(a.Top(), b.Top()));
    Rect(o, Vec(Max(a.Right(), b.Right()) - o.x, Max(a.Bottom(), b.Bottom()) - o.y))
  }

  /** Rectangle `inner` lies within rectangle `outer` (edges may touch). */
  predicate Covers(outer: Rect, inner: Rect) {
    outer.Left() <= inner.Left() && outer.Top() <= inner.Top() &&
    inner.Right() <= outer.Right() && inner.Bottom() <= outer.Bottom()
  }

  /** A closed numeric interval (DoubleSpan / ClosedRange<Double>). */
  datatype Span = Span(lower: real, upper: real) {
    predicate WellFormed() { lower <= upper }
    function Length(): real { upper - lower }
    predicate Contains(v: real) { lower <= v <= upper }
  }

  /** DoubleSpan.union / ClosedRange.span: the smallest interval holding both. */
  function SpanUnion(a: Span, b: Span): (r: Span)
    ensures r.lower == Min(a.lower, b.lower) && r.upper == Max(a.upper, b.upper)
  {
    Span(Min(a.lower, b.lower), Max(a.upper, b.upper))
  }

  /** Kotlin's Double.toInt(): truncation toward zero (NaN and overflow are not modelled). */
  function Trunc(r: real): (i: int)
    ensures r >= 0.0 ==> i as real <= r < i as real + 1.0
    ensures r < 0.0 ==> i as real - 1.0 < r <= i as real
  {
    if r >= 0.0 then r.Floor else -((-r).Floor)
  }

  /** An RGBA colour. */
  datatype Color = Color(red: int, green: int, blue: int, alpha: int)

  const WHITE: Color := Color(255, 255, 255, 255)

  // ---------------------------------------------------------------------------
  // Insertion-ordered map (Kotlin LinkedHashMap / LinkedHashSet keys).

  datatype LinkedMap<K(!new), V> = LinkedMap(keys: seq<K>, entries: map<K, V>) {
    ghost predicate Valid() {
      (forall i, j :: 0 <= i < j < |keys| ==> keys[i] != keys[j]) &&
      (forall k :: k in entries <==> k in keys)
    }

    /** `put`: a new key goes to the end; an existing key keeps its position. */
    function Put(k: K, v: V): (r: LinkedMap<K, V>)
      requires Valid()
      ensures r.Valid()
      ensures r.entries == entries[k := v]
      ensures r.keys == if k in entries then keys else keys + [k]
    {
      LinkedMap(if k in entries then keys else keys + [k], entries[k := v])
    }
  }

  function EmptyLinkedMap<K(!new), V>(): (r: LinkedMap<K, V>)
    ensures r.Valid() && r.keys == [] && r.entries == map[]
  {
    LinkedMap([], map[])
  }

  // ---------------------------------------------------------------------------
  // JSON-like option values of a plot specification.

  datatype Value =
    | JNull
    | JBool(b: bool)
    | JNum(n: real)
    | JStr(s: string)
    | JList(items: seq<Value>)
    | JMap(fields: map<string, Value>)

  /** ASCII lower-casing of one character. */
  function LowerChar(c: char): char {
    if 'A' <= c <= 'Z' then (c as int + 32) as char else c
  }

  /** ASCII upper-casing of one character. */
  function UpperChar(c: char): char {
    if 'a' <= c <= 'z' then (c as int - 32) as char else c
  }

  function Lower(s: string): (r: string)
    ensures |r| == |s| && forall i :: 0 <= i < |s| ==> r[i] == LowerChar(s[i])
  {
    seq(|s|, i requires 0 <= i < |s| => LowerChar(s[i]))
  }

  function Upper(s: string): (r: string)
    ensures |r| == |s| && forall i :: 0 <= i < |s| ==> r[i] == UpperChar(s[i])
  {
    seq(|s|, i requires 0 <= i < |s| => UpperChar(s[i]))
  }

  // ---------------------------------------------------------------------------
  // First-seen distinct elements (what a LinkedHashSet keeps).

  /** The distinct elements of `s`, each at the position of its first occurrence. */
  function DistinctOf<T(==)>(s: seq<T>): (r: seq<T>)
  {
    if |s| == 0 then []
    else
      var p := DistinctOf(s[..|s| - 1]);
      if s[|s| - 1] in p then p else p + [s[|s| - 1]]
  }

  predicate NoDuplicates<T(==)>(s: seq<T>) {
    forall i, j :: 0 <= i < j < |s| ==> s[i] != s[j]
  }

  /** Index of the first occurrence of `x` in `s`. */
  function FirstIndex<T(==)>(s: seq<T>, x: T): (i: nat)
    requires x in s
    ensures i < |s| && s[i] == x && x !in s[..i]
  {
    if s[0] == x then 0 else 1 + FirstIndex(s[1..], x)
  }

  lemma {:induction false} FirstIndexAppend<T>(s: seq<T>, x: T, y: T)
    requires y in s + [x]
    ensures y in s ==> FirstIndex(s + [x], y) == FirstIndex(s, y)
    ensures y !in s ==> FirstIndex(s + [x], y) == |s|
  {
    if |s| > 0 && s[0] != y {
      assert (s + [x])[1..] == s[1..] + [x];
      FirstIndexAppend(s[1..], x, y);
    }
  }

  /** DistinctOf keeps exactly the elements of `s`, without duplicates. */
  lemma {:induction false} DistinctOfElements<T>(s: seq<T>)
    ensures NoDuplicates(DistinctOf(s))
    ensures forall x :: x in DistinctOf(s) <==> x in s
    ensures forall i :: 0 <= i < |DistinctOf(s)| ==> DistinctOf(s)[i] in s
  {
    if |s| > 0 {
      var s' := s[..|s| - 1];
      DistinctOfElements(s');
      assert s == s' + [s[|s| - 1]];
    }
  }

  /** DistinctOf lists the elements of `s` in the order of their first occurrences. */
  lemma {:induction false} DistinctOfFirstSeenOrder<T>(s: seq<T>, i: int, j: int)
    requires 0 <= i < j < |DistinctOf(s)|
    ensures DistinctOf(s)[i] in s && DistinctOf(s)[j] in s
    ensures FirstIndex(s, DistinctOf(s)[i]) < FirstIndex(s, DistinctOf(s)[j])
  {
    var s', last := s[..|s| - 1], s[|s| - 1];
    assert s == s' + [last];
    DistinctOfElements(s');
    DistinctOfElements(s);
    var p, r := DistinctOf(s'), DistinctOf(s);
    assert r[i] in r && r[j] in r;
    if last in p {
      DistinctOfFirstSeenOrder(s', i, j);
      FirstIndexAppend(s', last, r[i]);
      FirstIndexAppend(s', last, r[j]);
    } else if j < |p| {
      DistinctOfFirstSeenOrder(s', i, j);
      FirstIndexAppend(s', last, r[i]);
      FirstIndexAppend(s', last, r[j]);
    } else {
      assert r[i] == p[i] && p[i] in p;
      assert p[i] in s';
      assert r[i] in s' + [last];
      FirstIndexAppend(s', last, r[i]);
      FirstIndexAppend(s', last, r[j]);
    }
  }

  /** Extending a prefix by one element, behind a fixed head. */
  lemma PrefixAppend<T>(head: seq<T>, s: seq<T>, j: nat)
    requires j < |s|
    ensures head + s[..j + 1] == (head + s[..j]) + [s[j]]
  {
    assert s[..j + 1] == s[..j] + [s[j]];
  }

  // ---------------------------------------------------------------------------
  // A left fold that stops at the first error (a loop whose body may throw).

  function FoldResult<S, X>(init: S, xs: seq<X>, step: (S, X) -> Result<S>): Result<S> {
    if |xs| == 0 then Ok(init)
    else
      var prev := FoldResult(init, xs[..|xs| - 1], step);
      if prev.Err? then prev else step(prev.value, xs[|xs| - 1])
  }

  /** One more element: the fold over a longer prefix takes one more step. */
  lemma FoldResultNext<S, X>(init: S, xs: seq<X>, step: (S, X) -> Result<S>, k: nat)
    requires k < |xs|
    ensures FoldResult(init, xs[..k + 1], step) ==
      (var prev := FoldResult(init, xs[..k], step); if prev.Err? then prev else step(prev.value, xs[k]))
  {
    assert xs[..k + 1][..k] == xs[..k];
  }

  /** Once a prefix fails, the whole fold fails with the same error. */
  lemma {:induction false} FoldResultErr<S, X>(init: S, xs: seq<X>, step: (S, X) -> Result<S>, k: nat)
    requires k <= |xs|
    requires FoldResult(init, xs[..k], step).Err?
    ensures FoldResult(init, xs, step) == FoldResult(init, xs[..k], step)
    decreases |xs| - k
  {
    if k < |xs| {
      FoldResultNext(init, xs, step, k);
      FoldResultErr(init, xs, step, k + 1);
    } else {
      assert xs[..k] == xs;
    }
  }
}
