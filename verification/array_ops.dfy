/**
 The JavaScript array operations every handler of the ledger is built from
 (`filter`, `find`, `reduce` with `+`, and `map` that replaces matching
 elements), stated over Dafny sequences.
 */
module ArrayOps {

  /** An optional value: `undefined` in JavaScript is `None`. */
  datatype Option<+T> = None | Some(value: T)

  /** `xs.filter(p)`: the elements that satisfy `p`, in their original order. */
  function Filter<T>(xs: seq<T>, p: T -> bool): (r: seq<T>)
    ensures |r| <= |xs|
    ensures forall i :: 0 <= i < |r| ==> r[i] in xs && p(r[i])
    ensures forall i :: 0 <= i < |xs| && p(xs[i]) ==> xs[i] in r
  {
    if |xs| == 0 then []
    else if p(xs[0]) then [xs[0]] + Filter(xs[1..], p)
    else Filter(xs[1..], p)
  }

  /** Filtering distributes over concatenation; with `FilterSingleton` this
      pins down the order in which survivors appear. */
  lemma {:induction false} FilterAppend<T>(a: seq<T>, b: seq<T>, p: T -> bool)
    ensures Filter(a + b, p) == Filter(a, p) + Filter(b, p)
  {
    if |a| == 0 {
      assert a + b == b;
    } else {
      assert (a + b)[1..] == a[1..] + b;
      FilterAppend(a[1..], b, p);
    }
  }

  lemma FilterSingleton<T>(x: T, p: T -> bool)
    ensures Filter([x], p) == if p(x) then [x] else []
  {
    assert [x][1..] == [];
  }

  /** Filtering keeps everything when every element passes. */
  lemma {:induction false} FilterAll<T>(xs: seq<T>, p: T -> bool)
    requires forall i :: 0 <= i < |xs| ==> p(xs[i])
    ensures Filter(xs, p) == xs
  {
    if |xs| > 0 {
      FilterAll(xs[1..], p);
    }
  }

  /** Filtering drops everything when no element passes. */
  lemma {:induction false} FilterNone<T>(xs: seq<T>, p: T -> bool)
    requires forall i :: 0 <= i < |xs| ==> !p(xs[i])
    ensures Filter(xs, p) == []
  {
    if |xs| > 0 {
      FilterNone(xs[1..], p);
    }
  }

  /** Two filters can be applied in either order. */
  lemma {:induction false} FilterCommute<T>(xs: seq<T>, p: T -> bool, q: T -> bool)
    ensures Filter(Filter(xs, p), q) == Filter(Filter(xs, q), p)
  {
    if |xs| > 0 {
      FilterCommute(xs[1..], p, q);
      FilterAppend([xs[0]], xs[1..], p);
      FilterAppend([xs[0]], xs[1..], q);
      assert xs == [xs[0]] + xs[1..];
      FilterSingleton(xs[0], p);
      FilterSingleton(xs[0], q);
      FilterAppend(Filter([xs[0]], p), Filter(xs[1..], p), q);
      FilterAppend(Filter([xs[0]], q), Filter(xs[1..], q), p);
    }
  }

  /** When exactly the element at `k` passes, the filter keeps just it. */
  lemma {:induction false} FilterUnique<T>(xs: seq<T>, p: T -> bool, k: nat)
    requires k < |xs|
    requires forall i :: 0 <= i < |xs| ==> (p(xs[i]) <==> i == k)
    ensures Filter(xs, p) == [xs[k]]
  {
    if k == 0 {
      FilterNone(xs[1..], p);
    } else {
      FilterUnique(xs[1..], p, k - 1);
    }
  }

  /** Index of the first element satisfying `p`, as `findIndex` computes it. */
  function FindIndex<T>(xs: seq<T>, p: T -> bool): (r: Option<nat>)
    ensures r.Some? ==> r.value < |xs| && p(xs[r.value])
    ensures r.Some? ==> forall j :: 0 <= j < r.value ==> !p(xs[j])
    ensures r.None? ==> forall j :: 0 <= j < |xs| ==> !p(xs[j])
  {
    if |xs| == 0 then None
    else if p(xs[0]) then Some(0)
    else match FindIndex(xs[1..], p)
      case None => None
      case Some(k) => Some(k + 1)
  }

  /** `xs.find(p)`: the first element satisfying `p`, if any. */
  function Find<T>(xs: seq<T>, p: T -> bool): (r: Option<T>)
    ensures r.Some? <==> exists i :: 0 <= i < |xs| && p(xs[i])
    ensures r.Some? ==> r.value in xs && p(r.value)
  {
    match FindIndex(xs, p)
    case None => None
    case Some(k) => Some(xs[k])
  }

  /** `Find` returns the element at the first matching position. */
  lemma FindFirst<T>(xs: seq<T>, p: T -> bool, i: nat)
    requires i < |xs| && p(xs[i])
    requires forall j :: 0 <= j < i ==> !p(xs[j])
    ensures Find(xs, p) == Some(xs[i])
  {
    var k := FindIndex(xs, p);
    assert k.Some?;
    assert !(k.value < i) && !(i < k.value);
  }

  /** The position `Find` took its element from: the first passing one. */
  lemma FindAt<T>(xs: seq<T>, p: T -> bool) returns (k: nat)
    requires Find(xs, p).Some?
    ensures k < |xs| && xs[k] == Find(xs, p).value
    ensures forall j :: 0 <= j < k ==> !p(xs[j])
  {
    k := FindIndex(xs, p).value;
  }

  /** `xs.reduce((acc, x) => acc + f(x), 0)`: a left fold starting at 0. */
  function Sum<T>(xs: seq<T>, f: T -> real): real
  {
    if |xs| == 0 then 0.0 else Sum(xs[..|xs| - 1], f) + f(xs[|xs| - 1])
  }

  /** The order of summation does not matter over exact reals. */
  lemma {:induction false} SumAppend<T>(a: seq<T>, b: seq<T>, f: T -> real)
    ensures Sum(a + b, f) == Sum(a, f) + Sum(b, f)
  {
    if |b| == 0 {
      assert a + b == a;
    } else {
      var b' := b[..|b| - 1];
      assert (a + b)[..|a + b| - 1] == a + b';
      assert (a + b)[|a + b| - 1] == b[|b| - 1];
      SumAppend(a, b', f);
    }
  }

  /** Splitting a list by a test and its opposite splits its sum. */
  lemma {:induction false} SumFilterSplit<T>(xs: seq<T>, f: T -> real, p: T -> bool, q: T -> bool)
    requires forall i :: 0 <= i < |xs| ==> p(xs[i]) != q(xs[i])
    ensures Sum(xs, f) == Sum(Filter(xs, p), f) + Sum(Filter(xs, q), f)
  {
    if |xs| > 0 {
      var init, x := xs[..|xs| - 1], xs[|xs| - 1];
      assert xs == init + [x];
      SumFilterSplit(init, f, p, q);
      FilterAppend(init, [x], p);
      FilterAppend(init, [x], q);
      FilterSingleton(x, p);
      FilterSingleton(x, q);
      SumAppend(Filter(init, p), Filter([x], p), f);
      SumAppend(Filter(init, q), Filter([x], q), f);
      assert Sum([x], f) == f(x) by {
        assert [x][..0] == [];
      }
    }
  }

  lemma SumCons<T>(x: T, xs: seq<T>, f: T -> real)
    ensures Sum([x] + xs, f) == f(x) + Sum(xs, f)
  {
    SumAppend([x], xs, f);
    assert [x][..0] == [];
  }

  /** A sum of non-negative terms is non-negative. */
  lemma {:induction false} SumNonNegative<T>(xs: seq<T>, f: T -> real)
    requires forall i :: 0 <= i < |xs| ==> f(xs[i]) >= 0.0
    ensures Sum(xs, f) >= 0.0
  {
    if |xs| > 0 {
      SumNonNegative(xs[..|xs| - 1], f);
    }
  }

  /** `xs.map(x => hit(x) ? g(x) : x)`: rewrite the matching elements only. */
  function MapWhere<T>(xs: seq<T>, hit: T -> bool, g: T -> T): (r: seq<T>)
    ensures |r| == |xs|
    ensures forall i :: 0 <= i < |xs| ==> r[i] == if hit(xs[i]) then g(xs[i]) else xs[i]
  {
    seq(|xs|, i requires 0 <= i < |xs| => if hit(xs[i]) then g(xs[i]) else xs[i])
  }
}
