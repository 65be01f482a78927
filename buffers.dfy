/// Sample buffers and the in-place `audio[start:end] += piece` writes that
/// both synthesis paths perform.
module Buffers {

  /// A block of samples destined for `buf[start .. start + |piece|]`.
  datatype Placement = Placement(start: nat, piece: seq<real>)

  function End(p: Placement): nat
  {
    p.start + |p.piece|
  }

  predicate Covers(p: Placement, i: int)
  {
    p.start <= i < End(p)
  }

  /// Every placement lies inside a buffer of `n` samples.
  predicate Fits(ps: seq<Placement>, n: nat)
  {
    forall j :: 0 <= j < |ps| ==> End(ps[j]) <= n
  }

  /// Each placement ends no later than any later one starts: the placements
  /// are disjoint and run left to right.
  predicate Ordered(ps: seq<Placement>)
  {
    forall j, k :: 0 <= j < k < |ps| ==> End(ps[j]) <= ps[k].start
  }

  /// `np.zeros(n)`.
  function Zeros(n: nat): (z: seq<real>)
    ensures |z| == n && forall i :: 0 <= i < n ==> z[i] == 0.0
  {
    seq(n, _ => 0.0)
  }

  /// The buffer after `buf[p.start : End(p)] += p.piece` (the model only
  /// uses it where End(p) <= |buf|).
  function AddInto(buf: seq<real>, p: Placement): (r: seq<real>)
    ensures |r| == |buf|
  {
    seq(|buf|, i requires 0 <= i < |buf| =>
      if Covers(p, i) then buf[i] + p.piece[i - p.start] else buf[i])
  }

  /// The buffer after the placements have been added into it in order.
  function Lay(buf: seq<real>, ps: seq<Placement>): (r: seq<real>)
    ensures |r| == |buf|
  {
    if ps == [] then buf else AddInto(Lay(buf, ps[..|ps| - 1]), ps[|ps| - 1])
  }

  /// `audio *= c`.
  function Scaled(s: seq<real>, c: real): (r: seq<real>)
    ensures |r| == |s|
  {
    seq(|s|, i requires 0 <= i < |s| => s[i] * c)
  }

  lemma ScaledAt(s: seq<real>, c: real, i: nat)
    requires i < |s|
    ensures Scaled(s, c)[i] == s[i] * c
  {
  }

  /// Sample `x` played at volume `c`. Naming the product keeps facts about a
  /// scaled sample matching by the name rather than by the multiplication.
  function Gain(x: real, c: real): real
  {
    x * c
  }

  /// A scaled sample whose source sample is known to be `x`.
  lemma ScaledAtValue(r: seq<real>, s: seq<real>, c: real, i: nat, x: real)
    requires r == Scaled(s, c) && i < |s| && s[i] == x
    ensures i < |r| && r[i] == Gain(x, c)
  {
  }

  /// A sample that a placement covers ends up holding its old value plus that
  /// placement's contribution, and nothing from any other placement.
  lemma {:induction false} LayCovered(buf: seq<real>, ps: seq<Placement>, j: nat, i: nat)
    requires Fits(ps, |buf|) && Ordered(ps)
    requires j < |ps| && Covers(ps[j], i)
    ensures i < |buf|
    ensures Lay(buf, ps)[i] == buf[i] + ps[j].piece[i - ps[j].start]
  {
    var last := |ps| - 1;
    var init := ps[..last];
    assert Ordered(init) && Fits(init, |buf|);
    if j == last {
      LayUncovered(buf, init, i);
    } else {
      LayCovered(buf, init, j, i);
    }
  }

  /// A sample that no placement covers keeps its old value.
  lemma {:induction false} LayUncovered(buf: seq<real>, ps: seq<Placement>, i: nat)
    requires i < |buf|
    requires forall j :: 0 <= j < |ps| ==> !Covers(ps[j], i)
    ensures Lay(buf, ps)[i] == buf[i]
  {
    if ps != [] {
      LayUncovered(buf, ps[..|ps| - 1], i);
    }
  }

  /// `a[p.start : End(p)] += p.piece`, sample by sample.
  method AddInPlace(a: array<real>, p: Placement)
    requires End(p) <= a.Length
    modifies a
    ensures a[..] == AddInto(old(a[..]), p)
  {
    var j := 0;
    while j < |p.piece|
      invariant 0 <= j <= |p.piece|
      invariant forall i :: 0 <= i < a.Length ==>
        a[i] == if p.start <= i < p.start + j then old(a[i]) + p.piece[i - p.start] else old(a[i])
    {
      a[p.start + j] := a[p.start + j] + p.piece[j];
      j := j + 1;
    }
  }

  /// `a *= c`.
  method ScaleInPlace(a: array<real>, c: real)
    modifies a
    ensures a[..] == Scaled(old(a[..]), c)
  {
    var i := 0;
    while i < a.Length
      invariant 0 <= i <= a.Length
      invariant forall k :: 0 <= k < a.Length ==> a[k] == if k < i then old(a[k]) * c else old(a[k])
    {
      a[i] := a[i] * c;
      i := i + 1;
    }
    assert forall k :: 0 <= k < a.Length ==> a[..][k] == Scaled(old(a[..]), c)[k];
  }
}
