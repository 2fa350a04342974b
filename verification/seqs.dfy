/** First-match search over a sequence, the shape of every "take the first
    hit" the source performs (the first image a filter returns, the first
    container holding tagged blobs, ...). */
module Seqs {
  import opened Outcomes

  /** Where the first element satisfying `p` sits, or `|xs|` if none does. */
  function FirstIndex<T>(xs: seq<T>, p: T -> bool): (i: nat)
    ensures i <= |xs|
    ensures i < |xs| ==> p(xs[i])
    ensures forall j :: 0 <= j < i ==> !p(xs[j])
  {
    if |xs| == 0 then 0
    else if p(xs[0]) then 0
    else 1 + FirstIndex(xs[1..], p)
  }

  /** The first element satisfying `p`. */
  function First<T>(xs: seq<T>, p: T -> bool): (r: Option<T>)
    ensures r.Some? ==> exists i :: 0 <= i < |xs| && xs[i] == r.value && p(xs[i])
    ensures r.None? <==> forall j :: 0 <= j < |xs| ==> !p(xs[j])
  {
    var i := FirstIndex(xs, p);
    if i < |xs| then Some(xs[i]) else None
  }

  /** When the element at `i` satisfies `p` and none before it does, it is
      the one `First` returns. */
  lemma FirstAt<T>(xs: seq<T>, p: T -> bool, i: nat)
    requires i < |xs| && p(xs[i])
    requires forall j :: 0 <= j < i ==> !p(xs[j])
    ensures First(xs, p) == Some(xs[i])
  {
    var k := FirstIndex(xs, p);
    if k < i {
      assert false;
    }
  }

  /** `First` does not look past a hit: appending to a sequence that already
      has one does not change the answer. */
  lemma FirstAppend<T>(xs: seq<T>, ys: seq<T>, p: T -> bool)
    requires First(xs, p).Some?
    ensures First(xs + ys, p) == First(xs, p)
  {
    var i := FirstIndex(xs, p);
    FirstAt(xs + ys, p, i);
  }

  /** An element appended after a run of misses is the first hit when it
      satisfies `p`. */
  lemma FirstAfterMisses<T>(xs: seq<T>, x: T, p: T -> bool)
    requires First(xs, p).None? && p(x)
    ensures First(xs + [x], p) == Some(x)
  {
    FirstAt(xs + [x], p, |xs|);
  }

  /** The elements satisfying `p`, in order. */
  function Keep<T>(xs: seq<T>, p: T -> bool): (r: seq<T>)
    ensures |r| <= |xs|
    ensures forall i :: 0 <= i < |r| ==> r[i] in xs && p(r[i])
    ensures forall j :: 0 <= j < |xs| && p(xs[j]) ==> xs[j] in r
  {
    if |xs| == 0 then []
    else
      var rest := Keep(xs[1..], p);
      assert forall j :: 1 <= j < |xs| ==> xs[j] == xs[1..][j - 1];
      if p(xs[0]) then [xs[0]] + rest else rest
  }

  /** Keeping when everything passes. */
  lemma {:induction false} KeepAll<T>(xs: seq<T>, p: T -> bool)
    requires forall j :: 0 <= j < |xs| ==> p(xs[j])
    ensures Keep(xs, p) == xs
  {
    if |xs| > 0 {
      KeepAll(xs[1..], p);
      assert xs == [xs[0]] + xs[1..];
    }
  }
}
