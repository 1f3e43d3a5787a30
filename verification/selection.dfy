/** Order-preserving selection: the shape of the search loop, which walks a
    list of payloads, keeps some and projects each kept one to a record. */
module Selection {

  /** `ys` are the projections of the kept elements of `xs[from..]`, in order:
      `idx` lists, increasing, the positions in `xs` that produced them, and
      every kept position from `from` on is among them. */
  ghost predicate SelectionFrom<T, U>(xs: seq<T>, from: nat, keep: T -> bool, proj: T -> U, ys: seq<U>, idx: seq<nat>) {
    && |idx| == |ys|
    && (forall k :: 0 <= k < |idx| ==> from <= idx[k] < |xs| && keep(xs[idx[k]]) && ys[k] == proj(xs[idx[k]]))
    && (forall k, l :: 0 <= k < l < |idx| ==> idx[k] < idx[l])
    && (forall i :: from <= i < |xs| && keep(xs[i]) ==> i in idx)
  }

  /** Nothing is selected past the end. */
  lemma SelectionEnd<T, U>(xs: seq<T>, keep: T -> bool, proj: T -> U)
    ensures SelectionFrom(xs, |xs|, keep, proj, [], [])
  {
  }

  /** A selection from `from + 1` extends by the element at `from`: its
      projection comes first when it is kept, and nothing is added otherwise. */
  lemma SelectionStep<T, U>(xs: seq<T>, from: nat, keep: T -> bool, proj: T -> U, rest: seq<U>, tail: seq<nat>)
    returns (idx: seq<nat>)
    requires from < |xs| && SelectionFrom(xs, from + 1, keep, proj, rest, tail)
    ensures SelectionFrom(xs, from, keep, proj, (if keep(xs[from]) then [proj(xs[from])] else []) + rest, idx)
  {
    if keep(xs[from]) {
      idx := [from] + tail;
      var ys := [proj(xs[from])] + rest;
      forall k | 1 <= k < |idx|
        ensures idx[k] == tail[k - 1] && ys[k] == rest[k - 1]
      {
      }
    } else {
      idx := tail;
    }
  }
}
