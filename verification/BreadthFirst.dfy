/** Bounded reachability, and why a first-in-first-out worklist finds it. */
module BreadthFirst {

  /** `x` is the end of a walk of exactly `n` edges from `root`. */
  ghost predicate Within<T(!new)>(edge: (T, T) -> bool, root: T, n: nat, x: T) {
    if n == 0 then x == root else exists y :: Within(edge, root, n - 1, y) && edge(y, x)
  }

  /**
   `depth` gives each node ever queued the depth it was first queued at. If nodes above `front` have
   had all their successors queued one level deeper at most, every walk of up to `front` edges ends
   in a queued node, at a depth no larger than the walk is long.
   */
  lemma {:induction false} WalksAreQueued<T(!new)>(edge: (T, T) -> bool, root: T, depth: map<T, nat>, front: nat,
      n: nat, x: T)
    requires root in depth && depth[root] == 0
    requires forall a, b :: a in depth && depth[a] < front && edge(a, b) ==> b in depth && depth[b] <= depth[a] + 1
    requires n <= front && Within(edge, root, n, x)
    ensures x in depth && depth[x] <= n
  {
    if n > 0 {
      var y :| Within(edge, root, n - 1, y) && edge(y, x);
      WalksAreQueued(edge, root, depth, front, n - 1, y);
    }
  }

  lemma OneMoreEdge<T(!new)>(edge: (T, T) -> bool, root: T, n: nat, y: T, x: T)
    requires Within(edge, root, n, y) && edge(y, x)
    ensures Within(edge, root, n + 1, x)
  {
  }

  /** The same edges give the same walks. */
  lemma {:induction false} SameWalks<T(!new)>(edge: (T, T) -> bool, other: (T, T) -> bool, root: T, n: nat, x: T)
    requires forall a, b :: edge(a, b) <==> other(a, b)
    ensures Within(edge, root, n, x) <==> Within(other, root, n, x)
  {
    if n > 0 {
      if Within(edge, root, n, x) {
        var y :| Within(edge, root, n - 1, y) && edge(y, x);
        SameWalks(edge, other, root, n - 1, y);
        assert Within(other, root, n - 1, y) && other(y, x);
      }
      if Within(other, root, n, x) {
        var y :| Within(other, root, n - 1, y) && other(y, x);
        SameWalks(edge, other, root, n - 1, y);
        assert Within(edge, root, n - 1, y) && edge(y, x);
      }
    }
  }

  /** A worklist of nodes with depths: non-decreasing, and no two depths more than one apart. */
  predicate Layered<T>(queue: seq<(T, nat)>) {
    && (forall i, j :: 0 <= i < j < |queue| ==> queue[i].1 <= queue[j].1)
    && (forall i :: 0 <= i < |queue| ==> queue[i].1 <= queue[0].1 + 1)
  }

  /** How many entries have depth `d`. */
  function CountAt<T>(queue: seq<(T, nat)>, d: nat): nat {
    if queue == [] then 0 else (if queue[0].1 == d then 1 else 0) + CountAt(queue[1..], d)
  }

  lemma {:induction false} CountAtOthers<T>(queue: seq<(T, nat)>, more: seq<(T, nat)>, d: nat)
    requires forall i :: 0 <= i < |more| ==> more[i].1 != d
    ensures CountAt(queue + more, d) == CountAt(queue, d)
  {
    if queue == [] {
      assert queue + more == more;
      if more != [] {
        CountAtOthers([], more[1..], d);
        assert [] + more[1..] == more[1..];
      }
    } else {
      assert (queue + more)[1..] == queue[1..] + more;
      CountAtOthers(queue[1..], more, d);
    }
  }

  /**
   Termination measure of a worklist with depths bounded by `maxDepth`: how many layers are left from
   the front on, then how many entries the front layer still has.
   */
  function LayersLeft<T>(queue: seq<(T, nat)>, maxDepth: nat): int {
    if queue == [] then 0 else maxDepth + 1 - queue[0].1
  }

  function FrontSize<T>(queue: seq<(T, nat)>): nat {
    if queue == [] then 0 else CountAt(queue, queue[0].1)
  }

  /** Popping the head and appending entries one layer deeper keeps the shape and lowers the measure. */
  lemma PopAndPush<T>(queue: seq<(T, nat)>, more: seq<(T, nat)>, maxDepth: nat)
    requires queue != [] && Layered(queue) && queue[0].1 <= maxDepth
    requires forall i :: 0 <= i < |more| ==> more[i].1 == queue[0].1 + 1 <= maxDepth
    ensures Layered(queue[1..] + more)
    ensures LayersLeft(queue[1..] + more, maxDepth) < LayersLeft(queue, maxDepth)
            || (LayersLeft(queue[1..] + more, maxDepth) == LayersLeft(queue, maxDepth)
                && FrontSize(queue[1..] + more) < FrontSize(queue))
  {
    var next := queue[1..] + more;
    if next != [] && next[0].1 == queue[0].1 {
      CountAtOthers(queue[1..], more, queue[0].1);
    }
  }
}
