/** Bounded-concurrency map: cooperative workers share one index, and the awaited calls complete in
    an arbitrary order. */
module MapLimit {
  import opened Text

  function Workers(limit: int, n: nat): nat
  {
    if limit <= 0 then 0 else if limit < n then limit else n
  }

  /** Indices 0, 1, ... in the order they are first reached. */
  function UpTo(n: nat): (r: seq<nat>)
    ensures |r| == n && forall k :: 0 <= k < n ==> r[k] == k
  {
    if n == 0 then [] else UpTo(n - 1) + [n - 1]
  }

  /** The workers start one after the other; each takes the next index and awaits its call. */
  method Start(workers: nat) returns (flying: set<nat>, calls: seq<nat>)
    ensures calls == UpTo(workers) && |flying| == workers
    ensures forall i: nat :: i in flying <==> i < workers
  {
    flying, calls := {}, [];
    for w: nat := 0 to workers
      invariant calls == UpTo(w) && |flying| == w
      invariant forall i: nat :: i in flying <==> i < w
    {
      flying := flying + {w};
      calls := calls + [w];
    }
  }

  /** What is known of the result when the indices before `next` are taken and those in `flying`
      still awaited. */
  ghost predicate Filled<T, R>(items: seq<T>, fn: T -> R, out: seq<Option<R>>, next: nat, flying: set<nat>)
    requires |out| == |items|
  {
    forall k :: 0 <= k < |items| ==>
      out[k] == (if k < next && k !in flying then Some(fn(items[k])) else None)
  }

  /** One of the awaited calls completes, and its worker goes on to the next index. */
  method Complete<T, R>(items: seq<T>, fn: T -> R, out: seq<Option<R>>, next: nat, flying: set<nat>)
    returns (out': seq<Option<R>>, next': nat, flying': set<nat>)
    requires |out| == |items| && next <= |items| && flying != {}
    requires Filled(items, fn, out, next, flying) && forall i :: i in flying ==> i < next
    ensures |out'| == |out| && Filled(items, fn, out', next', flying') && forall i :: i in flying' ==> i < next'
    ensures next' == if next < |items| then next + 1 else next
    ensures |flying'| == if next < |items| then |flying| else |flying| - 1
  {
    var i :| i in flying;
    out' := out[i := Some(fn(items[i]))];
    flying', next' := flying - {i}, next;
    if next < |items| {
      flying' := flying' + {next};
      next' := next + 1;
    }
  }

  function Max(a: nat, b: nat): nat
  {
    if a < b then b else a
  }

  /** `flying` holds the indices whose call is awaited; any one of them may complete next. */
  method Map<T, R>(items: seq<T>, limit: int, fn: T -> R)
    returns (out: seq<Option<R>>, calls: seq<nat>, peak: nat)
    ensures |out| == |items|
    // the sequential map of fn, whatever the completion order, exactly if there is a worker or no item
    ensures (forall k :: 0 <= k < |items| ==> out[k] == Some(fn(items[k]))) <==> items == [] || limit >= 1
    // without a worker nothing is ever called and every slot stays a hole
    ensures limit < 1 ==> calls == [] && forall k :: 0 <= k < |items| ==> out[k] == None
    // each index is called once, in order
    ensures limit >= 1 ==> calls == UpTo(|items|)
    // never more calls in flight than workers, and as many as that from the start
    ensures peak == Workers(limit, |items|)
  {
    var n := |items|;
    out := seq(n, _ => None);
    var flying: set<nat>;
    flying, calls := Start(Workers(limit, n));
    var next := Workers(limit, n);
    peak := |flying|;
    while flying != {}
      invariant |out| == n && next <= n && calls == UpTo(next)
      invariant forall i :: i in flying ==> i < next
      invariant |flying| <= peak == Workers(limit, n)
      invariant limit < 1 ==> next == 0
      invariant limit >= 1 && next < n ==> flying != {}
      invariant Filled(items, fn, out, next, flying)
      decreases n - next, |flying|
    {
      if next < n {
        calls := calls + [next];
      }
      out, next, flying := Complete(items, fn, out, next, flying);
      peak := Max(peak, |flying|);
    }
    assert items != [] && limit < 1 ==> out[0] == None;
  }
}
