/**
 * The batch call of a registry client (python/callwire/client.py:266-319): group the calls by
 * worker, send each worker its group, scatter the results back.
 *
 * A worker is anything whose answer to a call depends on the calls it has received before.
 * `route` is what resolving a function yields; it does not change during a batch because a
 * route never changes once it is known.
 */
module RoutedBatch {
  import opened Bytes
  import opened Mpack

  datatype Call = Call(func: string, args: seq<Value>)

  type worker = string

  /** How a call ends: with a result, an error reply, no reply within the timeout, or a lost connection. */
  datatype Answer = Result(value: Value) | RemoteError | TimedOut | ConnectionLost

  type Behaviour = (worker, seq<Call>, Call) -> Answer

  type Routing = string -> Option<worker>

  /** The calls that go to a worker, in order. */
  function SentTo(calls: seq<Call>, route: Routing, w: worker): seq<Call> {
    if calls == [] then []
    else
      var c := calls[|calls| - 1];
      SentTo(calls[..|calls| - 1], route, w) + if route(c.func) == Some(w) then [c] else []
  }

  predicate Resolves(calls: seq<Call>, route: Routing) {
    forall i :: 0 <= i < |calls| ==> route(calls[i].func).Some?
  }

  /** How call `i` ends when the calls are made one by one, in order. */
  function OneByOne(calls: seq<Call>, route: Routing, does: Behaviour, received: map<worker, seq<Call>>, i: nat): Answer
    requires Resolves(calls, route) && i < |calls|
  {
    var w := route(calls[i].func).value;
    does(w, History(received, w) + SentTo(calls[..i], route, w), calls[i])
  }

  function History(received: map<worker, seq<Call>>, w: worker): seq<Call> {
    if w in received then received[w] else []
  }

  predicate AllSucceed(calls: seq<Call>, route: Routing, does: Behaviour, received: map<worker, seq<Call>>)
    requires Resolves(calls, route)
  {
    forall i :: 0 <= i < |calls| ==> OneByOne(calls, route, does, received, i).Result?
  }

  // ---------------------------------------------------------------------------
  // Grouping
  // ---------------------------------------------------------------------------

  /** The indices of the calls that go to a worker, ascending. */
  function Indices(calls: seq<Call>, route: Routing, w: worker): (r: seq<nat>)
    ensures forall k :: 0 <= k < |r| ==> r[k] < |calls|
    ensures forall j, k :: 0 <= j < k < |r| ==> r[j] < r[k]
  {
    if calls == [] then []
    else
      Indices(calls[..|calls| - 1], route, w)
      + if route(calls[|calls| - 1].func) == Some(w) then [|calls| - 1] else []
  }

  /** Indices and calls run in step, and the k-th index has k of the worker's calls before it. */
  lemma {:induction false} IndicesMatch(calls: seq<Call>, route: Routing, w: worker)
    ensures var ix, sent := Indices(calls, route, w), SentTo(calls, route, w);
            && |ix| == |sent|
            && (forall k :: 0 <= k < |ix| ==>
                  calls[ix[k]] == sent[k] && route(calls[ix[k]].func) == Some(w) && SentTo(calls[..ix[k]], route, w) == sent[..k])
  {
    if calls != [] {
      var front := calls[..|calls| - 1];
      IndicesMatch(front, route, w);
      var ix, sent, ix0 := Indices(calls, route, w), SentTo(calls, route, w), Indices(front, route, w);
      forall k | 0 <= k < |ix|
        ensures calls[ix[k]] == sent[k] && route(calls[ix[k]].func) == Some(w) && SentTo(calls[..ix[k]], route, w) == sent[..k]
      {
        if k < |ix0| {
          assert front[..ix0[k]] == calls[..ix[k]];
        } else {
          assert calls[..ix[k]] == front && sent[..k] == SentTo(front, route, w);
        }
      }
    }
  }

  lemma {:induction false} IndicesComplete(calls: seq<Call>, route: Routing, w: worker, i: nat)
    requires i < |calls| && route(calls[i].func) == Some(w)
    ensures i in Indices(calls, route, w)
  {
    if i < |calls| - 1 {
      IndicesComplete(calls[..|calls| - 1], route, w, i);
    }
  }

  /** Entries of the grouping dictionary: an index and its call. */
  datatype Item = Item(idx: nat, call: Call)

  function Items(calls: seq<Call>, route: Routing, w: worker): seq<Item> {
    var ix := Indices(calls, route, w);
    seq(|ix|, k requires 0 <= k < |ix| => Item(ix[k], calls[ix[k]]))
  }

  /** The dictionary after the grouping loop has seen `calls`. */
  ghost predicate Grouped(groups: map<worker, seq<Item>>, calls: seq<Call>, route: Routing) {
    && (forall w :: w in groups ==> groups[w] == Items(calls, route, w) && groups[w] != [])
    && (forall w :: w !in groups ==> Indices(calls, route, w) == [])
  }

  lemma {:induction false} ItemsAppend(calls: seq<Call>, route: Routing, c: Call, v: worker)
    ensures Indices(calls + [c], route, v) == Indices(calls, route, v) + if route(c.func) == Some(v) then [|calls|] else []
    ensures Items(calls + [c], route, v) == Items(calls, route, v) + if route(c.func) == Some(v) then [Item(|calls|, c)] else []
  {
    assert (calls + [c])[..|calls|] == calls;
    assert Indices(calls + [c], route, v) == Indices(calls, route, v) + if route(c.func) == Some(v) then [|calls|] else [];
    hide Indices;
  }

  lemma {:induction false} GroupOne(groups: map<worker, seq<Item>>, calls: seq<Call>, route: Routing, c: Call, w: worker)
    requires Grouped(groups, calls, route) && route(c.func) == Some(w)
    ensures var was := if w in groups then groups[w] else [];
            Grouped(groups[w := was + [Item(|calls|, c)]], calls + [c], route)
  {
    hide Indices, Items;
    forall v
      ensures Items(calls + [c], route, v) == Items(calls, route, v) + if v == w then [Item(|calls|, c)] else []
      ensures Indices(calls + [c], route, v) == Indices(calls, route, v) + if v == w then [|calls|] else []
    {
      ItemsAppend(calls, route, c, v);
    }
    if w !in groups { NoItems(calls, route, w); }
  }

  lemma {:induction false} NoItems(calls: seq<Call>, route: Routing, w: worker)
    requires Indices(calls, route, w) == []
    ensures Items(calls, route, w) == []
  {
    hide Indices;
  }

  lemma {:induction false} NoGroups(route: Routing)
    ensures Grouped(map[], [], route)
  {
  }

  function Calls(items: seq<Item>): (r: seq<Call>)
    ensures |r| == |items|
  {
    seq(|items|, k requires 0 <= k < |items| => items[k].call)
  }

  /** A group holds the worker's calls in order, under ascending indices that are all and only its own. */
  lemma {:induction false} GroupOf(groups: map<worker, seq<Item>>, calls: seq<Call>, route: Routing, w: worker)
    requires Grouped(groups, calls, route) && w in groups
    ensures Calls(groups[w]) == SentTo(calls, route, w)
    ensures forall k :: 0 <= k < |groups[w]| ==> groups[w][k].idx < |calls| && route(calls[groups[w][k].idx].func) == Some(w)
    ensures forall j, k :: 0 <= j < k < |groups[w]| ==> groups[w][j].idx < groups[w][k].idx
    ensures forall i :: 0 <= i < |calls| && route(calls[i].func) == Some(w) ==> exists k :: 0 <= k < |groups[w]| && groups[w][k].idx == i
  {
    hide SentTo;
    IndicesMatch(calls, route, w);
    hide Indices;
    forall i | 0 <= i < |calls| && route(calls[i].func) == Some(w)
      ensures exists k :: 0 <= k < |groups[w]| && groups[w][k].idx == i
    {
      IndicesComplete(calls, route, w, i);
      var k :| 0 <= k < |Indices(calls, route, w)| && Indices(calls, route, w)[k] == i;
      assert groups[w][k].idx == i;
    }
  }

  lemma {:induction false} NotGrouped(groups: map<worker, seq<Item>>, calls: seq<Call>, route: Routing, w: worker)
    requires Grouped(groups, calls, route) && w !in groups
    ensures SentTo(calls, route, w) == []
  {
    hide SentTo, Indices;
    IndicesMatch(calls, route, w);
  }

  lemma {:induction false} SentOneMore(calls: seq<Call>, route: Routing, w: worker, i: nat)
    requires i < |calls|
    ensures SentTo(calls[..i + 1], route, w) == SentTo(calls[..i], route, w) + if route(calls[i].func) == Some(w) then [calls[i]] else []
  {
    assert calls[..i + 1][..i] == calls[..i];
  }

  /** Every call's worker has a group. */
  lemma {:induction false} EveryCallGrouped(groups: map<worker, seq<Item>>, calls: seq<Call>, route: Routing, i: nat)
    requires Grouped(groups, calls, route) && i < |calls| && route(calls[i].func).Some?
    ensures route(calls[i].func).value in groups
  {
    IndicesComplete(calls, route, route(calls[i].func).value, i);
  }

  /** The k-th answer to a worker's group is the answer to its call made in turn. */
  lemma {:induction false} GroupAnswers(
    groups: map<worker, seq<Item>>, calls: seq<Call>, route: Routing, does: Behaviour, received: map<worker, seq<Call>>, w: worker, k: nat)
    requires Grouped(groups, calls, route) && w in groups && k < |groups[w]| && Resolves(calls, route)
    ensures groups[w][k].idx < |calls| && k < |SentTo(calls, route, w)|
    ensures OneByOne(calls, route, does, received, groups[w][k].idx)
         == does(w, History(received, w) + SentTo(calls, route, w)[..k], SentTo(calls, route, w)[k])
  {
    hide SentTo;
    IndicesMatch(calls, route, w);
  }

  // ---------------------------------------------------------------------------
  // Progress of a batch
  // ---------------------------------------------------------------------------

  /** Slots of workers not served yet are empty; the others hold the result of their own call. */
  predicate Progress(
    results: seq<Option<Value>>, calls: seq<Call>, route: Routing, does: Behaviour, received: map<worker, seq<Call>>, todo: set<worker>)
    requires Resolves(calls, route)
  {
    && |results| == |calls|
    && (forall i :: 0 <= i < |calls| ==>
          && (results[i].None? <==> route(calls[i].func).value in todo)
          && (results[i].Some? ==> OneByOne(calls, route, does, received, i) == Result(results[i].value)))
  }

  /** Each worker has received its calls, in the original order. */
  ghost predicate Received(received: map<worker, seq<Call>>, before: map<worker, seq<Call>>, calls: seq<Call>, route: Routing) {
    forall w :: History(received, w) == History(before, w) + SentTo(calls, route, w)
  }

  /** The workers whose turn is over have received theirs, the others nothing. */
  ghost predicate Served(
    received: map<worker, seq<Call>>, before: map<worker, seq<Call>>, groups: map<worker, seq<Item>>, calls: seq<Call>,
    route: Routing, todo: set<worker>)
  {
    forall w :: History(received, w) == History(before, w) + if w in groups && w !in todo then SentTo(calls, route, w) else []
  }

  lemma {:induction false} ReceivedNothing(received: map<worker, seq<Call>>, route: Routing)
    ensures Received(received, received, [], route)
  {
  }

  lemma {:induction false} ReceivedOneMore(
    received: map<worker, seq<Call>>, before: map<worker, seq<Call>>, calls: seq<Call>, route: Routing, does: Behaviour, i: nat)
    requires Resolves(calls, route) && i < |calls| && Received(received, before, calls[..i], route)
    ensures var w := route(calls[i].func).value;
            && does(w, History(received, w), calls[i]) == OneByOne(calls, route, does, before, i)
            && Received(received[w := History(received, w) + [calls[i]]], before, calls[..i + 1], route)
  {
    hide SentTo;
    var w := route(calls[i].func).value;
    forall v
      ensures History(received[w := History(received, w) + [calls[i]]], v) == History(before, v) + SentTo(calls[..i + 1], route, v)
    {
      SentOneMore(calls, route, v, i);
    }
  }

  lemma {:induction false} NothingServed(
    groups: map<worker, seq<Item>>, calls: seq<Call>, route: Routing, does: Behaviour, received: map<worker, seq<Call>>,
    results: seq<Option<Value>>)
    requires Grouped(groups, calls, route) && Resolves(calls, route)
    requires |results| == |calls| && forall i :: 0 <= i < |calls| ==> results[i].None?
    ensures Progress(results, calls, route, does, received, groups.Keys)
    ensures Served(received, received, groups, calls, route, groups.Keys)
  {
    hide Grouped, OneByOne, SentTo, History;
    forall i | 0 <= i < |calls| ensures route(calls[i].func).value in groups {
      EveryCallGrouped(groups, calls, route, i);
    }
  }

  lemma {:induction false} ServedOne(
    received: map<worker, seq<Call>>, before: map<worker, seq<Call>>, groups: map<worker, seq<Item>>, calls: seq<Call>,
    route: Routing, todo: set<worker>, w: worker)
    requires Served(received, before, groups, calls, route, todo) && w in todo && w in groups
    ensures History(received, w) == History(before, w)
    ensures Served(received[w := History(before, w) + SentTo(calls, route, w)], before, groups, calls, route, todo - {w})
  {
    hide SentTo;
  }

  /** When every worker has had its turn, every slot has been filled with its own call's result. */
  lemma {:induction false} AllServed(
    results: seq<Option<Value>>, received: map<worker, seq<Call>>, before: map<worker, seq<Call>>, groups: map<worker, seq<Item>>,
    calls: seq<Call>, route: Routing, does: Behaviour)
    requires Grouped(groups, calls, route) && Resolves(calls, route)
    requires Progress(results, calls, route, does, before, {}) && Served(received, before, groups, calls, route, {})
    ensures Received(received, before, calls, route)
    ensures |results| == |calls|
    ensures forall i :: 0 <= i < |calls| ==> results[i].Some? && OneByOne(calls, route, does, before, i) == Result(results[i].value)
  {
    hide Grouped, OneByOne, SentTo, History;
    forall w ensures History(received, w) == History(before, w) + SentTo(calls, route, w) {
      if w !in groups { NotGrouped(groups, calls, route, w); }
    }
  }

  // ---------------------------------------------------------------------------
  // The workers and the client
  // ---------------------------------------------------------------------------

  class Fleet {
    const does: Behaviour
    var received: map<worker, seq<Call>>

    constructor (does: Behaviour)
      ensures this.does == does && received == map[]
    {
      this.does := does;
      received := map[];
    }

    /** A direct client's batch: every request is sent, then the answers are taken in order; one error fails it all. */
    method WorkerBatch(w: worker, calls: seq<Call>) returns (r: Option<seq<Value>>)
      modifies `received
      ensures received == old(received)[w := History(old(received), w) + calls]
      ensures r.Some? <==> forall k :: 0 <= k < |calls| ==> does(w, History(old(received), w) + calls[..k], calls[k]).Result?
      ensures r.Some? ==> |r.value| == |calls|
      ensures r.Some? ==> forall k :: 0 <= k < |calls| ==> does(w, History(old(received), w) + calls[..k], calls[k]) == Result(r.value[k])
    {
      var before := History(received, w);
      received := received[w := before + calls];
      var res := [];
      var k := 0;
      while k < |calls|
        invariant 0 <= k <= |calls| && |res| == k
        invariant forall j :: 0 <= j < k ==> does(w, before + calls[..j], calls[j]) == Result(res[j])
      {
        match does(w, before + calls[..k], calls[k])
        case TimedOut => return None;
        case ConnectionLost => return None;
        case RemoteError => return None;
        case Result(v) => res := res + [v];
        k := k + 1;
      }
      return Some(res);
    }

    /** One direct call. */
    method CallWorker(w: worker, c: Call) returns (a: Answer)
      modifies `received
      ensures a == does(w, History(old(received), w), c)
      ensures received == old(received)[w := History(old(received), w) + [c]]
    {
      a := does(w, History(received, w), c);
      received := received[w := History(received, w) + [c]];
    }

    /** `call` on each element in turn, by the routing client. */
    method CallEach(calls: seq<Call>, route: Routing) returns (r: seq<Answer>)
      requires Resolves(calls, route)
      modifies `received
      ensures |r| == |calls| && forall i :: 0 <= i < |calls| ==> r[i] == OneByOne(calls, route, does, old(received), i)
      ensures Received(received, old(received), calls, route)
    {
      hide Received, OneByOne;
      ReceivedNothing(received, route);
      r := [];
      var i := 0;
      assert calls[..0] == [];
      while i < |calls|
        invariant 0 <= i <= |calls| && |r| == i
        invariant forall k :: 0 <= k < i ==> r[k] == OneByOne(calls, route, does, old(received), k)
        invariant Received(received, old(received), calls[..i], route)
      {
        var w := route(calls[i].func).value;
        ReceivedOneMore(received, old(received), calls, route, does, i);
        var a := CallWorker(w, calls[i]);
        r := r + [a];
        i := i + 1;
      }
      assert calls[..i] == calls;
    }

    /** The grouping loop: every function is resolved before anything is sent. */
    method Group(calls: seq<Call>, route: Routing) returns (groups: Option<map<worker, seq<Item>>>)
      ensures groups.Some? <==> Resolves(calls, route)
      ensures groups.Some? ==> Grouped(groups.value, calls, route)
    {
      hide Grouped;
      var g: map<worker, seq<Item>> := map[];
      assert Grouped(g, [], route) by { NoGroups(route); }
      var i := 0;
      while i < |calls|
        invariant 0 <= i <= |calls| && Resolves(calls[..i], route) && Grouped(g, calls[..i], route)
      {
        var w := route(calls[i].func);
        if w.None? {
          return None;
        }
        GroupOne(g, calls[..i], route, calls[i], w.value);
        assert calls[..i] + [calls[i]] == calls[..i + 1];
        g := g[w.value := (if w.value in g then g[w.value] else []) + [Item(i, calls[i])]];
        i := i + 1;
      }
      assert calls[..i] == calls;
      return Some(g);
    }

    /** One worker's answers, scattered. */
    method Scatter(items: seq<Item>, vals: seq<Value>, results: seq<Option<Value>>) returns (r: seq<Option<Value>>)
      requires |items| == |vals| && forall k :: 0 <= k < |items| ==> items[k].idx < |results|
      requires forall j, k :: 0 <= j < k < |items| ==> items[j].idx < items[k].idx
      ensures |r| == |results|
      ensures forall k :: 0 <= k < |items| ==> r[items[k].idx] == Some(vals[k])
      ensures forall i :: 0 <= i < |r| && (forall k :: 0 <= k < |items| ==> items[k].idx != i) ==> r[i] == results[i]
    {
      r := results;
      var n := 0;
      while n < |items|
        invariant 0 <= n <= |items| && |r| == |results|
        invariant forall k :: 0 <= k < n ==> r[items[k].idx] == Some(vals[k])
        invariant forall i :: 0 <= i < |r| && (forall k :: 0 <= k < n ==> items[k].idx != i) ==> r[i] == results[i]
      {
        r := r[items[n].idx := Some(vals[n])];
        n := n + 1;
      }
    }

    /** One worker's turn in `batch`. */
    method ServeOne(
      w: worker, groups: map<worker, seq<Item>>, calls: seq<Call>, route: Routing, results: seq<Option<Value>>,
      ghost before: map<worker, seq<Call>>, ghost todo: set<worker>)
      returns (r: Option<seq<Option<Value>>>)
      requires Grouped(groups, calls, route) && Resolves(calls, route) && w in groups && w in todo
      requires Progress(results, calls, route, does, before, todo) && History(received, w) == History(before, w)
      modifies `received
      ensures received == old(received)[w := History(before, w) + SentTo(calls, route, w)]
      ensures r.None? ==> !AllSucceed(calls, route, does, before)
      ensures r.Some? ==> Progress(r.value, calls, route, does, before, todo - {w})
    {
      hide Grouped, OneByOne, SentTo, Calls, History;
      var items := groups[w];
      GroupOf(groups, calls, route, w);
      var payload := Calls(items);
      forall k | 0 <= k < |items|
        ensures OneByOne(calls, route, does, before, items[k].idx) == does(w, History(received, w) + payload[..k], payload[k])
      {
        GroupAnswers(groups, calls, route, does, before, w, k);
      }
      var vals := WorkerBatch(w, payload);
      if vals.None? {
        return None;
      }
      var next := Scatter(items, vals.value, results);
      forall i | 0 <= i < |calls|
        ensures next[i].Some? ==> OneByOne(calls, route, does, before, i) == Result(next[i].value)
        ensures next[i].None? <==> route(calls[i].func).value in todo - {w}
      {
        if route(calls[i].func) != Some(w) { assert next[i] == results[i]; }
      }
      return Some(next);
    }

    /**
     * `batch` on a registry client. The dictionary's groups are taken in any order.
     * It fails without sending anything if a function does not resolve, and otherwise gives
     * every index the result of its own call, as if the calls had been made one by one.
     */
    method Batch(calls: seq<Call>, route: Routing) returns (r: Option<seq<Value>>)
      modifies `received
      ensures !Resolves(calls, route) ==> r.None? && received == old(received)
      ensures Resolves(calls, route) ==> (r.Some? <==> AllSucceed(calls, route, does, old(received)))
      ensures r.Some? ==> Resolves(calls, route) && |r.value| == |calls|
      ensures r.Some? ==> forall i :: 0 <= i < |calls| ==> OneByOne(calls, route, does, old(received), i) == Result(r.value[i])
      ensures r.Some? ==> Received(received, old(received), calls, route)
    {
      hide Grouped, OneByOne, SentTo, Served, Progress, Received;
      var g := Group(calls, route);
      if g.None? {
        return None;
      }
      var groups, todo := g.value, g.value.Keys;
      var results := seq(|calls|, _ => None);
      NothingServed(groups, calls, route, does, received, results);
      while todo != {}
        invariant todo <= groups.Keys
        invariant Progress(results, calls, route, does, old(received), todo)
        invariant Served(received, old(received), groups, calls, route, todo)
        decreases |todo|
      {
        var w :| w in todo;
        ServedOne(received, old(received), groups, calls, route, todo, w);
        var next := ServeOne(w, groups, calls, route, results, old(received), todo);
        if next.None? {
          return None;
        }
        results, todo := next.value, todo - {w};
      }
      AllServed(results, received, old(received), groups, calls, route, does);
      r := Some(seq(|results|, i requires 0 <= i < |results| && results[i].Some? => results[i].value));
    }
  }
}
