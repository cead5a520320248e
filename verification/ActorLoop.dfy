/**
 * The Rust client's actor (rust/src/client.rs:59-80, 535-548, 550-784): one task owns the
 * connection and a table of pending calls, and completes each call from the frames that arrive.
 *
 * Events are what the actor's `select!` can see next, with the outcome of the write or
 * reconnect it then makes: any sequence of events is a run.
 */
module ActorLoop {
  import opened Bytes
  import opened Mpack

  datatype Wire = Wire(id: uint64, msgType: string, result: Value)

  datatype Reply = Ok(msg: Wire) | ConnectionClosed

  /** `PendingSender`. */
  datatype Sender = Unary | Stream

  datatype Command =
    | Call(id: uint64)
    | CallStream(id: uint64)
    | ExportStream(id: uint64)
    | ImportBidi(id: uint64)

  /**
   * `wrote` is the result of the write that a command makes if there is a writer, `again`
   * whether a reconnect succeeds, `gone` whether a stream's receiver has been dropped.
   * `PumpFails` is a failed write of a queued chunk, which loses the writer and nothing else.
   * `conn` is the connection whose reader task sent the event; all readers share one channel
   * and the actor looks at no connection, so a reader of an earlier one is still heard.
   */
  datatype Event =
    | Command(cmd: Command, wrote: bool, again: bool)
    | Shutdown
    | CommandsClosed
    | Frame(msg: Wire, gone: bool, conn: nat)
    | Closed(again: bool, conn: nat)
    | PumpFails

  predicate IsChunk(m: Wire) {
    m.msgType == "stream_chunk"
  }

  function SenderFor(c: Command): Sender {
    if c.Call? || c.ExportStream? then Unary else Stream
  }

  // ---------------------------------------------------------------------------
  // What each call should see, read off the events one call at a time
  // ---------------------------------------------------------------------------

  /** The connection is lost at this event. */
  predicate Loses(e: Event, writer: bool) {
    (e.Command? && !(writer && e.wrote)) || e.Closed?
  }

  /** The actor leaves its loop at this event. */
  predicate Stops(e: Event, writer: bool, reconnect: bool) {
    e.Shutdown? || e.CommandsClosed? || (Loses(e, writer) && !(reconnect && e.again))
  }

  predicate WriterAfter(e: Event, writer: bool) {
    !e.PumpFails? && (Loses(e, writer) || writer)
  }

  predicate ExitsIn(events: seq<Event>, writer: bool, reconnect: bool) {
    events != [] && (Stops(events[0], writer, reconnect) || ExitsIn(events[1..], WriterAfter(events[0], writer), reconnect))
  }

  /** A waiting unary call gets the first frame with its id, unless the connection goes first. */
  function UnaryReply(id: uint64, events: seq<Event>, writer: bool, reconnect: bool): seq<Reply> {
    if events == [] then []
    else if events[0].Frame? && events[0].msg.id == id then [Ok(events[0].msg)]
    else if Loses(events[0], writer) || Stops(events[0], writer, reconnect) then [ConnectionClosed]
    else UnaryReply(id, events[1..], WriterAfter(events[0], writer), reconnect)
  }

  /** A waiting stream gets every frame with its id up to the first that is not a chunk. */
  function StreamReplies(id: uint64, events: seq<Event>, writer: bool, reconnect: bool): seq<Reply> {
    if events == [] then []
    else if events[0].Frame? && events[0].msg.id == id then
      if events[0].gone then []
      else if !IsChunk(events[0].msg) then [Ok(events[0].msg)]
      else [Ok(events[0].msg)] + StreamReplies(id, events[1..], writer, reconnect)
    else if Loses(events[0], writer) || Stops(events[0], writer, reconnect) then [ConnectionClosed]
    else StreamReplies(id, events[1..], WriterAfter(events[0], writer), reconnect)
  }

  function Replies(s: Sender, id: uint64, events: seq<Event>, writer: bool, reconnect: bool): seq<Reply> {
    if s.Unary? then UnaryReply(id, events, writer, reconnect) else StreamReplies(id, events, writer, reconnect)
  }

  /** What the caller of the command at the head of `events` sees. */
  function Answer(events: seq<Event>, writer: bool, reconnect: bool): seq<Reply>
    requires events != [] && events[0].Command?
  {
    if Loses(events[0], writer) then [ConnectionClosed]
    else Replies(SenderFor(events[0].cmd), events[0].cmd.id, events[1..], writer, reconnect)
  }

  /** What every accepted call sees. */
  function Expected(events: seq<Event>, writer: bool, reconnect: bool): map<uint64, seq<Reply>> {
    if events == [] then map[]
    else
      var rest := if Stops(events[0], writer, reconnect) then map[]
                  else Expected(events[1..], WriterAfter(events[0], writer), reconnect);
      if events[0].Command? then rest[events[0].cmd.id := Answer(events, writer, reconnect)] else rest
  }

  /** Command ids come from a counter, so no two are equal. */
  ghost predicate DistinctIds(events: seq<Event>) {
    forall i, j :: 0 <= i < j < |events| && events[i].Command? && events[j].Command? ==> events[i].cmd.id != events[j].cmd.id
  }

  ghost predicate Uses(events: seq<Event>, id: uint64) {
    exists i :: 0 <= i < |events| && events[i].Command? && events[i].cmd.id == id
  }

  /** A call as its caller knows it: what it has been told, and how it is waiting for more. */
  datatype View = View(got: seq<Reply>, wait: Option<Sender>)

  /** One event, for one call. */
  function Sees(v: View, id: uint64, e: Event, writer: bool): View {
    if v.wait.None? then v
    else if e.Frame? && e.msg.id == id then
      if v.wait.value.Unary? then View(v.got + [Ok(e.msg)], None)
      else if e.gone then View(v.got, None)
      else View(v.got + [Ok(e.msg)], if IsChunk(e.msg) then v.wait else None)
    else if Loses(e, writer) then View(v.got + [ConnectionClosed], None)
    else v
  }

  /** What `drain_pending` does to one call. */
  function Cut(v: View): View {
    if v.wait.None? then v else View(v.got + [ConnectionClosed], None)
  }

  /** A command, for its own call. */
  function Born(e: Event, writer: bool): View
    requires e.Command?
  {
    if Loses(e, writer) then View([ConnectionClosed], None) else View([], Some(SenderFor(e.cmd)))
  }

  /** All that a call will ever have been told, once the remaining events are over or the actor has left its loop. */
  function Promise(v: View, id: uint64, rest: seq<Event>, writer: bool, reconnect: bool, stop: bool): seq<Reply> {
    if v.wait.None? then v.got
    else v.got + if stop then [ConnectionClosed] else Replies(v.wait.value, id, rest, writer, reconnect)
  }

  lemma {:induction false} UnaryStep(id: uint64, e: Event, rest: seq<Event>, writer: bool, reconnect: bool)
    ensures UnaryReply(id, [e] + rest, writer, reconnect)
         == if e.Frame? && e.msg.id == id then [Ok(e.msg)]
            else if Loses(e, writer) || Stops(e, writer, reconnect) then [ConnectionClosed]
            else UnaryReply(id, rest, WriterAfter(e, writer), reconnect)
  {
    hide Loses, Stops, WriterAfter;
    assert ([e] + rest)[1..] == rest;
  }

  lemma {:induction false} StreamStep(id: uint64, e: Event, rest: seq<Event>, writer: bool, reconnect: bool)
    ensures StreamReplies(id, [e] + rest, writer, reconnect)
         == if e.Frame? && e.msg.id == id then
              (if e.gone then [] else [Ok(e.msg)] + if IsChunk(e.msg) then StreamReplies(id, rest, writer, reconnect) else [])
            else if Loses(e, writer) || Stops(e, writer, reconnect) then [ConnectionClosed]
            else StreamReplies(id, rest, WriterAfter(e, writer), reconnect)
  {
    hide Loses, Stops, WriterAfter, IsChunk;
    assert ([e] + rest)[1..] == rest;
  }

  lemma {:induction false} PromiseStep(v: View, id: uint64, e: Event, rest: seq<Event>, writer: bool, reconnect: bool)
    ensures Promise(v, id, [e] + rest, writer, reconnect, false)
         == Promise(Sees(v, id, e, writer), id, rest, WriterAfter(e, writer), reconnect, Stops(e, writer, reconnect))
  {
    hide UnaryReply, StreamReplies, IsChunk;
    UnaryStep(id, e, rest, writer, reconnect);
    StreamStep(id, e, rest, writer, reconnect);
    if e.Frame? && e.msg.id == id && v.wait.Some? && v.wait.value.Stream? && !e.gone && IsChunk(e.msg) {
      var more := StreamReplies(id, rest, writer, reconnect);
      assert v.got + ([Ok(e.msg)] + more) == v.got + [Ok(e.msg)] + more;
    }
  }

  lemma {:induction false} PromiseBorn(e: Event, rest: seq<Event>, writer: bool, reconnect: bool)
    requires e.Command?
    ensures Answer([e] + rest, writer, reconnect)
         == Promise(Born(e, writer), e.cmd.id, rest, WriterAfter(e, writer), reconnect, Stops(e, writer, reconnect))
  {
    hide UnaryReply, StreamReplies;
    assert ([e] + rest)[1..] == rest;
  }

  lemma {:induction false} StopIgnoresWriter(v: View, id: uint64, rest: seq<Event>, w: bool, w': bool, reconnect: bool)
    ensures Promise(v, id, rest, w, reconnect, true) == Promise(v, id, rest, w', reconnect, true)
  {
    hide Replies;
  }

  /** Leaving the loop and draining the table keeps every promise. */
  lemma {:induction false} CutIsStop(v: View, id: uint64, rest: seq<Event>, w: bool, reconnect: bool)
    ensures Promise(v, id, rest, w, reconnect, true) == Cut(v).got
  {
    hide Replies;
  }

  lemma {:induction false} NothingMore(v: View, id: uint64, w: bool, reconnect: bool)
    ensures Promise(v, id, [], w, reconnect, false) == v.got
    ensures Expected([], w, reconnect) == map[] && !ExitsIn([], w, reconnect)
  {
  }

  lemma {:induction false} ExitsStep(e: Event, rest: seq<Event>, w: bool, reconnect: bool)
    ensures ExitsIn([e] + rest, w, reconnect) == (Stops(e, w, reconnect) || ExitsIn(rest, WriterAfter(e, w), reconnect))
  {
    assert ([e] + rest)[1..] == rest;
  }

  lemma {:induction false} ExpectedKeys(events: seq<Event>, writer: bool, reconnect: bool, id: uint64)
    requires id in Expected(events, writer, reconnect)
    ensures Uses(events, id)
    decreases |events|
  {
    hide Answer, Loses, Stops, WriterAfter;
    var e, w := events[0], WriterAfter(events[0], writer);
    if !(e.Command? && e.cmd.id == id) {
      ExpectedKeys(events[1..], w, reconnect, id);
      var i :| 0 <= i < |events[1..]| && events[1..][i].Command? && events[1..][i].cmd.id == id;
      assert events[i + 1].Command?;
    }
  }

  /** Promises made before an event, and after it, add up to the same. */
  lemma {:induction false} TotalStep(
    p: map<uint64, seq<Reply>>, p': map<uint64, seq<Reply>>, e: Event, rest: seq<Event>, writer: bool, reconnect: bool)
    requires p'.Keys == p.Keys + if e.Command? then {e.cmd.id} else {}
    requires forall id :: id in p ==> p'[id] == p[id]
    requires e.Command? ==> e.cmd.id !in p && !Uses(rest, e.cmd.id) && p'[e.cmd.id] == Answer([e] + rest, writer, reconnect)
    ensures p + Expected([e] + rest, writer, reconnect)
         == p' + if Stops(e, writer, reconnect) then map[] else Expected(rest, WriterAfter(e, writer), reconnect)
  {
    hide Answer, Loses, Stops, WriterAfter, Uses;
    assert ([e] + rest)[0] == e && ([e] + rest)[1..] == rest;
    if e.Command? && !Stops(e, writer, reconnect) && e.cmd.id in Expected(rest, WriterAfter(e, writer), reconnect) {
      ExpectedKeys(rest, WriterAfter(e, writer), reconnect, e.cmd.id);
    }
  }

  /** The ids of the commands still to come. */
  lemma {:induction false} LaterIds(events: seq<Event>, i: nat)
    requires DistinctIds(events) && i < |events| && events[i].Command?
    ensures !Uses(events[i + 1..], events[i].cmd.id)
    ensures forall k :: i < k < |events| && events[k].Command? ==> events[k].cmd.id != events[i].cmd.id
  {
    var t := events[i + 1..];
    forall j | 0 <= j < |t| && t[j].Command? ensures t[j].cmd.id != events[i].cmd.id {
      assert t[j] == events[i + 1 + j];
    }
  }

  // ---------------------------------------------------------------------------
  // The actor
  // ---------------------------------------------------------------------------

  /**
   * `inbox` is what has been sent to each caller, `armed` the one-shot senders that have not
   * been taken yet. A `Unary` entry can outlive its sender: a chunk takes the sender and
   * leaves the entry.
   */
  class Actor {
    const reconnect: bool
    var pending: map<uint64, Sender>
    var armed: set<uint64>
    var inbox: map<uint64, seq<Reply>>
    var writer: bool

    /** An armed sender's call is pending and has been told nothing. */
    ghost predicate Valid()
      reads this
    {
      && (forall id :: id in pending ==> id in inbox)
      && (forall id :: id in armed ==> id in pending && pending[id].Unary? && inbox[id] == [])
    }

    constructor (reconnect: bool)
      ensures Valid() && this.reconnect == reconnect && writer
      ensures pending == map[] && inbox == map[] && armed == {}
    {
      this.reconnect := reconnect;
      pending, armed, inbox, writer := map[], {}, map[], true;
    }

    /** The table, seen from one call. */
    ghost function See(id: uint64): View
      requires id in inbox
      reads this
    {
      View(inbox[id], if id in pending && (pending[id].Stream? || id in armed) then Some(pending[id]) else None)
    }

    /** `MutexOneshotSender::send`: the sender is taken, so only the first send arrives. */
    method SendOnce(id: uint64, r: Reply)
      requires id in inbox
      modifies `armed, `inbox
      ensures armed == old(armed) - {id}
      ensures inbox == if id in old(armed) then old(inbox)[id := old(inbox)[id] + [r]] else old(inbox)
    {
      if id in armed {
        armed := armed - {id};
        inbox := inbox[id := inbox[id] + [r]];
      }
    }

    /** One entry taken out of the table by `drain_pending`. */
    method DrainOne(id: uint64)
      requires Valid() && id in pending
      modifies `pending, `armed, `inbox
      ensures Valid() && pending == old(pending) - {id} && inbox.Keys == old(inbox).Keys
      ensures See(id) == Cut(old(See(id)))
      ensures forall k :: k in inbox && k != id ==> See(k) == old(See(k))
    {
      var s := pending[id];
      pending := pending - {id};
      if s.Unary? {
        SendOnce(id, ConnectionClosed);
      } else {
        inbox := inbox[id := inbox[id] + [ConnectionClosed]];
      }
    }

    /** `drain_pending`: every waiting call is told that the connection closed. */
    method DrainPending()
      requires Valid()
      modifies `pending, `armed, `inbox
      ensures Valid() && pending == map[] && inbox.Keys == old(inbox).Keys
      ensures forall id :: id in inbox ==> See(id) == Cut(old(See(id)))
    {
      while pending.Keys != {}
        invariant Valid() && inbox.Keys == old(inbox).Keys && pending.Keys <= old(pending).Keys
        invariant forall id :: id in inbox ==> See(id) == if id in pending then old(See(id)) else Cut(old(See(id)))
        decreases |pending.Keys|
      {
        var id :| id in pending.Keys;
        ghost var keys := pending.Keys;
        DrainOne(id);
        assert pending.Keys == keys - {id};
      }
    }

    /** The connection is gone: tell everybody, then reconnect or give up. */
    method Lose(again: bool) returns (stop: bool)
      requires Valid()
      modifies this
      ensures Valid() && pending == map[] && stop == !(reconnect && again) && (!stop ==> writer)
      ensures inbox.Keys == old(inbox).Keys
      ensures forall id :: id in inbox ==> See(id) == Cut(old(See(id)))
    {
      writer := false;
      DrainPending();
      if !reconnect {
        return true;
      }
      writer := again;
      return !again;
    }

    /** A new call enters the table. */
    method Insert(id: uint64, s: Sender)
      requires Valid() && id !in inbox
      modifies `pending, `armed, `inbox
      ensures Valid() && inbox.Keys == old(inbox).Keys + {id} && See(id) == View([], Some(s))
      ensures forall k :: k in old(inbox) ==> See(k) == old(See(k))
    {
      pending := pending[id := s];
      armed := if s.Unary? then armed + {id} else armed;
      inbox := inbox[id := []];
    }

    /** A command that enters the table and then writes its request. */
    method InsertThenWrite(id: uint64, s: Sender, ok: bool, again: bool) returns (stop: bool)
      requires Valid() && id !in inbox && (ok ==> writer)
      modifies this
      ensures Valid() && inbox.Keys == old(inbox).Keys + {id}
      ensures stop == (!ok && !(reconnect && again)) && (!stop ==> writer)
      ensures See(id) == if ok then View([], Some(s)) else View([ConnectionClosed], None)
      ensures forall k :: k in old(inbox) ==> See(k) == if ok then old(See(k)) else Cut(old(See(k)))
    {
      hide Valid;
      Insert(id, s);
      stop := false;
      if !ok {
        stop := Lose(again);
      }
    }

    /** A client-stream call writes its request first; a failure is told to it directly. */
    method WriteThenInsert(id: uint64, ok: bool, again: bool) returns (stop: bool)
      requires Valid() && id !in inbox && (ok ==> writer)
      modifies this
      ensures Valid() && inbox.Keys == old(inbox).Keys + {id}
      ensures stop == (!ok && !(reconnect && again)) && (!stop ==> writer)
      ensures See(id) == if ok then View([], Some(Unary)) else View([ConnectionClosed], None)
      ensures forall k :: k in old(inbox) ==> See(k) == if ok then old(See(k)) else Cut(old(See(k)))
    {
      stop := false;
      if ok {
        Insert(id, Unary);
      } else {
        stop := Lose(again);
        inbox := inbox[id := [ConnectionClosed]];
      }
    }

    /**
     * A command. A client-stream call writes its request first and enters the table only if
     * that worked; the others enter first.
     */
    method HandleCommand(cmd: Command, wrote: bool, again: bool) returns (stop: bool)
      requires Valid() && cmd.id !in inbox
      modifies this
      ensures var e := Event.Command(cmd, wrote, again);
              && Valid() && stop == Stops(e, old(writer), reconnect) && (!stop ==> writer == WriterAfter(e, old(writer)))
              && inbox.Keys == old(inbox).Keys + {cmd.id}
              && See(cmd.id) == Born(e, old(writer))
              && (forall id :: id in old(inbox) ==> See(id) == Sees(old(See(id)), id, e, old(writer)))
    {
      hide Valid;
      var ok := writer && wrote;
      match cmd
      case Call(id) => stop := InsertThenWrite(id, Unary, ok, again);
      case CallStream(id) => stop := InsertThenWrite(id, Stream, ok, again);
      case ExportStream(id) => stop := WriteThenInsert(id, ok, again);
      case ImportBidi(id) => stop := InsertThenWrite(id, Stream, ok, again);
    }

    /** A frame whose id has an entry: remove the entry unless it is a chunk, hand the message over. */
    method Deliver(m: Wire, gone: bool, ghost conn: nat)
      requires Valid() && m.id in pending
      modifies `pending, `armed, `inbox
      ensures Valid() && inbox.Keys == old(inbox).Keys
      ensures See(m.id) == Sees(old(See(m.id)), m.id, Frame(m, gone, conn), writer)
      ensures forall id :: id in inbox && id != m.id ==> See(id) == old(See(id))
    {
      var s := pending[m.id];
      if m.msgType != "stream_chunk" {
        pending := pending - {m.id};
      }
      if s.Unary? {
        SendOnce(m.id, Ok(m));
      } else if gone {
        pending := pending - {m.id};
      } else {
        inbox := inbox[m.id := inbox[m.id] + [Ok(m)]];
      }
    }

    /** A frame: look its id up; a frame nobody waits for is dropped. */
    method HandleFrame(m: Wire, gone: bool, ghost conn: nat)
      requires Valid()
      modifies `pending, `armed, `inbox
      ensures Valid() && inbox.Keys == old(inbox).Keys
      ensures forall id :: id in inbox ==> See(id) == Sees(old(See(id)), id, Frame(m, gone, conn), writer)
    {
      hide Valid, IsChunk;
      if m.id in pending {
        Deliver(m, gone, conn);
      }
    }

    /** One round of the loop: the shared table treats every call as if it were alone. */
    method Handle(e: Event) returns (stop: bool)
      requires Valid() && (e.Command? ==> e.cmd.id !in inbox)
      modifies this
      ensures Valid() && stop == Stops(e, old(writer), reconnect) && (!stop ==> writer == WriterAfter(e, old(writer)))
      ensures inbox.Keys == old(inbox).Keys + if e.Command? then {e.cmd.id} else {}
      ensures forall id :: id in old(inbox) ==> See(id) == Sees(old(See(id)), id, e, old(writer))
      ensures e.Command? ==> See(e.cmd.id) == Born(e, old(writer))
    {
      match e
      case Command(cmd, wrote, again) => stop := HandleCommand(cmd, wrote, again);
      case Shutdown => stop := true;
      case CommandsClosed => stop := true;
      case Frame(m, gone, conn) =>
        HandleFrame(m, gone, conn);
        stop := false;
      case Closed(again, _) => stop := Lose(again);
      case PumpFails =>
        writer := false;
        stop := false;
    }

    /** Every caller's promise. */
    ghost function Total(rest: seq<Event>, stop: bool): map<uint64, seq<Reply>>
      reads this
    {
      map id | id in inbox :: Promise(See(id), id, rest, writer, reconnect, stop)
    }

    lemma NothingYet()
      requires inbox == map[]
      ensures forall rest, stop :: Total(rest, stop) == map[]
    {
    }

    /** One round, on everybody's promise. */
    method Round(e: Event, ghost rest: seq<Event>) returns (stop: bool)
      requires Valid() && (e.Command? ==> e.cmd.id !in inbox && !Uses(rest, e.cmd.id))
      modifies this
      ensures Valid() && stop == Stops(e, old(writer), reconnect)
      ensures !stop ==> writer == WriterAfter(e, old(writer))
      ensures inbox.Keys == old(inbox).Keys + if e.Command? then {e.cmd.id} else {}
      ensures old(Total([e] + rest, false)) + Expected([e] + rest, old(writer), reconnect)
           == Total(rest, stop) + if stop then map[] else Expected(rest, writer, reconnect)
    {
      hide Expected, Answer, Born, Sees, Stops, WriterAfter, Loses, Promise, Uses, Valid;
      ghost var w, was := writer, Total([e] + rest, false);
      stop := Handle(e);
      forall id | id in old(inbox)
        ensures Total(rest, stop)[id] == was[id]
      {
        PromiseStep(old(See(id)), id, e, rest, w, reconnect);
        StopIgnoresWriter(See(id), id, rest, writer, WriterAfter(e, w), reconnect);
      }
      if e.Command? {
        PromiseBorn(e, rest, w, reconnect);
        StopIgnoresWriter(See(e.cmd.id), e.cmd.id, rest, writer, WriterAfter(e, w), reconnect);
      }
      TotalStep(was, Total(rest, stop), e, rest, w, reconnect);
    }

    /**
     * The actor's loop over any run: every accepted call is told exactly what it is expected
     * to be told, and nobody is left waiting when the actor exits.
     */
    method Run(events: seq<Event>) returns (exited: bool)
      requires Valid() && pending == map[] && inbox == map[] && writer && DistinctIds(events)
      modifies this
      ensures Valid() && inbox == Expected(events, true, reconnect)
      ensures exited == ExitsIn(events, true, reconnect)
      ensures exited ==> pending == map[]
    {
      hide Expected, Stops, WriterAfter, Promise, Uses, DistinctIds, Valid, Total, See, ExitsIn;
      exited := false;
      var i := 0;
      NothingYet();
      assert events[0..] == events;
      while i < |events| && !exited
        invariant 0 <= i <= |events| && Valid()
        invariant Expected(events, true, reconnect)
               == Total(events[i..], exited) + if exited then map[] else Expected(events[i..], writer, reconnect)
        invariant ExitsIn(events, true, reconnect) == (exited || ExitsIn(events[i..], writer, reconnect))
        invariant forall k :: i <= k < |events| && events[k].Command? ==> events[k].cmd.id !in inbox
      {
        var e := events[i];
        assert events[i..] == [e] + events[i + 1..];
        if e.Command? { LaterIds(events, i); }
        ExitsStep(e, events[i + 1..], writer, reconnect);
        exited := Round(e, events[i + 1..]);
        i := i + 1;
      }
      assert !exited ==> events[i..] == [];
      NothingMore(View([], None), 0, writer, reconnect);
      Finish(exited, events[i..]);
    }

    /** After the loop: drain the table if the actor is leaving. */
    method Finish(exited: bool, ghost rest: seq<Event>)
      requires Valid() && (exited || rest == [])
      modifies this
      ensures Valid() && inbox == old(Total(rest, exited)) && writer == old(writer)
      ensures exited ==> pending == map[]
    {
      hide Valid, Promise, Replies, Cut;
      ghost var total := Total(rest, exited);
      if exited {
        forall id | id in inbox ensures total[id] == Cut(See(id)).got {
          CutIsStop(See(id), id, rest, writer, reconnect);
        }
        DrainPending();
      } else {
        forall id | id in inbox ensures total[id] == See(id).got {
          NothingMore(See(id), id, writer, reconnect);
        }
      }
      assert inbox == total;
    }
  }
}
