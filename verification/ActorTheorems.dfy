/** What the actor's runs promise its callers, call by call and event by event. */
module ActorTheorems {
  import opened Bytes
  import opened ActorLoop

  // ---------------------------------------------------------------------------
  // Events, by their place in a run
  // ---------------------------------------------------------------------------

  /** Whether there is a writer when event `i` comes. */
  predicate WriterBefore(events: seq<Event>, i: nat, writer: bool)
    requires i <= |events|
  {
    if i == 0 then writer else WriterAfter(events[i - 1], WriterBefore(events, i - 1, writer))
  }

  /** Event `i` loses the connection or ends the actor. */
  predicate Interrupts(events: seq<Event>, i: nat, writer: bool, reconnect: bool)
    requires i < |events|
  {
    Loses(events[i], WriterBefore(events, i, writer)) || Stops(events[i], WriterBefore(events, i, writer), reconnect)
  }

  /** Event `i` is a frame with the id. */
  predicate Own(events: seq<Event>, i: nat, id: uint64)
    requires i < |events|
  {
    events[i].Frame? && events[i].msg.id == id
  }

  /** Event `i` ends the wait of a call: any frame of its own for a unary call, the last of its frames or a dropped receiver for a stream. */
  predicate EndsWait(s: Sender, id: uint64, events: seq<Event>, i: nat, writer: bool, reconnect: bool)
    requires i < |events|
  {
    (Own(events, i, id) && (s.Unary? || events[i].gone || events[i].msg.msgType != "stream_chunk")) || Interrupts(events, i, writer, reconnect)
  }

  /** `p` is the first event that ends the wait, or the length of the run if none does. */
  predicate FirstEnd(s: Sender, id: uint64, events: seq<Event>, p: nat, writer: bool, reconnect: bool) {
    && p <= |events|
    && (forall j :: 0 <= j < p ==> !EndsWait(s, id, events, j, writer, reconnect))
    && (p < |events| ==> EndsWait(s, id, events, p, writer, reconnect))
  }

  /** The frames that carry the id, in arrival order. */
  function OwnFrames(events: seq<Event>, id: uint64): seq<Wire> {
    if events == [] then []
    else (if events[0].Frame? && events[0].msg.id == id then [events[0].msg] else []) + OwnFrames(events[1..], id)
  }

  function AsReplies(ms: seq<Wire>): seq<Reply> {
    seq(|ms|, i requires 0 <= i < |ms| => Ok(ms[i]))
  }

  /** What the event that ends the wait tells the call. */
  function Last(s: Sender, id: uint64, events: seq<Event>, p: nat): seq<Reply> {
    if p >= |events| then []
    else if !Own(events, p, id) then [ConnectionClosed]
    else if s.Stream? && events[p].gone then []
    else [Ok(events[p].msg)]
  }

  /** All that a waiting call is told: for a stream the frames before the end, then what the end tells. */
  function Verdict(s: Sender, id: uint64, events: seq<Event>, p: nat): seq<Reply>
    requires p <= |events|
  {
    (if s.Stream? then AsReplies(OwnFrames(events[..p], id)) else []) + Last(s, id, events, p)
  }

  // ---------------------------------------------------------------------------
  // One call, from the moment it waits
  // ---------------------------------------------------------------------------

  lemma {:induction false} WriterShift(events: seq<Event>, i: nat, writer: bool)
    requires 0 < i <= |events|
    ensures WriterBefore(events, i, writer) == WriterBefore(events[1..], i - 1, WriterAfter(events[0], writer))
  {
    hide WriterAfter;
    if i > 1 {
      WriterShift(events, i - 1, writer);
      assert events[1..][i - 2] == events[i - 1];
    }
  }

  lemma {:induction false} EndShift(s: Sender, id: uint64, events: seq<Event>, i: nat, writer: bool, reconnect: bool)
    requires 0 < i < |events|
    ensures EndsWait(s, id, events, i, writer, reconnect)
        <==> EndsWait(s, id, events[1..], i - 1, WriterAfter(events[0], writer), reconnect)
  {
    hide WriterAfter, Loses, Stops, IsChunk, WriterBefore;
    WriterShift(events, i, writer);
    assert events[1..][i - 1] == events[i];
  }

  lemma {:induction false} FirstShift(s: Sender, id: uint64, events: seq<Event>, p: nat, writer: bool, reconnect: bool)
    requires events != [] && !EndsWait(s, id, events, 0, writer, reconnect)
    requires FirstEnd(s, id, events[1..], p, WriterAfter(events[0], writer), reconnect)
    ensures FirstEnd(s, id, events, p + 1, writer, reconnect)
  {
    hide WriterAfter, EndsWait;
    forall j | 0 <= j < p + 1 ensures !EndsWait(s, id, events, j, writer, reconnect) {
      if j > 0 { EndShift(s, id, events, j, writer, reconnect); }
    }
    if p + 1 < |events| { EndShift(s, id, events, p + 1, writer, reconnect); }
  }

  lemma {:induction false} VerdictShift(s: Sender, id: uint64, events: seq<Event>, p: nat)
    requires events != [] && p <= |events[1..]|
    ensures Verdict(s, id, events, p + 1)
         == (if s.Stream? && Own(events, 0, id) then [Ok(events[0].msg)] else []) + Verdict(s, id, events[1..], p)
  {
    assert events[..p + 1][0] == events[0] && events[..p + 1][1..] == events[1..][..p];
    assert p + 1 < |events| ==> events[p + 1] == events[1..][p];
    if s.Stream? && Own(events, 0, id) {
      var own := OwnFrames(events[1..][..p], id);
      assert AsReplies([events[0].msg] + own) == [Ok(events[0].msg)] + AsReplies(own);
    }
  }

  lemma {:induction false} NoWait(s: Sender, id: uint64, events: seq<Event>, writer: bool, reconnect: bool)
    requires events == [] || EndsWait(s, id, events, 0, writer, reconnect)
    ensures FirstEnd(s, id, events, 0, writer, reconnect)
    ensures Verdict(s, id, events, 0) == Last(s, id, events, 0)
  {
    hide EndsWait, Last;
    assert events[..0] == [];
    assert AsReplies([]) == [];
  }

  /** A frame ends the wait of the call whose id it carries or of nobody. */
  lemma {:induction false} FrameEnds(e: Event, writer: bool, reconnect: bool)
    ensures e.Frame? ==> !Loses(e, writer) && !Stops(e, writer, reconnect) && WriterAfter(e, writer) == writer
  {
  }

  /** A waiting call's replies are decided by the first event that ends its wait. */
  lemma {:induction false} RepliesAre(s: Sender, id: uint64, events: seq<Event>, writer: bool, reconnect: bool) returns (p: nat)
    ensures FirstEnd(s, id, events, p, writer, reconnect)
    ensures Replies(s, id, events, writer, reconnect) == Verdict(s, id, events, p)
    decreases |events|
  {
    hide Loses, Stops, WriterAfter, FirstEnd, Verdict;
    if events == [] {
      p := 0;
      NoWait(s, id, events, writer, reconnect);
    } else {
      FrameEnds(events[0], writer, reconnect);
      if EndsWait(s, id, events, 0, writer, reconnect) {
        p := 0;
        NoWait(s, id, events, writer, reconnect);
      } else {
        var q := RepliesAre(s, id, events[1..], WriterAfter(events[0], writer), reconnect);
        p := q + 1;
        FirstShift(s, id, events, q, writer, reconnect);
        FirstInside(s, id, events[1..], q, WriterAfter(events[0], writer), reconnect);
        VerdictShift(s, id, events, q);
      }
    }
  }

  lemma {:induction false} FirstInside(s: Sender, id: uint64, events: seq<Event>, p: nat, writer: bool, reconnect: bool)
    requires FirstEnd(s, id, events, p, writer, reconnect)
    ensures p <= |events|
  {
    hide EndsWait;
  }

  // ---------------------------------------------------------------------------
  // Every call of a run
  // ---------------------------------------------------------------------------

  /** The command at `c` is taken by the actor: nothing before it has ended the actor. */
  predicate Accepted(events: seq<Event>, c: nat, writer: bool, reconnect: bool) {
    && c < |events| && events[c].Command?
    && forall j :: 0 <= j < c ==> !Stops(events[j], WriterBefore(events, j, writer), reconnect)
  }

  lemma {:induction false} TailDistinct(events: seq<Event>)
    requires DistinctIds(events) && events != []
    ensures DistinctIds(events[1..])
  {
    var t := events[1..];
    forall i, j | 0 <= i < j < |t| && t[i].Command? && t[j].Command? ensures t[i].cmd.id != t[j].cmd.id {
      assert t[i] == events[i + 1] && t[j] == events[j + 1];
    }
  }

  lemma {:induction false} AcceptedLater(events: seq<Event>, c: nat, writer: bool, reconnect: bool)
    requires 0 < c && Accepted(events, c, writer, reconnect)
    ensures Accepted(events[1..], c - 1, WriterAfter(events[0], writer), reconnect)
    ensures !Stops(events[0], writer, reconnect)
  {
    hide Stops, WriterAfter;
    forall j | 0 <= j < c - 1
      ensures !Stops(events[1..][j], WriterBefore(events[1..], j, WriterAfter(events[0], writer)), reconnect)
    {
      WriterShift(events, j + 1, writer);
      assert events[1..][j] == events[j + 1];
    }
    assert !Stops(events[0], WriterBefore(events, 0, writer), reconnect);
  }

  /** What an accepted call is told is the answer to its command, given the events after it. */
  lemma {:induction false} ExpectedAt(events: seq<Event>, c: nat, writer: bool, reconnect: bool)
    requires DistinctIds(events) && Accepted(events, c, writer, reconnect)
    ensures events[c].cmd.id in Expected(events, writer, reconnect)
    ensures Expected(events, writer, reconnect)[events[c].cmd.id]
         == Answer(events[c..], WriterBefore(events, c, writer), reconnect)
    decreases c
  {
    hide Stops, WriterAfter, Answer, DistinctIds;
    if c == 0 {
      assert events[0..] == events;
    } else {
      AcceptedLater(events, c, writer, reconnect);
      TailDistinct(events);
      hide Accepted;
      assert events[1..][c - 1] == events[c] && events[1..][c - 1..] == events[c..];
      ExpectedAt(events[1..], c - 1, WriterAfter(events[0], writer), reconnect);
      WriterShift(events, c, writer);
      FirstDiffers(events, c);
    }
  }

  lemma {:induction false} FirstDiffers(events: seq<Event>, c: nat)
    requires DistinctIds(events) && 0 < c < |events| && events[c].Command?
    ensures events[0].Command? ==> events[0].cmd.id != events[c].cmd.id
  {
  }

  /** Only accepted calls are told anything. */
  lemma {:induction false} ToldWasAccepted(events: seq<Event>, writer: bool, reconnect: bool, id: uint64) returns (c: nat)
    requires id in Expected(events, writer, reconnect)
    ensures Accepted(events, c, writer, reconnect) && events[c].cmd.id == id
    decreases |events|
  {
    hide Stops, WriterAfter, Answer;
    if events[0].Command? && events[0].cmd.id == id {
      c := 0;
    } else {
      var t, w := events[1..], WriterAfter(events[0], writer);
      var k := ToldWasAccepted(t, w, reconnect, id);
      c := k + 1;
      assert events[c] == t[k];
      forall j | 0 <= j < c ensures !Stops(events[j], WriterBefore(events, j, writer), reconnect) {
        if j > 0 {
          WriterShift(events, j, writer);
          assert t[j - 1] == events[j];
          assert !Stops(t[j - 1], WriterBefore(t, j - 1, w), reconnect);
        }
      }
    }
  }

  lemma {:induction false} LosesOrNot(e: Event, writer: bool, reconnect: bool)
    requires e.Command?
    ensures !Loses(e, writer) ==> !Stops(e, writer, reconnect) && WriterAfter(e, writer) == writer
  {
  }

  /** What a call that waits with the sender, after the command at `c`, is told: decided by event `p` after it. */
  predicate ToldAs(s: Sender, events: seq<Event>, c: nat, writer: bool, reconnect: bool, x: seq<Reply>, p: nat)
    requires c < |events| && events[c].Command?
  {
    var id, after, w := events[c].cmd.id, events[c + 1..], WriterBefore(events, c, writer);
    if Loses(events[c], w) then x == [ConnectionClosed]
    else FirstEnd(s, id, after, p, w, reconnect) && x == Verdict(s, id, after, p)
  }

  /** What the caller of the command at `c` is told, exactly: one reply for a unary or client-stream call, a stream for the others. */
  predicate Exactly(events: seq<Event>, c: nat, writer: bool, reconnect: bool, x: seq<Reply>, p: nat)
    requires c < |events| && events[c].Command?
  {
    match events[c].cmd
    case Call(_) => ToldAs(Unary, events, c, writer, reconnect, x, p)
    case ExportStream(_) => ToldAs(Unary, events, c, writer, reconnect, x, p)
    case CallStream(_) => ToldAs(Stream, events, c, writer, reconnect, x, p)
    case ImportBidi(_) => ToldAs(Stream, events, c, writer, reconnect, x, p)
  }

  /**
   * Exactly: over any run, an accepted call is told of the loss if its own write loses the
   * connection, and otherwise what the first event that ends its wait decides.
   */
  lemma {:induction false} ToldExactly(events: seq<Event>, c: nat, writer: bool, reconnect: bool) returns (p: nat)
    requires DistinctIds(events) && Accepted(events, c, writer, reconnect)
    ensures events[c].cmd.id in Expected(events, writer, reconnect)
    ensures Exactly(events, c, writer, reconnect, Expected(events, writer, reconnect)[events[c].cmd.id], p)
  {
    hide Loses, Stops, WriterAfter, Expected, DistinctIds, FirstEnd, Verdict, Replies, Accepted, WriterBefore;
    AcceptedHere(events, c, writer, reconnect);
    ExpectedAt(events, c, writer, reconnect);
    var w := WriterBefore(events, c, writer);
    assert events[c..][1..] == events[c + 1..] && events[c..][0] == events[c];
    p := RepliesAre(SenderFor(events[c].cmd), events[c].cmd.id, events[c + 1..], w, reconnect);
  }

  lemma {:induction false} AcceptedHere(events: seq<Event>, c: nat, writer: bool, reconnect: bool)
    requires Accepted(events, c, writer, reconnect)
    ensures c < |events| && events[c].Command?
  {
    hide Stops;
  }

  // ---------------------------------------------------------------------------
  // Readings
  // ---------------------------------------------------------------------------

  lemma {:induction false} ExitEndsWait(s: Sender, id: uint64, events: seq<Event>, writer: bool, reconnect: bool, p: nat)
    requires ExitsIn(events, writer, reconnect) && FirstEnd(s, id, events, p, writer, reconnect)
    ensures p < |events|
    decreases |events|
  {
    hide Loses, Stops, WriterAfter, IsChunk;
    if p == |events| {
      assert !EndsWait(s, id, events, 0, writer, reconnect);
      var t, w := events[1..], WriterAfter(events[0], writer);
      forall j | 0 <= j < |t| ensures !EndsWait(s, id, t, j, w, reconnect) {
        EndShift(s, id, events, j + 1, writer, reconnect);
      }
      ExitEndsWait(s, id, t, w, reconnect, |t|);
    }
  }

  lemma {:induction false} ExitsLater(events: seq<Event>, c: nat, writer: bool, reconnect: bool)
    requires Accepted(events, c, writer, reconnect) && ExitsIn(events, writer, reconnect)
    requires !Loses(events[c], WriterBefore(events, c, writer))
    ensures ExitsIn(events[c + 1..], WriterBefore(events, c, writer), reconnect)
    decreases c
  {
    hide Loses, Stops, WriterAfter;
    if c == 0 {
      LosesOrNot(events[0], writer, reconnect);
    } else {
      AcceptedLater(events, c, writer, reconnect);
      WriterShift(events, c, writer);
      assert events[1..][c - 1] == events[c] && events[1..][c..] == events[c + 1..];
      ExitsLater(events[1..], c - 1, WriterAfter(events[0], writer), reconnect);
    }
  }

  /**
   * Exactly once: an accepted unary or client-stream call is told at most one thing. That is
   * the first frame with its id, if nothing interrupts first, and the loss if something does;
   * and when the actor has exited, every such call has been told.
   */
  lemma {:induction false} ExactlyOnce(events: seq<Event>, c: nat, writer: bool, reconnect: bool) returns (p: nat)
    requires DistinctIds(events) && Accepted(events, c, writer, reconnect) && (events[c].cmd.Call? || events[c].cmd.ExportStream?)
    ensures events[c].cmd.id in Expected(events, writer, reconnect)
    ensures var x := Expected(events, writer, reconnect)[events[c].cmd.id];
            && ToldAs(Unary, events, c, writer, reconnect, x, p)
            && |x| <= 1
            && (ExitsIn(events, writer, reconnect) ==> |x| == 1)
  {
    hide Loses, Stops, WriterAfter, Expected, DistinctIds, FirstEnd, Accepted, WriterBefore;
    AcceptedHere(events, c, writer, reconnect);
    p := ToldExactly(events, c, writer, reconnect);
    var w := WriterBefore(events, c, writer);
    if ExitsIn(events, writer, reconnect) && !Loses(events[c], w) {
      ExitsLater(events, c, writer, reconnect);
      ExitEndsWait(Unary, events[c].cmd.id, events[c + 1..], w, reconnect, p);
    }
  }

  /**
   * In order: an accepted stream hears every frame with its id, in arrival order, until the
   * first that is not a chunk, its receiver is dropped, or the connection is lost; it is told
   * the loss only if that ends it, and it has been told something last once the actor has exited.
   */
  lemma {:induction false} StreamsHearTheirOwn(events: seq<Event>, c: nat, writer: bool, reconnect: bool) returns (p: nat)
    requires DistinctIds(events) && Accepted(events, c, writer, reconnect) && (events[c].cmd.CallStream? || events[c].cmd.ImportBidi?)
    ensures events[c].cmd.id in Expected(events, writer, reconnect)
    ensures ToldAs(Stream, events, c, writer, reconnect, Expected(events, writer, reconnect)[events[c].cmd.id], p)
    ensures ExitsIn(events, writer, reconnect) && !Loses(events[c], WriterBefore(events, c, writer)) ==> c + 1 + p < |events|
  {
    hide Loses, Stops, WriterAfter, Expected, DistinctIds, FirstEnd, Accepted, WriterBefore, Verdict;
    AcceptedHere(events, c, writer, reconnect);
    p := ToldExactly(events, c, writer, reconnect);
    var w := WriterBefore(events, c, writer);
    if ExitsIn(events, writer, reconnect) && !Loses(events[c], w) {
      ExitsLater(events, c, writer, reconnect);
      ExitEndsWait(Stream, events[c].cmd.id, events[c + 1..], w, reconnect, p);
    }
  }

  lemma {:induction false} OwnFramesOccur(events: seq<Event>, id: uint64, m: Wire)
    requires m in OwnFrames(events, id)
    ensures m.id == id && exists k :: 0 <= k < |events| && Own(events, k, id) && events[k].msg == m
  {
    if events[0].Frame? && events[0].msg.id == id && events[0].msg == m {
      assert Own(events, 0, id);
    } else {
      OwnFramesOccur(events[1..], id, m);
      var k :| 0 <= k < |events[1..]| && Own(events[1..], k, id) && events[1..][k].msg == m;
      assert Own(events, k + 1, id) && events[k + 1].msg == m;
    }
  }

  /** Nothing foreign: every message a caller is given is a frame that carries its id and came after its command. */
  lemma {:induction false} OnlyOwnFrames(events: seq<Event>, c: nat, writer: bool, reconnect: bool, m: Wire)
    requires DistinctIds(events) && Accepted(events, c, writer, reconnect)
    requires events[c].cmd.id in Expected(events, writer, reconnect)
    requires Ok(m) in Expected(events, writer, reconnect)[events[c].cmd.id]
    ensures m.id == events[c].cmd.id
    ensures exists k :: c < k < |events| && Own(events, k, events[c].cmd.id) && events[k].msg == m
  {
    hide Loses, Stops, WriterAfter, Expected, DistinctIds, FirstEnd, Accepted, WriterBefore;
    AcceptedHere(events, c, writer, reconnect);
    var id, after := events[c].cmd.id, events[c + 1..];
    var p := ToldExactly(events, c, writer, reconnect);
    var w := WriterBefore(events, c, writer);
    if !Loses(events[c], w) {
      FirstInside(SenderFor(events[c].cmd), id, after, p, w, reconnect);
      var k: nat := p;
      if Ok(m) !in Last(SenderFor(events[c].cmd), id, after, p) {
        assert m in OwnFrames(after[..p], id);
        OwnFramesOccur(after[..p], id, m);
        k :| 0 <= k < |after[..p]| && Own(after[..p], k, id) && after[..p][k].msg == m;
      }
      assert events[c + 1 + k] == after[k];
      assert Own(events, c + 1 + k, id);
    }
  }

  // ---------------------------------------------------------------------------
  // Whose loss it is
  // ---------------------------------------------------------------------------

  /** The number of the connection the actor has when event `i` comes: every loss makes it connect anew. */
  function ConnBefore(events: seq<Event>, i: nat, writer: bool): nat
    requires i <= |events|
  {
    if i == 0 then 0
    else ConnBefore(events, i - 1, writer) + if Loses(events[i - 1], WriterBefore(events, i - 1, writer)) then 1 else 0
  }

  /** The connection whose loss event `i` reports, if it reports one: a failed write is the current one's. */
  function LostConn(events: seq<Event>, i: nat, writer: bool): Option<nat>
    requires i < |events|
  {
    if events[i].Closed? then Some(events[i].conn)
    else if Loses(events[i], WriterBefore(events, i, writer)) then Some(ConnBefore(events, i, writer))
    else None
  }

  lemma {:induction false} WriterFrom(events: seq<Event>, c: nat, j: nat, writer: bool)
    requires c + j <= |events|
    ensures WriterBefore(events, c + j, writer) == WriterBefore(events[c..], j, WriterBefore(events, c, writer))
    decreases j
  {
    hide WriterAfter;
    if j > 0 {
      WriterFrom(events, c, j - 1, writer);
      assert events[c..][j - 1] == events[c + j - 1];
    }
  }

  /** A call's connection is the actor's until something ends the call's wait. */
  lemma {:induction false} SameConnection(s: Sender, events: seq<Event>, c: nat, writer: bool, reconnect: bool, p: nat)
    requires c < |events| && events[c].Command? && !Loses(events[c], WriterBefore(events, c, writer))
    requires FirstEnd(s, events[c].cmd.id, events[c + 1..], p, WriterBefore(events, c, writer), reconnect)
    ensures forall k :: c <= k <= c + 1 + p && k <= |events| ==> ConnBefore(events, k, writer) == ConnBefore(events, c, writer)
  {
    hide Loses, Stops, WriterAfter, IsChunk;
    var w := WriterBefore(events, c, writer);
    LosesOrNot(events[c], w, reconnect);
    assert WriterBefore(events, c + 1, writer) == w;
    var k := c + 1;
    while k < c + 1 + p
      invariant c + 1 <= k <= c + 1 + p
      invariant forall i :: c <= i <= k ==> ConnBefore(events, i, writer) == ConnBefore(events, c, writer)
    {
      var j := k - c - 1;
      assert !EndsWait(s, events[c].cmd.id, events[c + 1..], j, w, reconnect);
      WriterFrom(events, c + 1, j, writer);
      assert events[c + 1..][j] == events[k];
      k := k + 1;
    }
  }

  /**
   * Exactly when a call is told of the loss of a connection it was not made on: when the event
   * that ends its wait is a close reported by the reader of another connection.
   */
  lemma {:induction false} ToldOfAnotherLoss(events: seq<Event>, c: nat, writer: bool, reconnect: bool) returns (p: nat)
    requires DistinctIds(events) && Accepted(events, c, writer, reconnect) && !Loses(events[c], WriterBefore(events, c, writer))
    ensures events[c].cmd.id in Expected(events, writer, reconnect)
    ensures Exactly(events, c, writer, reconnect, Expected(events, writer, reconnect)[events[c].cmd.id], p)
    ensures p < |events[c + 1..]| ==>
      var e, own := c + 1 + p, ConnBefore(events, c, writer);
      ((LostConn(events, e, writer).Some? && LostConn(events, e, writer).value != own)
       <==> (events[e].Closed? && events[e].conn != own))
  {
    hide Loses, Stops, WriterAfter, Expected, DistinctIds, FirstEnd, Accepted, WriterBefore, Verdict;
    AcceptedHere(events, c, writer, reconnect);
    p := ToldExactly(events, c, writer, reconnect);
    SameConnection(SenderFor(events[c].cmd), events, c, writer, reconnect, p);
  }

  /** The run: a write fails, the actor reconnects, a second call is written, and the first connection's reader reports its close. */
  function StaleClose(a: uint64, b: uint64): seq<Event> {
    [Command(Call(a), false, true), Command(Call(b), true, true), Closed(true, 0)]
  }

  /** The second call is told that the connection closed, although nothing happened to the one it was made on. */
  lemma {:induction false} StaleCloseEndsHealthyCall(a: uint64, b: uint64)
    requires a != b
    ensures DistinctIds(StaleClose(a, b)) && Accepted(StaleClose(a, b), 1, true, true)
    ensures b in Expected(StaleClose(a, b), true, true) && Expected(StaleClose(a, b), true, true)[b] == [ConnectionClosed]
    ensures ConnBefore(StaleClose(a, b), 1, true) == 1
    ensures forall i :: 1 <= i < 3 ==> LostConn(StaleClose(a, b), i, true) != Some(1)
  {
    var es := StaleClose(a, b);
    assert WriterBefore(es, 0, true) && WriterBefore(es, 1, true) && WriterBefore(es, 2, true);
    assert es[1..][1..] == [es[2]];
    ExpectedAt(es, 1, true, true);
    assert es[1..][0] == es[1];
    assert Replies(Unary, b, [es[2]], true, true) == [ConnectionClosed];
    assert ConnBefore(es, 0, true) == 0 && ConnBefore(es, 1, true) == 1 && ConnBefore(es, 2, true) == 1;
  }
}
