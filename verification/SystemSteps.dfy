/** Every move of client, server and network keeps the client in step with the server. */
module SystemSteps {
  import opened Bytes
  import opened Framing
  import opened Mpack
  import opened Message
  import opened MessageRoundTrip
  import opened WriteLock
  import opened Server
  import opened ServerInv
  import opened ServerSteps
  import opened System

  // ---------------------------------------------------------------------------
  // What a server step can change, as the client sees it
  // ---------------------------------------------------------------------------

  /** A quiet call stays quiet and adds nothing to the wire. */
  predicate StaysQuiet(c: Call, c': Call) {
    Quiet(c) ==> Quiet(c') && c'.emitted == c.emitted
  }

  /** The calls keep their identity; the log grows by at most one message, of a call that was not quiet. */
  predicate Effect(s: Conn, s': Conn) {
    && s'.registry == s.registry && s.input <= s'.input && s'.calls.Keys == s.calls.Keys
    && (forall id :: id in s.calls ==>
          s'.calls[id].kind == s.calls[id].kind && s'.calls[id].src == s.calls[id].src && StaysQuiet(s.calls[id], s'.calls[id]))
    && (s'.out.log == s.out.log ||
        (|s'.out.log| == |s.out.log| + 1 && s'.out.log[..|s.out.log|] == s.out.log
         && s'.out.log[|s.out.log|].id in s.calls && !Quiet(s.calls[s'.out.log[|s.out.log|].id])))
  }

  lemma {:induction false} SendEffects(s: Conn, id: uint64, k: nat)
    requires Inv(s) && Enabled(s, Send(id, k))
    ensures Effect(s, DoSend(s, id, k))
  {
    hide OutputInv, LogInv, QueueInv, FlowInv, LoopInv, Encode, Frame, Chunky, MayEnd;
    var m := s.out.hold.value.msg;
    assert Shape(id, s.calls[id], s.out.broken);
    assert m.id == id;
  }

  lemma {:induction false} ServeEffect(s: Conn, a: Action)
    requires Inv(s) && Enabled(s, a) && !a.Receive?
    ensures Effect(s, Next(s, a))
  {
    hide Inv, Decode, Fits, CanTransmit, CanRelease, CanAcquire, DoSend, Effect;
    if a.Send? {
      SendEffects(s, a.id, a.k);
    } else if a.Push? || a.Disconnect? || a.CloseOne? || a.CloseDone? || a.Resume? || a.Recv? {
      InputEffects(s, a);
    } else {
      ThreadEffects(s, a);
    }
  }

  lemma {:induction false} InputEffects(s: Conn, a: Action)
    requires Enabled(s, a) && (a.Push? || a.Disconnect? || a.CloseOne? || a.CloseDone? || a.Resume? || a.Recv?)
    ensures Effect(s, Next(s, a))
  {
    hide Decode, Fits, CanTransmit, CanRelease, CanAcquire, FreedByPush;
  }

  lemma {:induction false} ThreadEffects(s: Conn, a: Action)
    requires Enabled(s, a) && (a.Emit? || a.Return? || a.Lock? || a.Unlock? || a.SendFails? || a.Remove?)
    ensures Effect(s, Next(s, a))
  {
    hide Decode, Fits, CanTransmit, CanRelease, CanAcquire, Outcome, ChunkTrees, Quiet, Effect;
    var s' := Next(s, a);
    if a.Lock? {
      SameCalls(s, s');
    } else {
      NotQuiet(s.calls[a.id]);
      NotQuiet(s'.calls[a.id]);
      OneCall(s, s', a.id);
    }
  }

  lemma {:induction false} SameCalls(s: Conn, s': Conn)
    requires s'.registry == s.registry && s'.input == s.input && s'.calls == s.calls && s'.out.log == s.out.log
    ensures Effect(s, s')
  {
  }

  /** A thread changes only its own call. */
  lemma {:induction false} OneCall(s: Conn, s': Conn, id: uint64)
    requires s'.registry == s.registry && s'.input == s.input && s'.out.log == s.out.log
    requires id in s.calls && id in s'.calls && s'.calls == s.calls[id := s'.calls[id]]
    requires s'.calls[id].kind == s.calls[id].kind && s'.calls[id].src == s.calls[id].src && StaysQuiet(s.calls[id], s'.calls[id])
    ensures Effect(s, s')
  {
    hide StaysQuiet;
    assert forall k :: k in s.calls && k != id ==> s'.calls[k] == s.calls[k];
    forall k | k in s.calls && k != id ensures StaysQuiet(s.calls[k], s'.calls[k]) {
      AlwaysQuiet(s.calls[k]);
    }
  }

  lemma {:induction false} AlwaysQuiet(c: Call)
    ensures StaysQuiet(c, c)
  {
  }

  lemma {:induction false} NotQuiet(c: Call)
    ensures c.phase.Running? || c.phase.Writing? ==> !Quiet(c)
    ensures c.phase.Written? ==> (Quiet(c) <==> Terminal(c.phase.msg))
    ensures c.phase.Cleanup? || c.phase.Done? ==> Quiet(c)
  {
  }

  lemma {:induction false} InputStays(s: Conn, a: Action)
    requires Enabled(s, a) && !a.Receive?
    ensures Next(s, a).input == s.input
  {
    hide Decode, Fits, CanTransmit, CanRelease, CanAcquire, Transmit, Outcome, ChunkTrees, FreedByPush;
  }

  lemma {:induction false} BrokenStays(s: Conn, a: Action)
    requires Enabled(s, a) && s.out.broken
    ensures Next(s, a).out.broken
  {
    hide Decode, Fits, CanRelease, CanAcquire, Encode, Judge;
  }

  // ---------------------------------------------------------------------------
  // Reading positions do not move when the log grows
  // ---------------------------------------------------------------------------

  lemma {:induction false} OffsetStable(log: seq<Outgoing>, log': seq<Outgoing>, n: nat)
    requires AllFit(log) && AllFit(log') && n <= |log| <= |log'| && log'[..|log|] == log
    ensures Offset(log', n) == Offset(log, n)
  {
    hide Encode;
    assert forall i :: 0 <= i < |log| ==> log'[i] == log'[..|log|][i];
    assert Payloads(log')[..n] == Payloads(log)[..n];
  }

  lemma {:induction false} Grown(s: Conn, s': Conn)
    requires Effect(s, s')
    ensures |s.out.log| <= |s'.out.log| && s'.out.log[..|s.out.log|] == s.out.log
  {
    hide StaysQuiet;
  }

  lemma {:induction false} ReadKept(z: Sys, s': Conn)
    requires ReadInv(z) && AllFit(s'.out.log) && Effect(z.srv, s')
    ensures ReadInv(z.(srv := s'))
  {
    hide StaysQuiet, Fits, Offset;
    Grown(z.srv, s');
    OffsetStable(z.srv.out.log, s'.out.log, z.read);
  }

  lemma {:induction false} SameReadSoFar(z: Sys, s': Conn)
    requires z.read <= |z.srv.out.log| && Effect(z.srv, s')
    ensures ReadSoFar(z.(srv := s')) == ReadSoFar(z)
  {
    hide StaysQuiet, FramesOf;
    Grown(z.srv, s');
    assert s'.out.log[..z.read] == z.srv.out.log[..z.read];
  }

  /** New frames during a call are that call's; between calls there are none. */
  lemma {:induction false} UnreadKept(z: Sys, s': Conn)
    requires Sync(z) && Effect(z.srv, s')
    ensures z.client.phase.Idle? ==> Unread(z.(srv := s')) == []
    ensures z.client.phase.Open? ==> AllFor(Unread(z.(srv := s')), z.client.nextId)
  {
    hide StaysQuiet, Quiet, Finished, Offset, ReadSoFar, SingleReply, OnlyChunks, Heard, Fits;
    Grown(z.srv, s');
    var log, log' := z.srv.out.log, s'.out.log;
    if log' != log {
      var m := log'[|log|];
      assert Current(z, m.id);
      assert log'[z.read..] == log[z.read..] + [m];
    }
  }

  lemma {:induction false} FinishedKept(z: Sys, s': Conn, id: uint64)
    requires Finished(z, id) && Effect(z.srv, s')
    ensures Finished(z.(srv := s'), id)
  {
    hide Heard;
  }

  lemma {:induction false} ServeSync(z: Sys, s': Conn)
    requires Sync(z) && Effect(z.srv, s') && AllFit(s'.out.log)
    ensures Sync(z.(srv := s'))
  {
    hide Quiet, Finished, Offset, ReadSoFar, OnlyChunks, Heard, Fits, Unread, ReadInv;
    var z' := z.(srv := s');
    assert z.read <= |z.srv.out.log| by { assert ReadInv(z); ReadBound(z); }
    ReadKept(z, s');
    SameReadSoFar(z, s');
    UnreadKept(z, s');
    forall id | id in z.asked && !Current(z, id) ensures Finished(z', id) {
      FinishedKept(z, s', id);
    }
    assert forall id :: id in z.srv.calls ==> StaysQuiet(z.srv.calls[id], s'.calls[id]);
  }

  lemma {:induction false} ReadBound(z: Sys)
    requires ReadInv(z)
    ensures z.read <= |z.srv.out.log|
  {
  }

  // ---------------------------------------------------------------------------
  // What the decoder makes of the messages in transit
  // ---------------------------------------------------------------------------

  lemma {:induction false} CStrWhole(s: bytes)
    requires 0 !in s
    ensures CStr(s) == s
  {
    if s != [] {
      CStrWhole(s[1..]);
    }
  }

  lemma {:induction false} CStrTwice(s: bytes)
    ensures CStr(CStr(s)) == CStr(s)
  {
    CStrWhole(CStr(s));
  }

  lemma {:induction false} TypeNames()
    ensures CStr(REQUEST) == REQUEST && CStr(RESPONSE) == RESPONSE && CStr(ERROR) == ERROR
    ensures CStr(STREAM_CHUNK) == STREAM_CHUNK && CStr(STREAM_END) == STREAM_END && CStr(STREAM_CLOSE) == STREAM_CLOSE
  {
    hide CStr;
    CStrWhole(REQUEST);
    CStrWhole(RESPONSE);
    CStrWhole(ERROR);
    CStrWhole(STREAM_CHUNK);
    CStrWhole(STREAM_END);
    CStrWhole(STREAM_CLOSE);
  }

  /** The received type name tells the kind of message sent. */
  lemma {:induction false} TypeTells(m: Outgoing)
    ensures StrEq(Received(m).msgType, REQUEST) <==> m.Request?
    ensures StrEq(Received(m).msgType, STREAM_CHUNK) <==> m.StreamChunk?
    ensures IsStreamFrame(Received(m)) <==> m.StreamChunk? || m.StreamEnd? || m.StreamClose?
    ensures Received(m).id == m.id
  {
    TypeNames();
    hide CStr;
    assert STREAM_CHUNK[7] == 0x63 && STREAM_CLOSE[7] == 0x63 && STREAM_CHUNK[8] == 0x68 && STREAM_CLOSE[8] == 0x6C;
  }

  lemma {:induction false} Delivered(m: Outgoing)
    requires Fits(m)
    ensures Decode(Encode(m)) == Some(Received(m))
  {
    hide Encode, Decode;
    MessageBack(m);
  }

  lemma {:induction false} FindByCStr(registry: seq<Handler>, func: bytes)
    ensures FindHandler(registry, CStr(func)) == FindHandler(registry, func)
  {
    CStrTwice(func);
    hide CStr;
    if registry != [] {
      FindByCStr(registry[1..], func);
    }
  }

  /** A single-read request never starts a call that sends chunks. */
  lemma {:induction false} SingleReplyKind(registry: seq<Handler>, m: Outgoing)
    requires m.Request? && m.func.Some? && !m.stream && FindHandler(registry, m.func.value) != Some(Stream)
    ensures match Judge(registry, Received(m))
            case Accept(k) => !Emits(k)
            case Refuse(_, _) => true
  {
    hide FindHandler, Ascii, CStr;
    FindByCStr(registry, m.func.value);
  }

  // ---------------------------------------------------------------------------
  // The server reads a message
  // ---------------------------------------------------------------------------

  predicate NewCall(s: Conn, s': Conn, id: uint64) {
    && id !in s.calls && id in s'.calls && s'.calls == s.calls[id := s'.calls[id]]
    && s'.out == s.out && s'.registry == s.registry && s.input <= s'.input
  }

  lemma {:induction false} NewCallSync(z: Sys, s': Conn, id: uint64)
    requires Sync(z) && NewCall(z.srv, s', id) && id in z.asked
    requires z.client.phase.Open? && OneShot(z.client.phase.form) ==> !Emits(s'.calls[id].kind)
    ensures Sync(z.(srv := s')) && Current(z, id)
  {
    hide Quiet, Heard, Offset, Fits, FramesOf, OnlyChunks;
    var z' := z.(srv := s');
    MustBeCurrent(z, id);
    assert Unread(z') == Unread(z) && ReadSoFar(z') == ReadSoFar(z);
    forall k | k in z.asked && !Current(z, k) ensures Finished(z', k) {
      assert Finished(z, k);
    }
  }

  lemma {:induction false} RouteRequest(s: Conn, m: Outgoing)
    requires m.Request? && m.id !in s.calls && s.loop.Reading?
    ensures var s' := Route(s, Received(m));
            && NewCall(s, s', m.id)
            && s'.input == s.input + [Received(m)] && s'.calls[m.id].src == |s.input|
            && (Judge(s.registry, Received(m)).Accept? ==> s'.calls[m.id].kind == Judge(s.registry, Received(m)).kind)
            && (Judge(s.registry, Received(m)).Refuse? ==> s'.calls[m.id].kind.Refused?)
  {
    TypeTells(m);
    hide Received, IsStreamFrame, StrEq, Judge, ItemFor, Ascii;
  }

  lemma {:induction false} RouteStream(s: Conn, m: Outgoing)
    requires (m.StreamChunk? || m.StreamEnd? || m.StreamClose?) && s.loop.Reading?
    ensures var s' := Route(s, Received(m));
            s'.calls == s.calls && s'.out == s.out && s'.registry == s.registry && s'.input == s.input + [Received(m)]
  {
    TypeTells(m);
    hide Received, IsStreamFrame, StrEq, Judge, ItemFor;
  }

  lemma {:induction false} ReceiveSync(z: Sys, m: Outgoing)
    requires Sync(z) && AllFit(z.srv.out.log) && SentOk(z, m) && z.srv.loop.Reading? && (m.Request? ==> m.id !in z.srv.calls)
    ensures Sync(z.(srv := Route(z.srv, Received(m))))
  {
    hide Fits, Received, Route, Judge, Quiet, Finished, ReadInv, Unread, ReadSoFar, OnlyChunks, Heard, AllFor, FindHandler;
    var s' := Route(z.srv, Received(m));
    if m.Request? {
      RouteRequest(z.srv, m);
      if z.client.phase.Open? && OneShot(z.client.phase.form) {
        assert Current(z, m.id) by { MustBeCurrent(z, m.id); }
        SingleReplyKind(z.srv.registry, m);
      }
      NewCallSync(z, s', m.id);
    } else {
      RouteStream(z.srv, m);
      ServeSync(z, s');
    }
  }

  /** A request the server has not seen is the one the client is making. */
  lemma {:induction false} MustBeCurrent(z: Sys, id: uint64)
    requires Sync(z) && id in z.asked && id !in z.srv.calls
    ensures Current(z, id)
  {
    hide Quiet, Heard, ReadInv, InFlight, Unread;
  }

  lemma {:induction false} ReceiveBooks(z: Sys, m: Outgoing)
    requires UpInv(z) && AskedInv(z) && z.consumed < |z.up| && m == z.up[z.consumed] && z.srv.loop.Reading?
    ensures var z' := z.(srv := Route(z.srv, Received(m)), consumed := z.consumed + 1);
            UpInv(z') && AskedInv(z')
  {
    hide Fits, Received, Route;
    assert SentOk(z, m);
    var s' := Route(z.srv, Received(m));
    if m.Request? {
      RouteRequest(z.srv, m);
    } else {
      RouteStream(z.srv, m);
    }
  }

  lemma {:induction false} ServeBooks(z: Sys, s': Conn)
    requires UpInv(z) && AskedInv(z) && Effect(z.srv, s')
    ensures UpInv(z.(srv := s')) && AskedInv(z.(srv := s'))
  {
    hide Fits, Received, StaysQuiet;
  }

  lemma {:induction false} ServeKeeps(z: Sys, a: Action)
    requires SysInv(z) && Can(z, Serve(a))
    ensures SysInv(Do(z, Serve(a)))
  {
    hide Inv, Enabled, Next, Sync, Cut, UpInv, AskedInv, Fits, Encode, Decode, Received;
    var z' := Do(z, Serve(a));
    StepKeeps(z.srv, a);
    FitOf(z.srv);
    FitOf(z'.srv);
    if z.srv.out.broken { BrokenStays(z.srv, a); }
    if a.Receive? {
      var m := z.up[z.consumed];
      NextSent(z);
      Delivered(m);
      ReceiveIsRoute(z.srv, a, Received(m));
      ReceiveBooks(z, m);
      if !z'.srv.out.broken {
        if z.client.failed != {} { CutIsOver(z, a); }
        ReceiveSync(z, m);
        SyncIgnoresUp(z.(srv := z'.srv), z');
      }
    } else {
      ServeEffect(z.srv, a);
      ServeBooks(z, z'.srv);
      if !z'.srv.out.broken {
        if z.client.failed == {} { ServeSync(z, z'.srv); } else { CutServe(z, a); }
      }
    }
  }

  /** A server whose loop has ended reads nothing, and nothing more gets on its wire. */
  lemma {:induction false} EndedStays(s: Conn, a: Action)
    requires Enabled(s, a) && s.loop.Ended?
    ensures !a.Receive? && Next(s, a).loop.Ended? && Next(s, a).out.log == s.out.log
  {
    hide Decode, Fits, CanRelease, CanAcquire, CanTransmit, Outcome, ChunkTrees;
  }

  lemma {:induction false} CutIsOver(z: Sys, a: Action)
    requires Cut(z) && Enabled(z.srv, a)
    ensures !a.Receive?
  {
    hide Enabled, ReadInv, CutShort, Finished, Quiet;
    EndedStays(z.srv, a);
  }

  lemma {:induction false} CutServe(z: Sys, a: Action)
    requires Cut(z) && Enabled(z.srv, a) && Effect(z.srv, Next(z.srv, a))
    ensures Cut(z.(srv := Next(z.srv, a)))
  {
    hide Enabled, Next, Quiet, Finished, Heard, FramesOf, OnlyChunks, Fits, Offset;
    var s' := Next(z.srv, a);
    EndedStays(z.srv, a);
    forall id | id in z.asked && !Current(z, id) && id !in z.client.failed ensures Finished(z.(srv := s'), id) {
      FinishedKept(z, s', id);
    }
    assert forall id :: id in z.srv.calls ==> StaysQuiet(z.srv.calls[id], s'.calls[id]);
  }

  lemma {:induction false} FitOf(s: Conn)
    requires Inv(s)
    ensures AllFit(s.out.log)
  {
    hide LockInv, LogInv, ShapeInv, QueueInv, FlowInv, LoopInv, Fits;
  }

  lemma {:induction false} NextSent(z: Sys)
    requires UpInv(z) && z.consumed < |z.up|
    ensures SentOk(z, z.up[z.consumed]) && Fits(z.up[z.consumed])
    ensures z.up[z.consumed].Request? ==> z.up[z.consumed].id !in z.srv.calls
  {
    hide Fits;
  }

  lemma {:induction false} ReceiveIsRoute(s: Conn, a: Action, m: Message)
    requires Enabled(s, a) && a.Receive? && Decode(a.payload) == Some(m)
    ensures s.loop.Reading? && Next(s, a) == Route(s, m)
  {
    hide Decode, Route, Fits, CanTransmit, CanRelease, CanAcquire, StrEq;
  }

  lemma {:induction false} SyncIgnoresUp(z: Sys, z': Sys)
    requires Sync(z) && z' == z.(up := z'.up, consumed := z'.consumed)
    ensures Sync(z')
  {
    hide Fits, Quiet, Heard, FramesOf, Offset, FindHandler, OnlyChunks, AllFor;
    assert Unread(z') == Unread(z) && ReadSoFar(z') == ReadSoFar(z);
    forall id | id in z.asked && !Current(z, id) ensures Finished(z', id) {
      assert Finished(z, id);
    }
  }

  // ---------------------------------------------------------------------------
  // The client starts a call and sends
  // ---------------------------------------------------------------------------

  lemma {:induction false} IdsAreOld(z: Sys, id: uint64)
    requires AskedInv(z) && id > z.client.nextId
    ensures id !in z.asked && id !in z.srv.calls
  {
    hide Received;
  }

  lemma {:induction false} NothingSaid(s: Conn, id: uint64, n: nat)
    requires LogInv(s) && id !in s.calls && n <= |s.out.log|
    ensures FramesOf(s.out.log[..n], id) == []
  {
    hide FramesOf;
    NoFrames(s.out.log[..n], id);
  }

  lemma {:induction false} BeginBooks(z: Sys, f: Form, func: bytes, args: seq<Value>)
    requires UpInv(z) && AskedInv(z) && Can(z, Begin(f, func, args))
    ensures UpInv(DoBegin(z, f, func, args)) && AskedInv(DoBegin(z, f, func, args))
  {
    hide Fits, Received, Enabled, Incoming, Encode;
    var z' := DoBegin(z, f, func, args);
    IdsAreOld(z, z.client.nextId + 1);
    assert forall i :: z.consumed <= i < |z.up| ==> SentOk(z, z.up[i]) && z'.up[i] == z.up[i];
  }

  lemma {:induction false} BeginSync(z: Sys, f: Form, func: bytes, args: seq<Value>)
    requires Sync(z) && AskedInv(z) && LogInv(z.srv) && Can(z, Begin(f, func, args))
    requires !Mismatched(z.srv.registry, f, func)
    ensures Sync(DoBegin(z, f, func, args))
  {
    hide Fits, Quiet, FramesOf, Offset, Enabled, Incoming, Encode, LogInv, AskedInv, FindHandler;
    var z', id := DoBegin(z, f, func, args), z.client.nextId + 1;
    IdsAreOld(z, id);
    NothingSaid(z.srv, id, z.read);
    assert Unread(z') == Unread(z);
    forall k | k in z'.asked && !Current(z', k) ensures Finished(z', k) {
      assert Finished(z, k);
    }
    forall k | k in z'.srv.calls && !Current(z', k) ensures Quiet(z'.srv.calls[k]) {
      assert !Current(z, k);
    }
  }

  lemma {:induction false} BeginKeeps(z: Sys, f: Form, func: bytes, args: seq<Value>)
    requires SysInv(z) && Allowed(Matched, z, Begin(f, func, args))
    ensures SysInv(DoBegin(z, f, func, args))
  {
    hide Inv, Sync, Cut, UpInv, AskedInv, Fits, Mismatched, Enabled, Incoming, LogInv, ShapeInv, OutputInv;
    LogOf(z.srv);
    BeginBooks(z, f, func, args);
    if !z.srv.out.broken {
      if z.client.failed == {} { BeginSync(z, f, func, args); } else { BeginCut(z, f, func, args); }
    }
  }

  lemma {:induction false} BeginCut(z: Sys, f: Form, func: bytes, args: seq<Value>)
    requires Cut(z) && AskedInv(z) && LogInv(z.srv) && Can(z, Begin(f, func, args))
    ensures Cut(DoBegin(z, f, func, args))
  {
    hide Fits, Quiet, FramesOf, Offset, Enabled, Incoming, Encode, LogInv, AskedInv;
    var z', id := DoBegin(z, f, func, args), z.client.nextId + 1;
    IdsAreOld(z, id);
    NothingSaid(z.srv, id, |z.srv.out.log|);
    assert z.srv.out.log[..|z.srv.out.log|] == z.srv.out.log;
    forall k | k in z.client.failed ensures k in z'.asked && CutShort(z', k) {
      assert CutShort(z, k);
    }
    forall k | k in z'.asked && !Current(z', k) && k !in z.client.failed ensures Finished(z', k) {
      assert Finished(z, k);
    }
    forall k | k in z'.srv.calls && !Current(z', k) && k !in z.client.failed ensures Quiet(z'.srv.calls[k]) {
      assert !Current(z, k);
    }
  }

  lemma {:induction false} LogOf(s: Conn)
    requires Inv(s)
    ensures LogInv(s) && OutputInv(s.out) && ShapeInv(s)
  {
    hide LockInv, LogInv, ShapeInv, QueueInv, FlowInv, LoopInv, OutputInv;
  }

  /** One more message for the current stream; a closing message may also mark the client's half closed. */
  lemma {:induction false} SendUpBooks(z: Sys, z': Sys, m: Outgoing)
    requires UpInv(z) && AskedInv(z) && z' == z.(client := z.client.(phase := z'.client.phase), up := z.up + [m])
    requires Fits(m) && (m.id == z.client.nextId || m.id in z.asked) && Streamy(m)
    ensures UpInv(z') && AskedInv(z')
  {
    hide Fits, Received;
    assert forall i :: z.consumed <= i < |z.up| ==> SentOk(z, z.up[i]) && z'.up[i] == z.up[i];
  }

  lemma {:induction false} SendUpSync(z: Sys, z': Sys, m: Outgoing)
    requires Sync(z) && z' == z.(client := z.client.(phase := z'.client.phase), up := z.up + [m])
    requires z.client.phase.Open? && z'.client.phase.Open? && z'.client.phase.form == z.client.phase.form
    ensures Sync(z')
  {
    hide Fits, Quiet, Heard, FramesOf, Offset, FindHandler, OnlyChunks, AllFor;
    assert Unread(z') == Unread(z) && ReadSoFar(z') == ReadSoFar(z);
    forall id | id in z.asked && !Current(z, id) ensures Finished(z', id) {
      assert Finished(z, id);
    }
  }

  lemma {:induction false} ClosesFit(id: uint64)
    ensures Fits(StreamEnd(id)) && Fits(StreamClose(id))
  {
    hide EntryBytes, EncMap;
    SmallEntries(Entries(StreamEnd(id)));
    SmallEntries(Entries(StreamClose(id)));
  }

  /** Sending changes nothing about what was or will be heard. */
  lemma {:induction false} SendCut(z: Sys, z': Sys)
    requires Cut(z) && z' == z.(client := z.client.(phase := z'.client.phase), up := z'.up)
    requires z'.client.phase.Open? <==> z.client.phase.Open?
    ensures Cut(z')
  {
    hide Fits, Quiet, Heard, FramesOf, Offset, OnlyChunks;
    assert forall id :: Current(z', id) == Current(z, id);
    assert forall id :: CutShort(z', id) == CutShort(z, id);
    forall id | id in z.asked && !Current(z, id) && id !in z.client.failed ensures Finished(z', id) {
      assert Finished(z, id);
    }
  }

  lemma {:induction false} SendUpKeeps(z: Sys, mv: Move)
    requires SysInv(z) && Can(z, mv) && (mv.SendChunk? || mv.SendClose?)
    ensures SysInv(Do(z, mv))
  {
    hide Inv, Sync, Cut, UpInv, AskedInv, Fits, Enabled, Incoming;
    var z' := Do(z, mv);
    ClosesFit(z.client.nextId);
    var m := if mv.SendChunk? then StreamChunk(z.client.nextId, mv.value) else CloseOf(z.client.nextId, z.client.phase.form);
    SendUpBooks(z, z', m);
    if !z.srv.out.broken {
      if z.client.failed == {} { SendUpSync(z, z', m); } else { SendCut(z, z'); }
    }
  }

  /** A message for any call ever begun, whatever has become of it, keeps client and server in step. */
  lemma {:induction false} StrayKeeps(z: Sys, m: Outgoing)
    requires SysInv(z) && Can(z, Stray(m))
    ensures SysInv(Do(z, Stray(m)))
  {
    hide Inv, Sync, Cut, UpInv, AskedInv, Fits, Enabled, Incoming;
    var z' := Do(z, Stray(m));
    SendUpBooks(z, z', m);
    if !z.srv.out.broken {
      if z.client.failed == {} { SyncIgnoresUp(z, z'); } else { SendCut(z, z'); }
    }
  }

  // ---------------------------------------------------------------------------
  // The client reads
  // ---------------------------------------------------------------------------

  /** The next frame the client parses is the next message of the log, decoded as it was sent. */
  lemma {:induction false} ReadsNext(z: Sys)
    requires ReadInv(z) && OutputInv(z.srv.out) && !z.srv.out.broken && Incoming(z).Some?
    ensures z.read < |z.srv.out.log| && AllFit(z.srv.out.log)
    ensures var (p, rest) := Incoming(z).value;
            && p == Encode(z.srv.out.log[z.read])
            && |z.srv.out.wire| - |rest| == Offset(z.srv.out.log, z.read + 1)
            && Decode(p) == Some(Received(z.srv.out.log[z.read]))
  {
    hide Encode, Decode, Received, ParseOne, Partial, Offset;
    var o := z.srv.out;
    if z.read == |o.log| {
      NothingUnread(o);
    } else {
      NextFrame(o, z.read);
      Delivered(o.log[z.read]);
    }
  }

  /** Reading a frame of the current call moves it from the unread to the heard part. */
  lemma {:induction false} ReadMoves(log: seq<Outgoing>, n: nat, id: uint64)
    requires n < |log| && log[n].id == id
    ensures FramesOf(log[..n + 1], id) == FramesOf(log[..n], id) + [log[n]]
    ensures log[n..] == [log[n]] + log[n + 1..]
  {
    hide FramesOf;
    assert log[..n + 1] == log[..n] + [log[n]];
    FramesOfAppend(log[..n], log[n], id);
  }

  /** If everything unread is one call's, that call's frames are what was read of it and then the rest. */
  lemma {:induction false} AllFramesOf(log: seq<Outgoing>, n: nat, id: uint64)
    requires n <= |log| && AllFor(log[n..], id)
    ensures FramesOf(log, id) == FramesOf(log[..n], id) + log[n..]
    decreases |log| - n
  {
    hide FramesOf;
    if n == |log| {
      assert log[..n] == log;
    } else {
      assert log[n] == log[n..][0];
      ReadMoves(log, n, id);
      var t := log[n + 1..];
      forall i | 0 <= i < |t| ensures t[i].id == id { assert t[i] == log[n..][i + 1]; }
      AllFramesOf(log, n + 1, id);
      assert FramesOf(log[..n], id) + [log[n]] + log[n + 1..] == FramesOf(log[..n], id) + log[n..];
    }
  }

  /** A terminal is the last frame of its call, and a call that has sent it is quiet. */
  lemma {:induction false} TerminalIsLast(id: uint64, c: Call, broken: bool, k: nat)
    requires Shape(id, c, broken) && k < |c.emitted| && !c.emitted[k].StreamChunk?
    ensures k == |c.emitted| - 1 && Quiet(c) && Terminal(c.emitted[k])
  {
    hide Fits;
    var e := c.emitted;
    assert forall i :: 0 <= i < |e| - 1 ==> e[..|e| - 1][i] == e[i];
  }

  lemma {:induction false} ChunkMeansEmits(id: uint64, c: Call, broken: bool, k: nat)
    requires Shape(id, c, broken) && k < |c.emitted| && c.emitted[k].StreamChunk?
    ensures Emits(c.kind)
  {
    hide Fits, MayEnd, Chunky;
  }

  lemma {:induction false} HeardAppend(ms: seq<Outgoing>, m: Outgoing)
    ensures Heard(ms + [m]) == Heard(ms) + [Received(m)]
  {
    hide Received;
  }

  /** The frame about to be read belongs to the current call, at this place of its word. */
  lemma {:induction false} NextIsOurs(z: Sys)
    requires Sync(z) && LogInv(z.srv) && z.client.phase.Open? && z.read < |z.srv.out.log|
    ensures var id, log := z.client.nextId, z.srv.out.log;
            && log[z.read].id == id && id in z.srv.calls
            && z.srv.calls[id].emitted == ReadSoFar(z) + [log[z.read]] + log[z.read + 1..]
  {
    hide Fits, Quiet, Finished, FramesOf, Offset, OnlyChunks, Heard, SingleReply;
    var id, log := z.client.nextId, z.srv.out.log;
    assert Unread(z)[0] == log[z.read];
    AllFramesOf(log, z.read, id);
    ReadMoves(log, z.read, id);
    assert ReadSoFar(z) + ([log[z.read]] + log[z.read + 1..]) == ReadSoFar(z) + [log[z.read]] + log[z.read + 1..];
  }

  lemma {:induction false} StaysFinished(z: Sys, z': Sys, k: uint64)
    requires Finished(z, k) && z'.srv == z.srv
    requires k in z.client.heard ==> k in z'.client.heard && z'.client.heard[k] == z.client.heard[k]
    ensures Finished(z', k)
  {
    hide Quiet, Terminal, Heard;
  }

  lemma {:induction false} TailFor(log: seq<Outgoing>, n: nat, id: uint64)
    requires n < |log| && AllFor(log[n..], id)
    ensures AllFor(log[n + 1..], id)
  {
    var t := log[n + 1..];
    forall i | 0 <= i < |t| ensures t[i].id == id { assert t[i] == log[n..][i + 1]; }
  }

  lemma {:induction false} ReadChunkFlight(z: Sys, z': Sys)
    requires z.client.phase.Open? && InFlight(z) && z.read < |z.srv.out.log| && !OneShot(z.client.phase.form)
    requires var m, id := z.srv.out.log[z.read], z.client.nextId;
             && m.StreamChunk? && m.id == id
             && z' == z.(at := z'.at, read := z.read + 1,
                         client := z.client.(heard := z.client.heard[id := z.client.heard[id] + [Received(m)]]))
    ensures InFlight(z')
  {
    hide FramesOf, Received, Heard, AllFor, SingleReply;
    var id, log := z.client.nextId, z.srv.out.log;
    ReadMoves(log, z.read, id);
    HeardAppend(ReadSoFar(z), log[z.read]);
    TailFor(log, z.read, id);
  }

  /** After reading a chunk of a multi-read form the call is still in flight. */
  lemma {:induction false} ReadChunkSync(z: Sys, z': Sys)
    requires Sync(z) && LogInv(z.srv) && z.client.phase.Open? && z.read < |z.srv.out.log|
    requires var m := z.srv.out.log[z.read];
             && m.StreamChunk? && !OneShot(z.client.phase.form)
             && z.client.nextId in z.client.heard
             && z' == z.(at := Offset(z.srv.out.log, z.read + 1), read := z.read + 1,
                         client := z.client.(heard := z.client.heard[z.client.nextId := z.client.heard[z.client.nextId] + [Received(m)]]))
    ensures Sync(z')
  {
    hide Fits, Quiet, FramesOf, Offset, Received, LogInv, InFlight, Finished, Unread;
    NextIsOurs(z);
    ReadChunkFlight(z, z');
    forall k | k in z.asked && !Current(z', k) ensures Finished(z', k) {
      StaysFinished(z, z', k);
    }
  }

  /** After reading the terminal the call is over, nothing is unread and nobody else can speak. */
  lemma {:induction false} ReadTerminalSync(z: Sys, z': Sys)
    requires Sync(z) && LogInv(z.srv) && ShapeInv(z.srv) && z.client.phase.Open? && z.read < |z.srv.out.log|
    requires var m := z.srv.out.log[z.read];
             && !m.StreamChunk?
             && z.client.nextId in z.client.heard
             && z' == z.(at := Offset(z.srv.out.log, z.read + 1), read := z.read + 1,
                         client := z.client.(phase := ClientPhase.Idle,
                                             heard := z.client.heard[z.client.nextId := z.client.heard[z.client.nextId] + [Received(m)]]))
    ensures Sync(z')
  {
    hide Fits, FramesOf, Offset, SingleReply, Received, LogInv, Shape, Quiet, OnlyChunks, AllFor;
    var id, log := z.client.nextId, z.srv.out.log;
    NextIsOurs(z);
    var c, k := z.srv.calls[id], |ReadSoFar(z)|;
    assert c.emitted[k] == log[z.read];
    TerminalIsLast(id, c, z.srv.out.broken, k);
    assert log[z.read + 1..] == [];
    assert c.emitted == ReadSoFar(z) + [log[z.read]];
    HeardAppend(ReadSoFar(z), log[z.read]);
    assert Finished(z', id);
    forall j | j in z.asked && !Current(z', j) ensures Finished(z', j) {
      if j != id { StaysFinished(z, z', j); }
    }
  }

  lemma {:induction false} ReadKeeps(z: Sys)
    requires SysInv(z) && Can(z, Read)
    ensures SysInv(DoRead(z))
  {
    hide Inv, Sync, Cut, UpInv, AskedInv, Fits, Enabled, Incoming, LogInv, ShapeInv, OutputInv, Decode, Received, StrEq, Offset;
    LogOf(z.srv);
    var z' := DoRead(z);
    ReadBooks(z, z');
    if !z.srv.out.broken {
      if z.client.failed != {} { CutHasNothing(z); }
      SyncParts(z);
      ReadsNext(z);
      ReadSync(z, z', Incoming(z).value.0, Incoming(z).value.1);
    }
  }

  lemma {:induction false} CutHasNothing(z: Sys)
    requires Cut(z) && OutputInv(z.srv.out) && !z.srv.out.broken
    ensures Incoming(z).None?
  {
    hide Quiet, Finished, CutShort, ParseOne, Partial, Fits, OutputInv;
    NothingUnread(z.srv.out);
  }

  /** The client has read every complete frame when its read fails. */
  lemma {:induction false} FailsAtTheEnd(z: Sys)
    requires ReadInv(z) && OutputInv(z.srv.out) && !z.srv.out.broken && Incoming(z).None?
    ensures z.read == |z.srv.out.log|
  {
    hide Encode, ParseOne, Partial, OutputInv, Fits;
    if z.read < |z.srv.out.log| { NextFrame(z.srv.out, z.read); }
  }

  lemma {:induction false} FirstFailure(z: Sys)
    requires Sync(z) && OutputInv(z.srv.out) && !z.srv.out.broken && Can(z, ReadFails) && z.client.failed == {}
    ensures Cut(DoReadFails(z))
  {
    hide Quiet, Fits, FramesOf, Offset, OutputInv, Enabled, Incoming, Heard, OnlyChunks, AllFor, SingleReply;
    FailsAtTheEnd(z);
    var z' := DoReadFails(z);
    assert z.srv.out.log[..z.read] == z.srv.out.log;
    forall k | k in z'.asked && !Current(z', k) && k !in z'.client.failed ensures Finished(z', k) {
      assert Finished(z, k);
    }
  }

  lemma {:induction false} FurtherFailure(z: Sys)
    requires Cut(z) && Can(z, ReadFails)
    ensures Cut(DoReadFails(z))
  {
    hide Quiet, Fits, FramesOf, Offset, Enabled, Incoming, Heard, OnlyChunks;
    var z' := DoReadFails(z);
    assert forall id :: CutShort(z', id) == CutShort(z, id);
    forall k | k in z'.asked && !Current(z', k) && k !in z'.client.failed ensures Finished(z', k) {
      assert Finished(z, k);
    }
  }

  lemma {:induction false} ReadFailsKeeps(z: Sys)
    requires SysInv(z) && Can(z, ReadFails)
    ensures SysInv(DoReadFails(z))
  {
    hide Inv, Sync, Cut, UpInv, AskedInv, Fits, Enabled, Incoming, LogInv, ShapeInv, OutputInv;
    LogOf(z.srv);
    ReadBooks(z, DoReadFails(z));
    if !z.srv.out.broken {
      if z.client.failed == {} { FirstFailure(z); } else { FurtherFailure(z); }
    }
  }

  predicate Reads(z: Sys, z': Sys) {
    Can(z, Read) && z' == DoRead(z)
  }

  lemma {:induction false} ReadSync(z: Sys, z': Sys, p: bytes, rest: bytes)
    requires z.read < |z.srv.out.log| && AllFit(z.srv.out.log) && z.client.nextId in z.client.heard
    requires |z.srv.out.wire| - |rest| == Offset(z.srv.out.log, z.read + 1)
    requires Incoming(z) == Some((p, rest)) && Decode(p) == Some(Received(z.srv.out.log[z.read]))
    requires Sync(z) && LogInv(z.srv) && ShapeInv(z.srv) && Reads(z, z')
    ensures Sync(z')
  {
    hide Sync, Fits, Enabled, Incoming, LogInv, ShapeInv, Decode, Received, StrEq, Offset;
    var m := z.srv.out.log[z.read];
    TypeTells(m);
    if m.StreamChunk? {
      NoChunkForOneShot(z);
      ReadChunkSync(z, z');
    } else {
      ReadTerminalSync(z, z');
    }
  }

  lemma {:induction false} SyncParts(z: Sys)
    requires Sync(z) && z.client.phase.Open?
    ensures ReadInv(z) && z.client.nextId in z.client.heard
  {
    hide Quiet, Finished, ReadSoFar, Unread, ReadInv, SingleReply;
  }

  lemma {:induction false} NoChunkForOneShot(z: Sys)
    requires Sync(z) && LogInv(z.srv) && ShapeInv(z.srv) && z.client.phase.Open? && z.read < |z.srv.out.log|
    requires z.srv.out.log[z.read].StreamChunk?
    ensures !OneShot(z.client.phase.form)
  {
    hide Fits, Quiet, Finished, FramesOf, Offset, OnlyChunks, Heard, FindHandler, AllFor, LogInv, Shape;
    NextIsOurs(z);
    var id := z.client.nextId;
    assert z.srv.calls[id].emitted[|ReadSoFar(z)|] == z.srv.out.log[z.read];
    ChunkMeansEmits(id, z.srv.calls[id], z.srv.out.broken, |ReadSoFar(z)|);
  }

  lemma {:induction false} ReadBooks(z: Sys, z': Sys)
    requires UpInv(z) && AskedInv(z) && z'.client.nextId == z.client.nextId
    requires z'.asked == z.asked && z'.up == z.up && z'.consumed == z.consumed && z'.srv == z.srv
    ensures UpInv(z') && AskedInv(z')
  {
    hide Fits, Received;
  }

  // ---------------------------------------------------------------------------
  // All moves, all runs
  // ---------------------------------------------------------------------------

  lemma {:induction false} MoveKeeps(z: Sys, mv: Move)
    requires SysInv(z) && Allowed(Matched, z, mv)
    ensures SysInv(Do(z, mv))
  {
    hide SysInv, DoBegin, DoRead, DoReadFails, DoSendClose, Mismatched, Incoming, Enabled, Fits;
    match mv
    case Begin(f, func, args) => BeginKeeps(z, f, func, args);
    case SendChunk(_) => SendUpKeeps(z, mv);
    case SendClose => SendUpKeeps(z, mv);
    case Stray(m) => StrayKeeps(z, m);
    case Read => ReadKeeps(z);
    case ReadFails => ReadFailsKeeps(z);
    case Serve(a) => ServeKeeps(z, a);
  }

  /** What an orderly client may do, a matched one may. */
  lemma {:induction false} StillMatched(care: Care, z: Sys, mv: Move)
    requires Allowed(care, z, mv) && !care.Anyhow?
    ensures Allowed(Matched, z, mv)
  {
    hide Can, Mismatched;
  }

  lemma {:induction false} RunSys(care: Care, z: Sys, moves: seq<Move>)
    requires SysInv(z) && Run(care, z, moves) && !care.Anyhow?
    ensures SysInv(EndOfRun(care, z, moves))
    decreases |moves|
  {
    hide SysInv, Can, Mismatched, Do;
    if moves != [] {
      StillMatched(care, z, moves[0]);
      MoveKeeps(z, moves[0]);
      RunSys(care, Do(z, moves[0]), moves[1..]);
    }
  }

  lemma {:induction false} StartInv(registry: seq<Handler>)
    requires Exported(registry)
    ensures SysInv(InitialSystem(registry))
  {
    InitInv(registry);
    hide Inv;
  }
}
