/** What the client's program asked for and what went up the wire for it, over every run. */
module Begun {
  import opened Bytes
  import opened Framing
  import opened Mpack
  import opened Message
  import opened WriteLock
  import opened Server
  import opened System

  /**
   * The request for a call: the function's name, the stream flag only for a bidi call, and the
   * arguments for the two forms that take any.
   */
  predicate AsksFor(m: Outgoing, id: uint64, a: Ask) {
    && m.Request? && m.id == id && m.func == Some(a.func)
    && (m.stream <==> a.form.Duplex?)
    && (a.form.Plain? || a.form.Pull? ==> m.args == a.args)
    && (a.form.Export? || a.form.Duplex? ==> m.args == [])
  }

  /** Ids count the calls begun, and a request goes up for exactly those whose request fits a frame. */
  ghost predicate BegunInv(z: Sys) {
    && z.client.nextId == |z.begun|
    && (forall id :: id in z.asked ==> 1 <= id <= |z.begun| && AsksFor(z.asked[id], id, z.begun[id - 1]))
    && (forall id, m :: 1 <= id <= |z.begun| && AsksFor(m, id, z.begun[id - 1]) ==> (Fits(m) <==> id in z.asked))
  }

  lemma {:induction false} BeginBegun(z: Sys, f: Form, func: bytes, args: seq<Value>)
    requires BegunInv(z) && Can(z, Begin(f, func, args))
    ensures BegunInv(DoBegin(z, f, func, args))
  {
    hide Fits, Enabled, Incoming;
    var z', n := DoBegin(z, f, func, args), z.client.nextId + 1;
    assert AsksFor(RequestOf(n, f, func, args), n, z'.begun[n - 1]);
    forall id, m | 1 <= id <= |z'.begun| && AsksFor(m, id, z'.begun[id - 1]) ensures Fits(m) <==> id in z'.asked {
      if id == n { assert m == RequestOf(n, f, func, args); }
    }
  }

  lemma {:induction false} MoveBegun(z: Sys, mv: Move)
    requires BegunInv(z) && Can(z, mv)
    ensures BegunInv(Do(z, mv))
  {
    hide AsksFor, Enabled, Next, Incoming, Fits, Decode, StrEq, DoBegin;
    if mv.Begin? { BeginBegun(z, mv.form, mv.func, mv.args); }
  }

  lemma {:induction false} RunBegun(care: Care, z: Sys, moves: seq<Move>)
    requires BegunInv(z) && Run(care, z, moves)
    ensures BegunInv(EndOfRun(care, z, moves))
    decreases |moves|
  {
    hide BegunInv, Can, Do, Mismatched;
    if moves != [] {
      MoveBegun(z, moves[0]);
      RunBegun(care, Do(z, moves[0]), moves[1..]);
    }
  }

  /**
   * On every run, call n was sent as the n-th use of a calling function asked: under that name,
   * with those arguments, and with the stream flag exactly for a bidi call. It was not sent
   * exactly when that does not fit a frame.
   */
  lemma {:induction false} SentAsAsked(care: Care, registry: seq<Handler>, z: Sys)
    requires Arrives(care, registry, z)
    ensures z.client.nextId == |z.begun|
    ensures forall id :: id in z.asked ==> 1 <= id <= |z.begun| && AsksFor(z.asked[id], id, z.begun[id - 1])
    ensures forall id, m :: 1 <= id <= |z.begun| && AsksFor(m, id, z.begun[id - 1]) ==> (Fits(m) <==> id in z.asked)
  {
    hide Run, EndOfRun, Fits, AsksFor;
    var moves :| Run(care, InitialSystem(registry), moves) && EndOfRun(care, InitialSystem(registry), moves) == z;
    RunBegun(care, InitialSystem(registry), moves);
  }

  // ---------------------------------------------------------------------------
  // A careful program
  // ---------------------------------------------------------------------------

  /** No single-read form was used on a streaming function. */
  predicate AllMatched(registry: seq<Handler>, z: Sys) {
    && z.srv.registry == registry
    && forall i :: 0 <= i < |z.begun| ==> !Mismatched(registry, z.begun[i].form, z.begun[i].func)
  }

  lemma {:induction false} SameRegistry(s: Conn, a: Action)
    requires Enabled(s, a)
    ensures Next(s, a).registry == s.registry
  {
    hide Decode, StrEq, IsStreamFrame, ItemFor, Judge, Fits, CanTransmit, CanAcquire, CanRelease, Outcome, ChunkTrees, FreedByPush, FrameOf;
  }

  lemma {:induction false} MoveMatched(care: Care, registry: seq<Handler>, z: Sys, mv: Move)
    requires !care.Anyhow? && AllMatched(registry, z) && Allowed(care, z, mv)
    ensures AllMatched(registry, Do(z, mv))
  {
    hide Mismatched, Enabled, Next, Incoming, Fits, Decode, StrEq, NotEnded;
    if mv.Serve? { SameRegistry(z.srv, mv.a); }
  }

  lemma {:induction false} RunMatched(care: Care, registry: seq<Handler>, z: Sys, moves: seq<Move>)
    requires !care.Anyhow? && AllMatched(registry, z) && Run(care, z, moves)
    ensures AllMatched(registry, EndOfRun(care, z, moves))
    decreases |moves|
  {
    hide AllMatched, Can, Do, Mismatched, NotEnded;
    if moves != [] {
      MoveMatched(care, registry, z, moves[0]);
      RunMatched(care, registry, Do(z, moves[0]), moves[1..]);
    }
  }

  lemma {:induction false} ArrivesMatched(care: Care, registry: seq<Handler>, z: Sys)
    requires !care.Anyhow? && Arrives(care, registry, z)
    ensures AllMatched(registry, z)
  {
    hide Run, EndOfRun;
    var moves :| Run(care, InitialSystem(registry), moves) && EndOfRun(care, InitialSystem(registry), moves) == z;
    RunMatched(care, registry, InitialSystem(registry), moves);
  }
}
