/**
 * Writers sharing one socket (c/src/server.c:174-179 over c/src/framing.c:26-36, 76-94).
 *
 * A writer takes the connection's write lock, hands its frame to the network in any number
 * of partial sends, and releases the lock. The state records the bytes sent so far and the
 * frames that are complete on the wire.
 */
module WriteLock {
  import opened Bytes
  import opened Framing
  import opened Message

  /** The lock holder, the message it is writing and how many bytes of its frame have been sent. */
  datatype Hold = Hold(who: uint64, msg: Outgoing, sent: nat)

  datatype Output = Output(hold: Option<Hold>, log: seq<Outgoing>, wire: bytes, broken: bool)

  const Idle := Output(None, [], [], false)

  /** The encoder's buffer and the framing limit both let the message through. */
  predicate Fits(m: Outgoing) {
    |Encode(m)| <= MAX_FRAME
  }

  function FrameOf(m: Outgoing): bytes
    requires Fits(m)
  {
    Frame(Encode(m))
  }

  lemma {:induction false} FrameNotEmpty(m: Outgoing)
    requires Fits(m)
    ensures |FrameOf(m)| > 0
  {
    hide Encode;
  }

  predicate CanAcquire(o: Output, m: Outgoing) {
    o.hold.None? && Fits(m)
  }

  function Acquire(o: Output, who: uint64, m: Outgoing): Output {
    o.(hold := Some(Hold(who, m, 0)))
  }

  predicate Sending(o: Output) {
    o.hold.Some? && Fits(o.hold.value.msg) && o.hold.value.sent < |FrameOf(o.hold.value.msg)|
  }

  predicate CanTransmit(o: Output, k: nat) {
    Sending(o) && 0 < k <= |FrameOf(o.hold.value.msg)| - o.hold.value.sent
  }

  /** The send that completes the frame puts the message in the log. */
  predicate Completes(o: Output, k: nat)
    requires CanTransmit(o, k)
  {
    o.hold.value.sent + k == |FrameOf(o.hold.value.msg)|
  }

  /** One successful `send` of `k` bytes. */
  function Transmit(o: Output, k: nat): Output
    requires CanTransmit(o, k)
  {
    var h := o.hold.value;
    o.(hold := Some(h.(sent := h.sent + k)),
       wire := o.wire + FrameOf(h.msg)[h.sent..h.sent + k],
       log := if Completes(o, k) then o.log + [h.msg] else o.log)
  }

  predicate CanRelease(o: Output) {
    o.hold.Some? && Fits(o.hold.value.msg) && o.hold.value.sent == |FrameOf(o.hold.value.msg)|
  }

  function Release(o: Output): Output {
    o.(hold := None)
  }

  /** A failed `send`: the writer gives up mid-frame and releases the lock all the same. */
  function Break(o: Output): Output {
    o.(hold := None, broken := true)
  }

  // ---------------------------------------------------------------------------
  // The invariant
  // ---------------------------------------------------------------------------

  predicate AllFit(log: seq<Outgoing>) {
    forall i :: 0 <= i < |log| ==> Fits(log[i])
  }

  function Payloads(log: seq<Outgoing>): (ps: seq<payload>)
    requires AllFit(log)
  {
    seq(|log|, i requires 0 <= i < |log| => Encode(log[i]))
  }

  /** What the lock holder has sent of a frame that is not complete yet. */
  function Partial(o: Output): bytes {
    if Sending(o) then FrameOf(o.hold.value.msg)[..o.hold.value.sent] else []
  }

  predicate Holds(o: Output) {
    o.hold.Some? ==> Fits(o.hold.value.msg) && o.hold.value.sent <= |FrameOf(o.hold.value.msg)|
  }

  /** Until a send fails, the wire is whole frames followed by a proper prefix of the holder's frame. */
  predicate OutputInv(o: Output) {
    && AllFit(o.log)
    && Holds(o)
    && (!o.broken ==> o.wire == Frames(Payloads(o.log)) + Partial(o))
  }

  lemma {:induction false} InitOutput()
    ensures OutputInv(Idle)
  {
    assert Payloads([]) == [];
  }

  lemma {:induction false} AcquireKeeps(o: Output, who: uint64, m: Outgoing)
    requires OutputInv(o) && CanAcquire(o, m)
    ensures OutputInv(Acquire(o, who, m))
  {
    hide Encode;
  }

  lemma {:induction false} PayloadsAppend(log: seq<Outgoing>, m: Outgoing)
    requires AllFit(log) && Fits(m)
    ensures AllFit(log + [m]) && Payloads(log + [m]) == Payloads(log) + [Encode(m)]
  {
    hide Encode;
  }

  lemma {:induction false} LastSend(o: Output, k: nat)
    requires OutputInv(o) && CanTransmit(o, k) && Completes(o, k)
    ensures OutputInv(Transmit(o, k))
  {
    hide Encode, Frame, Frames, Payloads, AllFit;
    var h := o.hold.value;
    var f := FrameOf(h.msg);
    PayloadsAppend(o.log, h.msg);
    FramesAppend(Payloads(o.log), Encode(h.msg));
    assert !o.broken ==> o.wire + f[h.sent..h.sent + k] == Frames(Payloads(o.log)) + f by {
      assert f[..h.sent] + f[h.sent..h.sent + k] == f;
      assert Frames(Payloads(o.log)) + f[..h.sent] + f[h.sent..h.sent + k]
          == Frames(Payloads(o.log)) + (f[..h.sent] + f[h.sent..h.sent + k]);
    }
    assert !Sending(Transmit(o, k));
    assert Frames(Payloads(o.log)) + f + [] == Frames(Payloads(o.log)) + f;
  }

  lemma {:induction false} OtherSend(o: Output, k: nat)
    requires OutputInv(o) && CanTransmit(o, k) && !Completes(o, k)
    ensures OutputInv(Transmit(o, k))
  {
    hide Encode, Frame, Frames, Payloads, AllFit, Fits;
    var h := o.hold.value;
    var f := FrameOf(h.msg);
    assert f[..h.sent] + f[h.sent..h.sent + k] == f[..h.sent + k];
    assert Frames(Payloads(o.log)) + f[..h.sent] + f[h.sent..h.sent + k]
        == Frames(Payloads(o.log)) + (f[..h.sent] + f[h.sent..h.sent + k]);
  }

  lemma {:induction false} TransmitKeeps(o: Output, k: nat)
    requires OutputInv(o) && CanTransmit(o, k)
    ensures OutputInv(Transmit(o, k))
  {
    hide OutputInv, Transmit, CanTransmit;
    if Completes(o, k) { LastSend(o, k); } else { OtherSend(o, k); }
  }

  lemma {:induction false} ReleaseKeeps(o: Output)
    requires OutputInv(o) && CanRelease(o)
    ensures OutputInv(Release(o)) && OutputInv(Break(o))
  {
    hide Encode;
  }

  lemma {:induction false} BreakKeeps(o: Output)
    requires OutputInv(o)
    ensures OutputInv(Break(o))
  {
    hide Encode;
  }

  /** A reader of the wire recovers exactly the completed messages, in the order the lock was granted. */
  lemma {:induction false} WholeFrames(o: Output)
    requires OutputInv(o) && !o.broken
    ensures ParseAll(o.wire) == Payloads(o.log)
    ensures Leftover(o.wire) == Partial(o)
  {
    hide Encode;
    if Sending(o) {
      PartialFrame(Encode(o.hold.value.msg), o.hold.value.sent);
    }
    ParseAllFrames(Payloads(o.log), Partial(o));
  }

  /** Where a reader stands after the first `n` frames. */
  function Offset(log: seq<Outgoing>, n: nat): nat
    requires AllFit(log) && n <= |log|
  {
    |Frames(Payloads(log)[..n])|
  }

  lemma {:induction false} UnreadBytes(o: Output, n: nat)
    requires OutputInv(o) && !o.broken && n <= |o.log|
    ensures Offset(o.log, n) <= |o.wire|
    ensures o.wire[Offset(o.log, n)..] == Frames(Payloads(o.log)[n..]) + Partial(o)
  {
    hide Encode, Partial;
    var ps := Payloads(o.log);
    var a, b := ps[..n], ps[n..];
    assert ps == a + b;
    FramesConcat(a, b);
    assert o.wire == Frames(a) + (Frames(b) + Partial(o));
  }

  /** A client that has read the first `n` frames reads message `n` next, if it is complete. */
  lemma {:induction false} NextFrame(o: Output, n: nat)
    requires OutputInv(o) && !o.broken && n < |o.log|
    ensures Offset(o.log, n) <= |o.wire| && Offset(o.log, n + 1) <= |o.wire|
    ensures ParseOne(o.wire[Offset(o.log, n)..]) == Some((Encode(o.log[n]), o.wire[Offset(o.log, n + 1)..]))
  {
    hide Encode, Partial, ParseOne, Frame, Frames, Offset;
    UnreadBytes(o, n);
    UnreadBytes(o, n + 1);
    var b := Payloads(o.log)[n..];
    assert b[1..] == Payloads(o.log)[n + 1..];
    FirstFrame(b, Partial(o));
    ParseFrame(b[0], Frames(b[1..]) + Partial(o));
  }

  lemma {:induction false} FirstFrame(ps: seq<payload>, tail: bytes)
    requires ps != []
    ensures Frames(ps) + tail == Frame(ps[0]) + (Frames(ps[1..]) + tail)
  {
    hide Frame;
  }

  /** Once every completed frame has been read, no further frame can be parsed. */
  lemma {:induction false} NothingUnread(o: Output)
    requires OutputInv(o) && !o.broken
    ensures Offset(o.log, |o.log|) <= |o.wire|
    ensures o.wire[Offset(o.log, |o.log|)..] == Partial(o)
    ensures ParseOne(Partial(o)).None?
  {
    hide Encode;
    UnreadBytes(o, |o.log|);
    assert Payloads(o.log)[|o.log|..] == [];
    assert [] + Partial(o) == Partial(o);
    if Sending(o) {
      PartialFrame(Encode(o.hold.value.msg), o.hold.value.sent);
    }
  }
}
