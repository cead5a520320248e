/**
 * The TypeScript client's event-driven frame reader (ts/src/framing.ts:8-69).
 *
 * Socket callbacks append to a buffer and resolve the promises of suspended readers; a
 * reader re-checks the buffer each time it is resumed. One read loop uses the reader. Any
 * interleaving of callbacks and resumptions is a run. Unlike the C reader this one has no
 * limit on the frame length.
 */
module BufferedReader {
  import opened Bytes
  import opened Framing

  /** What fits the four-byte length. */
  type chunk = p: bytes | |p| < TWO_32 witness []

  function Encoded(ps: seq<chunk>): bytes {
    if ps == [] then [] else Encoded(ps[..|ps| - 1]) + (U32(|ps[|ps| - 1]|) + ps[|ps| - 1])
  }

  /** One frame and what follows it, with no limit on its length. */
  function Cut(s: bytes): Option<(chunk, bytes)> {
    if |s| < 4 then None
    else
      var len := FromU32(s[..4]);
      if |s| < 4 + len then None else Some((s[4..4 + len], s[4 + len..]))
  }

  function CutAll(s: bytes): seq<chunk>
    decreases |s|
  {
    match Cut(s)
    case None => []
    case Some((p, rest)) => [p] + CutAll(rest)
  }

  lemma {:induction false} CutFrame(p: chunk, rest: bytes)
    ensures Cut(U32(|p|) + p + rest) == Some((p, rest))
  {
    hide U32, FromU32;
    U32RoundTrip(|p|);
    var s := U32(|p|) + p + rest;
    assert s[..4] == U32(|p|) && s[4..4 + |p|] == p && s[4 + |p|..] == rest;
  }

  /** Frames that have been written are cut again, in order, before whatever follows. */
  lemma {:induction false} CutEncoded(ps: seq<chunk>, rest: bytes)
    ensures CutAll(Encoded(ps) + rest) == ps + CutAll(rest)
    decreases |ps|
  {
    hide U32, FromU32, Cut;
    if ps == [] {
      assert Encoded(ps) + rest == rest;
    } else {
      var p, front := ps[|ps| - 1], ps[..|ps| - 1];
      var f := U32(|p|) + p + rest;
      assert Encoded(ps) + rest == Encoded(front) + f;
      CutEncoded(front, f);
      CutFrame(p, rest);
      assert front + ([p] + CutAll(rest)) == ps + CutAll(rest);
    }
  }

  /** Every frame is within the C reader's limit. */
  predicate WithinLimit(ps: seq<chunk>) {
    forall i :: 0 <= i < |ps| ==> |ps[i]| <= MAX_FRAME
  }

  /** The two readers return the same frames exactly when every frame of the input is within the C limit. */
  lemma {:induction false} AgreesWithC(s: bytes)
    ensures CutAll(s) == ParseAll(s) <==> WithinLimit(CutAll(s))
    decreases |s|
  {
    hide FromU32;
    match Cut(s)
    case None =>
    case Some((p, rest)) =>
      AgreesWithC(rest);
      var all := CutAll(s);
      assert all[0] == p && all[1..] == CutAll(rest);
      if |p| <= MAX_FRAME {
        assert ParseOne(s) == Some((p, rest));
        assert ParseAll(s)[1..] == ParseAll(rest);
        assert forall i :: 0 <= i < |CutAll(rest)| ==> CutAll(rest)[i] == all[i + 1];
      }
  }

  /** The smallest difference: one complete frame over the limit is returned by one reader and refused by the other. */
  lemma {:induction false} OversizedFrame(p: chunk)
    requires |p| > MAX_FRAME
    ensures CutAll(U32(|p|) + p) == [p]
    ensures ParseAll(U32(|p|) + p) == []
  {
    hide FromU32, U32;
    var s := U32(|p|) + p;
    assert s + [] == s && U32(|p|) + p + [] == s;
    CutFrame(p, []);
    U32RoundTrip(|p|);
    assert s[..4] == U32(|p|);
  }

  lemma {:induction false} U32Back(b: bytes)
    requires |b| == 4
    ensures U32(FromU32(b)) == b
  {
    hide U16, FromU16;
    U16Back(b[..2]);
    U16Back(b[2..]);
    var hi, lo := FromU16(b[..2]), FromU16(b[2..]);
    assert (hi * TWO_16 + lo) / TWO_16 == hi && (hi * TWO_16 + lo) % TWO_16 == lo;
    assert b == b[..2] + b[2..];
  }

  lemma {:induction false} U16Back(b: bytes)
    requires |b| == 2
    ensures U16(FromU16(b)) == b
  {
    assert b == [b[0], b[1]];
  }

  lemma {:induction false} EncodedAppend(ps: seq<chunk>, p: chunk)
    ensures Encoded(ps + [p]) == Encoded(ps) + (U32(|p|) + p)
  {
    hide U32;
    assert (ps + [p])[..|ps|] == ps;
  }

  /** Fewer bytes than the header announces hold no frame. */
  lemma {:induction false} TooShort(stage: Stage, buf: bytes)
    requires stage.Body? ==> stage.len < TWO_32
    requires |buf| < if stage.Header? then 4 else stage.len
    ensures CutAll((if stage.Body? then U32(stage.len) else []) + buf) == []
  {
    hide U32, FromU32;
    if stage.Body? {
      U32RoundTrip(stage.len);
      assert (U32(stage.len) + buf)[..4] == U32(stage.len);
    }
  }

  datatype Stage = Header | Body(len: nat)

  /** The read loop: able to run, suspended on a promise, or ended by the thrown error. */
  datatype Status = Ready | Waiting(ticket: nat) | Thrown

  datatype Event = Data(bs: bytes) | Close | Step

  function Received(events: seq<Event>): bytes {
    if events == [] then [] else Received(events[..|events| - 1]) + match events[|events| - 1] case Data(bs) => bs case _ => []
  }

  class Reader {
    var buf: bytes
    var waiters: seq<nat>
    var closed: bool
    var resolved: set<nat>
    var tickets: nat
    var stage: Stage
    var status: Status
    var frames: seq<chunk>
    ghost var input: bytes
    ghost var atThrow: bytes

    function Need(): nat
      reads `stage
    {
      if stage.Header? then 4 else stage.len
    }

    /** The bytes of the frame being read and all that follows. */
    ghost function Pending(): bytes
      reads `stage, `buf
      requires stage.Body? ==> stage.len < TWO_32
    {
      (if stage.Body? then U32(stage.len) else []) + buf
    }

    /** Nothing is lost, doubled or reordered. */
    ghost predicate Whole()
      reads `stage, `buf, `frames, `input
    {
      && (stage.Body? ==> 0 < stage.len < TWO_32)
      && input == Encoded(frames) + Pending()
    }

    /** No missed wake-up: a reader parked on an unresolved promise has neither enough bytes nor a close. */
    ghost predicate Awake()
      reads this
    {
      && (forall t :: t in waiters || t in resolved ==> t < tickets)
      && (status.Waiting? ==> status.ticket in waiters || status.ticket in resolved)
      && (status.Waiting? && status.ticket in waiters ==> |buf| < Need() && !closed)
    }

    /** The error is thrown only once every complete frame has been returned. */
    ghost predicate Threw()
      reads this
    {
      status.Thrown? ==> closed && atThrow <= input && frames == CutAll(atThrow)
    }

    ghost predicate Valid()
      reads this
    {
      Whole() && Awake() && Threw()
    }

    constructor ()
      ensures Valid() && input == [] && frames == [] && !closed && status.Ready?
    {
      buf, waiters, closed, resolved, tickets := [], [], false, {}, 0;
      stage, status, frames, input, atThrow := Header, Ready, [], [], [];
    }

    /** `_drainWaiters`: resolve every parked promise. */
    method DrainWaiters()
      modifies `waiters, `resolved
      ensures waiters == []
      ensures forall t :: t in resolved <==> t in old(resolved) || t in old(waiters)
    {
      while |waiters| > 0
        invariant forall t :: t in resolved || t in waiters <==> t in old(resolved) || t in old(waiters)
        decreases |waiters|
      {
        ghost var before := waiters;
        resolved := resolved + {waiters[0]};
        waiters := waiters[1..];
        assert before == [before[0]] + waiters;
      }
    }

    method OnData(bs: bytes)
      requires Valid()
      modifies this
      ensures Valid() && input == old(input) + bs && frames == old(frames) && closed == old(closed)
      ensures status == old(status)
    {
      hide U32, CutAll, Encoded;
      ghost var p := Pending();
      buf := buf + bs;
      input := input + bs;
      assert Pending() == p + bs;
      assert input == Encoded(frames) + Pending();
      DrainWaiters();
    }

    method OnClose()
      requires Valid()
      modifies this
      ensures Valid() && closed && input == old(input) && frames == old(frames) && status == old(status)
    {
      hide U32, CutAll, Encoded;
      closed := true;
      DrainWaiters();
    }

    /** The read loop can be resumed. */
    predicate Runnable()
      reads this
    {
      status.Ready? || (status.Waiting? && status.ticket in resolved)
    }

    /** The loop condition of `readExactly` fails for good: everything complete has been returned. */
    lemma Exhausted()
      requires Whole() && |buf| < Need()
      ensures frames == CutAll(input)
    {
      hide U32, FromU32, Encoded, CutAll;
      TooShort(stage, buf);
      CutEncoded(frames, Pending());
    }

    /** The header is complete. */
    method TakeHeader()
      requires Whole() && stage.Header? && |buf| >= 4
      modifies `buf, `stage, `frames
      ensures Whole() && |buf| < old(|buf|) && old(frames) <= frames
    {
      hide U32, FromU32, Encoded;
      ghost var b := buf;
      U32Back(buf[..4]);
      var len := FromU32(buf[..4]);
      buf := buf[4..];
      assert b == b[..4] + buf;
      if len == 0 {
        EncodedAppend(frames, []);
        assert Encoded(frames) + (U32(0) + [] + buf) == Encoded(frames) + (U32(0) + []) + buf;
        assert U32(0) + [] + buf == b;
        frames := frames + [[]];
        assert [] + buf == buf;
      } else {
        stage := Body(len);
      }
    }

    /** The payload is complete. */
    method TakeBody()
      requires Whole() && stage.Body? && |buf| >= stage.len
      modifies `buf, `stage, `frames
      ensures Whole() && |buf| < old(|buf|) && old(frames) <= frames
    {
      hide U32, FromU32, Encoded;
      ghost var b := buf;
      var p: chunk := buf[..stage.len];
      buf := buf[stage.len..];
      assert b == p + buf;
      EncodedAppend(frames, p);
      assert Encoded(frames) + (U32(|p|) + b) == Encoded(frames) + (U32(|p|) + p) + buf;
      frames := frames + [p];
      stage := Header;
      assert [] + buf == buf;
    }

    /** The read loop runs from one check of the buffer to the next. */
    method Proceed()
      requires Valid() && Runnable()
      modifies this
      ensures Valid() && input == old(input) && closed == old(closed) && old(frames) <= frames
      ensures |buf| <= old(|buf|) && (Runnable() ==> |buf| < old(|buf|))
      ensures !Runnable() ==> frames == CutAll(input) && (status.Thrown? <==> closed)
    {
      hide U32, FromU32, Encoded, CutAll, Whole;
      if |buf| >= Need() {
        status := Ready;
        if stage.Header? { TakeHeader(); } else { TakeBody(); }
      } else {
        Exhausted();
        if closed {
          status, atThrow := Thrown, input;
        } else {
          status := Waiting(tickets);
          waiters := waiters + [tickets];
          tickets := tickets + 1;
        }
      }
    }

    /** Left to itself the read loop returns every complete frame, then waits or throws. */
    method Settle()
      requires Valid()
      modifies this
      ensures Valid() && !Runnable() && input == old(input) && closed == old(closed) && old(frames) <= frames
      ensures !old(status.Thrown?) ==> frames == CutAll(input) && (status.Thrown? <==> closed)
    {
      hide Valid, CutAll;
      if status.Waiting? && !Runnable() {
        Parked();
      }
      while Runnable()
        invariant Valid() && input == old(input) && closed == old(closed) && old(frames) <= frames
        invariant !Runnable() && !old(status.Thrown?) ==> frames == CutAll(input) && (status.Thrown? <==> closed)
        invariant old(status.Thrown?) ==> status.Thrown?
        decreases |buf|, Runnable()
      {
        Proceed();
      }
    }

    /** A reader that is suspended has returned every complete frame, and the socket is open. */
    lemma Parked()
      requires Valid() && status.Waiting? && !Runnable()
      ensures frames == CutAll(input) && !closed
    {
      Exhausted();
    }

    /** Any interleaving of callbacks and resumptions. */
    method Run(events: seq<Event>)
      requires Valid() && input == [] && frames == [] && status.Ready?
      modifies this
      ensures Valid() && input == Received(events)
      ensures frames <= CutAll(input)
      ensures status.Waiting? && !Runnable() ==> frames == CutAll(input) && !closed
      ensures status.Thrown? ==> closed && atThrow <= input && frames == CutAll(atThrow)
    {
      hide Valid, CutAll;
      var i := 0;
      while i < |events|
        invariant 0 <= i <= |events| && Valid() && input == Received(events[..i])
      {
        assert events[..i + 1][..i] == events[..i];
        match events[i] {
          case Data(bs) => OnData(bs);
          case Close => OnClose();
          case Step => if Runnable() { Proceed(); }
        }
        i := i + 1;
      }
      assert events[..i] == events;
      Delivered();
    }

    /** At every moment the frames returned are the first frames of the bytes received. */
    lemma Delivered()
      requires Valid()
      ensures frames <= CutAll(input)
      ensures status.Waiting? && !Runnable() ==> frames == CutAll(input) && !closed
      ensures status.Thrown? ==> closed && atThrow <= input && frames == CutAll(atThrow)
    {
      CutEncoded(frames, Pending());
      if status.Waiting? && !Runnable() { Parked(); }
    }
  }
}
