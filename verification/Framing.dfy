/**
 * Length-prefixed framing (c/src/framing.c).
 *
 * A frame is a four-byte big-endian length followed by that many payload bytes. The
 * specification is a pair of pure functions, `Frames` (what is written) and `ParseAll`
 * (what a reader recovers); the loops over short sends and receives are proved against it.
 */
module Framing {
  import opened Bytes

  const MAX_FRAME: int := 16 * 1024 * 1024

  /** A payload that `callwire_framing_write_frame` accepts. */
  type payload = p: bytes | |p| <= 16 * 1024 * 1024 witness []

  function Frame(p: payload): (r: bytes)
    ensures |r| == 4 + |p|
  {
    U32(|p|) + p
  }

  function Frames(ps: seq<payload>): bytes {
    if ps == [] then [] else Frame(ps[0]) + Frames(ps[1..])
  }

  /** One read: the payload and what follows it, or None when the bytes do not hold an acceptable frame. */
  function ParseOne(s: bytes): Option<(payload, bytes)> {
    if |s| < 4 then None
    else
      var len := FromU32(s[..4]);
      if len > MAX_FRAME || |s| < 4 + len then None
      else Some((s[4..4 + len], s[4 + len..]))
  }

  function ParseAll(s: bytes): seq<payload>
    decreases |s|
  {
    match ParseOne(s)
    case None => []
    case Some((p, rest)) => [p] + ParseAll(rest)
  }

  /** The bytes left over once no further complete frame can be read. */
  function Leftover(s: bytes): (r: bytes)
    decreases |s|
  {
    match ParseOne(s)
    case None => s
    case Some((_, rest)) => Leftover(rest)
  }

  // ---------------------------------------------------------------------------
  // Writing then parsing
  // ---------------------------------------------------------------------------

  lemma FramesConcat(a: seq<payload>, b: seq<payload>)
    ensures Frames(a + b) == Frames(a) + Frames(b)
  {
    if a == [] {
      assert a + b == b;
    } else {
      assert (a + b)[1..] == a[1..] + b;
      FramesConcat(a[1..], b);
    }
  }

  lemma FramesAppend(ps: seq<payload>, p: payload)
    ensures Frames(ps + [p]) == Frames(ps) + Frame(p)
  {
    FramesConcat(ps, [p]);
    assert Frames([p]) == Frame(p) + Frames([]);
  }

  lemma ParseFrame(p: payload, rest: bytes)
    ensures ParseOne(Frame(p) + rest) == Some((p, rest))
  {
    var s := Frame(p) + rest;
    U32RoundTrip(|p|);
    assert s[..4] == U32(|p|);
    assert s[4..4 + |p|] == p;
    assert s[4 + |p|..] == rest;
  }

  /** Every list of payloads is recovered exactly, whatever incomplete bytes follow it. */
  lemma {:induction false} ParseAllFrames(ps: seq<payload>, tail: bytes)
    requires ParseOne(tail).None?
    ensures ParseAll(Frames(ps) + tail) == ps
    ensures Leftover(Frames(ps) + tail) == tail
  {
    if ps == [] {
      assert Frames(ps) + tail == tail;
    } else {
      var rest := Frames(ps[1..]) + tail;
      assert Frames(ps) + tail == Frame(ps[0]) + rest;
      ParseFrame(ps[0], rest);
      ParseAllFrames(ps[1..], tail);
    }
  }

  /** A complete frame is refused exactly when its payload is longer than 16 MiB. */
  lemma {:induction false} FrameLimit(p: bytes, rest: bytes)
    requires |p| < TWO_32
    ensures ParseOne(U32(|p|) + p + rest).Some? <==> |p| <= 0x100_0000
  {
    var s := U32(|p|) + p + rest;
    U32RoundTrip(|p|);
    assert s[..4] == U32(|p|);
  }

  /** A proper prefix of a frame is never mistaken for a frame. */
  lemma PartialFrame(p: payload, k: nat)
    requires k < |Frame(p)|
    ensures ParseOne(Frame(p)[..k]).None?
  {
    var s := Frame(p)[..k];
    if k >= 4 {
      U32RoundTrip(|p|);
      assert s[..4] == U32(|p|);
    }
  }

  /** How many frames of `ps` are complete in the first `k` bytes of their concatenation. */
  function Completed(ps: seq<payload>, k: nat): (n: nat)
    ensures n <= |ps|
  {
    if ps == [] || k < |Frame(ps[0])| then 0
    else 1 + Completed(ps[1..], k - |Frame(ps[0])|)
  }

  /** `Completed` is the largest count whose frames fit in `k` bytes. */
  lemma {:induction false} CompletedIsMaximal(ps: seq<payload>, k: nat)
    ensures |Frames(ps[..Completed(ps, k)])| <= k
    ensures Completed(ps, k) < |ps| ==> k < |Frames(ps[..Completed(ps, k) + 1])|
  {
    var n := Completed(ps, k);
    if ps == [] {
    } else if k < |Frame(ps[0])| {
      assert ps[..1] == [ps[0]];
      assert Frames(ps[..1]) == Frame(ps[0]) + Frames([]);
    } else {
      var t, k' := ps[1..], k - |Frame(ps[0])|;
      CompletedIsMaximal(t, k');
      assert ps[..n][1..] == t[..n - 1];
      if n < |ps| {
        assert ps[..n + 1][1..] == t[..n];
      }
    }
  }

  /** A stream cut after any number of bytes yields exactly the frames completed by then. */
  lemma {:induction false} CutAnywhere(ps: seq<payload>, k: nat)
    requires k <= |Frames(ps)|
    ensures ParseAll(Frames(ps)[..k]) == ps[..Completed(ps, k)]
  {
    var s := Frames(ps)[..k];
    if ps == [] {
    } else if k < |Frame(ps[0])| {
      assert s == Frame(ps[0])[..k];
      PartialFrame(ps[0], k);
    } else {
      var t, k' := ps[1..], k - |Frame(ps[0])|;
      assert s == Frame(ps[0]) + Frames(t)[..k'];
      ParseFrame(ps[0], Frames(t)[..k']);
      CutAnywhere(t, k');
      assert ps[..Completed(ps, k)] == [ps[0]] + t[..Completed(t, k')];
    }
  }

  // ---------------------------------------------------------------------------
  // The socket and the loops over short reads and writes
  // ---------------------------------------------------------------------------

  /**
   * One end of a connected stream socket. `incoming` is everything that will arrive before
   * the peer closes or the connection breaks; `pos` is how much of it has been received;
   * `outgoing` is what has been handed to the network. `Recv` and `Send` may move any
   * positive number of bytes up to the one asked for, so a proof about a caller covers
   * every schedule of short reads and writes.
   */
  class Socket {
    const incoming: bytes
    var pos: nat
    var outgoing: bytes
    var broken: bool

    ghost predicate Valid()
      reads this
    {
      pos <= |incoming|
    }

    function Rest(): bytes
      reads this
      requires Valid()
    {
      incoming[pos..]
    }

    constructor (incoming: bytes)
      ensures Valid() && pos == 0 && this.incoming == incoming
      ensures outgoing == [] && !broken
    {
      this.incoming := incoming;
      pos, outgoing, broken := 0, [], false;
    }

    /** `recv`: zero exactly when the stream is over. */
    method Recv(buf: array<byte>, at: nat, want: nat) returns (n: nat)
      requires Valid() && 0 < want && at + want <= buf.Length
      modifies this`pos, buf
      ensures Valid() && n <= want && pos == old(pos) + n
      ensures n == 0 <==> old(Rest()) == []
      ensures buf[..at] == old(buf[..at])
      ensures buf[at..at + n] == old(Rest())[..n]
    {
      var available := |incoming| - pos;
      if available == 0 {
        return 0;
      }
      n :| 1 <= n <= want && n <= available;
      var i := 0;
      while i < n
        invariant 0 <= i <= n
        invariant pos == old(pos)
        invariant buf[..at] == old(buf[..at])
        invariant buf[at..at + i] == incoming[pos..pos + i]
      {
        ghost var before := buf[at..at + i];
        buf[at + i] := incoming[pos + i];
        assert buf[at..at + i + 1] == before + [incoming[pos + i]];
        i := i + 1;
      }
      assert incoming[pos..pos + n] == Rest()[..n];
      pos := pos + n;
    }

    /** `send`: accepts a prefix, or fails and breaks the connection. */
    method Send(data: bytes) returns (n: nat)
      requires Valid() && data != []
      modifies this`outgoing, this`broken
      ensures Valid() && n <= |data|
      ensures outgoing == old(outgoing) + data[..n]
      ensures broken <==> (old(broken) || n == 0)
    {
      n :| 0 <= n <= |data|;
      if n == 0 || broken {
        broken, n := true, 0;
      }
      outgoing := outgoing + data[..n];
    }

    /** `recv_all` (c/src/framing.c:13-23). */
    method RecvAll(buf: array<byte>) returns (ok: bool)
      requires Valid()
      modifies this`pos, buf
      ensures Valid()
      ensures ok <==> buf.Length <= |old(Rest())|
      ensures ok ==> buf[..] == old(Rest())[..buf.Length] && pos == old(pos) + buf.Length
      ensures !ok ==> pos == |incoming|
    {
      var readSoFar := 0;
      while readSoFar < buf.Length
        invariant 0 <= readSoFar <= buf.Length
        invariant Valid() && pos == old(pos) + readSoFar
        invariant buf[..readSoFar] == old(Rest())[..readSoFar]
      {
        ghost var before := buf[..readSoFar];
        var n := Recv(buf, readSoFar, buf.Length - readSoFar);
        if n == 0 {
          return false;
        }
        assert buf[..readSoFar + n] == before + buf[readSoFar..readSoFar + n];
        readSoFar := readSoFar + n;
      }
      ok := true;
    }

    /** `callwire_framing_read_frame` (c/src/framing.c:39-73) takes what `ParseOne` takes. */
    method ReadFrame() returns (r: Option<payload>)
      requires Valid()
      modifies this`pos
      ensures Valid()
      ensures r.Some? ==> ParseOne(old(Rest())) == Some((r.value, Rest()))
      ensures r.None? ==> ParseOne(old(Rest())).None?
    {
      ghost var s := Rest();
      var header := new byte[4];
      var ok := RecvAll(header);
      if !ok {
        return None;
      }
      assert header[..] == s[..4];
      var len := FromU32(header[..]);
      if len > MAX_FRAME {
        return None;
      }
      assert Rest() == s[4..];
      if len == 0 {
        assert s[4..4] == [];
        return Some([]);
      }
      var buf := new byte[len];
      ok := RecvAll(buf);
      if !ok {
        return None;
      }
      assert s[4..][..len] == s[4..4 + len];
      assert Rest() == s[4 + len..];
      r := Some(buf[..]);
    }

    /** `send_all` (c/src/framing.c:26-36). */
    method SendAll(data: bytes) returns (ok: bool)
      requires Valid()
      modifies this`outgoing, this`broken
      ensures Valid()
      ensures ok ==> outgoing == old(outgoing) + data && broken == old(broken)
      ensures !ok ==> broken && exists k :: 0 <= k < |data| && outgoing == old(outgoing) + data[..k]
    {
      var sentSoFar := 0;
      while sentSoFar < |data|
        invariant 0 <= sentSoFar <= |data|
        invariant outgoing == old(outgoing) + data[..sentSoFar]
        invariant broken == old(broken)
      {
        var n := Send(data[sentSoFar..]);
        if n == 0 {
          assert outgoing == old(outgoing) + data[..sentSoFar];
          return false;
        }
        assert data[..sentSoFar] + data[sentSoFar..][..n] == data[..sentSoFar + n];
        sentSoFar := sentSoFar + n;
      }
      ok := true;
    }

    /** `callwire_framing_write_frame` (c/src/framing.c:76-94). */
    method WriteFrame(p: bytes) returns (ok: bool)
      requires Valid()
      modifies this`outgoing, this`broken
      ensures Valid()
      ensures |p| > MAX_FRAME ==> !ok && outgoing == old(outgoing) && broken == old(broken)
      ensures ok ==> |p| <= MAX_FRAME && outgoing == old(outgoing) + Frame(p) && broken == old(broken)
      ensures |p| <= MAX_FRAME && !ok ==>
                broken && exists k :: 0 <= k < |Frame(p)| && outgoing == old(outgoing) + Frame(p)[..k]
    {
      if |p| > MAX_FRAME {
        return false;
      }
      var header := U32(|p|);
      ok := SendAll(header);
      if !ok {
        ghost var k :| 0 <= k < 4 && outgoing == old(outgoing) + header[..k];
        assert Frame(p)[..k] == header[..k];
        return;
      }
      if |p| > 0 {
        ok := SendAll(p);
        if !ok {
          ghost var k :| 0 <= k < |p| && outgoing == old(outgoing) + header + p[..k];
          assert Frame(p)[..4 + k] == header + p[..k];
          assert outgoing == old(outgoing) + Frame(p)[..4 + k];
        }
      }
    }

    /** The receive loop of a connection: frames until the first failed read. */
    method ReadAllFrames() returns (ps: seq<payload>)
      requires Valid()
      modifies this`pos
      ensures Valid()
      ensures ps == ParseAll(old(Rest()))
    {
      ps := [];
      while true
        invariant Valid()
        invariant ps + ParseAll(Rest()) == ParseAll(old(Rest()))
        decreases |Rest()|
      {
        ghost var before := Rest();
        var r := ReadFrame();
        if r.None? {
          assert ParseAll(before) == [];
          return;
        }
        assert ParseAll(before) == [r.value] + ParseAll(Rest());
        ps := ps + [r.value];
      }
    }
  }

  lemma {:induction false} FramesCut(ps: seq<payload>, i: nat, k: nat)
    requires i < |ps| && k < |Frame(ps[i])|
    ensures |Frames(ps[..i])| + k < |Frames(ps)|
    ensures Frames(ps[..i]) + Frame(ps[i])[..k] == Frames(ps)[..|Frames(ps[..i])| + k]
  {
    var a, b := ps[..i], ps[i..];
    assert ps == a + b && b[0] == ps[i];
    FramesConcat(a, b);
    assert Frames(b) == Frame(ps[i]) + Frames(b[1..]);
    assert Frames(b)[..k] == Frame(ps[i])[..k];
    assert Frames(ps)[..|Frames(a)| + k] == Frames(a) + Frames(b)[..k];
  }

  /** Writes a list of payloads, stopping at the first failure, over any schedule of short sends. */
  method WriteAll(sock: Socket, ps: seq<payload>) returns (ok: bool)
    requires sock.Valid()
    modifies sock`outgoing, sock`broken
    ensures sock.Valid()
    ensures ok ==> sock.outgoing == old(sock.outgoing) + Frames(ps)
    ensures !ok ==> exists k :: 0 <= k < |Frames(ps)| && sock.outgoing == old(sock.outgoing) + Frames(ps)[..k]
  {
    hide Frame, Frames;
    var i := 0;
    FramesOfNone();
    assert ps[..0] == [];
    while i < |ps|
      invariant 0 <= i <= |ps|
      invariant sock.Valid()
      invariant sock.outgoing == old(sock.outgoing) + Frames(ps[..i])
    {
      ghost var before := sock.outgoing;
      var done := sock.WriteFrame(ps[i]);
      if !done {
        ghost var k :| 0 <= k < |Frame(ps[i])| && sock.outgoing == before + Frame(ps[i])[..k];
        FramesCut(ps, i, k);
        assert sock.outgoing == old(sock.outgoing) + (Frames(ps[..i]) + Frame(ps[i])[..k]);
        return false;
      }
      FramesAppend(ps[..i], ps[i]);
      assert ps[..i + 1] == ps[..i] + [ps[i]];
      assert sock.outgoing == old(sock.outgoing) + (Frames(ps[..i]) + Frame(ps[i]));
      i := i + 1;
    }
    assert ps[..|ps|] == ps;
    ok := true;
  }

  lemma {:induction false} FramesOfNone()
    ensures Frames([]) == []
  {
  }

  /**
   * End to end over any schedule of short sends and receives: one side writes a list of
   * payloads, the connection carries at most `limit` of the bytes that were sent, the other
   * side reads until it fails. It has got exactly the frames completed in what was carried,
   * and all of them if every write worked and nothing was cut.
   */
  method Transfer(ps: seq<payload>, limit: nat) returns (written: bool, carried: nat, got: seq<payload>)
    ensures carried <= limit && carried <= |Frames(ps)|
    ensures written && |Frames(ps)| <= limit ==> carried == |Frames(ps)|
    ensures got == ps[..Completed(ps, carried)]
    ensures written && |Frames(ps)| <= limit ==> got == ps
  {
    hide Frame, Frames, ParseAll;
    var sender := new Socket([]);
    written := WriteAll(sender, ps);
    assert [] + Frames(ps) == Frames(ps);
    ghost var k := |sender.outgoing|;
    assert k <= |Frames(ps)| && sender.outgoing == Frames(ps)[..k];
    carried := if |sender.outgoing| <= limit then |sender.outgoing| else limit;
    var receiver := new Socket(sender.outgoing[..carried]);
    assert receiver.Rest() == Frames(ps)[..carried];
    got := receiver.ReadAllFrames();
    CutAnywhere(ps, carried);
    if written && |Frames(ps)| <= limit {
      AllCompleted(ps);
      assert ps[..|ps|] == ps;
    }
  }

  lemma {:induction false} AllCompleted(ps: seq<payload>)
    ensures Completed(ps, |Frames(ps)|) == |ps|
  {
    if ps != [] { AllCompleted(ps[1..]); }
  }
}
