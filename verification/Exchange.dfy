/**
 * One message through the whole stack as it runs: encoder with its growing buffer, frame writer,
 * short sends, short receives, frame reader, decoder. What the state machines take for granted of
 * a message that `Fits` is proved here of the code.
 */
module Exchange {
  import opened Bytes
  import opened Framing
  import opened Message
  import opened MessageRoundTrip
  import opened WriteLock
  import Writer
  import Reader

  /** Encode and write, as `conn_write_frame` after an encoder and `write_payload` of the client do. */
  method WriteMessage(sock: Socket, m: Outgoing) returns (ok: bool)
    requires sock.Valid()
    modifies sock`outgoing, sock`broken
    ensures sock.Valid()
    ensures !Fits(m) ==> !ok && sock.outgoing == old(sock.outgoing) && sock.broken == old(sock.broken)
    ensures ok ==> Fits(m) && sock.outgoing == old(sock.outgoing) + FrameOf(m) && sock.broken == old(sock.broken)
    ensures Fits(m) && !ok ==> sock.broken && exists k :: 0 <= k < |FrameOf(m)| && sock.outgoing == old(sock.outgoing) + FrameOf(m)[..k]
  {
    hide Encode, Frame;
    var payload, _ := Writer.EncodeWithGrowth(m);
    if payload.None? {
      return false;
    }
    ok := sock.WriteFrame(payload.value);
    if Fits(m) && !ok {
      ghost var k :| 0 <= k < |Frame(Encode(m))| && sock.outgoing == old(sock.outgoing) + Frame(Encode(m))[..k];
      assert FrameOf(m)[..k] == Frame(Encode(m))[..k];
    }
  }

  /** `read_wire_message`: a message, or an error when no frame comes or it does not decode. */
  method ReadMessage(sock: Socket) returns (msg: Option<Message>)
    requires sock.Valid()
    modifies sock`pos
    ensures sock.Valid()
    ensures ParseOne(old(sock.Rest())).None? ==> msg.None?
    ensures ParseOne(old(sock.Rest())).Some? ==>
      msg == Decode(ParseOne(old(sock.Rest())).value.0) && sock.Rest() == ParseOne(old(sock.Rest())).value.1
  {
    hide Decode, ParseOne;
    var frame := sock.ReadFrame();
    if frame.None? {
      return None;
    }
    msg := Reader.DecodeMessage(frame.value);
  }

  /**
   * A message written to one socket and read from another, under every schedule of short sends
   * and receives: it is written exactly if it fits a frame and no send fails, and then it is
   * read as it was meant; a message that was not written whole is not read at all.
   */
  method Pass(m: Outgoing) returns (written: bool, msg: Option<Message>)
    ensures written ==> Fits(m) && msg == Some(Received(m))
    ensures !written ==> msg.None?
  {
    hide Encode, Decode, Frame, ParseOne, Received;
    var sender := new Socket([]);
    written := WriteMessage(sender, m);
    var receiver := new Socket(sender.outgoing);
    ghost var rest := receiver.Rest();
    assert rest == sender.outgoing;
    msg := ReadMessage(receiver);
    if written {
      assert rest == FrameOf(m) + [];
      ParseFrame(Encode(m), []);
      MessageBack(m);
    } else if Fits(m) {
      ghost var k :| 0 <= k < |FrameOf(m)| && rest == FrameOf(m)[..k];
      PartialFrame(Encode(m), k);
    } else {
      NothingParses();
    }
  }

  lemma {:induction false} NothingParses()
    ensures ParseOne([]).None?
  {
  }
}
