/**
 * What the client's functions give to the program (c/src/client.c:124-136, 171-188, 250-262):
 * the last step from the handler's return to the program's result.
 */
module ProgramResults {
  import opened Bytes
  import opened Framing
  import opened Mpack
  import opened Message
  import opened MessageRoundTrip
  import opened WriteLock
  import opened Server
  import opened System
  import opened SystemSteps
  import opened SystemTheorems
  import opened Requests
  import opened Begun

  /** A value and status 0, the end of a stream with status 1, or an error with status -1. */
  datatype Given = Value(v: Value) | EndOfStream | Failed(errorType: bytes, text: bytes) | Unexpected

  /** The two texts of an error message, as `%s` prints them. */
  function ErrorGiven(m: Message): Given {
    Failed(TextOr(m.errorType, Ascii("Error")), TextOr(m.message, Ascii("unknown error")))
  }

  /** What reading the message gives: `callwire_client_call` and `..._export_stream_close`, or `..._stream_recv`. */
  function Gives(f: Form, m: Message): Given {
    if f.Plain? || f.Export? then
      if StrEq(m.msgType, ERROR) then ErrorGiven(m) else Value(m.result)
    else
      if StrEq(m.msgType, STREAM_CHUNK) then Value(m.result)
      else if StrEq(m.msgType, STREAM_END) then EndOfStream
      else if StrEq(m.msgType, ERROR) then ErrorGiven(m)
      else Unexpected
  }

  function AllGiven(f: Form, ms: seq<Message>): seq<Given> {
    seq(|ms|, i requires 0 <= i < |ms| => Gives(f, ms[i]))
  }

  // ---------------------------------------------------------------------------
  // What the program should get
  // ---------------------------------------------------------------------------

  function AsGiven(vs: seq<Value>): seq<Given> {
    seq(|vs|, i requires 0 <= i < |vs| => Given.Value(vs[i]))
  }

  function Refusal(errorType: string, text: string): Given {
    Failed(Ascii(errorType), Ascii(text))
  }

  /** A call that returns one value. A reading form that is not made for it gets the error, or a message it does not expect. */
  predicate GetsOne(f: Form, r: Returned, got: seq<Given>) {
    if !r.ok then got == [Refusal("Error", "handler returned an error")]
    else if f.Plain? || f.Export? then got == [Value(r.value)]
    else got == [Unexpected]
  }

  /** A call that returns a stream. */
  predicate GetsStream(c: Call, r: Returned, got: seq<Given>) {
    got == AsGiven(c.produced) + [if r.ok then EndOfStream else Refusal("Error", "handler returned an error")]
  }

  /** What the program gets for a call, by what it asked for, the registry, and what the handler sent and returned. */
  ghost predicate Due(registry: seq<Handler>, a: Ask, c: Call, got: seq<Given>) {
    && (Unnamed(registry, a.func) ==> got == [Refusal("NotFoundError", "function not exported")])
    && (forall i :: FirstNamed(registry, a.func, i) ==>
          match registry[i].kind
          case Unary => c.returned.Some? && GetsOne(a.form, c.returned.value, got)
          case Stream => c.returned.Some? && GetsStream(c, c.returned.value, got)
          case ClientStream =>
            if a.form.Duplex? then got == [Refusal("TypeError", "function is client-streaming, not bidi")]
            else c.returned.Some? && GetsOne(a.form, c.returned.value, got)
          case Bidi =>
            if a.form.Duplex? then c.returned.Some? && GetsStream(c, c.returned.value, got)
            else got == [Refusal("TypeError", "function requires stream:true (bidi call)")]
          case Refused => false)
  }

  // ---------------------------------------------------------------------------
  // Texts without NULs
  // ---------------------------------------------------------------------------

  predicate Plainly(s: string) {
    forall i :: 0 <= i < |s| ==> ' ' <= s[i] <= '~'
  }

  lemma {:induction false} TextSurvives(s: string)
    requires Plainly(s)
    ensures CStr(Ascii(s)) == Ascii(s) && CStr(CStr(Ascii(s))) == Ascii(s)
  {
    assert 0 !in Ascii(s);
    CStrWhole(Ascii(s));
  }

  /** What an error message of the server gives, whatever the form. */
  lemma {:induction false} ErrorGives(f: Form, id: uint64, errorType: string, text: string)
    requires Plainly(errorType) && Plainly(text)
    ensures Gives(f, Received(Error(id, Some(Ascii(errorType)), Some(Ascii(text))))) == Refusal(errorType, text)
  {
    hide Ascii, CStr;
    TextSurvives(errorType);
    TextSurvives(text);
    TypeTells(Error(id, Some(Ascii(errorType)), Some(Ascii(text))));
    TypesDiffer();
  }

  lemma {:induction false} TypesDiffer()
    ensures forall t :: StrEq(t, ERROR) ==> !StrEq(t, STREAM_CHUNK) && !StrEq(t, STREAM_END)
    ensures StrEq(Some(ERROR), ERROR) && StrEq(Some(STREAM_END), STREAM_END)
    ensures !StrEq(Some(RESPONSE), ERROR) && !StrEq(Some(RESPONSE), STREAM_CHUNK) && !StrEq(Some(RESPONSE), STREAM_END)
  {
  }

  // ---------------------------------------------------------------------------
  // From the wire to the program
  // ---------------------------------------------------------------------------

  /** The refusals and the error text of the server. */
  lemma {:induction false} ServerTexts()
    ensures Plainly("Error") && Plainly("handler returned an error")
    ensures Plainly("NotFoundError") && Plainly("function not exported") && Plainly("TypeError")
    ensures Plainly("function is client-streaming, not bidi") && Plainly("function requires stream:true (bidi call)")
  {
  }

  lemma {:induction false} RefusalGiven(f: Form, id: uint64, heard: seq<Message>, errorType: string, text: string)
    requires HeardRefusal(id, heard, errorType, text) && Plainly(errorType) && Plainly(text)
    ensures AllGiven(f, heard) == [Refusal(errorType, text)]
  {
    hide Gives, Ascii, Received;
    ErrorGives(f, id, errorType, text);
  }

  /** The last message of a call, as the program gets it. */
  lemma {:induction false} LastGiven(f: Form, id: uint64, kind: Kind, r: Returned, m: Outgoing)
    requires Concludes(id, kind, r, m) && (kind.Stream? || kind.Bidi? ==> f.Pull? || f.Duplex?)
    ensures !r.ok ==> Gives(f, Received(m)) == Refusal("Error", "handler returned an error")
    ensures r.ok && (kind.Stream? || kind.Bidi?) ==> Gives(f, Received(m)) == EndOfStream
    ensures r.ok && (kind.Unary? || kind.ClientStream?) ==>
      Gives(f, Received(m)) == if f.Plain? || f.Export? then Value(r.value) else Unexpected
  {
    ServerTexts();
    ErrorGives(f, id, "Error", "handler returned an error");
    TypesDiffer();
    hide Ascii, CStr;
    TypeTells(m);
  }

  lemma {:induction false} WordGiven(f: Form, id: uint64, vs: seq<Value>, m: Outgoing)
    requires vs != [] ==> f.Pull? || f.Duplex?
    ensures AllGiven(f, Heard(Said(id, vs) + [m])) == AsGiven(vs) + [Gives(f, Received(m))]
  {
    hide StrEq, ErrorGiven;
    forall i | 0 <= i < |vs| ensures Gives(f, Received(StreamChunk(id, vs[i]))) == Given.Value(vs[i]) {
      TypeTells(StreamChunk(id, vs[i]));
    }
    hide Gives, Received;
  }

  /** A call that ran. */
  lemma {:induction false} RanGiven(a: Ask, id: uint64, kind: Kind, c: Call, heard: seq<Message>)
    requires Ran(a, id, kind, c, heard) && (kind.Stream? || kind.Bidi? ==> a.form.Pull? || a.form.Duplex?)
    ensures c.returned.Some?
    ensures kind.Unary? || kind.ClientStream? ==> GetsOne(a.form, c.returned.value, AllGiven(a.form, heard))
    ensures kind.Stream? || kind.Bidi? ==> GetsStream(c, c.returned.value, AllGiven(a.form, heard))
  {
    hide Gives, Heard, Said, AllGiven, Concludes, Refusal;
    LastGiven(a.form, id, kind, c.returned.value, c.outcome.value);
    WordGiven(a.form, id, c.produced, c.outcome.value);
    assert c.produced == [] ==> AsGiven(c.produced) == [];
  }

  lemma {:induction false} DueIsGiven(registry: seq<Handler>, a: Ask, id: uint64, c: Call, heard: seq<Message>)
    requires Exported(registry) && CameTo(registry, a, id, c, heard)
    requires forall i :: FirstNamed(registry, a.func, i) && registry[i].kind.Stream? ==> a.form.Pull? || a.form.Duplex?
    ensures Due(registry, a, c, AllGiven(a.form, heard))
  {
    hide Ran, GetsOne, GetsStream, HeardRefusal, AllGiven, Refusal, FirstNamed, Unnamed;
    ServerTexts();
    EntryIsExported(registry, a.func);
    if Unnamed(registry, a.func) { RefusalGiven(a.form, id, heard, "NotFoundError", "function not exported"); }
    forall i | FirstNamed(registry, a.func, i)
      ensures match registry[i].kind
              case Unary => c.returned.Some? && GetsOne(a.form, c.returned.value, AllGiven(a.form, heard))
              case Stream => c.returned.Some? && GetsStream(c, c.returned.value, AllGiven(a.form, heard))
              case ClientStream =>
                if a.form.Duplex? then AllGiven(a.form, heard) == [Refusal("TypeError", "function is client-streaming, not bidi")]
                else c.returned.Some? && GetsOne(a.form, c.returned.value, AllGiven(a.form, heard))
              case Bidi =>
                if a.form.Duplex? then c.returned.Some? && GetsStream(c, c.returned.value, AllGiven(a.form, heard))
                else AllGiven(a.form, heard) == [Refusal("TypeError", "function requires stream:true (bidi call)")]
              case Refused => false
    {
      var kind := registry[i].kind;
      if kind.ClientStream? && a.form.Duplex? {
        RefusalGiven(a.form, id, heard, "TypeError", "function is client-streaming, not bidi");
      } else if kind.Bidi? && !a.form.Duplex? {
        RefusalGiven(a.form, id, heard, "TypeError", "function requires stream:true (bidi call)");
      } else {
        RanGiven(a, id, kind, c, heard);
      }
    }
  }

  /**
   * End to end: what the program got for a call that is over, and did not end in a failed read,
   * is what it asked the registered function for.
   */
  lemma {:induction false} ProgramGetsItsDue(registry: seq<Handler>, z: Sys, id: uint64)
    requires Reachable(registry, z) && !z.srv.out.broken && id in z.asked && !Current(z, id) && id !in z.client.failed
    ensures 1 <= id <= |z.begun| && id in z.srv.calls && id in z.client.heard
    ensures var a := z.begun[id - 1];
            Due(registry, a, z.srv.calls[id], AllGiven(a.form, z.client.heard[id]))
  {
    hide Arrives, CameTo, Due, AllGiven;
    CallsReturnTheOutcome(registry, z, id);
    ArrivesMatched(Matched, registry, z);
    var a := z.begun[id - 1];
    FindsFirst(registry, a.func);
    hide FindHandler, FirstNamed;
    DueIsGiven(registry, a, id, z.srv.calls[id], z.client.heard[id]);
  }
}
