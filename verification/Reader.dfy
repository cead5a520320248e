/** The decoding half of c/src/codec.c as it runs: a cursor with a sticky error flag, recursion and loops. */
module Reader {
  import opened Bytes
  import opened Mpack
  import opened Message
  import opened SkipValue

  /** `mpack_reader_t`. Peeking past the end makes the integer read step `pos` beyond the buffer. */
  class MpackReader {
    const buf: bytes
    var pos: nat
    var error: bool

    /** The reader as a value: what is left, and the flag. */
    ghost function View(): Rd
      reads this
    {
      Rd(if pos <= |buf| then buf[pos..] else [], error)
    }

    constructor (buf: bytes)
      ensures View() == Rd(buf, false)
    {
      this.buf := buf;
      pos, error := 0, false;
    }

    method Peek() returns (tag: byte)
      modifies this`error
      ensures tag == PeekTag(old(View())) && View() == Peeked(old(View()))
      ensures tag != 0 ==> pos < |buf|
    {
      if pos >= |buf| {
        error := true;
        return 0;
      }
      tag := buf[pos];
    }

    method Advance()
      modifies this`pos
      ensures View() == Drop(old(View()), 1) && pos == old(pos) + 1
    {
      pos := pos + 1;
    }

    method GetU8() returns (n: int)
      modifies this
      ensures old(pos) <= |buf| ==> pos <= |buf|
      ensures (n, View()) == ReadU8(old(View()))
    {
      if pos + 1 > |buf| {
        error := true;
        return 0;
      }
      n := buf[pos];
      pos := pos + 1;
    }

    method GetU16() returns (n: int)
      modifies this
      ensures old(pos) <= |buf| ==> pos <= |buf|
      ensures (n, View()) == ReadU16(old(View()))
    {
      hide FromU16;
      if pos + 2 > |buf| {
        error := true;
        return 0;
      }
      assert buf[pos..][..2] == buf[pos..pos + 2];
      n := FromU16(buf[pos..pos + 2]);
      pos := pos + 2;
    }

    method GetU32() returns (n: int)
      modifies this
      ensures old(pos) <= |buf| ==> pos <= |buf|
      ensures (n, View()) == ReadU32(old(View()))
    {
      hide FromU32;
      if pos + 4 > |buf| {
        error := true;
        return 0;
      }
      assert buf[pos..][..4] == buf[pos..pos + 4];
      n := FromU32(buf[pos..pos + 4]);
      pos := pos + 4;
    }

    method GetU64() returns (n: int)
      modifies this
      ensures (n, View()) == ReadU64(old(View()))
    {
      hide ReadU32, View;
      var hi := GetU32();
      var lo := GetU32();
      n := hi * TWO_32 + lo;
    }

    method GetRaw(n: nat) returns (ok: bool, data: bytes)
      requires pos <= |buf|
      modifies this
      ensures ReadRaw(old(View()), n) == (if ok then Got(data, View()) else Miss(View()))
    {
      if pos + n > |buf| {
        error := true;
        return false, [];
      }
      assert buf[pos..][..n] == buf[pos..pos + n];
      data := buf[pos..pos + n];
      ok := true;
      pos := pos + n;
    }

    method TryReadNil() returns (ok: bool)
      modifies this
      ensures TryNil(old(View())) == (if ok then Got((), View()) else Miss(View()))
    {
      var tag := Peek();
      ok := tag == 0xC0;
      if ok {
        Advance();
      }
    }

    method TryReadBool() returns (ok: bool, b: bool)
      modifies this
      ensures TryBool(old(View())) == (if ok then Got(b, View()) else Miss(View()))
    {
      var tag := Peek();
      ok, b := tag == 0xC2 || tag == 0xC3, tag == 0xC3;
      if ok {
        Advance();
      }
    }

    method TryReadInt64() returns (ok: bool, i: int64)
      modifies this
      ensures TryInt(old(View())) == (if ok then Got(i, View()) else Miss(View()))
    {
      hide ReadU8, ReadU16, ReadU32, ReadU64, View, Drop;
      ghost var start := View();
      var tag := Peek();
      if !IsIntTag(tag) {
        assert start.rest != [];
        return false, 0;
      }
      Advance();
      ok := true;
      var n: int;
      if tag <= 0x7F {
        i := tag;
      } else if tag >= 0xE0 {
        i := tag as int - 0x100;
      } else if tag == 0xCC || tag == 0xD0 {
        n := GetU8();
        ReadBounds(Drop(start, 1));
        i := if tag == 0xCC then n else Signed(n, TWO_8);
      } else if tag == 0xCD || tag == 0xD1 {
        n := GetU16();
        ReadBounds(Drop(start, 1));
        i := if tag == 0xCD then n else Signed(n, TWO_16);
      } else if tag == 0xCE || tag == 0xD2 {
        n := GetU32();
        ReadBounds(Drop(start, 1));
        i := if tag == 0xCE then n else Signed(n, TWO_32);
      } else {
        n := GetU64();
        ReadBounds(Drop(start, 1));
        i := Signed(n, TWO_64);
      }
    }

    method TryReadDouble() returns (ok: bool, bits: uint64)
      modifies this
      ensures TryFloat(old(View())) == (if ok then Got(bits, View()) else Miss(View()))
    {
      hide ReadU32, ReadU64, View, Drop, Widen;
      ghost var start := View();
      var tag := Peek();
      var n: int;
      if tag == 0xCB {
        Advance();
        n := GetU64();
        ReadBounds(Drop(start, 1));
        return true, n;
      }
      if tag == 0xCA {
        Advance();
        n := GetU32();
        ReadBounds(Drop(start, 1));
        return true, Widen(n);
      }
      return false, 0;
    }

    method TryReadStr() returns (ok: bool, s: bytes)
      modifies this
      ensures TryStr(old(View())) == (if ok then Got(s, View()) else Miss(View()))
    {
      hide ReadU8, ReadU16, ReadU32, ReadRaw, View, Drop;
      ghost var start := View();
      var tag := Peek();
      var n: int;
      if 0xA0 <= tag < 0xC0 {
        Advance();
        n := tag - 0xA0;
      } else if tag == 0xD9 {
        Advance();
        n := GetU8();
      } else if tag == 0xDA {
        Advance();
        n := GetU16();
      } else if tag == 0xDB {
        Advance();
        n := GetU32();
      } else {
        return false, [];
      }
      ReadBounds(Drop(start, 1));
      ok, s := GetRaw(n);
    }

    method TryReadBin() returns (ok: bool, d: bytes)
      modifies this
      ensures TryBin(old(View())) == (if ok then Got(d, View()) else Miss(View()))
    {
      hide ReadU8, ReadU16, ReadU32, ReadRaw, View, Drop;
      ghost var start := View();
      var tag := Peek();
      var n: int;
      if tag == 0xC4 {
        Advance();
        n := GetU8();
      } else if tag == 0xC5 {
        Advance();
        n := GetU16();
      } else if tag == 0xC6 {
        Advance();
        n := GetU32();
      } else {
        return false, [];
      }
      ReadBounds(Drop(start, 1));
      ok, d := GetRaw(n);
    }

    method TryReadArrayHeader() returns (ok: bool, count: nat)
      modifies this
      ensures TryArr(old(View())) == (if ok then Got(count, View()) else Miss(View()))
    {
      hide ReadU16, ReadU32, View, Drop;
      ghost var start := View();
      var tag := Peek();
      var n: int;
      if 0x90 <= tag < 0xA0 {
        Advance();
        n := tag - 0x90;
      } else if tag == 0xDC {
        Advance();
        n := GetU16();
      } else if tag == 0xDD {
        Advance();
        n := GetU32();
      } else {
        return false, 0;
      }
      ReadBounds(Drop(start, 1));
      return true, n;
    }

    method TryReadMapHeader() returns (ok: bool, count: nat)
      modifies this
      ensures TryMap(old(View())) == (if ok then Got(count, View()) else Miss(View()))
    {
      hide ReadU16, ReadU32, View, Drop;
      ghost var start := View();
      var tag := Peek();
      var n: int;
      if 0x80 <= tag < 0x90 {
        Advance();
        n := tag - 0x80;
      } else if tag == 0xDE {
        Advance();
        n := GetU16();
      } else if tag == 0xDF {
        Advance();
        n := GetU32();
      } else {
        return false, 0;
      }
      ReadBounds(Drop(start, 1));
      return true, n;
    }

    /** `decode_value` (c/src/codec.c:57-160). */
    method DecodeValue() returns (ok: bool, v: Value)
      modifies this
      ensures Dec(old(View())) == (if ok then Got(v, View()) else Miss(View()))
      decreases |View().rest|, 0
    {
      hide TryNil, TryBool, TryInt, TryFloat, TryStr, TryBin, TryArr, TryMap, View, DecItems, DecPairs;
      v := Null;
      if error {
        ViewError();
        return false, v;
      }
      ViewError();
      ghost var start := View();
      var scalar, sv := DecodeScalar();
      if scalar {
        return true, sv;
      }
      var n;
      ok, n := TryReadArrayHeader();
      if ok {
        var items;
        ok, items := DecodeItems(n);
        return ok, Arr(items);
      }
      ok, n := TryReadMapHeader();
      if ok {
        var pairs;
        ok, pairs := DecodePairs(n);
        return ok, Map(pairs);
      }
      SetError();
    }

    lemma ViewError()
      ensures View().err == error
    {
    }

    method SetError()
      modifies this`error
      ensures View() == Fail(old(View()))
    {
      error := true;
    }

    method DecodeScalar() returns (ok: bool, v: Value)
      modifies this
      ensures DecScalar(old(View())) == (if ok then Got(v, View()) else Miss(View()))
    {
      hide TryNil, TryBool, TryInt, TryFloat, TryStr, TryBin, View;
      ok := TryReadNil();
      if ok {
        return true, Null;
      }
      var b;
      ok, b := TryReadBool();
      if ok {
        return true, Bool(b);
      }
      var i;
      ok, i := TryReadInt64();
      if ok {
        return true, Int(i);
      }
      var f;
      ok, f := TryReadDouble();
      if ok {
        return true, Float(f);
      }
      var s;
      ok, s := TryReadStr();
      if ok {
        return true, Str(s);
      }
      ok, s := TryReadBin();
      v := if ok then Bin(s) else Null;
    }

    /** The element loop; `items` is the part of the allocated array filled so far. */
    method DecodeItems(n: nat) returns (ok: bool, items: seq<Value>)
      modifies this
      ensures DecItems(n, old(View())) == (if ok then Got(items, View()) else Miss(View()))
      decreases |View().rest|, 1
    {
      hide View, Dec;
      items := [];
      AfterNone(DecItems(n, View()));
      var i := 0;
      while i < n
        invariant 0 <= i <= n
        invariant |View().rest| <= |old(View()).rest|
        invariant DecItems(n, old(View())) == After(items, DecItems(n - i, View()))
      {
        var v;
        ok, v := DecodeValue();
        if !ok {
          return false, items;
        }
        AfterMore(items, v, DecItems(n - i - 1, View()));
        items := items + [v];
        i := i + 1;
      }
      assert items + [] == items;
      ok := true;
    }

    method DecodePairs(n: nat) returns (ok: bool, pairs: seq<Pair>)
      modifies this
      ensures DecPairs(n, old(View())) == (if ok then Got(pairs, View()) else Miss(View()))
      decreases |View().rest|, 1
    {
      hide View, Dec;
      pairs := [];
      AfterNone(DecPairs(n, View()));
      var i := 0;
      while i < n
        invariant 0 <= i <= n
        invariant |View().rest| <= |old(View()).rest|
        invariant DecPairs(n, old(View())) == After(pairs, DecPairs(n - i, View()))
      {
        var k, v;
        ok, k := DecodeValue();
        if !ok {
          return false, pairs;
        }
        ok, v := DecodeValue();
        if !ok {
          return false, pairs;
        }
        AfterMore(pairs, Pair(k, v), DecPairs(n - i - 1, View()));
        pairs := pairs + [Pair(k, v)];
        i := i + 1;
      }
      assert pairs + [] == pairs;
      ok := true;
    }

    /** `mpack_skip_value` (c/third_party/mpack_stub.h:369-413). */
    method SkipOne()
      modifies this
      ensures View() == Skip(old(View()))
      decreases |View().rest|, 0
    {
      if error || pos >= |buf| {
        error := true;
        return;
      }
      ghost var start := View();
      var tag := buf[pos];
      hide View, SkipMany, TryArr, TryMap, SkipScalar;
      if IsArrTag(tag) {
        var ok, n := TryReadArrayHeader();
        assert ok by { HeaderRead(start); }
        SkipItems(n);
      } else if IsMapTag(tag) {
        var ok, n := TryReadMapHeader();
        assert ok by { HeaderRead(start); }
        SkipPairs(n);
      } else {
        SkipWord(tag);
      }
    }

    /** The scalar branches of `mpack_skip_value`. */
    method SkipWord(tag: byte)
      requires View().rest != [] && View().rest[0] == tag && !IsArrTag(tag) && !IsMapTag(tag)
      modifies this
      ensures View() == SkipScalar(old(View()))
    {
      hide View, Drop, ReadU8, ReadU16, ReadU32, ReadU64, TryBin, TryStr;
      if tag <= 0x7F || tag >= 0xE0 || tag == 0xC0 || tag == 0xC2 || tag == 0xC3 {
        Advance();
      } else if 0xC4 <= tag <= 0xC6 {
        var _, _ := TryReadBin();
      } else if 0xA0 <= tag < 0xC0 || 0xD9 <= tag <= 0xDB {
        var _, _ := TryReadStr();
      } else if tag == 0xCC || tag == 0xD0 {
        Advance();
        var _ := GetU8();
      } else if tag == 0xCD || tag == 0xD1 {
        Advance();
        var _ := GetU16();
      } else if tag == 0xCE || tag == 0xD2 || tag == 0xCA {
        Advance();
        var _ := GetU32();
      } else if tag == 0xCF || tag == 0xD3 || tag == 0xCB {
        Advance();
        var _ := GetU64();
      } else {
        SetError();
      }
    }

    method SkipItems(n: nat)
      modifies this
      ensures View() == SkipMany(n, old(View()))
      decreases |View().rest|, 1
    {
      hide View, Skip;
      var i := 0;
      ViewError();
      while i < n && !error
        invariant 0 <= i <= n && View().err == error
        invariant |View().rest| <= |old(View()).rest|
        invariant SkipMany(n, old(View())) == SkipMany(n - i, View())
        decreases n - i
      {
        SkipOne();
        ViewError();
        i := i + 1;
      }
    }

    method SkipPairs(n: nat)
      modifies this
      ensures View() == SkipMany(2 * n, old(View()))
      decreases |View().rest|, 1
    {
      hide View, Skip, SkipMany;
      var i := 0;
      ViewError();
      while i < n && !error
        invariant 0 <= i <= n && View().err == error
        invariant |View().rest| <= |old(View()).rest|
        invariant SkipMany(2 * n, old(View())) == SkipMany(2 * (n - i), View())
        decreases n - i
      {
        ghost var r := View();
        SkipOne();
        SkipOne();
        SkipTwo(2 * (n - i), r, Skip(r), View());
        assert 2 * (n - i) - 2 == 2 * (n - (i + 1));
        ViewError();
        i := i + 1;
      }
      SkipNone(2 * (n - i), View());
    }

    // -------------------------------------------------------------------------
    // callwire_codec_decode
    // -------------------------------------------------------------------------

    method DecodeText(old_: Option<bytes>) returns (s: Option<bytes>)
      modifies this
      ensures (s, View()) == DecText(old(View()), old_)
    {
      hide View, TryStr, Skip;
      var ok, data := TryReadStr();
      if ok {
        return Some(data);
      }
      SkipOne();
      s := old_;
    }

    /** The argument loop (c/src/codec.c:427-433): each status is ignored. */
    method DecodeArgs(n: nat) returns (args: seq<Value>)
      modifies this
      ensures (args, View()) == DecArgs(n, old(View()))
    {
      hide View, Dec;
      args := [];
      var i := 0;
      assert [] + DecArgs(n, View()).0 == DecArgs(n, View()).0;
      while i < n
        invariant 0 <= i <= n
        invariant DecArgs(n, old(View())) == (args + DecArgs(n - i, View()).0, DecArgs(n - i, View()).1)
      {
        ghost var rest := DecArgs(n - i, View()).0;
        var ok, v := DecodeValue();
        ghost var tail := DecArgs(n - i - 1, View()).0;
        var item := if ok then v else Null;
        assert rest == [item] + tail;
        assert args + ([item] + tail) == args + [item] + tail;
        args := args + [item];
        i := i + 1;
      }
      assert args + [] == args;
    }

    method DecodeField(key: bytes, m: Message) returns (m': Message)
      modifies this
      ensures (m', View()) == DecField(key, m, old(View()))
    {
      hide View, Dec, DecArgs, TryInt, TryArr, TryBool, Skip, DecText;
      m' := m;
      if key == ID {
        var ok, i := TryReadInt64();
        if ok {
          m' := m.(id := ToUnsigned(i));
        } else {
          SkipOne();
        }
      } else if key == TYPE {
        var s := DecodeText(m.msgType);
        m' := m.(msgType := s);
      } else if key == FUNC {
        var s := DecodeText(m.func);
        m' := m.(func := s);
      } else if key == ARGS {
        var ok, n := TryReadArrayHeader();
        if ok {
          var args := DecodeArgs(n);
          m' := m.(args := args);
        } else {
          SkipOne();
        }
      } else if key == STREAM {
        var ok, b := TryReadBool();
        if ok {
          m' := m.(stream := b);
        } else {
          SkipOne();
        }
      } else if key == RESULT {
        var ok, v := DecodeValue();
        if ok {
          m' := m.(result := v);
        }
      } else if key == ERROR_TYPE {
        var s := DecodeText(m.errorType);
        m' := m.(errorType := s);
      } else if key == MESSAGE {
        var s := DecodeText(m.message);
        m' := m.(message := s);
      } else {
        SkipOne();
      }
    }
  }

  /** `callwire_codec_decode` (c/src/codec.c:380-468). */
  method DecodeMessage(payload: bytes) returns (msg: Option<Message>)
    ensures msg == Decode(payload)
  {
    hide MpackReader.View, TryMap, TryStr, Skip, DecField;
    var r := new MpackReader(payload);
    var ok, n := r.TryReadMapHeader();
    if !ok {
      return None;
    }
    var m := Blank;
    var i := 0;
    while i < n
      invariant 0 <= i <= n
      invariant Decode(payload) == DecLoop(n - i, m, r.View())
    {
      var isStr, key := r.TryReadStr();
      if !isStr {
        r.SkipOne();
        r.SkipOne();
      } else {
        m := r.DecodeField(key, m);
        r.ViewError();
        if r.error {
          return None;
        }
      }
      i := i + 1;
    }
    r.ViewError();
    msg := if r.error then None else Some(m);
  }

  lemma {:induction false} HeaderRead(r: Rd)
    requires r.rest != []
    ensures IsArrTag(r.rest[0]) ==> TryArr(r).Got?
    ensures IsMapTag(r.rest[0]) ==> TryMap(r).Got?
  {
  }

  lemma {:induction false} SkipNone(n: nat, r: Rd)
    requires n == 0 || r.err
    ensures SkipMany(n, r) == r
  {
  }

  /** The values read before the rest of a loop, in front of what the rest returns. */
  ghost function After<T>(done: seq<T>, g: Got<seq<T>>): Got<seq<T>> {
    match g
    case Got(vs, r) => Got(done + vs, r)
    case Miss(r) => Miss(r)
  }

  lemma {:induction false} AfterNone<T>(g: Got<seq<T>>)
    ensures After([], g) == g
  {
    if g.Got? { assert [] + g.value == g.value; }
  }

  lemma {:induction false} AfterMore<T>(done: seq<T>, x: T, g: Got<seq<T>>)
    ensures After(done + [x], g) == After(done, After([x], g))
  {
    if g.Got? { assert done + [x] + g.value == done + ([x] + g.value); }
  }

  lemma {:induction false} ReadBounds(r: Rd)
    ensures 0 <= ReadU8(r).0 < TWO_8 && 0 <= ReadU16(r).0 < TWO_16
    ensures 0 <= ReadU32(r).0 < TWO_32 && 0 <= ReadU64(r).0 < TWO_64
  {
    hide FromU16, FromU32;
  }
}
