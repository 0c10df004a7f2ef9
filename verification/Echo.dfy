/** When writing what was read gives back the very bytes: not always, and exactly when. */
module Echo {
  import opened Wrappers
  import opened Bytes
  import opened HeaderMap
  import opened Frames

  // ---- Numbers ----

  lemma PutGet32(s: Bytes)
    requires |s| >= 4
    ensures Put32(Get32(s)) == s[..4]
  {
    var c, b := s[0] as int * 0x1_0000 + s[1] as int * 0x100 + s[2], s[0] as int * 0x100 + s[1];
    assert Get32(s) / 0x100 == c && c / 0x100 == b && b / 0x100 == s[0];
    assert Get32(s) / 0x1_0000 == b;
    assert Get32(s) / 0x100_0000 == s[0];
  }

  lemma PutAt16(b: Bytes, i: nat)
    requires i + 2 <= |b|
    ensures Put16(At16(b, i)) == b[i..i + 2]
  {
  }

  lemma PutAt32(b: Bytes, i: nat)
    requires i + 4 <= |b|
    ensures Put32(At32(b, i)) == b[i..i + 4]
  {
    PutGet32(b[i..]);
  }

  // ---- Header blocks ----

  /** No value has the null length. */
  predicate NullFree(h: Bytes)
    decreases |h|
  {
    var r := ParsePair(h);
    h == [] || r.Err? || (Get32(ParseString(h).value.1) != NULL && NullFree(r.value.rest))
  }

  lemma KeyBytes(h: Bytes)
    requires ParseString(h).Ok?
    ensures var (k, t) := ParseString(h).value;
            h[..4 + |k|] == EncodeString(k) && h == EncodeString(k) + t && t == h[4 + |k|..]
  {
    PutGet32(h);
    var n := 4 + Get32(h);
    assert h[..n] == h[..4] + h[4..n];
    assert h == h[..n] + h[n..];
  }

  lemma PairBytes(h: Bytes)
    requires ParsePair(h).Ok?
    ensures var p := ParsePair(h).value;
            && |EncodePair(p.pair)| == |h| - |p.rest| && h == h[..|h| - |p.rest|] + p.rest
            && (EncodePair(p.pair) == h[..|h| - |p.rest|] <==> Get32(ParseString(h).value.1) != NULL)
  {
    var p := ParsePair(h).value;
    var k, v, t := p.pair.key, p.pair.value, ParseString(h).value.1;
    ParsedSize(h);
    KeyBytes(h);
    ValueBytes(t, v);
    var n := 4 + |v|;
    assert h[..|h| - |p.rest|] == EncodeString(k) + t[..n] by {
      assert |EncodeString(k)| + n == |h| - |p.rest|;
      assert (EncodeString(k) + t)[..|EncodeString(k)| + n] == EncodeString(k) + t[..n];
    }
    SameTail(EncodeString(k), EncodeString(v), t[..n]);
  }

  lemma SameTail(a: Bytes, b: Bytes, c: Bytes)
    ensures a + b == a + c <==> b == c
  {
    if a + b == a + c {
      assert (a + b)[|a|..] == b && (a + c)[|a|..] == c;
    }
  }

  lemma ValueBytes(t: Bytes, v: Bytes)
    requires ParseValue(t).Ok? && ParseValue(t).value.0 == v
    ensures |t| >= 4 + |v| && (EncodeString(v) == t[..4 + |v|] <==> Get32(t) != NULL)
  {
    PutGet32(t);
    if Get32(t) == NULL {
      assert EncodeString(v)[0] == 0 && t[0] == 0xFF;
    } else {
      assert Low32(|v|) == Get32(t);
      assert t[..4 + |v|] == t[..4] + v;
    }
  }

  lemma {:induction false} ReencodedPairs(h: Bytes)
    requires ParseAll(h).1.None?
    ensures EncodePairs(ParseAll(h).0) == h <==> NullFree(h)
    decreases |h|
  {
    if h != [] {
      var p := ParsePair(h).value;
      var ps := ParseAll(p.rest).0;
      PairBytes(h);
      ReencodedPairs(p.rest);
      assert ParseAll(h).0[1..] == ps;
      var n := |h| - |p.rest|;
      if EncodePair(p.pair) + EncodePairs(ps) == h {
        assert h[..n] == EncodePair(p.pair) && h[n..] == EncodePairs(ps);
      }
    }
  }

  function Skip(ps: seq<Pair>, k: Bytes): seq<Pair> {
    if ps != [] && ps[0].key == k && ps[0].value != [] then ps[1..] else ps
  }

  function First(ps: seq<Pair>, k: Bytes): Bytes {
    if ps != [] && ps[0].key == k then ps[0].value else []
  }

  /** Dedicated keys first, in the order in which they are written and with a value; then other keys,
      each once. */
  ghost predicate Ordered(ps: seq<Pair>) {
    var others := Skip(Skip(Skip(Skip(ps, SERVICE), HOST), CONTENT_TYPE), AUTHORIZATION);
    Distinct(others) && forall i :: 0 <= i < |others| ==> !Dedicated(others[i].key)
  }

  lemma SkipSlot(k: Bytes, v: Bytes, rest: seq<Pair>)
    requires rest == [] || rest[0].key != k
    ensures Skip(Slot(k, v) + rest, k) == rest
  {
    if |v| == 0 { assert Slot(k, v) + rest == rest; }
  }

  lemma SkipBack(ps: seq<Pair>, k: Bytes)
    ensures ps == Slot(k, if Skip(ps, k) == ps then [] else First(ps, k)) + Skip(ps, k)
  {
  }

  lemma OrderedPairs(m: Headers)
    requires Valid(m)
    ensures Ordered(Pairs(m))
  {
    var d := m.kvs;
    var c := Slot(AUTHORIZATION, m.authorization) + d;
    var b := Slot(CONTENT_TYPE, m.contentType) + c;
    var a := Slot(HOST, m.host) + b;
    assert Pairs(m) == Slot(SERVICE, m.service) + a;
    SkipSlot(SERVICE, m.service, a);
    SkipSlot(HOST, m.host, b);
    SkipSlot(CONTENT_TYPE, m.contentType, c);
    SkipSlot(AUTHORIZATION, m.authorization, d);
  }

  lemma Nested(a: seq<Pair>, b: seq<Pair>, c: seq<Pair>, d: seq<Pair>, e: seq<Pair>)
    ensures a + (b + (c + (d + e))) == a + b + c + d + e
  {
  }

  lemma OrderedIsPairs(ps: seq<Pair>)
    requires Ordered(ps)
    ensures Pairs(SetAll(EMPTY, ps)) == ps
  {
    var a := Skip(ps, SERVICE);
    var b := Skip(a, HOST);
    var c := Skip(b, CONTENT_TYPE);
    var d := Skip(c, AUTHORIZATION);
    var s := if a == ps then [] else First(ps, SERVICE);
    var h := if b == a then [] else First(a, HOST);
    var t := if c == b then [] else First(b, CONTENT_TYPE);
    var u := if d == c then [] else First(c, AUTHORIZATION);
    SkipBack(ps, SERVICE);
    SkipBack(a, HOST);
    SkipBack(b, CONTENT_TYPE);
    SkipBack(c, AUTHORIZATION);
    var m := Headers(s, h, t, u, d);
    Nested(Slot(SERVICE, s), Slot(HOST, h), Slot(CONTENT_TYPE, t), Slot(AUTHORIZATION, u), d);
    SetAllPairs(m);
  }

  /** A header block is written back as it was read exactly when its dedicated keys come first, in
      order and with values, no key is repeated, and no value has the null length. */
  lemma HeaderEchoes(h: Bytes)
    requires Decode(EMPTY, h).error.None?
    ensures Encode(Decode(EMPTY, h).m) == h <==> Ordered(ParseAll(h).0) && NullFree(h)
  {
    var ps, m := ParseAll(h).0, Decode(EMPTY, h).m;
    DecodeIsFold(EMPTY, h);
    DecodeReads(h, []);
    ReencodedPairs(h);
    if Encode(m) == h {
      assert Pairs(EMPTY) == [];
      DecodedEncodable(EMPTY, h);
      ParseEncodedPairs(Pairs(m));
      OrderedPairs(m);
    }
    if Ordered(ps) { OrderedIsPairs(ps); }
  }

  // ---- Frames ----

  function RawLengths(b: Bytes, n: nat): Bytes
    requires 8 <= n <= |b|
  {
    Put16(At16(b, n - 8)) + Put16(At16(b, n - 6)) + Put32(At32(b, n - 4))
  }

  lemma RawLengthsAre(b: Bytes, n: nat)
    requires 8 <= n == |b|
    ensures RawLengths(b, n) == b[n - 8..]
  {
    PutAt16(b, n - 8);
    PutAt16(b, n - 6);
    PutAt32(b, n - 4);
  }

  lemma MiddleBytes(c: Cmd, b: Bytes)
    requires |b| == FixedSize(c)
    ensures Middle(HeadInto(c, b)) == b[7..|b| - 8]
  {
    PutAt16(b, if c.proto == BOLT_V2 then 9 else 8);
    if c.typ != RESPONSE { PutAt32(b, if c.proto == BOLT_V2 then 9 else 8); }
  }

  /** A head is its fields, with the version byte as it was sent. */
  lemma HeadBytes(c: Cmd, b: Bytes)
    requires |b| == FixedSize(c)
    ensures b == Front(At16(b, 0), b[2], At32(b, 3)) + Middle(HeadInto(c, b)) + RawLengths(b, |b|)
  {
    PutAt16(b, 0);
    PutAt32(b, 3);
    MiddleBytes(c, b);
    RawLengthsAre(b, |b|);
    assert b == b[..7] + b[7..|b| - 8] + b[|b| - 8..];
    assert b[..7] == b[0..2] + [b[2]] + b[3..7];
  }

  lemma HeadIntoFields(c: Cmd, b: Bytes)
    requires |b| >= FixedSize(c)
    ensures var h := HeadInto(c, b);
            && h.cmdcode == At16(b, 0) && h.rid == At32(b, 3) && h.headers == c.headers
            && h.ver2 == if c.proto == BOLT_V2 then b[2] else b[3]
  {
  }

  /** What was read, laid out as it was sent. */
  lemma TypedBytes(c0: Cmd, data: Bytes)
    requires c0.headers == EMPTY && ReadTyped(c0, data).Ok?
    ensures var c := ReadTyped(c0, data).value.cmd;
            var n := FixedSize(c0);
            && |data| >= n && Decode(EMPTY, c.header) == Decoded(None, c.headers)
            && data[n..] == c.className + c.header + c.content + data[n..][|c.className| + |c.header| + |c.content|..]
            && RawLengths(data[..n], n) == Put16(|c.className|) + Put16(|c.header|) + Put32(|c.content|)
            && Middle(c) == Middle(HeadInto(c0, data[..n]))
            && c.cmdcode == At16(data[..n], 0) && c.rid == At32(data[..n], 3)
            && c.ver2 == if c0.proto == BOLT_V2 then data[2] else data[3]
  {
    var n := FixedSize(c0);
    var b := data[..n];
    var h, x, y, z := HeadInto(c0, b), At16(b, n - 8), At16(b, n - 6), At32(b, n - 4);
    HeadIntoFields(c0, b);
    assert ReadTyped(c0, data) == ReadBody(h, HeadSize(c0), x, y, z, data[n..]);
    BodyBytes(h, HeadSize(c0), x, y, z, data[n..]);
  }

  lemma BodyBytes(c0: Cmd, head: nat, x: nat, y: nat, z: nat, data: Bytes)
    requires c0.headers == EMPTY && ReadBody(c0, head, x, y, z, data).Ok?
    ensures var c := ReadBody(c0, head, x, y, z, data).value.cmd;
            && |c.className| == x && |c.header| == y && |c.content| == z
            && Decode(EMPTY, c.header) == Decoded(None, c.headers)
            && data == c.className + c.header + c.content + data[x + y + z..]
            && Middle(c) == Middle(c0) && c.cmdcode == c0.cmdcode && c.rid == c0.rid && c.ver2 == c0.ver2
  {
    assert data == data[..x] + data[x..x + y] + data[x + y..x + y + z] + data[x + y + z..];
  }

  /** Where the content of a typed frame ends. */
  function ContentEnd(c: Cmd): nat {
    FixedSize(c) + |c.className| + |c.header| + |c.content|
  }

  lemma Joined(b: Bytes, f: Bytes, m: Bytes, l: Bytes, body: Bytes, rest: Bytes, tail: Bytes)
    requires b == f + m + l && rest == body + tail
    ensures b + rest == f + m + l + body + tail
  {
  }

  lemma LengthsBytes(c: Cmd)
    requires Encode(c.headers) == c.header && |c.className| < 0x1_0000 && |c.header| < 0x1_0000
             && |c.content| < 0x1_0000_0000
    ensures Lengths(c) == Put16(|c.className|) + Put16(|c.header|) + Put32(|c.content|)
    ensures Body(c) == c.className + c.header + c.content
  {
    EncodeSizeIsLength(c.headers);
    LowIs(|c.className|);
    LowIs(|c.header|);
    LowIs(|c.content|);
  }

  lemma LowIs(n: nat)
    ensures n < 0x1_0000 ==> Low16(n) == n
    ensures n < 0x1_0000_0000 ==> Low32(n) == n
  {
  }

  lemma TypedEcho(c0: Cmd, data: Bytes)
    requires c0.headers == EMPTY && ReadTyped(c0, data).Ok? && InRange(ReadTyped(c0, data).value.cmd)
    requires var c := ReadTyped(c0, data).value.cmd;
             Encode(c.headers) == c.header && FixedSize(c) == FixedSize(c0) && |c.header| < 0x1_0000
    requires Bolt(ReadTyped(c0, data).value.cmd.proto)
    ensures var c := ReadTyped(c0, data).value.cmd;
            && |data| >= ContentEnd(c)
            && data == Front(c.cmdcode, data[2], c.rid) + Middle(c) + Lengths(c) + Body(c) + data[ContentEnd(c)..]
  {
    var c := ReadTyped(c0, data).value.cmd;
    TypedBytes(c0, data);
    LengthsBytes(c);
    TailBytes(c0, c, data, data[FixedSize(c0)..][|c.className| + |c.header| + |c.content|..]);
  }

  lemma TailBytes(c0: Cmd, c: Cmd, data: Bytes, tail: Bytes)
    requires |data| >= FixedSize(c0) == FixedSize(c)
    requires |Body(c)| == |c.className| + |c.header| + |c.content|
    requires var n := FixedSize(c0);
             && data[n..] == Body(c) + tail
             && RawLengths(data[..n], n) == Lengths(c) && Middle(c) == Middle(HeadInto(c0, data[..n]))
             && c.cmdcode == At16(data[..n], 0) && c.rid == At32(data[..n], 3)
    ensures |data| >= ContentEnd(c) && tail == data[ContentEnd(c)..]
    ensures data == Front(c.cmdcode, data[2], c.rid) + Middle(c) + Lengths(c) + Body(c) + tail
  {
    var n := FixedSize(c0);
    var b := data[..n];
    HeadBytes(c0, b);
    assert data == b + data[n..];
    Joined(b, Front(c.cmdcode, data[2], c.rid), Middle(c), Lengths(c), Body(c), data[n..], tail);
  }

  /** The byte where a V1 writer puts ver2, and the byte where its reader looks for it. */
  predicate VersionEchoes(c: Cmd, data: Bytes) {
    c.proto == BOLT_V2 || (|data| > 5 && data[4] == data[5])
  }

  predicate SumEchoes(crc: Checksum, c: Cmd, data: Bytes) {
    Signed(c) ==> |data| >= 4 && Get32(data[|data| - 4..]) == crc(data[..|data| - 4])
  }

  /** What to look for in bytes that a reader accepts as c, with nothing after them. */
  ghost predicate Echoing(crc: Checksum, c: Cmd, data: Bytes) {
    if c.proto == TB_REMOTING then |data| > 4 && data[4] == 0
    else Ordered(ParseAll(c.header).0) && NullFree(c.header) && VersionEchoes(c, data) && SumEchoes(crc, c, data)
  }

  // ---- An echo has these marks ----

  lemma WrittenMarks(crc: Checksum, c: Cmd)
    requires InRange(c) && c.proto != TB_REMOTING
    ensures var f := FrameBolt(crc, c);
            && (c.proto != BOLT_V2 ==> |f| > 5 && f[4] == c.ver2 && f[5] == c.rid / 0x100_0000)
            && (Signed(c) ==> |f| >= 4 && f[..|f| - 4] == Unsigned(c) && Get32(f[|f| - 4..]) == crc(Unsigned(c)))
  {
    var f := FrameBolt(crc, c);
    if Signed(c) {
      var sum := crc(Unsigned(c));
      assert f[..|f| - 4] == Unsigned(c) && f[|f| - 4..] == Put32(sum) + [];
      GetPut32(sum, []);
    }
    assert Unsigned(c) == Start(c) + (Front(c.cmdcode, c.ver2, c.rid) + (Middle(c) + Lengths(c) + Body(c)));
  }

  lemma ReadHeaderBlock(data: Bytes)
    requires ReadFrame(BLANK, data).Ok? && ReadFrame(BLANK, data).value.cmd.proto != TB_REMOTING
    ensures var c := ReadFrame(BLANK, data).value.cmd; Decode(EMPTY, c.header) == Decoded(None, c.headers)
  {
    var p := data[0];
    if p == BOLT_V2 {
      TypedBytes(BLANK.(proto := p, ver1 := data[1], typ := data[2]), data[1..][2..]);
    } else {
      TypedBytes(BLANK.(proto := p, typ := data[1]), data[1..][1..]);
    }
  }

  lemma EchoHasMarks(crc: Checksum, data: Bytes)
    requires ReadFrame(BLANK, data).Ok? && Frame(crc, ReadFrame(BLANK, data).value.cmd) == Ok(data)
    ensures ReadFrame(BLANK, data).value.rest == [] && Echoing(crc, ReadFrame(BLANK, data).value.cmd, data)
  {
    var r := ReadFrame(BLANK, data).value;
    var c := r.cmd;
    ReadAccepted(data);
    RoundTrip(crc, c, []);
    assert data + [] == data;
    assert c == Carried(crc, c);
    if c.proto == TB_REMOTING {
      assert data[4] == 0;
    } else {
      ReadHeaderBlock(data);
      HeaderEchoes(c.header);
      WrittenMarks(crc, c);
    }
  }

  // ---- Bytes with these marks are echoed ----

  /** The frame c, in one piece. */
  lemma UnsignedIs(c: Cmd)
    ensures Unsigned(c) == Start(c) + (Front(c.cmdcode, c.ver2, c.rid) + Middle(c) + Lengths(c) + Body(c))
  {
  }

  lemma Sealed(crc: Checksum, c: Cmd, data: Bytes, tail: Bytes)
    requires data == Unsigned(c) + tail && |tail| == (if Signed(c) then 4 else 0) && SumEchoes(crc, c, data)
    ensures FrameBolt(crc, c) == data
  {
    if Signed(c) {
      assert data[..|data| - 4] == Unsigned(c) && data[|data| - 4..] == tail && tail[..4] == tail;
      PutGet32(tail);
    }
  }

  lemma StartedEcho(crc: Checksum, c: Cmd, start: Bytes, rest: Bytes, tail: Bytes)
    requires start == Start(c) && rest == Front(c.cmdcode, c.ver2, c.rid) + Middle(c) + Lengths(c) + Body(c) + tail
    requires |tail| == (if Signed(c) then 4 else 0) && SumEchoes(crc, c, start + rest)
    ensures FrameBolt(crc, c) == start + rest
  {
    UnsignedIs(c);
    Regroup2(start, Front(c.cmdcode, c.ver2, c.rid) + Middle(c) + Lengths(c) + Body(c), tail);
    Sealed(crc, c, start + rest, tail);
  }

  lemma VersionByte(c: Cmd, start: Bytes, rest: Bytes)
    requires start == Start(c) && |rest| >= 4 && VersionEchoes(c, start + rest)
    requires c.ver2 == if c.proto == BOLT_V2 then rest[2] else rest[3]
    ensures c.ver2 == rest[2]
  {
    if c.proto != BOLT_V2 { assert (start + rest)[4] == rest[2] && (start + rest)[5] == rest[3]; }
  }

  /** start are the bytes before the head: protocol, for V2 its version, and type. */
  lemma MarksEchoTyped(crc: Checksum, c0: Cmd, start: Bytes, rest: Bytes)
    requires c0.headers == EMPTY && ReadTyped(c0, rest).Ok? && InRange(ReadTyped(c0, rest).value.cmd)
    requires var c := ReadTyped(c0, rest).value.cmd;
             && start == Start(c) && Bolt(c.proto) && FixedSize(c) == FixedSize(c0) && |c.header| < 0x1_0000
             && c.proto == c0.proto
             && Echoing(crc, c, start + rest) && |start + rest| == |start| + ContentEnd(c) + if Signed(c) then 4 else 0
    ensures FrameBolt(crc, ReadTyped(c0, rest).value.cmd) == start + rest
  {
    var c := ReadTyped(c0, rest).value.cmd;
    TypedBytes(c0, rest);
    HeaderEchoes(c.header);
    TypedEcho(c0, rest);
    VersionByte(c, start, rest);
    StartedEcho(crc, c, start, rest, rest[ContentEnd(c)..]);
  }

  lemma Regroup2(a: Bytes, b: Bytes, c: Bytes)
    ensures a + (b + c) == a + b + c
  {
  }

  /** r is what c0 and rest are read as, after the bytes start; together they are data. */
  predicate ReadAs(data: Bytes, c0: Cmd, start: Bytes, rest: Bytes, r: Read) {
    && data == start + rest && c0.headers == EMPTY && Bolt(c0.proto) && start == Start(c0)
    && ReadTyped(c0, rest) == Ok(r)
  }

  lemma MarksEchoBolt(crc: Checksum, data: Bytes, c0: Cmd, start: Bytes, rest: Bytes, r: Read)
    requires ReadAs(data, c0, start, rest, r) && r.rest == [] && Accepted(r.cmd, |data|, r.count)
             && Echoing(crc, r.cmd, data)
    ensures Frame(crc, r.cmd) == Ok(data)
  {
    TypedHead(c0, rest);
    MarksEchoTyped(crc, c0, start, rest);
    FrameIsBolt(crc, r.cmd);
  }

  lemma FrameIsBolt(crc: Checksum, c: Cmd)
    requires Bolt(c.proto) && BoltType(c.typ)
    ensures Frame(crc, c) == Ok(FrameBolt(crc, c))
  {
  }

  lemma V1IsTyped(data: Bytes, r: Read)
    requires ReadFrame(BLANK, data) == Ok(r) && (data[0] == 0 || data[0] == BOLT_V1)
    ensures |data| >= 2 && ReadAs(data, BLANK.(proto := data[0], typ := data[1]), data[..2], data[2..], r)
  {
    assert data[1..][1..] == data[2..];
    assert data == data[..2] + data[2..] && data[..2] == [data[0], data[1]];
  }

  lemma V2IsTyped(data: Bytes, r: Read)
    requires ReadFrame(BLANK, data) == Ok(r) && data[0] == BOLT_V2
    ensures |data| >= 3
    ensures ReadAs(data, BLANK.(proto := data[0], ver1 := data[1], typ := data[2]), data[..3], data[3..], r)
  {
    assert data[1..][2..] == data[3..];
    assert data == data[..3] + data[3..] && data[..3] == [data[0], data[1], data[2]];
  }

  lemma MarksEchoV1(crc: Checksum, data: Bytes, r: Read)
    requires ReadFrame(BLANK, data) == Ok(r) && (data[0] == 0 || data[0] == BOLT_V1) && r.rest == []
    requires Accepted(r.cmd, |data|, r.count) && Echoing(crc, r.cmd, data)
    ensures Frame(crc, r.cmd) == Ok(data)
  {
    V1IsTyped(data, r);
    MarksEchoBolt(crc, data, BLANK.(proto := data[0], typ := data[1]), data[..2], data[2..], r);
  }

  lemma MarksEchoV2(crc: Checksum, data: Bytes, r: Read)
    requires ReadFrame(BLANK, data) == Ok(r) && data[0] == BOLT_V2 && r.rest == []
    requires Accepted(r.cmd, |data|, r.count) && Echoing(crc, r.cmd, data)
    ensures Frame(crc, r.cmd) == Ok(data)
  {
    V2IsTyped(data, r);
    MarksEchoBolt(crc, data, BLANK.(proto := data[0], ver1 := data[1], typ := data[2]), data[..3], data[3..], r);
  }

  lemma TypedHead(c0: Cmd, rest: Bytes)
    requires ReadTyped(c0, rest).Ok?
    ensures var c := ReadTyped(c0, rest).value.cmd;
            c.proto == c0.proto && c.ver1 == c0.ver1 && c.typ == c0.typ && FixedSize(c) == FixedSize(c0)
  {
  }

  /** A TBRemoting frame without its first byte is its fields. */
  lemma TBLayout(b: Bytes, x: Bytes, y: Bytes, z: Bytes)
    requires |b| == 13 + |x| + |y| + |z| && |x| < 0x1_0000_0000 && |y| < 0x100 && |z| < 0x1_0000_0000
    requires At32(b, 4) == |x| && b[8] == |y| && At32(b, 9) == |z| && b[13..] == x + y + z
    ensures b == [b[0], b[1], b[2], b[3]] + Put32(|x|) + [|y|] + Put32(|z|) + (x + y + z + [])
  {
    PutAt32(b, 4);
    PutAt32(b, 9);
    assert b == b[..4] + b[4..8] + [b[8]] + b[9..13] + b[13..];
    assert x + y + z + [] == b[13..];
  }

  lemma ReadTBFields(b0: Cmd, b: Bytes)
    requires ReadTBRemoting(b0, b).Ok? && ReadTBRemoting(b0, b).value.rest == []
    ensures var c := ReadTBRemoting(b0, b).value.cmd;
            && |b| == 13 + |c.connection| + |c.className| + |c.content| && c.proto == b0.proto
            && c.cmdcode == b[0] && c.codec == b[1] && c.typ == b[2]
            && At32(b, 4) == |c.connection| && b[8] == |c.className| && At32(b, 9) == |c.content|
            && b[13..] == c.connection + c.className + c.content
  {
  }

  lemma MarksEchoTBRemoting(crc: Checksum, data: Bytes)
    requires ReadFrame(BLANK, data).Ok? && data[0] == TB_REMOTING && ReadFrame(BLANK, data).value.rest == []
    requires |data| > 4 && data[4] == 0
    ensures Frame(crc, ReadFrame(BLANK, data).value.cmd) == Ok(data)
  {
    var b0, b := BLANK.(proto := data[0]), data[1..];
    assert ReadFrame(BLANK, data) == ReadTBRemoting(b0, b);
    var c := ReadTBRemoting(b0, b).value.cmd;
    ReadAccepted(data);
    ReadTBFields(b0, b);
    TBLayout(b, c.connection, c.className, c.content);
    FrameTBParts(c, []);
    assert data == [c.proto] + b && FrameTBRemoting(c) + [] == FrameTBRemoting(c);
  }

  /** The fuzz target's law: writing what was read gives back the bytes that were read.  It holds
      exactly when nothing follows the frame, a V1 frame has the same byte where the writer puts its
      second version and where the reader looks for it, a TBRemoting frame has a zero reserved byte,
      the header block is in the order in which it is written, without repeated keys or null values,
      and a V2 checksum is right. */
  lemma EchoesExactly(crc: Checksum, data: Bytes)
    requires ReadFrame(BLANK, data).Ok?
    ensures var r := ReadFrame(BLANK, data).value;
            Frame(crc, r.cmd) == Ok(data) <==> r.rest == [] && Echoing(crc, r.cmd, data)
  {
    var r := ReadFrame(BLANK, data).value;
    if Frame(crc, r.cmd) == Ok(data) { EchoHasMarks(crc, data); }
    if r.rest == [] && Echoing(crc, r.cmd, data) {
      ReadAccepted(data);
      if data[0] == TB_REMOTING { MarksEchoTBRemoting(crc, data); }
      else if data[0] == BOLT_V2 { MarksEchoV2(crc, data, r); }
      else { MarksEchoV1(crc, data, r); }
    }
  }

  /** A V1 request without body that breaks the law: its second version is 1, its request id 0. */
  const UNECHOED: Bytes := [1, 1, 0, 1, 1, 0, 0, 0, 0, 11, 0, 0, 0, 0, 0, 0, 0, 0, 0, 0, 0, 0]

  lemma ReadsHead(data: Bytes, rest: Bytes)
    requires data == [BOLT_V1, REQUEST] + rest && |rest| == 20
    requires At16(rest, 12) == 0 && At16(rest, 14) == 0 && At32(rest, 16) == 0
    ensures ReadFrame(BLANK, data).Ok? && ReadFrame(BLANK, data).value.cmd.proto == BOLT_V1
  {
    var c0 := BLANK.(proto := BOLT_V1, typ := REQUEST);
    assert data[1..] == [REQUEST] + rest && data[1..][1..] == rest;
    assert ReadFrame(BLANK, data) == ReadTyped(c0, rest);
    assert rest[..20] == rest && rest[20..] == [];
    assert ReadTyped(c0, rest) == ReadBody(HeadInto(c0, rest), HeadSize(c0), 0, 0, 0, []);
    NoBody(HeadInto(c0, rest), HeadSize(c0));
  }

  lemma EchoFails(crc: Checksum)
    ensures ReadFrame(BLANK, UNECHOED).Ok? && Frame(crc, ReadFrame(BLANK, UNECHOED).value.cmd) != Ok(UNECHOED)
  {
    var rest: Bytes := [0, 1, 1, 0, 0, 0, 0, 11, 0, 0, 0, 0, 0, 0, 0, 0, 0, 0, 0, 0];
    ReadsHead(UNECHOED, rest);
    EchoesExactly(crc, UNECHOED);
  }

  lemma NoBody(c: Cmd, head: nat)
    requires c.headers == EMPTY && !Signed(c)
    ensures ReadBody(c, head, 0, 0, 0, []).Ok? && ReadBody(c, head, 0, 0, 0, []).value.cmd.proto == c.proto
  {
    assert Decode(EMPTY, []) == Decoded(None, EMPTY);
  }
}
