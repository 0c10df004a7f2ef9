/** The five frame layouts of the wire protocols, written and read back. */
module Frames {
  import opened Wrappers
  import opened Bytes
  import opened HeaderMap

  const BOLT_V1: Byte := 1
  const BOLT_V2: Byte := 2
  const TB_REMOTING: Byte := 13

  const RESPONSE: Byte := 0
  const REQUEST: Byte := 1
  const ONE_WAY: Byte := 2

  datatype Cmd = Cmd(
    proto: Byte, ver1: Byte, typ: Byte, cmdcode: U16, ver2: Byte, rid: U32, codec: Byte, switc: Byte,
    timeout: U32, status: U16, reserved: Byte,
    connection: Bytes, className: Bytes, header: Bytes, content: Bytes, crc32: U32, headers: Headers)

  /** What Reset leaves. */
  const BLANK := Cmd(0, 0, 0, 0, 0, 0, 0, 0, 0, 0, 0, [], [], [], [], 0, EMPTY)

  datatype Error = MalformedProto | MalformedType | EndOfStream | BadHeader(error: DecodeError)

  /** CRC-32 is a parameter: nothing here depends on which function it is. */
  type Checksum = Bytes -> U32

  // ---- Writing ----

  function Lengths(c: Cmd): (r: Bytes)
    ensures |r| == 8
  {
    Put16(Low16(|c.className|)) + Put16(Low16(EncodeSize(c.headers))) + Put32(Low32(|c.content|))
  }

  function Body(c: Cmd): Bytes {
    c.className + Encode(c.headers) + c.content
  }

  function Start(c: Cmd): Bytes {
    if c.proto == BOLT_V2 then [c.proto, c.ver1, c.typ] else [c.proto, c.typ]
  }

  function Front(cmdcode: U16, ver2: Byte, rid: U32): (r: Bytes)
    ensures |r| == 7
  {
    Put16(cmdcode) + [ver2] + Put32(rid)
  }

  /** V2 adds a switch; a request carries a timeout where a response carries a status. */
  function Middle(c: Cmd): Bytes {
    (if c.proto == BOLT_V2 then [c.codec, c.switc] else [c.codec])
    + if c.typ == RESPONSE then Put16(c.status) else Put32(c.timeout)
  }

  function Head(c: Cmd): Bytes {
    Front(c.cmdcode, c.ver2, c.rid) + Middle(c) + Lengths(c)
  }

  function Unsigned(c: Cmd): Bytes {
    Start(c) + Head(c) + Body(c)
  }

  predicate Signed(c: Cmd) { c.proto == BOLT_V2 && c.switc > 0 }

  /** Only a V2 frame with its switch on ends with a checksum. */
  function Trailer(c: Cmd, sum: U32): Bytes {
    if Signed(c) then Put32(sum) else []
  }

  function FrameBolt(crc: Checksum, c: Cmd): Bytes {
    Unsigned(c) + Trailer(c, crc(Unsigned(c)))
  }

  function FrameTBRemoting(c: Cmd): Bytes {
    [c.proto, c.cmdcode % 0x100, c.codec, c.typ, 0]
    + Put32(Low32(|c.connection|)) + [|c.className| % 0x100] + Put32(Low32(|c.content|))
    + (c.connection + c.className + c.content)
  }

  predicate BoltType(t: Byte) { t == REQUEST || t == ONE_WAY || t == RESPONSE }

  predicate Bolt(p: Byte) { p == 0 || p == BOLT_V1 || p == BOLT_V2 }

  function Frame(crc: Checksum, c: Cmd): Result<Bytes, Error> {
    if Bolt(c.proto) then if BoltType(c.typ) then Ok(FrameBolt(crc, c)) else Err(MalformedType)
    else if c.proto == TB_REMOTING then Ok(FrameTBRemoting(c))
    else Err(MalformedProto)
  }

  // ---- Reading ----

  /** The command, the byte count the reader returns, and the bytes it left unread. */
  datatype Read = Read(cmd: Cmd, count: nat, rest: Bytes)

  /** The read succeeded with this command and count, and left rest unread. */
  predicate Got(r: Result<Read, Error>, c: Cmd, count: nat, rest: Bytes) {
    r.Ok? && r.value.cmd == c && r.value.count == count && r.value.rest == rest
  }

  function At16(b: Bytes, i: nat): U16
    requires i + 2 <= |b|
  {
    b[i] as int * 0x100 + b[i + 1]
  }

  function At32(b: Bytes, i: nat): U32
    requires i + 4 <= |b|
  {
    b[i] as int * 0x100_0000 + b[i + 1] as int * 0x1_0000 + b[i + 2] as int * 0x100 + b[i + 3]
  }

  /** Class, header block, content and, for V2 with a switch, a checksum that is not checked.  The
      two 16-bit lengths are added in 16 bits for the returned count. */
  function ReadBody(c: Cmd, head: nat, classLen: nat, headerLen: nat, contentLen: nat, data: Bytes)
    : (r: Result<Read, Error>)
    ensures r.Ok? ==> |r.value.rest| <= |data|
  {
    if |data| < classLen + headerLen then Err(EndOfStream)
    else
      var h := data[classLen..classLen + headerLen];
      var d := Decode(c.headers, h);
      if d.error.Some? then Err(BadHeader(d.error.value))
      else if |data| < classLen + headerLen + contentLen then Err(EndOfStream)
      else
        var rest := data[classLen + headerLen + contentLen..];
        var c1 := c.(className := data[..classLen], header := h, headers := d.m,
                     content := data[classLen + headerLen..classLen + headerLen + contentLen]);
        var count := head + Low16(classLen + headerLen) + contentLen;
        if Signed(c) then
          if |rest| < 4 then Err(EndOfStream) else Ok(Read(c1.(crc32 := Get32(rest)), count, rest[4..]))
        else Ok(Read(c1, count, rest))
  }

  /** The bytes of a BOLT head after its type byte. */
  function FixedSize(c: Cmd): nat {
    (if c.proto == BOLT_V2 then 19 else 18) + if c.typ == RESPONSE then 0 else 2
  }

  /** c with the fields of a head.  V1 readers take ver2 from index 3, the top byte of the request
      id; V2 has a switch after the codec; responses have a status where requests have a timeout. */
  function HeadInto(c: Cmd, b: Bytes): Cmd
    requires |b| >= FixedSize(c)
  {
    var v2, res := c.proto == BOLT_V2, c.typ == RESPONSE;
    var k := if v2 then 9 else 8;
    c.(cmdcode := At16(b, 0), ver2 := if v2 then b[2] else b[3], rid := At32(b, 3), codec := b[7],
       switc := if v2 then b[8] else c.switc, status := if res then At16(b, k) else c.status,
       timeout := if res then c.timeout else At32(b, k))
  }

  /** The size of the fixed part of a BOLT frame. */
  function HeadSize(c: Cmd): nat {
    FixedSize(c) + if c.proto == BOLT_V2 then 3 else 2
  }

  /** The head after the type byte, whose last eight bytes are the lengths, and the body. */
  function ReadTyped(c: Cmd, data: Bytes): (r: Result<Read, Error>)
    ensures r.Ok? ==> |r.value.rest| < |data|
  {
    var n := FixedSize(c);
    if !BoltType(c.typ) then Err(MalformedType)
    else if |data| < n then Err(EndOfStream)
    else
      var b := data[..n];
      ReadBody(HeadInto(c, b), HeadSize(c), At16(b, n - 8), At16(b, n - 6), At32(b, n - 4), data[n..])
  }

  function ReadV1(c: Cmd, data: Bytes): (r: Result<Read, Error>)
    ensures r.Ok? ==> |r.value.rest| < |data|
  {
    if |data| < 1 then Err(EndOfStream) else ReadTyped(c.(typ := data[0]), data[1..])
  }

  function ReadV2(c: Cmd, data: Bytes): (r: Result<Read, Error>)
    ensures r.Ok? ==> |r.value.rest| < |data|
  {
    if |data| < 2 then Err(EndOfStream) else ReadTyped(c.(ver1 := data[0], typ := data[1]), data[2..])
  }

  function ReadTBRemoting(c: Cmd, b: Bytes): (r: Result<Read, Error>)
    ensures r.Ok? ==> |r.value.rest| < |b|
  {
    if |b| < 13 then Err(EndOfStream)
    else
      var n1, n2, n3 := At32(b, 4), b[8], At32(b, 9);
      if |b| < 13 + n1 + n2 + n3 then Err(EndOfStream)
      else
        Ok(Read(c.(cmdcode := b[0], codec := b[1], typ := b[2], reserved := b[3],
                   connection := b[13..13 + n1], className := b[13 + n1..13 + n1 + n2],
                   content := b[13 + n1 + n2..13 + n1 + n2 + n3]),
                14 + n1 + n2 + n3, b[13 + n1 + n2 + n3..]))
  }

  function ByProto(c: Cmd, data: Bytes): (r: Result<Read, Error>)
    ensures r.Ok? ==> |r.value.rest| < |data|
  {
    if c.proto == 0 || c.proto == BOLT_V1 then ReadV1(c, data)
    else if c.proto == BOLT_V2 then ReadV2(c, data)
    else if c.proto == TB_REMOTING then ReadTBRemoting(c, data)
    else Err(MalformedProto)
  }

  /** ReadCommand into a command that holds c. */
  function ReadFrame(c: Cmd, data: Bytes): (r: Result<Read, Error>)
    ensures r.Ok? ==> |r.value.rest| < |data|
  {
    if |data| < 1 then Err(EndOfStream) else ByProto(c.(reserved := 0, proto := data[0]), data[1..])
  }

  // ---- Round trip ----

  /** A protocol and type that there are, and lengths that their prefixes can hold. */
  ghost predicate InRange(c: Cmd) {
    if c.proto == 13 then
      && c.cmdcode < 0x100 && |c.className| < 0x100
      && |c.connection| < 0x1_0000_0000 && |c.content| < 0x1_0000_0000
    else
      && (c.proto == 0 || c.proto == 1 || c.proto == 2) && (c.typ == 0 || c.typ == 1 || c.typ == 2)
      && Valid(c.headers)
      && |c.className| < 0x1_0000 && EncodeSize(c.headers) < 0x1_0000 && |c.content| < 0x1_0000_0000
  }

  /** The head fields that a BOLT format carries.  V1 readers take ver2 from the top byte of the
      request id. */
  function HeadRead(c: Cmd): Cmd {
    var v2, res := c.proto == BOLT_V2, c.typ == RESPONSE;
    Cmd(c.proto, if v2 then c.ver1 else 0, c.typ, c.cmdcode, if v2 then c.ver2 else c.rid / 0x100_0000, c.rid, c.codec,
        if v2 then c.switc else 0, if res then 0 else c.timeout, if res then c.status else 0, 0,
        [], [], [], [], 0, EMPTY)
  }

  /** b with the fields that a body carries. */
  function WithBody(c: Cmd, sum: U32, b: Cmd): Cmd {
    b.(className := c.className, header := Encode(c.headers), headers := c.headers, content := c.content,
       crc32 := if Signed(c) then sum else 0)
  }

  /** What a reader gets back: the fields that the format carries, and blanks. */
  function Carried(crc: Checksum, c: Cmd): Cmd {
    if c.proto == TB_REMOTING then
      BLANK.(proto := c.proto, cmdcode := c.cmdcode, codec := c.codec, typ := c.typ,
             connection := c.connection, className := c.className, content := c.content)
    else WithBody(c, crc(Unsigned(c)), HeadRead(c))
  }

  /** Where a number was put, it is found. */
  lemma At16Put(a: Bytes, n: U16, rest: Bytes)
    ensures At16(a + Put16(n) + rest, |a|) == n
  {
    var s := a + Put16(n) + rest;
    assert s[|a|] == n / 0x100 && s[|a| + 1] == n % 0x100;
  }

  lemma At32Put(a: Bytes, n: U32, rest: Bytes)
    ensures At32(a + Put32(n) + rest, |a|) == n && (a + Put32(n) + rest)[|a|] == n / 0x100_0000
  {
    var s := a + Put32(n) + rest;
    assert s[|a|] == Put32(n)[0] && s[|a| + 1] == Put32(n)[1] && s[|a| + 2] == Put32(n)[2] && s[|a| + 3] == Put32(n)[3];
    GetPut32(n, []);
    assert Put32(n) + [] == Put32(n);
  }

  lemma HeaderFits(m: Headers)
    requires Valid(m) && EncodeSize(m) < 0x1_0000
    ensures |Encode(m)| == EncodeSize(m) && Decode(EMPTY, Encode(m)) == Decoded(None, m)
  {
    EncodeSizeIsLength(m);
    KvSizes(m.kvs);
    PairsEncodable(m);
    DecodeEncode(m);
  }

  lemma {:induction false} KvSizes(kvs: seq<Pair>)
    ensures forall i :: 0 <= i < |kvs| ==> |kvs[i].key| + |kvs[i].value| <= PairsSize(kvs)
  {
    if kvs != [] {
      KvSizes(kvs[1..]);
      forall i | 0 <= i < |kvs| ensures |kvs[i].key| + |kvs[i].value| <= PairsSize(kvs) {
        if i > 0 {
          assert kvs[i] == kvs[1..][i - 1];
        }
      }
    }
  }

  /** data is a body cut into its class, header block, content and what follows. */
  ghost predicate IsBody(data: Bytes, a: Bytes, h: Bytes, ct: Bytes, rest: Bytes) {
    var n := |a| + |h| + |ct|;
    && |data| == n + |rest| && data[..|a|] == a && data[|a|..|a| + |h|] == h
    && data[|a| + |h|..n] == ct && data[n..] == rest
  }

  lemma CutBody(a: Bytes, h: Bytes, ct: Bytes, rest: Bytes)
    ensures IsBody(a + h + ct + rest, a, h, ct, rest)
  {
    var data := a + h + ct + rest;
    assert data == a + h + (ct + rest);
    Cut(a, h, ct + rest);
    assert data == (a + h) + ct + rest;
    Cut(a + h, ct, rest);
  }

  /** Reading back a body without a checksum, whatever head it follows. */
  lemma ReadUnsigned(b: Cmd, head: nat, data: Bytes, a: Bytes, h: Bytes, m: Headers, ct: Bytes, rest: Bytes)
    requires IsBody(data, a, h, ct, rest) && Decode(b.headers, h) == Decoded(None, m)
    requires !(Signed(b))
    ensures Got(ReadBody(b, head, |a|, |h|, |ct|, data),
                b.(className := a, header := h, headers := m, content := ct), head + Low16(|a| + |h|) + |ct|, rest)
  {
  }

  /** Reading back a body that a checksum follows. */
  lemma ReadSigned(b: Cmd, head: nat, data: Bytes, a: Bytes, h: Bytes, m: Headers, ct: Bytes, sum: U32, rest: Bytes)
    requires IsBody(data, a, h, ct, Put32(sum) + rest) && Decode(b.headers, h) == Decoded(None, m)
    requires Signed(b)
    ensures Got(ReadBody(b, head, |a|, |h|, |ct|, data),
                b.(className := a, header := h, headers := m, content := ct, crc32 := sum),
                head + Low16(|a| + |h|) + |ct|, rest)
  {
    GetPut32(sum, rest);
    assert (Put32(sum) + rest)[4..] == rest;
  }

  /** The body of c, read with c's own lengths by a reader whose head held no headers. */
  lemma ReadBodyBack(c: Cmd, sum: U32, b: Cmd, head: nat, rest: Bytes)
    requires InRange(c) && c.proto != TB_REMOTING && b.headers == EMPTY && b.crc32 == 0
    requires b.proto == c.proto && (c.proto == BOLT_V2 ==> b.switc == c.switc)
    ensures Got(ReadBody(b, head, |c.className|, EncodeSize(c.headers), |c.content|,
                         Body(c) + (Trailer(c, sum) + rest)),
                WithBody(c, sum, b), head + Low16(|c.className| + EncodeSize(c.headers)) + |c.content|, rest)
  {
    HeaderFits(c.headers);
    var data := Body(c) + (Trailer(c, sum) + rest);
    CutBody(c.className, Encode(c.headers), c.content, Trailer(c, sum) + rest);
    if Signed(c) {
      ReadSigned(b, head, data, c.className, Encode(c.headers), c.headers, c.content, sum, rest);
    } else {
      assert Trailer(c, sum) + rest == rest;
      ReadUnsigned(b, head, data, c.className, Encode(c.headers), c.headers, c.content, rest);
    }
  }

  lemma Shift(a: Bytes, s: Bytes, i: nat)
    ensures i < |s| ==> (a + s)[|a| + i] == s[i]
    ensures i + 2 <= |s| ==> At16(a + s, |a| + i) == At16(s, i)
    ensures i + 4 <= |s| ==> At32(a + s, |a| + i) == At32(s, i)
  {
  }

  lemma FrontFields(cmdcode: U16, ver2: Byte, rid: U32, rest: Bytes)
    ensures var b := Front(cmdcode, ver2, rid) + rest;
            At16(b, 0) == cmdcode && b[2] == ver2 && b[3] == rid / 0x100_0000 && At32(b, 3) == rid
  {
    var b := Front(cmdcode, ver2, rid) + rest;
    At16Put([], cmdcode, [ver2] + Put32(rid) + rest);
    assert b == [] + Put16(cmdcode) + ([ver2] + Put32(rid) + rest);
    At32Put(Put16(cmdcode) + [ver2], rid, rest);
  }

  lemma NumbersAt(x: U16, y: U16, z: U32, rest: Bytes)
    ensures var b := Put16(x) + Put16(y) + Put32(z) + rest; At16(b, 0) == x && At16(b, 2) == y && At32(b, 4) == z
  {
    var b := Put16(x) + Put16(y) + Put32(z) + rest;
    var r := Put16(y) + Put32(z) + rest;
    At16Put([], x, r);
    assert b == [] + Put16(x) + r;
    At16Put(Put16(x), y, Put32(z) + rest);
    assert b == Put16(x) + Put16(y) + (Put32(z) + rest);
    At32Put(Put16(x) + Put16(y), z, rest);
  }

  lemma LengthsFields(c: Cmd, rest: Bytes)
    requires InRange(c) && c.proto != TB_REMOTING
    ensures var b := Lengths(c) + rest;
            At16(b, 0) == |c.className| && At16(b, 2) == EncodeSize(c.headers) && At32(b, 4) == |c.content|
  {
    var x, y, z := |c.className|, EncodeSize(c.headers), |c.content|;
    assert Low16(x) == x && Low16(y) == y && Low32(z) == z;
    assert Lengths(c) == Put16(x) + Put16(y) + Put32(z);
    NumbersAt(x, y, z, rest);
  }

  /** Every field of a BOLT head is found at its place. */
  lemma HeadFields(c: Cmd, rest: Bytes)
    requires InRange(c) && c.proto != TB_REMOTING
    ensures var b, n := Head(c) + rest, |Middle(c)|;
            && |b| == 15 + n + |rest| && b[15 + n..] == rest
            && At16(b, 0) == c.cmdcode && b[2] == c.ver2 && b[3] == c.rid / 0x100_0000 && At32(b, 3) == c.rid
            && (forall i :: 0 <= i < n ==> b[7 + i] == Middle(c)[i])
            && At16(b, 7 + n) == |c.className| && At16(b, 9 + n) == EncodeSize(c.headers)
            && At32(b, 11 + n) == |c.content|
  {
    var front, mid, lens := Front(c.cmdcode, c.ver2, c.rid), Middle(c), Lengths(c);
    var b := Head(c) + rest;
    FrontFields(c.cmdcode, c.ver2, c.rid, mid + lens + rest);
    assert b == front + (mid + lens + rest);
    assert b == (front + mid) + (lens + rest);
    LengthsFields(c, rest);
    Shift(front + mid, lens + rest, 0);
    Shift(front + mid, lens + rest, 2);
    Shift(front + mid, lens + rest, 4);
  }

  lemma MiddleFields(c: Cmd, b: Bytes)
    requires |b| >= 7 + |Middle(c)| && forall i :: 0 <= i < |Middle(c)| ==> b[7 + i] == Middle(c)[i]
    ensures var k := if c.proto == BOLT_V2 then 9 else 8;
            && b[7] == c.codec && (c.proto == BOLT_V2 ==> b[8] == c.switc)
            && |Middle(c)| == k - 7 + (if c.typ == RESPONSE then 2 else 4)
            && if c.typ == RESPONSE then At16(b, k) == c.status else At32(b, k) == c.timeout
  {
    var k := if c.proto == BOLT_V2 then 9 else 8;
    var lead := if c.proto == BOLT_V2 then [c.codec, c.switc] else [c.codec];
    assert b[7] == Middle(c)[0];
    if c.typ == RESPONSE {
      At16Put(lead, c.status, []);
      assert lead + Put16(c.status) + [] == Middle(c);
    } else {
      At32Put(lead, c.timeout, []);
      assert lead + Put32(c.timeout) + [] == Middle(c);
    }
    assert forall i :: 7 <= i < 7 + |Middle(c)| ==> b[i] == Middle(c)[i - 7];
  }

  /** The count a reader returns for c. */
  function Count(c: Cmd): nat {
    if c.proto == TB_REMOTING then 14 + |c.connection| + |c.className| + |c.content|
    else
      HeadSize(c) + Low16(|c.className| + EncodeSize(c.headers)) + |c.content|
  }

  /** The command a reader holds once it knows the type. */
  function Typed(c: Cmd): Cmd {
    BLANK.(proto := c.proto, typ := c.typ, ver1 := if c.proto == BOLT_V2 then c.ver1 else 0)
  }

  lemma HeadIntoBack(c: Cmd)
    requires InRange(c) && c.proto != TB_REMOTING
    ensures |Head(c)| == FixedSize(c) && HeadInto(Typed(c), Head(c)) == HeadRead(c)
    ensures var h, n := Head(c), FixedSize(c);
            At16(h, n - 8) == |c.className| && At16(h, n - 6) == EncodeSize(c.headers) && At32(h, n - 4) == |c.content|
  {
    HeadFields(c, []);
    assert Head(c) + [] == Head(c);
    MiddleFields(c, Head(c));
  }

  lemma ReadTypedBack(c: Cmd, rest: Bytes)
    requires InRange(c) && c.proto != TB_REMOTING
    ensures ReadTyped(Typed(c), Head(c) + rest)
            == ReadBody(HeadRead(c), HeadSize(c), |c.className|, EncodeSize(c.headers), |c.content|, rest)
  {
    HeadIntoBack(c);
    var data := Head(c) + rest;
    assert data[..FixedSize(c)] == Head(c) && data[FixedSize(c)..] == rest;
  }

  lemma FrameParts(c: Cmd, sum: U32, rest: Bytes)
    ensures Unsigned(c) + Trailer(c, sum) + rest
            == [c.proto] + (Start(c)[1..] + (Head(c) + (Body(c) + (Trailer(c, sum) + rest))))
  {
    Regroup5(Start(c), Head(c), Body(c), Trailer(c, sum), rest);
  }

  lemma Regroup5(a: Bytes, h: Bytes, b: Bytes, s: Bytes, rest: Bytes)
    requires |a| > 0
    ensures a + h + b + s + rest == [a[0]] + (a[1..] + (h + (b + (s + rest))))
  {
  }

  lemma ReadDispatch(p: Byte, s: Bytes)
    ensures var b := BLANK.(proto := p);
            ReadFrame(BLANK, [p] + s) ==
              if p == 0 || p == BOLT_V1 then ReadV1(b, s) else if p == BOLT_V2 then ReadV2(b, s)
              else if p == TB_REMOTING then ReadTBRemoting(b, s) else Err(MalformedProto)
  {
    assert ([p] + s)[1..] == s;
  }

  /** A BOLT frame, up to the point where the body is read. */
  lemma ReadBoltHead(c: Cmd, sum: U32, rest: Bytes)
    requires InRange(c) && c.proto != TB_REMOTING
    ensures ReadFrame(BLANK, Unsigned(c) + Trailer(c, sum) + rest)
            == ReadBody(HeadRead(c), HeadSize(c), |c.className|, EncodeSize(c.headers), |c.content|,
                        Body(c) + (Trailer(c, sum) + rest))
  {
    FrameParts(c, sum, rest);
    var tail := Body(c) + (Trailer(c, sum) + rest);
    var head := Head(c) + tail;
    ReadDispatch(c.proto, Start(c)[1..] + head);
    if c.proto == BOLT_V2 {
      assert Start(c)[1..] + head == [c.ver1, c.typ] + head && ([c.ver1, c.typ] + head)[2..] == head;
    } else {
      assert Start(c)[1..] + head == [c.typ] + head && ([c.typ] + head)[1..] == head;
    }
    ReadTypedBack(c, tail);
  }

  predicate BlankHead(c: Cmd, b: Cmd) {
    b.headers == EMPTY && b.crc32 == 0 && b.proto == c.proto && (c.proto == BOLT_V2 ==> b.switc == c.switc)
  }

  lemma HeadReadBlank(c: Cmd)
    ensures BlankHead(c, HeadRead(c))
  {
  }

  lemma ReadBoltBody(c: Cmd, sum: U32, b: Cmd, got: Result<Read, Error>, rest: Bytes)
    requires InRange(c) && c.proto != TB_REMOTING && BlankHead(c, b)
    requires got == ReadBody(b, HeadSize(c), |c.className|, EncodeSize(c.headers), |c.content|,
                             Body(c) + (Trailer(c, sum) + rest))
    ensures Got(got, WithBody(c, sum, b), Count(c), rest)
  {
    var head := HeadSize(c);
    ReadBodyBack(c, sum, b, head, rest);
    assert Count(c) == head + Low16(|c.className| + EncodeSize(c.headers)) + |c.content|;
  }

  lemma RoundTripBolt(crc: Checksum, c: Cmd, rest: Bytes)
    requires InRange(c) && c.proto != TB_REMOTING
    ensures Got(ReadFrame(BLANK, FrameBolt(crc, c) + rest), Carried(crc, c), Count(c), rest)
  {
    var sum := crc(Unsigned(c));
    ReadBoltHead(c, sum, rest);
    HeadReadBlank(c);
    ReadBoltBody(c, sum, HeadRead(c), ReadFrame(BLANK, FrameBolt(crc, c) + rest), rest);
  }

  /** A TBRemoting frame without its first byte. */
  lemma ReadTBRemotingBack(b0: Cmd, h0: Byte, h1: Byte, h2: Byte, x: Bytes, y: Bytes, z: Bytes, rest: Bytes)
    requires |x| < 0x1_0000_0000 && |y| < 0x100 && |z| < 0x1_0000_0000
    ensures Got(ReadTBRemoting(b0, [h0, h1, h2, 0] + Put32(|x|) + [|y|] + Put32(|z|) + (x + y + z + rest)),
                b0.(cmdcode := h0, codec := h1, typ := h2, reserved := 0, connection := x,
                    className := y, content := z),
                14 + |x| + |y| + |z|, rest)
  {
    var body := x + y + z + rest;
    var lead: Bytes := [h0, h1, h2, 0];
    var head := lead + Put32(|x|) + [|y|] + Put32(|z|);
    var b := head + body;
    At32Put(lead, |x|, [|y|] + Put32(|z|) + body);
    assert b == lead + Put32(|x|) + ([|y|] + Put32(|z|) + body);
    At32Put(lead + Put32(|x|) + [|y|], |z|, body);
    CutBody(x, y, z, rest);
    TailOf(head, body, |x|, |y|, |z|);
    ReadTBRemotingOn(b0, b, x, y, z, rest);
  }

  lemma ReadTBRemotingOn(b0: Cmd, b: Bytes, x: Bytes, y: Bytes, z: Bytes, rest: Bytes)
    requires |b| >= 13 && At32(b, 4) == |x| && b[8] == |y| && At32(b, 9) == |z| && IsBody(b[13..], x, y, z, rest)
    ensures Got(ReadTBRemoting(b0, b),
                b0.(cmdcode := b[0], codec := b[1], typ := b[2], reserved := b[3], connection := x,
                    className := y, content := z),
                14 + |x| + |y| + |z|, rest)
  {
    TailOf(b[..13], b[13..], |x|, |y|, |z|);
    assert b[..13] + b[13..] == b;
  }

  lemma TailOf(a: Bytes, body: Bytes, x: nat, y: nat, z: nat)
    requires x + y + z <= |body|
    ensures var b, n := a + body, |a|;
            && b[n..] == body
            && b[n..n + x] == body[..x] && b[n + x..n + x + y] == body[x..x + y]
            && b[n + x + y..n + x + y + z] == body[x + y..x + y + z] && b[n + x + y + z..] == body[x + y + z..]
  {
  }

  lemma RoundTripTBRemoting(crc: Checksum, c: Cmd, rest: Bytes)
    requires InRange(c) && c.proto == TB_REMOTING
    ensures Got(ReadFrame(BLANK, FrameTBRemoting(c) + rest), Carried(crc, c), Count(c), rest)
  {
    FrameTBParts(c, rest);
    ReadDispatch(c.proto, [c.cmdcode, c.codec, c.typ, 0] + Put32(|c.connection|) + [|c.className|] + Put32(|c.content|)
                          + (c.connection + c.className + c.content + rest));
    ReadTBRemotingBack(BLANK.(proto := c.proto), c.cmdcode, c.codec, c.typ, c.connection, c.className, c.content, rest);
  }

  lemma FrameTBParts(c: Cmd, rest: Bytes)
    requires InRange(c) && c.proto == TB_REMOTING
    ensures FrameTBRemoting(c) + rest
            == [c.proto] + ([c.cmdcode, c.codec, c.typ, 0] + Put32(|c.connection|) + [|c.className|]
                 + Put32(|c.content|)
                            + (c.connection + c.className + c.content + rest))
  {
    FrameTBLengths(c);
    Regroup([c.proto], [c.cmdcode, c.codec, c.typ, 0], Put32(|c.connection|), [|c.className|], Put32(|c.content|),
            c.connection + c.className + c.content, rest);
  }

  lemma FrameTBLengths(c: Cmd)
    requires InRange(c) && c.proto == TB_REMOTING
    ensures FrameTBRemoting(c)
            == ([c.proto] + [c.cmdcode, c.codec, c.typ, 0]) + Put32(|c.connection|) + [|c.className|]
               + Put32(|c.content|) + (c.connection + c.className + c.content)
  {
    assert Low32(|c.connection|) == |c.connection| && Low32(|c.content|) == |c.content|;
    assert [c.proto, c.cmdcode, c.codec, c.typ, 0] == [c.proto] + [c.cmdcode, c.codec, c.typ, 0];
  }

  lemma Regroup(a: Bytes, b: Bytes, c: Bytes, d: Bytes, e: Bytes, f: Bytes, g: Bytes)
    ensures (a + b) + c + d + e + f + g == a + (b + c + d + e + (f + g))
  {
  }

  /** What any in-range command writes is read back, exactly to the end of its own frame. */
  lemma RoundTrip(crc: Checksum, c: Cmd, rest: Bytes)
    requires InRange(c)
    ensures Frame(crc, c).Ok?
    ensures Got(ReadFrame(BLANK, Frame(crc, c).value + rest), Carried(crc, c), Count(c), rest)
  {
    if c.proto == TB_REMOTING {
      RoundTripTBRemoting(crc, c, rest);
    } else {
      RoundTripBolt(crc, c, rest);
    }
  }

  // ---- Streams ----

  /** The loop that resets the command and reads, until the stream ends or a frame is refused. */
  function ReadStream(data: Bytes): (r: (seq<Cmd>, Option<Error>))
    decreases |data|
  {
    if data == [] then ([], None)
    else
      var r := ReadFrame(BLANK, data);
      if r.Err? then ([], Some(r.error))
      else
        var (cs, err) := ReadStream(r.value.rest);
        ([r.value.cmd] + cs, err)
  }

  function WriteStream(crc: Checksum, cs: seq<Cmd>): Bytes {
    if cs == [] then []
    else (match Frame(crc, cs[0]) case Ok(f) => f case Err(_) => []) + WriteStream(crc, cs[1..])
  }

  function CarriedAll(crc: Checksum, cs: seq<Cmd>): seq<Cmd> {
    if cs == [] then [] else [Carried(crc, cs[0])] + CarriedAll(crc, cs[1..])
  }

  lemma FrameNonEmpty(crc: Checksum, c: Cmd)
    requires Frame(crc, c).Ok?
    ensures |Frame(crc, c).value| > 0
  {
  }

  /** Any sequence of in-range commands, of all formats mixed, comes back from the concatenation of
      their frames. */
  lemma {:induction false} StreamRoundTrip(crc: Checksum, cs: seq<Cmd>)
    requires forall i :: 0 <= i < |cs| ==> InRange(cs[i])
    ensures ReadStream(WriteStream(crc, cs)) == (CarriedAll(crc, cs), None)
  {
    if cs != [] {
      var rest := WriteStream(crc, cs[1..]);
      RoundTrip(crc, cs[0], rest);
      FrameNonEmpty(crc, cs[0]);
      StreamRoundTrip(crc, cs[1..]);
    }
  }

  // ---- Normal forms ----

  /** Equal up to the fields that a rewrite does not keep: checksum, reserved byte, raw header. */
  predicate Same(c: Cmd, d: Cmd) {
    c.(crc32 := 0, reserved := 0, header := []) == d.(crc32 := 0, reserved := 0, header := [])
  }

  lemma SameFrame(crc: Checksum, c: Cmd, d: Cmd)
    requires Same(c, d)
    ensures Frame(crc, c) == Frame(crc, d)
  {
    var e := c.(crc32 := 0, reserved := 0, header := []);
    assert c == e.(crc32 := c.crc32, reserved := c.reserved, header := c.header);
    assert d == e.(crc32 := d.crc32, reserved := d.reserved, header := d.header);
  }

  lemma TopByte(b: Bytes, i: nat)
    requires i + 4 <= |b|
    ensures At32(b, i) / 0x100_0000 == b[i]
  {
  }

  /** A body that was accepted has lengths that its prefixes held, and headers no longer than the
      block they came from. */
  lemma ReadBodyInRange(b: Cmd, head: nat, x: nat, y: nat, z: nat, data: Bytes)
    requires x < 0x1_0000 && y < 0x1_0000 && z < 0x1_0000_0000
    requires b.headers == EMPTY && ReadBody(b, head, x, y, z, data).Ok?
    ensures var r := ReadBody(b, head, x, y, z, data).value;
            && |r.cmd.className| == x && |r.cmd.header| == y && |r.cmd.content| == z
            && Valid(r.cmd.headers) && EncodeSize(r.cmd.headers) <= y
            && r.cmd == b.(className := r.cmd.className, header := r.cmd.header, content := r.cmd.content,
                           headers := r.cmd.headers, crc32 := r.cmd.crc32)
            && r.count == head + Low16(x + y) + z
            && |data| == x + y + z + (if Signed(b) then 4 else 0) + |r.rest|
            && (!(Signed(b)) ==> r.cmd.crc32 == b.crc32)
  {
    var h := data[x..x + y];
    DecodeSize(EMPTY, h);
    DecodeReads(h, []);
  }

  /** The fields a BOLT head left blank. */
  predicate BlankForBolt(c: Cmd) {
    && c.reserved == 0 && c.connection == []
    && (if c.typ == RESPONSE then c.timeout == 0 else c.status == 0)
    && (c.proto != BOLT_V2 ==> c.ver1 == 0 && c.switc == 0 && c.ver2 == c.rid / 0x100_0000)
  }

  /** A reader's command, with what its head and its body brought. */
  ghost predicate Accepted(c: Cmd, consumed: nat, count: nat) {
    && InRange(c)
    && (if c.proto == TB_REMOTING then
          && c == BLANK.(proto := c.proto, cmdcode := c.cmdcode, codec := c.codec, typ := c.typ, reserved := c.reserved,
                         connection := c.connection, className := c.className, content := c.content)
          && count == 14 + |c.connection| + |c.className| + |c.content| == consumed
        else
          && BlankForBolt(c) && |c.header| < 0x1_0000
          && count == HeadSize(c) + Low16(|c.className| + |c.header|) + |c.content|
          && consumed == HeadSize(c) + |c.className| + |c.header| + |c.content|
                         + if Signed(c) then 4 else 0)
  }

  /** A body changes nothing of the head. */
  lemma BodyKeepsHead(b: Cmd, c: Cmd)
    requires BlankForBolt(b)
    requires c == b.(className := c.className, header := c.header, content := c.content, headers := c.headers,
                     crc32 := c.crc32)
    ensures BlankForBolt(c) && HeadSize(c) == HeadSize(b) && c.proto == b.proto && c.typ == b.typ
            && (Signed(c) <==> Signed(b))
  {
  }

  lemma BodyAccepted(b: Cmd, x: nat, y: nat, z: nat, data: Bytes)
    requires b.headers == EMPTY && b.crc32 == 0 && Bolt(b.proto) && BoltType(b.typ) && BlankForBolt(b)
    requires x < 0x1_0000 && y < 0x1_0000 && z < 0x1_0000_0000
    requires ReadBody(b, HeadSize(b), x, y, z, data).Ok?
    ensures var r := ReadBody(b, HeadSize(b), x, y, z, data).value;
            Accepted(r.cmd, HeadSize(b) + |data| - |r.rest|, r.count)
  {
    ReadBodyInRange(b, HeadSize(b), x, y, z, data);
    BodyKeepsHead(b, ReadBody(b, HeadSize(b), x, y, z, data).value.cmd);
  }

  lemma HeadIsBlank(c: Cmd, b: Bytes)
    requires Bolt(c.proto) && c == Typed(c) && |b| >= FixedSize(c)
    ensures var h := HeadInto(c, b);
            && h.headers == EMPTY && h.crc32 == 0 && h.proto == c.proto && h.typ == c.typ && BlankForBolt(h)
            && HeadSize(h) == HeadSize(c)
  {
    TopByte(b, 3);
  }

  lemma TypedAccepted(c: Cmd, data: Bytes)
    requires Bolt(c.proto) && c == Typed(c) && ReadTyped(c, data).Ok?
    ensures var r := ReadTyped(c, data).value;
            Accepted(r.cmd, HeadSize(c) - FixedSize(c) + |data| - |r.rest|, r.count)
  {
    var n := FixedSize(c);
    var b, rest := data[..n], data[n..];
    var h, x, y, z := HeadInto(c, b), At16(b, n - 8), At16(b, n - 6), At32(b, n - 4);
    HeadIsBlank(c, b);
    assert ReadTyped(c, data) == ReadBody(h, HeadSize(h), x, y, z, rest);
    BodyAccepted(h, x, y, z, rest);
  }

  lemma ReadAccepted(data: Bytes)
    requires ReadFrame(BLANK, data).Ok?
    ensures var r := ReadFrame(BLANK, data).value; Accepted(r.cmd, |data| - |r.rest|, r.count)
  {
    var p := data[0];
    if p == 0 || p == BOLT_V1 {
      TypedAccepted(BLANK.(proto := p, typ := data[1]), data[1..][1..]);
    } else if p == BOLT_V2 {
      TypedAccepted(BLANK.(proto := p, ver1 := data[1], typ := data[2]), data[1..][2..]);
    } else {
      RemotingAccepted(data[1..]);
    }
  }

  lemma RemotingAccepted(b: Bytes)
    requires ReadTBRemoting(BLANK.(proto := TB_REMOTING), b).Ok?
    ensures var r := ReadTBRemoting(BLANK.(proto := TB_REMOTING), b).value;
            Accepted(r.cmd, 1 + |b| - |r.rest|, r.count)
  {
  }

  lemma AcceptedSame(crc: Checksum, c: Cmd, consumed: nat, count: nat)
    requires Accepted(c, consumed, count)
    ensures Same(Carried(crc, c), c)
  {
  }

  /** Whatever bytes a reader accepts, writing the command and reading it again gives the same
      command, and writing that gives the same bytes: one rewrite reaches a fixed point. */
  lemma Normalises(crc: Checksum, data: Bytes)
    requires ReadFrame(BLANK, data).Ok?
    ensures var c := ReadFrame(BLANK, data).value.cmd;
            && Frame(crc, c).Ok?
            && var again := ReadFrame(BLANK, Frame(crc, c).value);
               again.Ok? && again.value.rest == [] && Same(again.value.cmd, c)
               && Frame(crc, again.value.cmd) == Frame(crc, c)
  {
    var r := ReadFrame(BLANK, data).value;
    var c := r.cmd;
    ReadAccepted(data);
    RoundTrip(crc, c, []);
    assert Frame(crc, c).value + [] == Frame(crc, c).value;
    AcceptedSame(crc, c, |data| - |r.rest|, r.count);
    SameFrame(crc, Carried(crc, c), c);
  }

  // ---- Byte counts ----

  /** The bytes that a reader consumes and does not count: a wrap of the 16-bit sum of the class
      and header lengths, and the checksum. */
  function Uncounted(c: Cmd): nat {
    if c.proto == TB_REMOTING then 0
    else
      (if |c.className| + |c.header| > 0xFFFF then 0x1_0000 else 0)
      + if Signed(c) then 4 else 0
  }

  /** On success the bytes consumed are the returned count and the uncounted bytes, exactly. */
  lemma CountIsExact(data: Bytes)
    requires ReadFrame(BLANK, data).Ok?
    ensures var r := ReadFrame(BLANK, data).value; |data| - |r.rest| == r.count + Uncounted(r.cmd)
  {
    var r := ReadFrame(BLANK, data).value;
    ReadAccepted(data);
    AcceptedCount(r.cmd, |data| - |r.rest|, r.count);
  }

  lemma AcceptedCount(c: Cmd, consumed: nat, count: nat)
    requires Accepted(c, consumed, count)
    ensures consumed == count + Uncounted(c)
  {
  }

  // Frames whose count falls short.
  const SIGNED := BLANK.(proto := BOLT_V2, typ := REQUEST, switc := 1)
  const WRAPPING := BLANK.(proto := BOLT_V1, typ := REQUEST, className := seq(0xFFFF, _ => 0),
                           headers := EMPTY.(kvs := [Pair([1], [])]))

  lemma WrittenCount(crc: Checksum, c: Cmd)
    requires InRange(c)
    ensures Frame(crc, c).Ok?
    ensures var r := ReadFrame(BLANK, Frame(crc, c).value);
            r.Ok? && r.value.rest == [] && |Frame(crc, c).value| == r.value.count + Uncounted(Carried(crc, c))
  {
    RoundTrip(crc, c, []);
    var data := Frame(crc, c).value;
    assert data + [] == data;
    CountIsExact(data);
  }

  /** An accepted V2 frame with its switch on is four bytes longer than its count, and an accepted V1
      frame with a class of 65535 bytes and one header is 65536 bytes longer. */
  lemma CountsFallShort(crc: Checksum, c: Cmd)
    requires c == SIGNED || c == WRAPPING
    ensures Frame(crc, c).Ok?
    ensures var data := Frame(crc, c).value;
            var r := ReadFrame(BLANK, data);
            r.Ok? && r.value.rest == [] && |data| == r.value.count + (if c == SIGNED then 4 else 0x1_0000)
  {
    if c == WRAPPING {
      EncodeSizeIsLength(c.headers);
      assert PairsSize([Pair([1], [])]) == 9;
    }
    assert InRange(c);
    WrittenCount(crc, c);
  }

  /** The counts a reading loop adds up, and the bytes it leaves out of them. */
  function StreamCounts(data: Bytes): (nat, nat)
    decreases |data|
  {
    if data == [] || ReadFrame(BLANK, data).Err? then (0, 0)
    else
      var r := ReadFrame(BLANK, data).value;
      var (n, u) := StreamCounts(r.rest);
      (r.count + n, Uncounted(r.cmd) + u)
  }

  ghost predicate AllCounted?(cs: seq<Cmd>) {
    forall i :: 0 <= i < |cs| ==> Uncounted(cs[i]) == 0
  }

  lemma AllCounted(c: Cmd, cs: seq<Cmd>)
    ensures AllCounted?([c] + cs) <==> Uncounted(c) == 0 && AllCounted?(cs)
  {
    var all := [c] + cs;
    assert all[0] == c && forall i :: 0 <= i < |cs| ==> all[i + 1] == cs[i];
  }

  /** Over a whole stream the counts add up to its length exactly when no frame wraps its 16-bit
      sum and none carries a checksum. */
  lemma {:induction false} StreamCountsExact(data: Bytes)
    requires ReadStream(data).1.None?
    ensures StreamCounts(data).0 + StreamCounts(data).1 == |data|
    ensures StreamCounts(data).0 == |data| <==> AllCounted?(ReadStream(data).0)
    decreases |data|
  {
    if data != [] {
      var r := ReadFrame(BLANK, data).value;
      CountIsExact(data);
      StreamCountsExact(r.rest);
      var cs := ReadStream(r.rest).0;
      assert ReadStream(data).0 == [r.cmd] + cs;
      AllCounted(r.cmd, cs);
    }
  }
}
