/** The frame layouts as bytes at literal places: what is written, what is accepted and as what, and why
    the rest is refused.  Nothing here is said with the functions that write and read. */
module Wire {
  import opened Wrappers
  import opened Bytes
  import HM = HeaderMap
  import HB = HeaderBlocks
  import opened Frames

  /** Big-endian numbers of two and of four bytes at i. */
  function Two(d: Bytes, i: nat): U16
    requires i + 2 <= |d|
  {
    d[i] as int * 256 + d[i + 1]
  }

  function Four(d: Bytes, i: nat): U32
    requires i + 4 <= |d|
  {
    HB.Number(d, i)
  }

  /** The size of a BOLT frame before its class: V2 has a second version and a switch, and a response
      has two bytes of status where a request has four of timeout. */
  function Fixed(proto: Byte, typ: Byte): nat {
    (if proto == 2 then 22 else 20) + if typ == 0 then 0 else 2
  }

  /** Where the type byte is. */
  function TypeAt(d: Bytes): nat
    requires |d| > 0
  {
    if d[0] == 2 then 2 else 1
  }

  /** d begins with the protocol and type bytes of a BOLT frame. */
  predicate Starts(d: Bytes) {
    |d| > 0 && d[0] <= 2 && |d| > TypeAt(d) && d[TypeAt(d)] <= 2
  }

  /** d holds all of a BOLT frame before its class. */
  predicate Heads(d: Bytes) { Starts(d) && |d| >= HeadEnd(d) }

  function HeadEnd(d: Bytes): nat
    requires Starts(d)
  {
    Fixed(d[0], d[TypeAt(d)])
  }

  /** Where the class name starts, and how long it, the header block, the content and the checksum are. */
  datatype Shape = Shape(head: nat, name: nat, block: nat, content: nat, sum: nat) {
    function BlockAt(): nat { head + name }

    function ContentAt(): nat { head + name + block }

    function SumAt(): nat { head + name + block + content }

    function Size(): nat { head + name + block + content + sum }

    /** The lengths of class and header block are added in 16 bits, and the checksum is left out. */
    function Count(): nat { head + (name + block) % 65536 + content }
  }

  /** A V2 frame whose switch is on ends with a checksum. */
  function ShapeOf(d: Bytes): Shape
    requires Heads(d)
  {
    var n := HeadEnd(d);
    Shape(n, Two(d, n - 8), Two(d, n - 6), Four(d, n - 4), if d[0] == 2 && d[11] > 0 then 4 else 0)
  }

  function BlockOf(d: Bytes, s: Shape): Bytes
    requires |d| >= s.ContentAt()
  {
    d[s.BlockAt()..s.ContentAt()]
  }

  /** All of it is there, and the header block is one. */
  ghost predicate Whole(d: Bytes, s: Shape) {
    |d| >= s.Size() && exists ps :: HB.Block(BlockOf(d, s), ps)
  }

  /** d begins with a whole BOLT frame. */
  ghost predicate Bolts(d: Bytes) { Heads(d) && Whole(d, ShapeOf(d)) }

  /** Pairs, and then something else. */
  ghost predicate BlockFails(h: Bytes, e: HM.DecodeError) {
    exists n: nat, ps :: n < |h| && HB.Block(h[..n], ps) && HB.Fails(h[n..], e)
  }

  /** It begins with a frame up to its header block, which is none. */
  ghost predicate BadBlock(d: Bytes, e: HM.DecodeError) {
    Heads(d) && |d| >= ShapeOf(d).ContentAt() && BlockFails(BlockOf(d, ShapeOf(d)), e)
  }

  function RemotingSize(d: Bytes): nat
    requires |d| >= 14
  {
    14 + Four(d, 5) + d[9] + Four(d, 10)
  }

  /** d begins with a whole TBRemoting frame. */
  predicate Remotes(d: Bytes) { |d| >= 14 && d[0] == 13 && |d| >= RemotingSize(d) }

  /** The numbers of a BOLT frame at their places; V1 readers take the second version from the first
      byte of the request id. */
  function HeadOf(d: Bytes): Cmd
    requires Heads(d)
  {
    if d[0] == 2 then
      BLANK.(proto := 2, ver1 := d[1], typ := d[2], cmdcode := Two(d, 3), ver2 := d[5], rid := Four(d, 6),
             codec := d[10], switc := d[11], status := if d[2] == 0 then Two(d, 12) else 0,
             timeout := if d[2] == 0 then 0 else Four(d, 12))
    else
      BLANK.(proto := d[0], typ := d[1], cmdcode := Two(d, 2), ver2 := d[5], rid := Four(d, 5), codec := d[9],
             status := if d[1] == 0 then Two(d, 10) else 0, timeout := if d[1] == 0 then 0 else Four(d, 10))
  }

  // ---- Reading ----

  lemma At16Is(d: Bytes, k: nat, n: nat, i: nat)
    requires i + 2 <= n && k + n <= |d|
    ensures At16(d[k..][..n], i) == Two(d, k + i)
  {
  }

  lemma At32Is(d: Bytes, k: nat, n: nat, i: nat)
    requires i + 4 <= n && k + n <= |d|
    ensures At32(d[k..][..n], i) == Four(d, k + i)
  {
  }

  /** The command when its type is known. */
  function TypedOf(d: Bytes): Cmd
    requires Starts(d)
  {
    BLANK.(proto := d[0], typ := d[TypeAt(d)], ver1 := if d[0] == 2 then d[1] else 0)
  }

  /** Up to the type byte. */
  lemma ReadsType(d: Bytes)
    ensures d == [] ==> ReadFrame(BLANK, d) == Err(EndOfStream)
    ensures |d| > 0 && d[0] > 2 && d[0] != 13 ==> ReadFrame(BLANK, d) == Err(MalformedProto)
    ensures |d| > 0 && d[0] <= 2 && |d| <= TypeAt(d) ==> ReadFrame(BLANK, d) == Err(EndOfStream)
    ensures |d| > 0 && d[0] <= 2 && |d| > TypeAt(d) && d[TypeAt(d)] > 2 ==> ReadFrame(BLANK, d) == Err(MalformedType)
    ensures Starts(d) ==> ReadFrame(BLANK, d) == ReadTyped(TypedOf(d), d[TypeAt(d) + 1..])
  {
    if |d| > 1 { assert d[1..][1..] == d[2..]; }
    if |d| > 2 { assert d[1..][2..] == d[3..]; }
  }

  lemma HeadIntoIs(d: Bytes)
    requires Heads(d)
    ensures FixedSize(TypedOf(d)) == HeadEnd(d) - TypeAt(d) - 1
    ensures HeadInto(TypedOf(d), d[TypeAt(d) + 1..][..FixedSize(TypedOf(d))]) == HeadOf(d)
  {
    var k, n := TypeAt(d) + 1, HeadEnd(d) - TypeAt(d) - 1;
    At16Is(d, k, n, 0);
    At32Is(d, k, n, 3);
    At16Is(d, k, n, if d[0] == 2 then 9 else 8);
    if d[TypeAt(d)] != 0 { At32Is(d, k, n, if d[0] == 2 then 9 else 8); }
  }

  /** Up to the class. */
  lemma ReadsHead(d: Bytes)
    requires Starts(d)
    ensures !Heads(d) ==> ReadFrame(BLANK, d) == Err(EndOfStream)
    ensures Heads(d) ==>
              var s := ShapeOf(d);
              ReadFrame(BLANK, d) == ReadBody(HeadOf(d), s.head, s.name, s.block, s.content, d[s.head..])
  {
    ReadsType(d);
    var k, n := TypeAt(d) + 1, FixedSize(TypedOf(d));
    if Heads(d) {
      HeadIntoIs(d);
      At16Is(d, k, n, n - 8);
      At16Is(d, k, n, n - 6);
      At32Is(d, k, n, n - 4);
      assert d[k..][n..] == d[HeadEnd(d)..];
    }
  }

  /** The parts of a body behind a head of n bytes. */
  lemma BodyAt(d: Bytes, n: nat, x: nat, y: nat)
    requires n + x + y <= |d|
    ensures d[n..][..x] == d[n..n + x] && d[n..][x..x + y] == d[n + x..n + x + y]
  {
  }

  lemma RestAt(d: Bytes, n: nat, m: nat, z: nat, sum: nat)
    requires n + m + z + sum <= |d|
    ensures d[n..][m..m + z] == d[n + m..n + m + z] && d[n..][m + z..] == d[n + m + z..]
    ensures d[n + m + z..][sum..] == d[n + m + z + sum..]
    ensures sum == 4 ==> Get32(d[n + m + z..]) == Four(d, n + m + z)
  {
  }

  /** c with the body that d has: class, header block, content and, if there is one, the checksum; m are
      the headers of the block. */
  function BodyInto(c: Cmd, d: Bytes, s: Shape, m: HM.Headers): Cmd
    requires |d| >= s.Size()
  {
    c.(className := d[s.head..s.BlockAt()], header := BlockOf(d, s), content := d[s.ContentAt()..s.SumAt()],
       headers := m, crc32 := if s.sum == 4 then Four(d, s.SumAt()) else 0)
  }

  function SumOf(c: Cmd): nat { if Signed(c) then 4 else 0 }

  /** c with the parts of the body b. */
  function Parts(c: Cmd, b: Bytes, x: nat, y: nat, z: nat, m: HM.Headers): Cmd
    requires |b| >= x + y + z + SumOf(c)
  {
    c.(className := b[..x], header := b[x..x + y], content := b[x + y..x + y + z], headers := m,
       crc32 := if Signed(c) then Get32(b[x + y + z..]) else c.crc32)
  }

  lemma PartsAre(c: Cmd, d: Bytes, s: Shape, m: HM.Headers)
    requires |d| >= s.Size() && s.sum == SumOf(c) && c.crc32 == 0
    ensures Parts(c, d[s.head..], s.name, s.block, s.content, m) == BodyInto(c, d, s, m)
    ensures d[s.head..][s.name + s.block + s.content..][s.sum..] == d[s.Size()..]
  {
    SlicesAre(d, s);
  }

  lemma SlicesAre(d: Bytes, s: Shape)
    requires |d| >= s.Size()
    ensures var b := d[s.head..];
            && b[..s.name] == d[s.head..s.BlockAt()] && b[s.name..s.name + s.block] == BlockOf(d, s)
            && b[s.name + s.block..s.name + s.block + s.content] == d[s.ContentAt()..s.SumAt()]
            && b[s.name + s.block + s.content..][s.sum..] == d[s.Size()..]
            && (s.sum == 4 ==> Get32(b[s.name + s.block + s.content..]) == Four(d, s.SumAt()))
  {
    BodyAt(d, s.head, s.name, s.block);
    RestAt(d, s.head, s.name + s.block, s.content, s.sum);
  }

  /** What the reader of a body makes of it; dec is what its header block decodes to. */
  predicate Verdict(r: Result<Read, Error>, c: Cmd, d: Bytes, s: Shape, dec: HM.Decoded) {
    if |d| < s.ContentAt() then r == Err(EndOfStream)
    else if dec.error.Some? then r == Err(BadHeader(dec.error.value))
    else if |d| < s.Size() then r == Err(EndOfStream)
    else Got(r, BodyInto(c, d, s, dec.m), s.Count(), d[s.Size()..])
  }

  function DecodedBlock(d: Bytes, s: Shape): HM.Decoded {
    if |d| < s.ContentAt() then HM.Decoded(None, HM.EMPTY) else HM.Decode(HM.EMPTY, BlockOf(d, s))
  }

  /** The same of the body b alone, which has x bytes of class, y of header block and z of content. */
  predicate PartVerdict(r: Result<Read, Error>, c: Cmd, b: Bytes, head: nat, x: nat, y: nat, z: nat, dec: HM.Decoded) {
    if |b| < x + y then r == Err(EndOfStream)
    else if dec.error.Some? then r == Err(BadHeader(dec.error.value))
    else if |b| < x + y + z + SumOf(c) then r == Err(EndOfStream)
    else Got(r, Parts(c, b, x, y, z, dec.m), head + (x + y) % 65536 + z, b[x + y + z..][SumOf(c)..])
  }

  lemma PartFails(c: Cmd, head: nat, x: nat, y: nat, z: nat, b: Bytes, dec: HM.Decoded)
    requires c.headers == HM.EMPTY
    requires |b| >= x + y ==> dec == HM.Decode(HM.EMPTY, b[x..x + y])
    requires |b| < x + y + z + SumOf(c) || dec.error.Some?
    ensures PartVerdict(ReadBody(c, head, x, y, z, b), c, b, head, x, y, z, dec)
  {
  }

  lemma PartGot(c: Cmd, head: nat, x: nat, y: nat, z: nat, b: Bytes, dec: HM.Decoded)
    requires c.headers == HM.EMPTY
    requires |b| >= x + y + z + SumOf(c) && dec == HM.Decode(HM.EMPTY, b[x..x + y]) && dec.error.None?
    ensures PartVerdict(ReadBody(c, head, x, y, z, b), c, b, head, x, y, z, dec)
  {
  }

  lemma PartReads(c: Cmd, head: nat, x: nat, y: nat, z: nat, b: Bytes, dec: HM.Decoded)
    requires c.headers == HM.EMPTY
    requires |b| >= x + y ==> dec == HM.Decode(HM.EMPTY, b[x..x + y])
    ensures PartVerdict(ReadBody(c, head, x, y, z, b), c, b, head, x, y, z, dec)
  {
    if |b| < x + y + z + SumOf(c) || dec.error.Some? {
      PartFails(c, head, x, y, z, b, dec);
    } else {
      PartGot(c, head, x, y, z, b, dec);
    }
  }

  lemma PartVerdictIs(r: Result<Read, Error>, c: Cmd, d: Bytes, s: Shape, dec: HM.Decoded)
    requires s.head <= |d| && s.sum == SumOf(c) && c.crc32 == 0
    requires PartVerdict(r, c, d[s.head..], s.head, s.name, s.block, s.content, dec)
    ensures Verdict(r, c, d, s, dec)
  {
    if |d| >= s.Size() { PartsAre(c, d, s, dec.m); }
  }

  lemma BlockIs(d: Bytes, s: Shape)
    requires |d| >= s.ContentAt()
    ensures DecodedBlock(d, s) == HM.Decode(HM.EMPTY, d[s.head..][s.name..s.name + s.block])
  {
    BlockSlice(d, s);
  }

  lemma BlockSlice(d: Bytes, s: Shape)
    requires |d| >= s.ContentAt()
    ensures BlockOf(d, s) == d[s.head..][s.name..s.name + s.block]
  {
    BodyAt(d, s.head, s.name, s.block);
  }

  lemma BodyReads(c: Cmd, d: Bytes, s: Shape, r: Result<Read, Error>, dec: HM.Decoded)
    requires s.head <= |d| && s.sum == SumOf(c) && c.headers == HM.EMPTY && c.crc32 == 0
    requires r == ReadBody(c, s.head, s.name, s.block, s.content, d[s.head..])
    requires |d| >= s.ContentAt() ==> dec == HM.Decode(HM.EMPTY, d[s.head..][s.name..s.name + s.block])
    ensures Verdict(r, c, d, s, dec)
  {
    PartReads(c, s.head, s.name, s.block, s.content, d[s.head..], dec);
    PartVerdictIs(r, c, d, s, dec);
  }

  lemma SumIs(d: Bytes)
    requires Heads(d)
    ensures ShapeOf(d).sum == SumOf(HeadOf(d))
    ensures HeadOf(d).headers == HM.EMPTY && HeadOf(d).crc32 == 0
  {
  }

  lemma ShapeReads(c: Cmd, d: Bytes, s: Shape)
    requires s.head <= |d| && s.sum == SumOf(c) && c.headers == HM.EMPTY && c.crc32 == 0
    ensures Verdict(ReadBody(c, s.head, s.name, s.block, s.content, d[s.head..]), c, d, s, DecodedBlock(d, s))
  {
    if |d| >= s.ContentAt() { BlockIs(d, s); }
    BodyReads(c, d, s, ReadBody(c, s.head, s.name, s.block, s.content, d[s.head..]), DecodedBlock(d, s));
  }

  lemma ReadsBody(d: Bytes)
    requires Heads(d)
    ensures Verdict(ReadFrame(BLANK, d), HeadOf(d), d, ShapeOf(d), DecodedBlock(d, ShapeOf(d)))
  {
    SumIs(d);
    ReadsHead(d);
    ShapeReads(HeadOf(d), d, ShapeOf(d));
  }

  /** Which blocks are accepted, and why the others fail. */
  ghost predicate Decodes(h: Bytes, dec: HM.Decoded) {
    && (dec.error.None? <==> exists ps :: HB.Block(h, ps))
    && (forall e :: dec.error == Some(e) <==> BlockFails(h, e))
  }

  lemma DecodesBlock(h: Bytes)
    ensures Decodes(h, HM.Decode(HM.EMPTY, h))
  {
    HM.DecodeIsFold(HM.EMPTY, h);
    var ps := HM.ParseAll(h).0;
    HB.AcceptedExactly(h, ps);
    if qs :| HB.Block(h, qs) { HB.AcceptedExactly(h, qs); }
    forall e ensures HM.Decode(HM.EMPTY, h).error == Some(e) <==> BlockFails(h, e) {
      HB.RefusedExactly(h, ps, e);
      if n: nat, qs :| n < |h| && HB.Block(h[..n], qs) && HB.Fails(h[n..], e) { HB.RefusedExactly(h, qs, e); }
    }
  }

  lemma ShapeDecodes(d: Bytes, s: Shape)
    requires |d| >= s.ContentAt()
    ensures Decodes(BlockOf(d, s), DecodedBlock(d, s))
  {
    DecodesBlock(BlockOf(d, s));
  }

  /** What is accepted, and why the rest is refused: an unknown protocol or type, a block that is none;
      anything else ends too early. */
  lemma AcceptsExactly(d: Bytes)
    ensures var r := ReadFrame(BLANK, d);
            && (r.Ok? <==> Bolts(d) || Remotes(d))
            && (r == Err(MalformedProto) <==> |d| > 0 && d[0] > 2 && d[0] != 13)
            && (r == Err(MalformedType) <==> |d| > 0 && d[0] <= 2 && |d| > TypeAt(d) && d[TypeAt(d)] > 2)
            && (forall e :: r == Err(BadHeader(e)) <==> BadBlock(d, e))
  {
    ReadsType(d);
    if Starts(d) { AcceptsBolt(d); }
    if |d| > 0 && d[0] == 13 { ReadsRemoting(d); }
  }

  lemma AcceptsBolt(d: Bytes)
    requires Starts(d)
    ensures var r := ReadFrame(BLANK, d);
            && (r.Ok? <==> Bolts(d)) && r != Err(MalformedProto) && r != Err(MalformedType)
            && (forall e :: r == Err(BadHeader(e)) <==> BadBlock(d, e))
  {
    if Heads(d) {
      ReadsBody(d);
      if |d| >= ShapeOf(d).ContentAt() { ShapeDecodes(d, ShapeOf(d)); }
      VerdictAccepts(ReadFrame(BLANK, d), HeadOf(d), d, ShapeOf(d), DecodedBlock(d, ShapeOf(d)));
    } else {
      ReadsHead(d);
    }
  }

  lemma VerdictAccepts(r: Result<Read, Error>, c: Cmd, d: Bytes, s: Shape, dec: HM.Decoded)
    requires Verdict(r, c, d, s, dec) && (|d| >= s.ContentAt() ==> Decodes(BlockOf(d, s), dec))
    ensures (r.Ok? <==> Whole(d, s)) && r != Err(MalformedProto) && r != Err(MalformedType)
    ensures forall e :: r == Err(BadHeader(e)) <==> |d| >= s.ContentAt() && BlockFails(BlockOf(d, s), e)
  {
  }

  /** An accepted BOLT frame: its fields, with the pairs of its block set one after the other for its
      headers, the returned count, and the bytes left unread. */
  lemma ReadsBolt(d: Bytes, ps: seq<HM.Pair>)
    requires Bolts(d) && HB.Block(BlockOf(d, ShapeOf(d)), ps)
    ensures Got(ReadFrame(BLANK, d), BodyInto(HeadOf(d), d, ShapeOf(d), HM.SetAll(HM.EMPTY, ps)), ShapeOf(d).Count(),
                d[ShapeOf(d).Size()..])
  {
    ReadsBody(d);
    BlockDecodes(BlockOf(d, ShapeOf(d)), ps);
    VerdictGot(ReadFrame(BLANK, d), HeadOf(d), d, ShapeOf(d), DecodedBlock(d, ShapeOf(d)));
  }

  lemma VerdictGot(r: Result<Read, Error>, c: Cmd, d: Bytes, s: Shape, dec: HM.Decoded)
    requires |d| >= s.Size() && dec.error.None? && Verdict(r, c, d, s, dec)
    ensures Got(r, BodyInto(c, d, s, dec.m), s.Count(), d[s.Size()..])
  {
  }

  lemma BlockDecodes(h: Bytes, ps: seq<HM.Pair>)
    requires HB.Block(h, ps)
    ensures HM.Decode(HM.EMPTY, h) == HM.Decoded(None, HM.SetAll(HM.EMPTY, ps))
  {
    HM.DecodeIsFold(HM.EMPTY, h);
    HB.AcceptedExactly(h, ps);
  }

  /** A TBRemoting frame: connection, class and content behind fourteen bytes. */
  lemma ReadsRemoting(d: Bytes)
    requires |d| > 0 && d[0] == 13
    ensures !Remotes(d) ==> ReadFrame(BLANK, d) == Err(EndOfStream)
    ensures Remotes(d) ==>
              var x, y, z := Four(d, 5), d[9], Four(d, 10);
              Got(ReadFrame(BLANK, d),
                  BLANK.(proto := 13, cmdcode := d[1], codec := d[2], typ := d[3], reserved := d[4],
                         connection := d[14..14 + x], className := d[14 + x..14 + x + y],
                         content := d[14 + x + y..14 + x + y + z]),
                  RemotingSize(d), d[RemotingSize(d)..])
  {
    if |d| >= 14 {
      var b, x: nat, y: nat, z: nat := d[1..], Four(d, 5), d[9], Four(d, 10);
      assert At32(b, 4) == x && b[8] == y && At32(b, 9) == z;
      if Remotes(d) { TailAt(d, 13, x, y, z); }
    }
  }

  lemma TailAt(d: Bytes, n: nat, x: nat, y: nat, z: nat)
    requires n + 1 + x + y + z <= |d|
    ensures var b := d[1..];
            && b[n..n + x] == d[n + 1..n + 1 + x] && b[n + x..n + x + y] == d[n + 1 + x..n + 1 + x + y]
            && b[n + x + y..n + x + y + z] == d[n + 1 + x + y..n + 1 + x + y + z]
            && b[n + x + y + z..] == d[n + 1 + x + y + z..]
  {
  }

  // ---- Writing ----

  /** The numbers of c stand at their places in d. */
  predicate Numbers(c: Cmd, d: Bytes)
    requires |d| >= Fixed(c.proto, c.typ)
  {
    && d[0] == c.proto
    && if c.proto == 2 then
         && d[1] == c.ver1 && d[2] == c.typ && Two(d, 3) == c.cmdcode && d[5] == c.ver2 && Four(d, 6) == c.rid
         && d[10] == c.codec && d[11] == c.switc
         && if c.typ == 0 then Two(d, 12) == c.status else Four(d, 12) == c.timeout
       else
         && d[1] == c.typ && Two(d, 2) == c.cmdcode && d[4] == c.ver2 && Four(d, 5) == c.rid && d[9] == c.codec
         && if c.typ == 0 then Two(d, 10) == c.status else Four(d, 10) == c.timeout
  }

  /** The lengths that a frame of c has. */
  function ShapeFor(c: Cmd): Shape {
    Shape(Fixed(c.proto, c.typ), |c.className|, |HM.Encode(c.headers)|, |c.content|,
          if c.proto == 2 && c.switc > 0 then 4 else 0)
  }

  predicate Lens(d: Bytes, s: Shape)
    requires 8 <= s.head <= |d|
  {
    && Two(d, s.head - 8) == s.name % 65536 && Two(d, s.head - 6) == s.block % 65536
    && Four(d, s.head - 4) == s.content % 0x1_0000_0000
  }

  /** d has those lengths, each as far as its bytes can hold it, class, header block and content behind
      them, and at the end the checksum of all before it. */
  predicate BoltLayout(crc: Checksum, c: Cmd, d: Bytes) {
    var s := ShapeFor(c);
    && |d| == s.Size() && Numbers(c, d) && Lens(d, s)
    && d[s.head..s.BlockAt()] == c.className && BlockOf(d, s) == HM.Encode(c.headers)
    && d[s.ContentAt()..s.SumAt()] == c.content
    && (s.sum == 4 ==> Four(d, s.SumAt()) == crc(d[..s.SumAt()]))
  }

  /** Connection, class and content behind fourteen bytes. */
  predicate RemotingLayout(c: Cmd, d: Bytes) {
    var x, y, z := |c.connection|, |c.className|, |c.content|;
    && |d| == 14 + x + y + z && d[..5] == [13, c.cmdcode % 256, c.codec, c.typ, 0]
    && Four(d, 5) == x % 0x1_0000_0000 && d[9] == y % 256 && Four(d, 10) == z % 0x1_0000_0000
    && d[14..14 + x] == c.connection && d[14 + x..14 + x + y] == c.className && d[14 + x + y..] == c.content
  }

  lemma TwoAt(d: Bytes, a: Bytes, n: U16, rest: Bytes)
    requires d == a + Put16(n) + rest
    ensures |d| >= |a| + 2 && Two(d, |a|) == n
  {
    At16Put(a, n, rest);
  }

  lemma FourAt(d: Bytes, a: Bytes, n: U32, rest: Bytes)
    requires d == a + Put32(n) + rest
    ensures |d| >= |a| + 4 && Four(d, |a|) == n
  {
    At32Put(a, n, rest);
  }

  lemma FrontAt(c: Cmd, a: Bytes, rest: Bytes)
    ensures var d, n := a + Front(c.cmdcode, c.ver2, c.rid) + rest, |a|;
            Two(d, n) == c.cmdcode && d[n + 2] == c.ver2 && Four(d, n + 3) == c.rid
  {
    var d := a + Front(c.cmdcode, c.ver2, c.rid) + rest;
    TwoAt(d, a, c.cmdcode, [c.ver2] + Put32(c.rid) + rest);
    FourAt(d, a + Put16(c.cmdcode) + [c.ver2], c.rid, rest);
  }

  lemma MiddleAt(c: Cmd, a: Bytes, rest: Bytes)
    ensures var d, n := a + Middle(c) + rest, |a|;
            && d[n] == c.codec && (c.proto == 2 ==> d[n + 1] == c.switc)
            && var k := n + if c.proto == 2 then 2 else 1;
            if c.typ == 0 then Two(d, k) == c.status else Four(d, k) == c.timeout
  {
    var d := a + Middle(c) + rest;
    var lead := if c.proto == 2 then [c.codec, c.switc] else [c.codec];
    if c.typ == 0 { TwoAt(d, a + lead, c.status, rest); } else { FourAt(d, a + lead, c.timeout, rest); }
  }

  lemma LengthsAt(c: Cmd, a: Bytes, rest: Bytes)
    ensures var d, n := a + Lengths(c) + rest, |a|;
            && Two(d, n) == |c.className| % 65536 && Two(d, n + 2) == |HM.Encode(c.headers)| % 65536
            && Four(d, n + 4) == |c.content| % 0x1_0000_0000
  {
    HM.EncodeSizeIsLength(c.headers);
    var x, y, z := Low16(|c.className|), Low16(HM.EncodeSize(c.headers)), Low32(|c.content|);
    var d := a + Lengths(c) + rest;
    TwoAt(d, a, x, Put16(y) + Put32(z) + rest);
    TwoAt(d, a + Put16(x), y, Put32(z) + rest);
    FourAt(d, a + Put16(x) + Put16(y), z, rest);
  }

  lemma Regroup(a: Bytes, b: Bytes, c: Bytes, e: Bytes, rest: Bytes)
    ensures var d := a + (b + c + e) + rest;
            && d == a + b + (c + e + rest) && d == (a + b) + c + (e + rest) && d == (a + b + c) + e + rest
            && |d| == |a| + |b| + |c| + |e| + |rest| && d[|a| + |b| + |c| + |e|..] == rest
  {
  }

  lemma StartAt(c: Cmd, rest: Bytes)
    ensures var d := Start(c) + rest;
            d[0] == c.proto && if c.proto == 2 then d[1] == c.ver1 && d[2] == c.typ else d[1] == c.typ
  {
  }

  lemma HeadLen(c: Cmd)
    requires c.proto <= 2
    ensures |Start(c) + Head(c)| == Fixed(c.proto, c.typ) == |Start(c)| + 7 + |Middle(c)| + 8
  {
  }

  /** The first bytes, as far as the class. */
  lemma HeadLayout(c: Cmd, rest: Bytes)
    requires c.proto <= 2
    ensures var d := Start(c) + Head(c) + rest; |d| >= ShapeFor(c).head && Numbers(c, d) && Lens(d, ShapeFor(c))
  {
    HeadLen(c);
    var a, front, mid, lens := Start(c), Front(c.cmdcode, c.ver2, c.rid), Middle(c), Lengths(c);
    Regroup(a, front, mid, lens, rest);
    HeadNumbers(c, lens + rest);
    LengthsAt(c, a + front + mid, rest);
  }

  lemma HeadNumbers(c: Cmd, rest: Bytes)
    requires c.proto <= 2 && |rest| >= 8
    ensures var d := Start(c) + Front(c.cmdcode, c.ver2, c.rid) + Middle(c) + rest;
            |d| >= Fixed(c.proto, c.typ) && Numbers(c, d)
  {
    HeadLen(c);
    var a, front, mid := Start(c), Front(c.cmdcode, c.ver2, c.rid), Middle(c);
    Group(a, front, mid, rest);
    StartAt(c, front + (mid + rest));
    FrontAt(c, a, mid + rest);
    MiddleAt(c, a + front, rest);
    NumbersFrom(c, a + front + mid + rest, |a|);
  }

  lemma Group(a: Bytes, b: Bytes, c: Bytes, rest: Bytes)
    ensures a + b + c + rest == a + (b + (c + rest)) == a + b + (c + rest)
  {
  }

  lemma NumbersFrom(c: Cmd, d: Bytes, k: nat)
    requires |d| >= Fixed(c.proto, c.typ) && c.proto <= 2 && k == if c.proto == 2 then 3 else 2
    requires d[0] == c.proto && if c.proto == 2 then d[1] == c.ver1 && d[2] == c.typ else d[1] == c.typ
    requires Two(d, k) == c.cmdcode && d[k + 2] == c.ver2 && Four(d, k + 3) == c.rid && d[k + 7] == c.codec
    requires c.proto == 2 ==> d[k + 8] == c.switc
    requires var n := k + if c.proto == 2 then 9 else 8;
             if c.typ == 0 then Two(d, n) == c.status else Four(d, n) == c.timeout
    ensures Numbers(c, d)
  {
  }

  lemma BodyLayout(h: Bytes, x: Bytes, y: Bytes, z: Bytes, sum: Bytes)
    ensures var d, n := h + (x + y + z) + sum, |h|;
            && |d| == n + |x| + |y| + |z| + |sum|
            && d[n..n + |x|] == x && d[n + |x|..n + |x| + |y|] == y && d[n + |x| + |y|..n + |x| + |y| + |z|] == z
            && d[..n + |x| + |y| + |z|] == h + (x + y + z) && d[n + |x| + |y| + |z|..] == sum
  {
  }

  lemma WritesBolt(crc: Checksum, c: Cmd)
    requires c.proto <= 2 && c.typ <= 2
    ensures BoltLayout(crc, c, FrameBolt(crc, c))
  {
    WritesHead(c, Trailer(c, crc(Unsigned(c))));
    WritesBody(c, Trailer(c, crc(Unsigned(c))));
    TrailerAt(c, Unsigned(c), crc(Unsigned(c)));
  }

  lemma WritesHead(c: Cmd, sum: Bytes)
    requires c.proto <= 2
    ensures var d := Unsigned(c) + sum; |d| >= ShapeFor(c).head && Numbers(c, d) && Lens(d, ShapeFor(c))
  {
    var h := Start(c) + Head(c);
    HeadLayout(c, Body(c) + sum);
    assert h + Body(c) + sum == h + (Body(c) + sum);
  }

  lemma WritesBody(c: Cmd, sum: Bytes)
    requires c.proto <= 2 && |sum| == ShapeFor(c).sum
    ensures var d, s := Unsigned(c) + sum, ShapeFor(c);
            && |d| == s.Size() && d[s.head..s.BlockAt()] == c.className && BlockOf(d, s) == HM.Encode(c.headers)
            && d[s.ContentAt()..s.SumAt()] == c.content && d[..s.SumAt()] == Unsigned(c) && |Unsigned(c)| == s.SumAt()
  {
    HeadLen(c);
    BodyLayout(Start(c) + Head(c), c.className, HM.Encode(c.headers), c.content, sum);
  }

  lemma TrailerAt(c: Cmd, u: Bytes, sum: U32)
    ensures Signed(c) ==> |u + Trailer(c, sum)| == |u| + 4 && Four(u + Trailer(c, sum), |u|) == sum
  {
    if Signed(c) { FourAt(u + Trailer(c, sum), u, sum, []); }
  }

  lemma WritesRemoting(c: Cmd)
    requires c.proto == 13
    ensures RemotingLayout(c, FrameTBRemoting(c))
  {
    var d, lead: Bytes := FrameTBRemoting(c), [c.proto, c.cmdcode % 256, c.codec, c.typ, 0];
    var x, y, z := Low32(|c.connection|), |c.className| % 256, Low32(|c.content|);
    var body := c.connection + c.className + c.content;
    FourAt(d, lead, x, [y] + Put32(z) + body);
    FourAt(d, lead + Put32(x) + [y], z, body);
    BodyLayout(lead + Put32(x) + [y] + Put32(z), c.connection, c.className, c.content, []);
    assert d == lead + Put32(x) + [y] + Put32(z) + body + [];
  }

  /** What is written of any command, and which commands are refused as what. */
  lemma WritesExactly(crc: Checksum, c: Cmd)
    ensures Frame(crc, c).Ok? <==> c.proto == 13 || (c.proto <= 2 && c.typ <= 2)
    ensures Frame(crc, c).Err? ==> Frame(crc, c).error == if c.proto <= 2 then MalformedType else MalformedProto
    ensures c.proto <= 2 && c.typ <= 2 ==> BoltLayout(crc, c, Frame(crc, c).value)
    ensures c.proto == 13 ==> RemotingLayout(c, Frame(crc, c).value)
  {
    if c.proto <= 2 && c.typ <= 2 { WritesBolt(crc, c); }
    if c.proto == 13 { WritesRemoting(c); }
  }
}
