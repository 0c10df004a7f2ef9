/** Command: the writers fill a buffer by index, the readers assign the fields one by one from a
    stream.  Both are proved against the layouts of Frames. */
module Command {
  import opened Wrappers
  import opened Bytes
  import opened HeaderMap
  import opened Frames
  import opened SimpleMap

  // ---- Output buffers ----

  /** A buffer of exactly n bytes, whose contents may be anything that was in it before. */
  method AllocToAtLeast(n: nat) returns (b: array<Byte>)
    ensures fresh(b) && b.Length == n
  {
    b := new Byte[n];
  }

  /** Writes x at i, right after what has been written. */
  method CopyAt(b: array<Byte>, i: nat, x: Bytes)
    requires i + |x| <= b.Length
    modifies b
    ensures b[..i + |x|] == old(b[..i]) + x
  {
    forall j | 0 <= j < |x| {
      b[i + j] := x[j];
    }
  }

  method PutUint16(b: array<Byte>, i: nat, v: nat)
    requires i + 2 <= b.Length
    modifies b
    ensures b[..i + 2] == old(b[..i]) + Put16(Low16(v))
  {
    CopyAt(b, i, Put16(Low16(v)));
  }

  method PutUint32(b: array<Byte>, i: nat, v: nat)
    requires i + 4 <= b.Length
    modifies b
    ensures b[..i + 4] == old(b[..i]) + Put32(Low32(v))
  {
    CopyAt(b, i, Put32(Low32(v)));
  }

  method CopyOf(x: Bytes) returns (b: array<Byte>)
    ensures fresh(b) && b[..] == x
  {
    b := AllocToAtLeast(|x|);
    CopyAt(b, 0, x);
    assert b[..] == b[..b.Length];
  }

  // ---- Input streams ----

  class Reader {
    const data: Bytes
    var pos: nat

    ghost predicate Valid() reads this { pos <= |data| }

    ghost function Rest(): Bytes
      requires Valid()
      reads this
    {
      data[pos..]
    }

    constructor (data: Bytes)
      ensures Valid() && this.data == data && Rest() == data
    {
      this.data, pos := data, 0;
    }

    /** Exactly n bytes, or a failure that may have eaten what there was. */
    method ReadToBytes(n: nat) returns (r: Result<Bytes, Error>)
      requires Valid()
      modifies this
      ensures Valid()
      ensures if |old(Rest())| < n then r == Err(EndOfStream)
              else r == Ok(old(Rest())[..n]) && Rest() == old(Rest())[n..]
    {
      if |data| - pos < n {
        pos := |data|;
        return Err(EndOfStream);
      }
      assert data[pos..][..n] == data[pos..pos + n] && data[pos..][n..] == data[pos + n..];
      r := Ok(data[pos..pos + n]);
      pos := pos + n;
    }
  }

  // ---- Commands ----

  /** An object that is no byte storage. */
  ghost predicate Apart(o: object, slots: seq<KvHeader>) {
    o !in Storage(slots)
  }

  class Command {
    var proto: Byte
    var ver1: Byte
    var typ: Byte
    var cmdcode: U16
    var ver2: Byte
    var rid: U32
    var codec: Byte
    var switc: Byte
    var timeout: U32
    var status: U16
    var reserved: Byte
    var connection: Bytes
    var className: Bytes
    var header: Bytes
    var content: Bytes
    var crc32: U32
    const headers: FastSimpleMap

    ghost function Repr(): set<object>
      reads this, headers
    {
      {this, headers} + Storage(headers.slots)
    }

    /** What every method keeps. */
    ghost predicate Usable()
      reads this, headers
    {
      headers.Usable() && Apart(this, headers.slots)
    }

    /** What every method keeps as long as headers are not deleted but the last. */
    ghost predicate Valid()
      reads this, headers, Storage(headers.slots)
    {
      Usable() && headers.Valid()
    }

    ghost function Value(): Cmd
      requires Usable()
      reads this, headers, Storage(headers.slots)
    {
      Cmd(proto, ver1, typ, cmdcode, ver2, rid, codec, switc, timeout, status, reserved,
          connection, className, header, content, crc32, headers.Value())
    }

    constructor ()
      ensures Valid() && Value() == BLANK && fresh(headers) && fresh(Repr() - {this})
    {
      proto, ver1, typ, cmdcode, ver2, rid, codec, switc := 0, 0, 0, 0, 0, 0, 0, 0;
      timeout, status, reserved, crc32 := 0, 0, 0, 0;
      connection, className, header, content := [], [], [], [];
      headers := new FastSimpleMap();
    }

    /** Whatever the command held, nothing of it is left but the storage of its headers, shared or
        separate as it was. */
    method Reset()
      requires Usable()
      modifies this, headers
      ensures Usable() && Value() == BLANK && headers.slots == old(headers.slots)
      ensures proto == ver1 == typ == ver2 == codec == switc == reserved == 0 && connection == className == []
      ensures cmdcode == status == 0 && rid == timeout == crc32 == 0 && header == content == [] && headers.n == 0
      ensures Separate(headers.slots) ==> Valid()
    {
      headers.Reset();
      ResetFields();
    }

    method ResetFields()
      modifies this
      ensures Scalars(BLANK) && reserved == 0 && crc32 == 0
      ensures connection == [] && className == [] && header == [] && content == []
    {
      ResetScalars();
      connection, className, header, content := [], [], [], [];
      reserved, crc32 := 0, 0;
    }

    method ResetScalars()
      modifies this
      ensures Scalars(BLANK)
    {
      proto, ver1, typ, cmdcode, ver2 := 0, 0, 0, 0, 0;
      rid, codec, switc, timeout, status := 0, 0, 0, 0, 0;
    }

    // ---- Writers ----

    /** The fields that a head is made of are those of c. */
    ghost predicate Scalars(c: Cmd)
      reads this
    {
      && proto == c.proto && ver1 == c.ver1 && typ == c.typ && cmdcode == c.cmdcode && ver2 == c.ver2
      && rid == c.rid && codec == c.codec && switc == c.switc && timeout == c.timeout && status == c.status
    }

    /** The head of a BOLT frame, up to its lengths. */
    method WriteHead(b: array<Byte>, ghost c: Cmd) returns (i: nat)
      requires Scalars(c) && b.Length >= HeadSize(c)
      modifies b
      ensures i == HeadSize(c) - 8 && b[..i] == Start(c) + Front(c.cmdcode, c.ver2, c.rid) + Middle(c)
    {
      if proto == BOLT_V2 {
        CopyAt(b, 0, [proto, ver1, typ]);
        i := 3;
      } else {
        CopyAt(b, 0, [proto, typ]);
        i := 2;
      }
      assert b[..i] == Start(c);
      i := WriteFront(b, i);
      ghost var done := b[..i];
      i := WriteMiddle(b, i, c);
      assert b[..i] == done + Middle(c);
    }

    method WriteFront(b: array<Byte>, i: nat) returns (i': nat)
      requires i + 7 <= b.Length
      modifies b
      ensures i' == i + 7 && b[..i'] == old(b[..i]) + Front(cmdcode, ver2, rid)
    {
      assert Low16(cmdcode) == cmdcode;
      assert Low32(rid) == rid;
      PutUint16(b, i, cmdcode);
      CopyAt(b, i + 2, [ver2]);
      PutUint32(b, i + 3, rid);
      i' := i + 7;
    }

    method WriteMiddle(b: array<Byte>, i: nat, ghost c: Cmd) returns (i': nat)
      requires Scalars(c) && i + |Middle(c)| <= b.Length
      modifies b
      ensures i' == i + |Middle(c)| && b[..i'] == old(b[..i]) + Middle(c)
    {
      i' := i;
      if proto == BOLT_V2 {
        CopyAt(b, i', [codec, switc]);
        i' := i' + 2;
      } else {
        CopyAt(b, i', [codec]);
        i' := i' + 1;
      }
      if typ == RESPONSE {
        assert Low16(status) == status;
        PutUint16(b, i', status);
        i' := i' + 2;
      } else {
        assert Low32(timeout) == timeout;
        PutUint32(b, i', timeout);
        i' := i' + 4;
      }
    }

    method WriteLengths(b: array<Byte>, i: nat, headerLen: nat) returns (i': nat)
      requires i + 8 <= b.Length
      modifies b
      ensures i' == i + 8
      ensures b[..i'] == old(b[..i]) + (Put16(Low16(|className|)) + Put16(Low16(headerLen)) + Put32(Low32(|content|)))
    {
      PutUint16(b, i, |className|);
      PutUint16(b, i + 2, headerLen);
      PutUint32(b, i + 4, |content|);
      i' := i + 8;
    }

    method WriteHeaders(b: array<Byte>, i: nat) returns (i': nat)
      requires Usable() && i + EncodeSize(headers.Value()) <= b.Length
      modifies b
      ensures i' == i + EncodeSize(old(headers.Value())) <= b.Length
      ensures b[..i'] == old(b[..i]) + Encode(old(headers.Value()))
    {
      ghost var before, m := b[..], headers.Value();
      EncodeSizeIsLength(m);
      PutPrefix(before, i, Encode(m));
      var size := headers.Encode(b, i);
      i' := i + size;
    }

    /** Class, header block and content; they fill the buffer to its end. */
    method WriteBody(b: array<Byte>, i: nat, headerLen: nat)
      requires Usable() && b !in Storage(headers.slots) && headerLen == EncodeSize(headers.Value())
      requires b.Length == i + |className| + headerLen + |content|
      modifies b
      ensures b[..] == old(b[..i]) + (className + Encode(old(headers.Value())) + content)
    {
      ghost var before, m := b[..i], headers.Value();
      CopyAt(b, i, className);
      assert headers.Value() == m;
      var j := WriteHeaders(b, i + |className|);
      CopyAt(b, j, content);
      assert b[..] == b[..b.Length];
      Regroup4(before, className, Encode(m), content);
    }

    /** The fixed part of a BOLT frame. */
    method WriteFixed(b: array<Byte>, headerLen: nat, ghost c: Cmd)
      requires Scalars(c) && b.Length >= HeadSize(c)
      requires |className| == |c.className| && headerLen == EncodeSize(c.headers) && |content| == |c.content|
      modifies b
      ensures b[..HeadSize(c)] == Start(c) + Head(c)
    {
      var i := WriteHead(b, c);
      i := WriteLengths(b, i, headerLen);
      HeadParts(c);
    }

    /** A BOLT frame before its checksum. */
    method WriteUnsigned() returns (b: array<Byte>)
      requires Usable()
      ensures fresh(b) && b[..] == Unsigned(old(Value()))
    {
      ghost var c := Value();
      var headerLen := headers.GetEncodeSize();
      assert headers.Value() == c.headers;
      var head := if proto == BOLT_V2 then if typ == RESPONSE then 22 else 24 else if typ == RESPONSE then 20 else 22;
      b := AllocToAtLeast(head + |className| + headerLen + |content|);
      WriteFixed(b, headerLen, c);
      assert headers.Value() == c.headers;
      WriteBody(b, head, headerLen);
    }

    method WriteBolt(crc: Checksum) returns (b: array<Byte>)
      requires Usable()
      ensures fresh(b) && b[..] == FrameBolt(crc, old(Value()))
    {
      ghost var c := Value();
      b := WriteUnsigned();
      if proto == BOLT_V2 && switc > 0 {
        b := AppendSum(b, crc(b[..]));
      } else {
        assert Trailer(c, crc(Unsigned(c))) == [];
      }
    }

    method WriteTBFixed(b: array<Byte>)
      requires b.Length >= 14
      modifies b
      ensures b[..14] == [proto, cmdcode % 0x100, codec, typ, 0] + Put32(Low32(|connection|))
                         + [|className| % 0x100] + Put32(Low32(|content|))
    {
      var low: Byte, len: Byte := cmdcode % 0x100, |className| % 0x100;
      CopyAt(b, 0, [proto, low, codec, typ, 0]);
      PutUint32(b, 5, |connection|);
      CopyAt(b, 9, [len]);
      PutUint32(b, 10, |content|);
    }

    method WriteTBRemoting() returns (b: array<Byte>)
      requires Usable()
      ensures fresh(b) && b[..] == FrameTBRemoting(old(Value()))
    {
      var x, y, z := |connection|, |className|, |content|;
      b := AllocToAtLeast(14 + x + y + z);
      WriteTBFixed(b);
      ghost var fixed := b[..14];
      WriteTBBody(b);
      Associative(connection, className, content);
      assert b[..] == fixed + (connection + className + content);
    }

    method WriteTBBody(b: array<Byte>)
      requires b.Length == 14 + |connection| + |className| + |content|
      modifies b
      ensures b[..] == old(b[..14]) + (connection + className + content)
    {
      ghost var fixed := b[..14];
      CopyAt(b, 14, connection);
      CopyAt(b, 14 + |connection|, className);
      CopyAt(b, 14 + |connection| + |className|, content);
      assert b[..] == b[..b.Length] == fixed + connection + className + content;
    }

    /** WriteCommand: the output depends on the command alone, whatever the buffer held. */
    method Write(crc: Checksum) returns (r: Result<array<Byte>, Error>)
      requires Usable()
      ensures match Frame(crc, old(Value()))
              case Ok(f) => r.Ok? && fresh(r.value) && r.value[..] == f
              case Err(e) => r == Err(e)
    {
      if Bolt(proto) {
        if BoltType(typ) {
          var b := WriteBolt(crc);
          r := Ok(b);
        } else {
          r := Err(MalformedType);
        }
      } else if proto == TB_REMOTING {
        var b := WriteTBRemoting();
        r := Ok(b);
      } else {
        r := Err(MalformedProto);
      }
    }

    method Snapshot() returns (c: Cmd)
      requires Usable()
      ensures c == Value()
    {
      var kvs := headers.LivePairs();
      c := Cmd(proto, ver1, typ, cmdcode, ver2, rid, codec, switc, timeout, status, reserved, connection, className,
               header, content, crc32,
               Headers(headers.service, headers.host, headers.contentType, headers.authorization, kvs));
    }

    /** Everything but the connection object and the reserved byte is copied, into d's own storage, whose
        slots must be separate. */
    method CopyTo(d: Command)
      requires Usable() && d.Usable() && d != this && d.headers != headers
      requires Storage(headers.slots) !! Storage(d.headers.slots)
      modifies d, d.headers, Storage(d.headers.slots)
      ensures d.Usable() && fresh(Storage(d.headers.slots) - old(Storage(d.headers.slots)))
      ensures old(Separate(d.headers.slots)) ==>
                && Separate(d.headers.slots)
                && d.Value() == old(Value()).(connection := old(d.connection), reserved := old(d.reserved))
    {
      ghost var separate := Separate(d.headers.slots);
      var c := Snapshot();
      headers.CopyTo(d.headers);
      ghost var m := d.headers.Value();
      d.TakeFields(c);
      assert separate ==> m == c.headers;
    }

    method TakeFields(c: Cmd)
      requires Usable()
      modifies this
      ensures Usable() && headers.slots == old(headers.slots) && headers.n == old(headers.n)
      ensures Value() == c.(connection := old(connection), reserved := old(reserved), headers := old(headers.Value()))
    {
      ghost var m := headers.Value();
      TakeScalars(c);
      className, header, content, crc32 := c.className, c.header, c.content, c.crc32;
      assert headers.Value() == m;
    }

    method TakeScalars(c: Cmd)
      modifies this
      ensures Scalars(c) && connection == old(connection) && reserved == old(reserved)
    {
      proto, ver1, typ, cmdcode, ver2 := c.proto, c.ver1, c.typ, c.cmdcode, c.ver2;
      rid, codec, switc, timeout, status := c.rid, c.codec, c.switc, c.timeout, c.status;
    }

    // ---- Readers ----

    /** The fields of a BOLT head after its type; V1 readers take ver2 from index 3. */
    method ReadFields(b: Bytes, ghost c: Cmd)
      requires Scalars(c) && |b| >= FixedSize(c)
      modifies this`cmdcode, this`ver2, this`rid, this`codec, this`switc, this`status, this`timeout
      ensures Scalars(HeadInto(c, b))
    {
      cmdcode := At16(b, 0);
      ver2 := if proto == BOLT_V2 then b[2] else b[3];
      rid := At32(b, 3);
      codec := b[7];
      var k := 8;
      if proto == BOLT_V2 {
        switc := b[8];
        k := 9;
      }
      if typ == RESPONSE {
        status := At16(b, k);
      } else {
        timeout := At32(b, k);
      }
    }

    /** ReadFields, seen as a change of the whole command. */
    method ReadHead(b: Bytes)
      requires Usable() && |b| >= FixedSize(Value())
      modifies this`cmdcode, this`ver2, this`rid, this`codec, this`switc, this`status, this`timeout
      ensures Usable() && Value() == HeadInto(old(Value()), b)
    {
      ghost var c := Value();
      ReadFields(b, c);
      assert headers.Value() == c.headers;
    }

    /** A BOLT frame from after its type byte. */
    method ReadTypedCommand(br: Reader) returns (r: Result<nat, Error>)
      requires Usable() && br.Valid() && Apart(br, headers.slots)
      modifies this, headers, Storage(headers.slots), br
      ensures Usable() && br.Valid() && fresh(Storage(headers.slots) - old(Storage(headers.slots)))
      ensures Reads(r, br, ReadTyped(old(Value()), old(br.Rest())))
      ensures old(Valid()) ==> Valid() && HeadersRead(ReadTyped(old(Value()), old(br.Rest())))
    {
      ghost var c, data := Value(), br.Rest();
      TypedSteps(c, data);
      if !BoltType(typ) { return Err(MalformedType); }
      var n := if proto == BOLT_V2 then if typ == RESPONSE then 19 else 21 else if typ == RESPONSE then 18 else 20;
      var got := br.ReadToBytes(n);
      if got.Err? { return Err(got.error); }
      assert Value() == c && n == FixedSize(c);
      r := ReadAfterHead(br, got.value, n);
    }

    /** The rest of a BOLT frame, when its head b has been read. */
    method ReadAfterHead(br: Reader, b: Bytes, n: nat) returns (r: Result<nat, Error>)
      requires Usable() && br.Valid() && Apart(br, headers.slots) && |b| == n == FixedSize(Value())
      modifies this, headers, Storage(headers.slots), br
      ensures Usable() && br.Valid() && fresh(Storage(headers.slots) - old(Storage(headers.slots)))
      ensures Reads(r, br, AfterHead(old(Value()), b, old(br.Rest())))
      ensures old(Valid()) ==> Valid() && HeadersRead(AfterHead(old(Value()), b, old(br.Rest())))
    {
      var head := n + if proto == BOLT_V2 then 3 else 2;
      assert head == HeadSize(Value());
      ReadHead(b);
      r := ReadBody(br, head, At16(b, n - 8), At16(b, n - 6), At32(b, n - 4));
    }

    method ReadCommandV1(br: Reader) returns (r: Result<nat, Error>)
      requires Usable() && br.Valid() && Apart(br, headers.slots) && (proto == 0 || proto == BOLT_V1)
      modifies this, headers, Storage(headers.slots), br
      ensures Usable() && br.Valid() && fresh(Storage(headers.slots) - old(Storage(headers.slots)))
      ensures Reads(r, br, ReadV1(old(Value()), old(br.Rest())))
      ensures old(Valid()) ==> Valid() && HeadersRead(ReadV1(old(Value()), old(br.Rest())))
    {
      ghost var c, data := Value(), br.Rest();
      var got := br.ReadToBytes(1);
      if got.Err? { return Err(got.error); }
      typ := got.value[0];
      assert headers.Value() == c.headers;
      assert Value() == c.(typ := data[0]) && br.Rest() == data[1..];
      r := ReadTypedCommand(br);
    }

    method ReadCommandV2(br: Reader) returns (r: Result<nat, Error>)
      requires Usable() && br.Valid() && Apart(br, headers.slots) && proto == BOLT_V2
      modifies this, headers, Storage(headers.slots), br
      ensures Usable() && br.Valid() && fresh(Storage(headers.slots) - old(Storage(headers.slots)))
      ensures Reads(r, br, ReadV2(old(Value()), old(br.Rest())))
      ensures old(Valid()) ==> Valid() && HeadersRead(ReadV2(old(Value()), old(br.Rest())))
    {
      ghost var c, data := Value(), br.Rest();
      var got := br.ReadToBytes(2);
      if got.Err? { return Err(got.error); }
      ver1, typ := got.value[0], got.value[1];
      assert headers.Value() == c.headers;
      assert Value() == c.(ver1 := data[0], typ := data[1]);
      r := ReadTypedCommand(br);
    }

    method ReadCommandTBRemoting(br: Reader) returns (r: Result<nat, Error>)
      requires Usable() && br.Valid() && Apart(br, headers.slots)
      modifies this, br
      ensures Usable() && br.Valid() && headers.slots == old(headers.slots)
      ensures Reads(r, br, ReadTBRemoting(old(Value()), old(br.Rest())))
      ensures old(Valid()) ==> Valid() && HeadersRead(ReadTBRemoting(old(Value()), old(br.Rest())))
    {
      ghost var data, c := br.Rest(), Value();
      TBSteps(c, data);
      r := ReadTBFields(br);
      assert headers.Value() == c.headers;
    }

    /** The fixed part of a TBRemoting frame and what its lengths say. */
    method ReadTBFields(br: Reader) returns (r: Result<nat, Error>)
      requires br.Valid()
      modifies this`cmdcode, this`codec, this`typ, this`reserved, this`connection, this`className, this`content, br
      ensures br.Valid()
      ensures var b := old(br.Rest());
              if |b| < 13 then r == Err(EndOfStream)
              else
                var h, t := b[..13], b[13..];
                var x, y, z := At32(h, 4), h[8], At32(h, 9);
                if |t| < x + y + z then r == Err(EndOfStream)
                else
                  && r == Ok(14 + x + y + z) && br.Rest() == t[x + y + z..]
                  && cmdcode == h[0] && codec == h[1] && typ == h[2] && reserved == h[3]
                  && connection == t[..x] && className == t[x..x + y] && content == t[x + y..x + y + z]
    {
      var got := br.ReadToBytes(13);
      if got.Err? { return Err(got.error); }
      var b := got.value;
      cmdcode, codec, typ, reserved := b[0], b[1], b[2], b[3];
      r := ReadTBBody(br, At32(b, 4), b[8], At32(b, 9));
    }

    /** Connection object, class name and content. */
    method ReadTBBody(br: Reader, x: nat, y: nat, z: nat) returns (r: Result<nat, Error>)
      requires br.Valid()
      modifies this`connection, this`className, this`content, br
      ensures br.Valid()
      ensures var data := old(br.Rest());
              if |data| < x + y + z then r == Err(EndOfStream)
              else
                && r == Ok(14 + x + y + z) && br.Rest() == data[x + y + z..]
                && connection == data[..x] && className == data[x..x + y] && content == data[x + y..x + y + z]
    {
      ghost var data := br.Rest();
      var got := br.ReadToBytes(x);
      if got.Err? { return Err(got.error); }
      connection := got.value;
      r := ReadClassAndContent(br, y, z);
      if r.Err? { return; }
      ThreeParts(data, x, y, z);
      r := Ok(14 + x + y + z);
    }

    method ReadClassAndContent(br: Reader, y: nat, z: nat) returns (r: Result<nat, Error>)
      requires br.Valid()
      modifies this`className, this`content, br
      ensures br.Valid()
      ensures var data := old(br.Rest());
              if |data| < y + z then r == Err(EndOfStream)
              else r == Ok(0) && br.Rest() == data[y..][z..] && className == data[..y] && content == data[y..][..z]
    {
      var got := br.ReadToBytes(y);
      if got.Err? { return Err(got.error); }
      className := got.value;
      got := br.ReadToBytes(z);
      if got.Err? { return Err(got.error); }
      content := got.value;
      r := Ok(0);
    }

    /** ReadCommand. */
    method Read(br: Reader) returns (r: Result<nat, Error>)
      requires Usable() && br.Valid() && Apart(br, headers.slots)
      modifies this, headers, Storage(headers.slots), br
      ensures Usable() && br.Valid() && fresh(Storage(headers.slots) - old(Storage(headers.slots)))
      ensures Reads(r, br, ReadFrame(old(Value()), old(br.Rest())))
      ensures old(Valid()) ==> Valid() && HeadersRead(ReadFrame(old(Value()), old(br.Rest())))
    {
      ghost var c, data := Value(), br.Rest();
      var got := br.ReadToBytes(1);
      reserved := 0;
      if got.Err? { return Err(got.error); }
      proto := got.value[0];
      assert headers.Value() == c.headers;
      assert Value() == c.(reserved := 0, proto := data[0]);
      r := ReadByProto(br);
    }

    method ReadByProto(br: Reader) returns (r: Result<nat, Error>)
      requires Usable() && br.Valid() && Apart(br, headers.slots)
      modifies this, headers, Storage(headers.slots), br
      ensures Usable() && br.Valid() && fresh(Storage(headers.slots) - old(Storage(headers.slots)))
      ensures Reads(r, br, ByProto(old(Value()), old(br.Rest())))
      ensures old(Valid()) ==> Valid() && HeadersRead(ByProto(old(Value()), old(br.Rest())))
    {
      if proto == 0 || proto == BOLT_V1 {
        r := ReadCommandV1(br);
      } else if proto == BOLT_V2 {
        r := ReadCommandV2(br);
      } else if proto == TB_REMOTING {
        r := ReadCommandTBRemoting(br);
      } else {
        r := Err(MalformedProto);
      }
    }

    /** Class, header block, content and checksum. */
    method ReadBody(br: Reader, head: nat, classLen: nat, headerLen: nat, contentLen: nat)
      returns (r: Result<nat, Error>)
      requires Usable() && br.Valid() && Apart(br, headers.slots)
      modifies this, headers, Storage(headers.slots), br
      ensures Usable() && br.Valid() && fresh(Storage(headers.slots) - old(Storage(headers.slots)))
      ensures Reads(r, br, Frames.ReadBody(old(Value()), head, classLen, headerLen, contentLen, old(br.Rest())))
      ensures old(Valid())
              ==> Valid()
                  && HeadersRead(Frames.ReadBody(old(Value()), head, classLen, headerLen, contentLen, old(br.Rest())))
    {
      ghost var c, data := Value(), br.Rest();
      ReadBodySteps(c, head, classLen, headerLen, contentLen, data);
      r := ReadHeaders(br, classLen, headerLen);
      if r.Err? { return; }
      r := ReadRest(br, head, classLen, headerLen, contentLen, c, data);
    }

    /** What follows the header block. */
    method ReadRest(br: Reader, head: nat, x: nat, y: nat, z: nat, ghost c: Cmd, ghost data: Bytes)
      returns (r: Result<nat, Error>)
      requires Usable() && br.Valid() && Apart(br, headers.slots)
      requires |data| >= x + y && br.Rest() == data[x + y..] && Decode(c.headers, data[x..x + y]).error.None?
      requires Value() == c.(className := data[..x], header := data[x..x + y], headers := headers.Value())
      modifies this`content, this`crc32, br
      ensures Usable() && br.Valid() && headers.Value() == old(headers.Value()) && (old(Valid()) ==> Valid())
      ensures Reads(r, br, Frames.ReadBody(c, head, x, y, z, data))
    {
      ghost var mid := Value();
      r := ReadTail(br, z);
      if r.Err? {
        ReadBodySteps(c, head, x, y, z, data);
        return;
      }
      BodyRead(c, head, x, y, z, data, mid, Value());
      r := Ok(head + Low16(x + y) + z);
    }

    /** Class and header block, with the header block decoded. */
    method ReadHeaders(br: Reader, x: nat, y: nat) returns (r: Result<nat, Error>)
      requires Usable() && br.Valid() && Apart(br, headers.slots)
      modifies this`className, this`header, headers, Storage(headers.slots), br
      ensures Usable() && br.Valid() && fresh(Storage(headers.slots) - old(Storage(headers.slots)))
      ensures var data := old(br.Rest());
              if |data| < x + y then r == Err(EndOfStream)
              else
                var h := data[x..x + y];
                var d := Decode(old(headers.Value()), h);
                if d.error.Some? then r == Err(BadHeader(d.error.value))
                else
                  && r.Ok? && br.Rest() == data[x + y..]
                  && Value() == old(Value()).(className := data[..x], header := h, headers := headers.Value())
                  && (old(Valid()) ==> headers.Value() == d.m)
      ensures old(Valid()) ==> Valid()
    {
      ghost var c := Value();
      r := ReadClassAndHeader(br, x, y);
      assert headers.Value() == c.headers;
      if r.Err? { return; }
      DecodeIsFold(c.headers, header);
      var err := DecodeHeader();
      if err.Some? { return Err(BadHeader(err.value)); }
    }

    /** Content and checksum. */
    method ReadTail(br: Reader, z: nat) returns (r: Result<nat, Error>)
      requires Usable() && br.Valid()
      modifies this`content, this`crc32, br
      ensures Usable() && br.Valid() && headers.Value() == old(headers.Value()) && (old(Valid()) ==> Valid())
      ensures TailRead(r, br, z, old(Value()), old(br.Rest()))
    {
      ghost var c := Value();
      r := ReadContent(br, z);
      assert headers.Value() == c.headers;
    }

    ghost predicate TailRead(r: Result<nat, Error>, br: Reader, z: nat, c: Cmd, data: Bytes)
      requires Usable() && br.Valid()
      reads this, headers, Storage(headers.slots), br
    {
      var n := z + if Signed(c) then 4 else 0;
      if |data| < n then r == Err(EndOfStream)
      else
        && r.Ok? && br.Rest() == data[n..]
        && Value() == c.(content := data[..z], crc32 := if Signed(c) then Get32(data[z..]) else c.crc32)
    }

    method ReadClassAndHeader(br: Reader, classLen: nat, headerLen: nat) returns (r: Result<nat, Error>)
      requires br.Valid()
      modifies this`className, this`header, br
      ensures br.Valid()
      ensures var data := old(br.Rest());
              if |data| < classLen + headerLen then r == Err(EndOfStream)
              else
                && r.Ok? && br.Rest() == data[classLen + headerLen..]
                && className == data[..classLen] && header == data[classLen..classLen + headerLen]
    {
      ghost var data := br.Rest();
      var got := br.ReadToBytes(classLen);
      if got.Err? { return Err(got.error); }
      className := got.value;
      got := br.ReadToBytes(headerLen);
      if got.Err? { return Err(got.error); }
      header := got.value;
      BodyTail(data, classLen, headerLen);
      r := Ok(0);
    }

    method ReadContent(br: Reader, contentLen: nat) returns (r: Result<nat, Error>)
      requires br.Valid()
      modifies this`content, this`crc32, br
      ensures br.Valid()
      ensures var data, signed := old(br.Rest()), proto == BOLT_V2 && switc > 0;
              if |data| < contentLen + (if signed then 4 else 0) then r == Err(EndOfStream)
              else
                && r.Ok? && br.Rest() == data[contentLen + (if signed then 4 else 0)..]
                && content == data[..contentLen]
                && crc32 == if signed then Get32(data[contentLen..]) else old(crc32)
    {
      ghost var data := br.Rest();
      var got := br.ReadToBytes(contentLen);
      if got.Err? { return Err(got.error); }
      content := got.value;
      if proto == BOLT_V2 && switc > 0 {
        got := br.ReadToBytes(4);
        if got.Err? { return Err(got.error); }
        crc32 := Get32(got.value);
        BodyTail(data, contentLen, 4);
      }
      r := Ok(0);
    }

    method DecodeHeader() returns (error: Option<DecodeError>)
      requires Usable()
      modifies headers, Storage(headers.slots)
      ensures Usable() && fresh(Storage(headers.slots) - old(Storage(headers.slots)))
      ensures error == ParseAll(header).1
      ensures old(Valid()) ==> Valid() && Decoded(error, headers.Value()) == Decode(old(headers.Value()), header)
    {
      ghost var m := headers.Value();
      var raw := CopyOf(header);
      assert headers.Value() == m;
      error := headers.Decode(raw);
    }

    /** The outcome of a read, against the layout's: the same error, or the same command up to its
        headers, count and remaining input. */
    ghost predicate Reads(r: Result<nat, Error>, br: Reader, spec: Result<Read, Error>)
      requires Usable() && br.Valid() && Apart(br, headers.slots)
      reads this, headers, Storage(headers.slots), br
    {
      match spec
      case Err(e) => r == Err(e)
      case Ok(s) => r == Ok(s.count) && Value() == s.cmd.(headers := headers.Value()) && br.Rest() == s.rest
    }

    /** The headers as well: so it is when their slots are separate. */
    ghost predicate HeadersRead(spec: Result<Read, Error>)
      requires Usable()
      reads this, headers, Storage(headers.slots)
    {
      spec.Ok? ==> headers.Value() == spec.value.cmd.headers
    }
  }

  /** Equal but perhaps for their headers. */
  predicate UpToHeaders(cs: seq<Cmd>, ds: seq<Cmd>) {
    |cs| == |ds| && forall i :: 0 <= i < |cs| ==> cs[i] == ds[i].(headers := cs[i].headers)
  }

  /** Of the stream data, the commands cs and n bytes have been read and rest is to come; exact tells
      whether cs have their headers right. */
  predicate Sofar(data: Bytes, rest: Bytes, cs: seq<Cmd>, exact: bool, n: nat) {
    var (ds, more) := (ReadStream(data).0, ReadStream(rest).0);
    && |cs| <= |ds| && UpToHeaders(cs, ds[..|cs|]) && (exact ==> cs == ds[..|cs|]) && ds[|cs|..] == more
    && ReadStream(data).1 == ReadStream(rest).1 && StreamCounts(data).0 == n + StreamCounts(rest).0
  }

  lemma StreamStep(data: Bytes, rest: Bytes, cs: seq<Cmd>, exact: bool, n: nat, c: Cmd)
    requires Sofar(data, rest, cs, exact, n) && ReadFrame(BLANK, rest).Ok?
    requires var d := ReadFrame(BLANK, rest).value.cmd; c == d.(headers := c.headers) && (exact ==> c == d)
    ensures var r := ReadFrame(BLANK, rest).value;
            Sofar(data, r.rest, cs + [c], exact, n + r.count) && |r.rest| < |rest|
  {
    StreamHead(rest);
    var ds, d := ReadStream(data).0, ReadFrame(BLANK, rest).value.cmd;
    assert ds[|cs|] == d by { assert ds[|cs|..][0] == d; }
    OneMore(cs, ds, exact, c);
  }

  lemma OneMore(cs: seq<Cmd>, ds: seq<Cmd>, exact: bool, c: Cmd)
    requires |cs| < |ds| && UpToHeaders(cs, ds[..|cs|]) && (exact ==> cs == ds[..|cs|])
    requires c == ds[|cs|].(headers := c.headers) && (exact ==> c == ds[|cs|])
    ensures UpToHeaders(cs + [c], ds[..|cs| + 1]) && (exact ==> cs + [c] == ds[..|cs| + 1])
    ensures ds[|cs| + 1..] == ds[|cs|..][1..]
  {
    assert ds[..|cs| + 1] == ds[..|cs|] + [ds[|cs|]];
  }

  lemma StreamHead(data: Bytes)
    requires ReadFrame(BLANK, data).Ok?
    ensures var r := ReadFrame(BLANK, data).value;
            && |r.rest| < |data| && ReadStream(data).0 == [r.cmd] + ReadStream(r.rest).0
            && ReadStream(data).1 == ReadStream(r.rest).1
            && StreamCounts(data).0 == r.count + StreamCounts(r.rest).0
  {
    assert data != [];
  }

  lemma StreamEnd(data: Bytes, rest: Bytes, cs: seq<Cmd>, exact: bool, n: nat)
    requires Sofar(data, rest, cs, exact, n) && ReadFrame(BLANK, rest).Err?
    ensures UpToHeaders(cs, ReadStream(data).0) && (exact ==> cs == ReadStream(data).0)
    ensures StreamCounts(data).0 == n
    ensures (match ReadStream(data).1 case Some(e) => e case None => EndOfStream) == ReadFrame(BLANK, rest).error
  {
    var ds := ReadStream(data).0;
    assert ds == ds[..|cs|] + ds[|cs|..];
  }

  /** One round of the read loop.  What the recycled command held before matters only by the storage of
      its headers: where two slots share it, the headers that are read may be wrong. */
  method ReadNext(br: Reader, cmd: Command) returns (r: Result<(Cmd, nat), Error>, ghost added: set<object>)
    requires cmd.Usable() && br.Valid() && Apart(br, cmd.headers.slots)
    modifies cmd, cmd.headers, Storage(cmd.headers.slots), br
    ensures cmd.Usable() && br.Valid() && Apart(br, cmd.headers.slots)
    ensures fresh(added) && Storage(cmd.headers.slots) <= old(Storage(cmd.headers.slots)) + added
    ensures match ReadFrame(BLANK, old(br.Rest()))
            case Err(e) => r == Err(e)
            case Ok(s) =>
              && r.Ok? && r.value.1 == s.count && br.Rest() == s.rest
              && r.value.0 == s.cmd.(headers := r.value.0.headers)
    ensures old(Separate(cmd.headers.slots)) ==>
              && Separate(cmd.headers.slots)
              && (r.Ok? ==> r.value.0 == ReadFrame(BLANK, old(br.Rest())).value.cmd)
  {
    ghost var rest := br.Rest();
    cmd.Reset();
    assert br.Rest() == rest;
    var n := cmd.Read(br);
    added := Storage(cmd.headers.slots) - old(Storage(cmd.headers.slots));
    if n.Err? { return Err(n.error), added; }
    var c := cmd.Snapshot();
    r := Ok((c, n.value));
  }

  /** The read loop of a connection: reset, read, count, until a read fails. */
  method ReadLoop(br: Reader, cmd: Command) returns (cs: seq<Cmd>, nread: nat, error: Error)
    requires cmd.Usable() && br.Valid() && Apart(br, cmd.headers.slots)
    modifies cmd, cmd.headers, Storage(cmd.headers.slots), br
    ensures UpToHeaders(cs, ReadStream(old(br.Rest())).0) && nread == StreamCounts(old(br.Rest())).0
    ensures error == match ReadStream(old(br.Rest())).1 case Some(e) => e case None => EndOfStream
    ensures old(Separate(cmd.headers.slots)) ==> cs == ReadStream(old(br.Rest())).0
  {
    cs, nread := [], 0;
    ghost var data, separate := br.Rest(), Separate(cmd.headers.slots);
    ghost var more: set<object> := {};
    while true
      invariant cmd.Usable() && br.Valid() && Apart(br, cmd.headers.slots)
      invariant fresh(more) && Storage(cmd.headers.slots) <= old(Storage(cmd.headers.slots)) + more
      invariant Sofar(data, br.Rest(), cs, separate, nread) && (separate ==> Separate(cmd.headers.slots))
      decreases |br.Rest()|
    {
      ghost var rest := br.Rest();
      var next, added := ReadNext(br, cmd);
      more := more + added;
      if next.Err? {
        StreamEnd(data, rest, cs, separate, nread);
        error := next.error;
        return;
      }
      StreamStep(data, rest, cs, separate, nread, next.value.0);
      cs, nread := cs + [next.value.0], nread + next.value.1;
    }
  }

  /** append(b, "0123"...) and the checksum over its last four bytes. */
  method AppendSum(u: array<Byte>, sum: U32) returns (b: array<Byte>)
    ensures fresh(b) && b[..] == u[..] + Put32(sum)
  {
    b := AllocToAtLeast(u.Length + 4);
    CopyAt(b, 0, u[..]);
    assert Low32(sum) == sum;
    PutUint32(b, u.Length, sum);
    assert b[..] == b[..b.Length];
  }

  function AfterHead(c: Cmd, b: Bytes, data: Bytes): Result<Read, Error>
    requires |b| == FixedSize(c)
  {
    var n := |b|;
    Frames.ReadBody(HeadInto(c, b), HeadSize(c), At16(b, n - 8), At16(b, n - 6), At32(b, n - 4), data)
  }

  lemma TypedSteps(c: Cmd, data: Bytes)
    ensures var n, spec := FixedSize(c), ReadTyped(c, data);
            if !BoltType(c.typ) then spec == Err(MalformedType)
            else if |data| < n then spec == Err(EndOfStream)
            else spec == AfterHead(c, data[..n], data[n..])
  {
  }

  /** The layout's body reader, one read at a time. */
  lemma ReadBodySteps(c: Cmd, head: nat, x: nat, y: nat, z: nat, data: Bytes)
    ensures var spec := Frames.ReadBody(c, head, x, y, z, data);
            if |data| < x + y then spec == Err(EndOfStream)
            else
              var h, rest := data[x..x + y], data[x + y..];
              var d, tail := Decode(c.headers, h), z + if Signed(c) then 4 else 0;
              if d.error.Some? then spec == Err(BadHeader(d.error.value))
              else if |rest| < tail then spec == Err(EndOfStream)
              else
                Got(spec,
                    c.(className := data[..x], header := h, headers := d.m, content := rest[..z],
                       crc32 := if Signed(c) then Get32(rest[z..]) else c.crc32),
                    head + Low16(x + y) + z, rest[tail..])
  {
    if |data| >= x + y + z {
      BodyTail(data, x + y, z);
      BodyTail(data[x + y..], z, |data| - x - y - z);
    }
  }

  /** What the reads of a body leave, but perhaps for the headers. */
  lemma BodyRead(c: Cmd, head: nat, x: nat, y: nat, z: nat, data: Bytes, mid: Cmd, fin: Cmd)
    requires |data| >= x + y && Decode(c.headers, data[x..x + y]).error.None?
    requires mid == c.(className := data[..x], header := data[x..x + y], headers := mid.headers)
    requires var rest, tail := data[x + y..], z + if Signed(c) then 4 else 0;
             && |rest| >= tail
             && fin == mid.(content := rest[..z], crc32 := if Signed(c) then Get32(rest[z..]) else c.crc32)
    ensures var spec := Frames.ReadBody(c, head, x, y, z, data);
            && spec.Ok? && spec.value.count == head + Low16(x + y) + z && fin == spec.value.cmd.(headers := fin.headers)
            && spec.value.rest == data[x + y..][z + (if Signed(c) then 4 else 0)..]
            && spec.value.cmd.headers == Decode(c.headers, data[x..x + y]).m
  {
    ReadBodySteps(c, head, x, y, z, data);
  }

  lemma TBHead(data: Bytes, b: Bytes)
    requires 13 <= |data| && b == data[..13]
    ensures At32(b, 4) == At32(data, 4) && At32(b, 9) == At32(data, 9) && b[8] == data[8]
    ensures b[0] == data[0] && b[1] == data[1] && b[2] == data[2] && b[3] == data[3]
  {
  }

  /** The TBRemoting layout, its fixed part and then its body. */
  lemma TBSteps(c: Cmd, b: Bytes)
    ensures var spec := ReadTBRemoting(c, b);
            if |b| < 13 then spec == Err(EndOfStream)
            else
              var h, t := b[..13], b[13..];
              var x, y, z := At32(h, 4), h[8], At32(h, 9);
              if |t| < x + y + z then spec == Err(EndOfStream)
              else
                Got(spec,
                    c.(cmdcode := h[0], codec := h[1], typ := h[2], reserved := h[3], connection := t[..x],
                       className := t[x..x + y], content := t[x + y..x + y + z]),
                    14 + x + y + z, t[x + y + z..])
  {
    if |b| >= 13 {
      TBHead(b, b[..13]);
      TailOf(b[..13], b[13..], 0, 0, 0);
      var x, y, z := At32(b, 4), b[8], At32(b, 9);
      if |b[13..]| >= x + y + z {
        TailOf(b[..13], b[13..], x, y, z);
      }
      assert b[..13] + b[13..] == b;
    }
  }

  lemma ThreeParts(data: Bytes, x: nat, y: nat, z: nat)
    requires x + y + z <= |data|
    ensures data[x..][..y] == data[x..x + y] && data[x..][y..][..z] == data[x + y..x + y + z]
    ensures data[x..][y..][z..] == data[x + y + z..]
  {
    BodyTail(data, x, y);
    BodyTail(data, x + y, z);
  }

  lemma BodyTail(data: Bytes, x: nat, y: nat)
    requires x + y <= |data|
    ensures data[x..][..y] == data[x..x + y] && data[x..][y..] == data[x + y..]
    ensures y == 4 ==> Get32(data[x..x + y]) == Get32(data[x..])
  {
  }

  lemma Regroup4(a: Bytes, b: Bytes, c: Bytes, d: Bytes)
    ensures a + b + c + d == a + (b + c + d)
  {
  }

  lemma PutPrefix(d: Bytes, i: nat, x: Bytes)
    requires i + |x| <= |d|
    ensures Put(d, i, x)[..i + |x|] == d[..i] + x
  {
  }

  lemma HeadParts(c: Cmd)
    ensures Start(c) + Front(c.cmdcode, c.ver2, c.rid) + Middle(c) + Lengths(c) == Start(c) + Head(c)
  {
  }
}
