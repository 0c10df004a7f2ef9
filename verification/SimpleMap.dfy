/** FastSimpleMap and the cursor it encodes and decodes through, over storage that is recycled in
    place.  Storage sharing is modelled for the slots of kvs, up to the capacity of their backing
    array; the four dedicated fields are values. */
module SimpleMap {
  import opened Wrappers
  import opened Bytes
  import opened HeaderMap

  // ---- The cursor ----

  /** d with x written over it at i. */
  function Put(d: Bytes, i: nat, x: Bytes): (r: Bytes)
    requires i + |x| <= |d|
    ensures |r| == |d|
  {
    d[..i] + x + d[i + |x|..]
  }

  /** Writing y right after x is writing both. */
  lemma PutNext(d: Bytes, i: nat, x: Bytes, y: Bytes)
    requires i + |x| + |y| <= |d|
    ensures Put(Put(d, i, x), i + |x|, y) == Put(d, i, x + y)
  {
    var e := Put(d, i, x);
    assert e[..i + |x|] == d[..i] + x;
    assert e[i + |x| + |y|..] == d[i + |x| + |y|..];
  }

  /** A cursor over data[lo..]. */
  class Buffer {
    const data: array<Byte>
    const lo: nat
    var pos: nat

    ghost predicate Valid() reads this {
      lo + pos <= data.Length
    }

    constructor (data: array<Byte>, lo: nat)
      requires lo <= data.Length
      ensures Valid() && this.data == data && this.lo == lo && pos == 0
    {
      this.data, this.lo, pos := data, lo, 0;
    }

    ghost function Rest(): Bytes
      requires Valid()
      reads this, data
    {
      data[lo + pos..]
    }

    predicate Check(size: nat) reads this {
      lo + pos + size <= data.Length
    }

    method Uint32() returns (r: Result<U32, ()>)
      requires Valid()
      modifies this
      ensures Valid()
      ensures |old(Rest())| < 4 ==> r.Err? && pos == old(pos)
      ensures |old(Rest())| >= 4 ==> r == Ok(Get32(old(Rest()))) && pos == old(pos) + 4 && Rest() == old(Rest())[4..]
    {
      if !Check(4) { return Err(()); }
      var i := lo + pos;
      assert Rest()[..4] == data[i..i + 4];
      r := Ok(data[i] as int * 0x100_0000 + data[i + 1] as int * 0x1_0000 + data[i + 2] as int * 0x100 + data[i + 3]);
      pos := pos + 4;
    }

    /** The next size bytes. */
    method MustRef(size: nat) returns (s: Bytes)
      requires Valid() && lo + pos + size <= data.Length
      modifies this
      ensures Valid() && pos == old(pos) + size && s == old(Rest())[..size] && Rest() == old(Rest())[size..]
    {
      s := data[lo + pos..lo + pos + size];
      pos := pos + size;
    }

    method Uint32String() returns (r: Result<Bytes, ()>)
      requires Valid()
      modifies this
      ensures Valid()
      ensures var p := ParseString(old(Rest()));
              r.Ok? == p.Ok? && (p.Ok? ==> r.value == p.value.0 && Rest() == p.value.1)
    {
      var n := Uint32();
      if n.Err? { return Err(()); }
      if !Check(n.value) { return Err(()); }
      var s := MustRef(n.value);
      r := Ok(s);
    }

    method MustPutUint32String(s: Bytes)
      requires Valid() && lo + pos + 4 + |s| <= data.Length
      modifies this, data
      ensures Valid() && pos == old(pos) + 4 + |s|
      ensures data[..] == Put(old(data[..]), old(lo + pos), EncodeString(s))
    {
      var len := Put32(Low32(|s|));
      var i := lo + pos;
      data[i], data[i + 1], data[i + 2], data[i + 3] := len[0], len[1], len[2], len[3];
      forall j | 0 <= j < |s| {
        data[i + 4 + j] := s[j];
      }
      pos := pos + 4 + |s|;
    }
  }

  // ---- The map ----

  /** A byte slice: the first len bytes of storage that it may share. */
  datatype Slice = Slice(buf: array<Byte>, len: nat)

  datatype KvHeader = KvHeader(key: Slice, value: Slice)

  ghost function View(s: Slice): Bytes
    requires s.len <= s.buf.Length
    reads s.buf
  {
    s.buf[..s.len]
  }

  /** No two slots of the backing array, live or not, share key or value storage. */
  ghost predicate Separate(slots: seq<KvHeader>) {
    && (forall i, j :: 0 <= i < j < |slots| ==> slots[i].key.buf != slots[j].key.buf)
    && (forall i, j :: 0 <= i < j < |slots| ==> slots[i].value.buf != slots[j].value.buf)
    && (forall i, j :: 0 <= i < |slots| && 0 <= j < |slots| ==> slots[i].key.buf != slots[j].value.buf)
  }

  /** No key shares storage with a value. */
  ghost predicate KeysApart(slots: seq<KvHeader>) {
    forall i, j :: 0 <= i < |slots| && 0 <= j < |slots| ==> slots[i].key.buf != slots[j].value.buf
  }

  ghost predicate Typed(slots: seq<KvHeader>) {
    forall i :: 0 <= i < |slots| ==>
      slots[i].key.len <= slots[i].key.buf.Length && slots[i].value.len <= slots[i].value.buf.Length
  }

  ghost function Storage(slots: seq<KvHeader>): set<object> {
    (set i | 0 <= i < |slots| :: slots[i].key.buf) + (set i | 0 <= i < |slots| :: slots[i].value.buf)
  }

  ghost function PairAt(kv: KvHeader): Pair
    requires kv.key.len <= kv.key.buf.Length && kv.value.len <= kv.value.buf.Length
    reads kv.key.buf, kv.value.buf
  {
    Pair(View(kv.key), View(kv.value))
  }

  /** append(s[:0], v...): in place when the capacity is there, else in new storage. */
  method Fill(s: Slice, v: Bytes) returns (r: Slice)
    modifies s.buf
    ensures r.len == |v| && r.len <= r.buf.Length && View(r) == v
    ensures if |v| <= s.buf.Length then r.buf == s.buf else fresh(r.buf)
  {
    var buf := s.buf;
    if s.buf.Length < |v| {
      buf := new Byte[|v|];
    }
    forall j | 0 <= j < |v| {
      buf[j] := v[j];
    }
    r := Slice(buf, |v|);
  }

  class FastSimpleMap {
    var service: Bytes
    var host: Bytes
    var contentType: Bytes
    var authorization: Bytes
    var slots: seq<KvHeader>  // the backing array of kvs, to its capacity
    var n: nat                // the length of kvs

    ghost function Kvs(): seq<Pair>
      requires n <= |slots| && Typed(slots)
      reads this, Storage(slots)
    {
      seq(n, i requires 0 <= i < n && n <= |slots| && Typed(slots) reads this, Storage(slots) => PairAt(slots[i]))
    }

    ghost function Value(): Headers
      requires n <= |slots| && Typed(slots)
      reads this, Storage(slots)
    {
      Headers(service, host, contentType, authorization, Kvs())
    }

    /** What every method keeps, whatever the calls. */
    ghost predicate Usable() reads this {
      n <= |slots| && Typed(slots) && KeysApart(slots)
    }

    /** What all of them keep but Del, of a pair that is not the last. */
    ghost predicate Valid()
      reads this, Storage(slots)
    {
      Usable() && Separate(slots) && HeaderMap.Valid(Value())
    }

    /** k and v were put into the slot m of a backing array that was before: in the storage of the slot
        where that is large enough. */
    ghost predicate Appended(before: seq<KvHeader>, m: nat, k: Bytes, v: Bytes)
      reads this, Storage(slots)
    {
      && n == m + 1 <= |slots| && Typed(slots) && m < |before| && slots == before[m := slots[m]]
      && PairAt(slots[m]) == Pair(k, v)
      && (|k| <= before[m].key.buf.Length ==> slots[m].key.buf == before[m].key.buf)
      && (|v| <= before[m].value.buf.Length ==> slots[m].value.buf == before[m].value.buf)
    }

    /** Setting k takes the next slot of the backing array. */
    ghost predicate Appends(k: Bytes)
      requires n <= |slots| && Typed(slots)
      reads this, Storage(slots)
    {
      !Dedicated(k) && Find(Kvs(), k) == n < |slots|
    }

    constructor ()
      ensures Valid() && Value() == EMPTY && slots == []
    {
      service, host, contentType, authorization, slots, n := [], [], [], [], [], 0;
    }

    /** Forgets the pairs and keeps the slots for reuse, shared or not. */
    method Reset()
      requires Usable()
      modifies this
      ensures Usable() && Value() == EMPTY && slots == old(slots) && n == 0
      ensures Separate(slots) ==> Valid()
    {
      service, host, contentType, authorization, n := [], [], [], [], 0;
    }

    method Get(k: Bytes) returns (v: Bytes)
      requires Usable()
      ensures v == HeaderMap.Get(Value(), k)
    {
      if k == HOST { return host; }
      if k == CONTENT_TYPE { return contentType; }
      if k == SERVICE { return service; }
      if k == AUTHORIZATION { return authorization; }
      var i := FindSlot(k);
      if i < n {
        return slots[i].value.buf[..slots[i].value.len];
      }
      return [];
    }

    method FindSlot(k: Bytes) returns (i: nat)
      requires n <= |slots| && Typed(slots)
      ensures i == Find(Kvs(), k)
    {
      i := 0;
      while i < n
        invariant i <= n
        invariant forall j :: 0 <= j < i ==> Kvs()[j].key != k
      {
        if slots[i].key.buf[..slots[i].key.len] == k {
          break;
        }
        i := i + 1;
      }
      FindIs(Kvs(), k, i);
    }

    /** The plain map's set, when slots are separate; into shared storage otherwise. */
    method Set(k: Bytes, v: Bytes)
      requires Usable()
      modifies this, Storage(slots)
      ensures Usable() && fresh(Storage(slots) - old(Storage(slots)))
      ensures old(Valid()) ==> Valid() && Value() == HeaderMap.Set(old(Value()), k, v)
      ensures old(Appends(k)) ==> Appended(old(slots), old(n), k, v)
    {
      ghost var valid := Valid();
      if valid { GetSet(Value(), k, v, []); }
      if Dedicated(k) {
        SetDedicated(k, v);
      } else {
        SetOther(k, v);
      }
    }

    method SetOther(k: Bytes, v: Bytes)
      requires Usable()
      modifies this`slots, this`n, Storage(slots)
      ensures Usable() && fresh(Storage(slots) - old(Storage(slots)))
      ensures old(Separate(slots)) ==> Separate(slots) && Kvs() == SetKv(old(Kvs()), k, v)
      ensures old(Appends(k)) ==> Appended(old(slots), old(n), k, v)
    {
      ghost var kvs := Kvs();
      var i := FindSlot(k);
      if i < n {
        assert SetKv(kvs, k, v) == kvs[i := Pair(kvs[i].key, v)];
        SetValue(i, v);
      } else {
        assert SetKv(kvs, k, v) == kvs + [Pair(k, v)];
        AppendKv(k, v);
      }
    }

    /** A new pair takes the next slot; a full backing array grows by four slots first. */
    method AppendKv(k: Bytes, v: Bytes)
      requires Usable()
      modifies this`slots, this`n, Storage(slots)
      ensures Usable() && n == old(n) + 1 && fresh(Storage(slots) - old(Storage(slots)))
      ensures old(Separate(slots)) ==> Separate(slots) && Kvs() == old(Kvs()) + [Pair(k, v)]
      ensures old(n) < |old(slots)| ==> Appended(old(slots), old(n), k, v)
    {
      if |slots| <= n {
        Grow(4);
      }
      AppendSlot(k, v);
    }

    method SetDedicated(k: Bytes, v: Bytes)
      requires Usable() && Dedicated(k)
      modifies this
      ensures Usable() && slots == old(slots) && n == old(n) && Kvs() == old(Kvs())
      ensures Value() == HeaderMap.Set(old(Value()), k, v)
    {
      ghost var before := Kvs();
      if k == HOST {
        host := v;
      } else if k == CONTENT_TYPE {
        contentType := v;
      } else if k == SERVICE {
        service := v;
      } else {
        authorization := v;
      }
      assert Kvs() == before;
    }

    method SetValue(i: nat, v: Bytes)
      requires Usable() && i < n
      modifies this`slots, slots[i].value.buf
      ensures Usable() && n == old(n) && |slots| == old(|slots|) && fresh(Storage(slots) - old(Storage(slots)))
      ensures old(Separate(slots)) ==>
                Separate(slots) && Kvs() == old(Kvs())[i := Pair(old(Kvs())[i].key, v)]
    {
      ghost var separate, before := Separate(slots), Kvs();
      var s := Fill(slots[i].value, v);
      slots := slots[i := slots[i].(value := s)];
      assert separate ==> Kvs() == before[i := Pair(before[i].key, v)];
    }

    /** append(m.kvs, make([]kvHeader, extra)...): fresh slots without storage. */
    method Grow(extra: nat)
      requires Usable()
      modifies this`slots
      ensures Usable() && |slots| == old(|slots|) + extra && (old(Separate(slots)) ==> Separate(slots))
      ensures slots[..old(|slots|)] == old(slots)
      ensures fresh(Storage(slots) - old(Storage(slots)))
      ensures Value() == old(Value())
    {
      ghost var before, m := slots, Value();
      var j := 0;
      while j < extra
        invariant j <= extra && |slots| == |before| + j && slots[..|before|] == before
        invariant Usable() && (Separate(before) ==> Separate(slots)) && Value() == m
        invariant fresh(Storage(slots) - Storage(before))
      {
        AddSlot();
        j := j + 1;
      }
    }

    method AddSlot()
      requires Usable()
      modifies this`slots
      ensures Usable() && |slots| == old(|slots|) + 1 && slots[..old(|slots|)] == old(slots)
      ensures old(Separate(slots)) ==> Separate(slots)
      ensures fresh(Storage(slots) - old(Storage(slots)))
      ensures Value() == old(Value())
    {
      ghost var kvs := Kvs();
      var a, b := new Byte[0], new Byte[0];
      slots := slots + [KvHeader(Slice(a, 0), Slice(b, 0))];
      assert Kvs() == kvs;
    }

    /** Overwrites slot i, in its own storage where that is large enough. */
    method PutSlot(i: nat, k: Bytes, v: Bytes)
      requires i < |slots| && Typed(slots) && slots[i].key.buf != slots[i].value.buf
      modifies this`slots, slots[i].key.buf, slots[i].value.buf
      ensures i < |slots| && slots == old(slots)[i := slots[i]] && Typed(slots)
      ensures PairAt(slots[i]) == Pair(k, v) && slots[i].key.len == |k|
      ensures if |k| <= old(slots[i]).key.buf.Length then slots[i].key.buf == old(slots[i]).key.buf
              else fresh(slots[i].key.buf)
      ensures if |v| <= old(slots[i]).value.buf.Length then slots[i].value.buf == old(slots[i]).value.buf
              else fresh(slots[i].value.buf)
      ensures old(Separate(slots)) ==>
                && Separate(slots)
                && forall j :: 0 <= j < |slots| && j != i ==> PairAt(slots[j]) == old(PairAt(slots[j]))
      ensures old(KeysApart(slots)) ==> KeysApart(slots)
      ensures fresh(Storage(slots) - old(Storage(slots)))
    {
      var key := Fill(slots[i].key, k);
      var value := Fill(slots[i].value, v);
      slots := slots[i := KvHeader(key, value)];
    }

    /** The live pairs grow by one slot, whose storage is reused. */
    method AppendSlot(k: Bytes, v: Bytes)
      requires Usable() && n < |slots|
      modifies this`slots, this`n, slots[n].key.buf, slots[n].value.buf
      ensures Usable() && Appended(old(slots), old(n), k, v) && fresh(Storage(slots) - old(Storage(slots)))
      ensures old(Separate(slots)) ==> Separate(slots) && Kvs() == old(Kvs()) + [Pair(k, v)]
    {
      ghost var separate, before := Separate(slots), Kvs();
      PutSlot(n, k, v);
      n := n + 1;
      assert separate ==> Kvs() == before + [Pair(k, v)];
    }

    /** The live pairs, in order. */
    method LivePairs() returns (kvs: seq<Pair>)
      requires n <= |slots| && Typed(slots)
      ensures kvs == Kvs()
    {
      kvs := [];
      var i := 0;
      while i < n
        invariant i <= n && kvs == Kvs()[..i]
      {
        var kv := slots[i];
        kvs := kvs + [Pair(kv.key.buf[..kv.key.len], kv.value.buf[..kv.value.len])];
        i := i + 1;
      }
    }

    /** Makes kvs the live pairs, reusing the storage of live and dead slots; a backing array that is
        too short is replaced, which drops the dead slots. */
    method Assign(kvs: seq<Pair>)
      requires Usable()
      modifies this`slots, this`n, Storage(slots)
      ensures Usable() && n == |kvs| && (old(Separate(slots)) ==> Separate(slots) && Kvs() == kvs)
      ensures fresh(Storage(slots) - old(Storage(slots)))
    {
      if |slots| < |kvs| { Replace(|kvs|); }
      n := |kvs|;
      Refill(kvs);
    }

    /** A longer backing array, with the live slots only. */
    method Replace(m: nat)
      requires Usable() && n <= m
      modifies this`slots
      ensures Usable() && |slots| == m && (old(Separate(slots)) ==> Separate(slots))
      ensures fresh(Storage(slots) - old(Storage(slots)))
    {
      slots := slots[..n];
      Grow(m - n);
    }

    method Refill(kvs: seq<Pair>)
      requires Usable() && n == |kvs|
      modifies this`slots, Storage(slots)
      ensures Usable() && (old(Separate(slots)) ==> Separate(slots) && Kvs() == kvs)
      ensures fresh(Storage(slots) - old(Storage(slots)))
    {
      ghost var separate := Separate(slots);
      var i := 0;
      while i < n
        invariant i <= n && Usable() && (separate ==> Separate(slots))
        invariant fresh(Storage(slots) - old(Storage(slots)))
        invariant separate ==> forall j :: 0 <= j < i ==> PairAt(slots[j]) == kvs[j]
      {
        PutSlot(i, kvs[i].key, kvs[i].value);
        i := i + 1;
      }
      assert separate ==> Kvs() == kvs;
    }

    /** dst becomes equal to this map, in dst's own storage, which must be separate; this map's need
        not be. */
    method CopyTo(dst: FastSimpleMap)
      requires Usable() && dst.Usable() && dst != this && Storage(slots) !! Storage(dst.slots)
      modifies dst, Storage(dst.slots)
      ensures Usable() && Value() == old(Value()) && slots == old(slots)
      ensures dst.Usable() && fresh(Storage(dst.slots) - old(Storage(dst.slots)))
      ensures old(Separate(dst.slots)) ==> Separate(dst.slots) && dst.Value() == Value()
    {
      var kvs := LivePairs();
      dst.AssignAll(Headers(service, host, contentType, authorization, kvs));
      assert Kvs() == old(Kvs());
    }

    method AssignAll(m: Headers)
      requires Usable()
      modifies this, Storage(slots)
      ensures Usable() && fresh(Storage(slots) - old(Storage(slots)))
      ensures old(Separate(slots)) ==> Separate(slots) && Value() == m
    {
      ghost var separate := Separate(slots);
      Assign(m.kvs);
      host, service, contentType, authorization := m.host, m.service, m.contentType, m.authorization;
      assert separate ==> Kvs() == m.kvs;
    }

    method GetEncodeSize() returns (l: nat)
      requires Usable()
      ensures l == EncodeSize(Value())
    {
      l := SlotSize(SERVICE, service) + SlotSize(HOST, host);
      l := l + SlotSize(CONTENT_TYPE, contentType) + SlotSize(AUTHORIZATION, authorization);
      ghost var lead := l;
      var i := 0;
      while i < n
        invariant i <= n && l == lead + PairsSize(Kvs()[..i])
      {
        assert Kvs()[..i + 1] == Kvs()[..i] + [Kvs()[i]];
        SizeAppend(Kvs()[..i], [Kvs()[i]]);
        l := l + 8 + slots[i].key.len + slots[i].value.len;
        i := i + 1;
      }
      assert Kvs()[..n] == Kvs();
    }

    /** The pairs in the order in which Range calls its function and Encode writes. */
    method Range() returns (visited: seq<Pair>)
      requires Usable()
      ensures visited == Pairs(Value())
    {
      visited := Slot(SERVICE, service) + Slot(HOST, host);
      visited := visited + Slot(CONTENT_TYPE, contentType) + Slot(AUTHORIZATION, authorization);
      var kvs := LivePairs();
      visited := visited + kvs;
    }

    /** Writes the pairs into data[lo..]: every byte of the encoding, and no other. */
    method Encode(data: array<Byte>, lo: nat) returns (size: nat)
      requires Usable() && lo + EncodeSize(Value()) <= data.Length
      modifies data
      ensures size == old(EncodeSize(Value()))
      ensures |old(HeaderMap.Encode(Value()))| == size
      ensures data[..] == Put(old(data[..]), lo, old(HeaderMap.Encode(Value())))
    {
      ghost var m := Value();
      EncodeSizeIsLength(m);
      var ps := Range();
      assert Kvs() == m.kvs;
      assert EncodePairs(ps) == HeaderMap.Encode(m);
      size := PutPairs(data, lo, ps);
    }

    /** Sets the pairs that data holds.  The count l of bytes left agrees with the cursor and falls
        by at least eight in every round. */
    method Decode(data: array<Byte>) returns (error: Option<DecodeError>)
      requires Usable() && data !in Storage(slots)
      modifies this, Storage(slots)
      ensures Usable() && fresh(Storage(slots) - old(Storage(slots))) && data[..] == old(data[..])
      ensures error == ParseAll(old(data[..])).1
      ensures old(Valid()) ==> Valid() && Decoded(error, Value()) == HeaderMap.Decode(old(Value()), old(data[..]))
    {
      var b := new Buffer(data, 0);
      assert b.Rest() == data[..];
      error := DecodeFrom(b);
    }

    method DecodeFrom(b: Buffer) returns (error: Option<DecodeError>)
      requires Usable() && b.Valid() && b.data !in Storage(slots)
      modifies this, Storage(slots), b
      ensures Usable() && fresh(Storage(slots) - old(Storage(slots))) && b.data[..] == old(b.data[..])
      ensures error == ParseAll(old(b.Rest())).1
      ensures old(Valid()) ==> Valid() && Decoded(error, Value()) == HeaderMap.Decode(old(Value()), old(b.Rest()))
    {
      ghost var valid := Valid();
      var l: int := b.data.Length - b.lo - b.pos;
      error := None;
      while l != 0
        invariant error.None? && Usable() && (valid ==> Valid()) && b.Valid() && l == |b.Rest()|
        invariant fresh(Storage(slots) - old(Storage(slots))) && b.data !in Storage(slots)
        invariant b.data[..] == old(b.data[..])
        invariant ParseAll(b.Rest()).1 == ParseAll(old(b.Rest())).1
        invariant valid ==> HeaderMap.Decode(Value(), b.Rest()) == HeaderMap.Decode(old(Value()), old(b.Rest()))
        decreases l
      {
        error, l := DecodeRound(b, l);
        if error.Some? { return; }
      }
      assert b.Rest() == [];
    }

    /** One round of the Decode loop: on success l has lost what the cursor has passed. */
    method DecodeRound(b: Buffer, l: int) returns (error: Option<DecodeError>, l': int)
      requires Usable() && b.Valid() && b.data !in Storage(slots) && l == |b.Rest()| && l != 0
      modifies this, Storage(slots), b
      ensures Usable() && b.Valid() && fresh(Storage(slots) - old(Storage(slots)))
      ensures b.data[..] == old(b.data[..])
      ensures var p := ParsePair(old(b.Rest()));
              if p.Err? then error == Some(p.error)
              else error.None? && b.Rest() == p.value.rest && l' == |b.Rest()| <= l - 8
      ensures old(Valid()) ==>
                && Valid()
                && (if error.None? then HeaderMap.Decode(Value(), b.Rest()) else Decoded(error, Value()))
                   == HeaderMap.Decode(old(Value()), old(b.Rest()))
    {
      DecodeNext(Value(), b.Rest());
      ghost var rest := b.Rest();
      var p := SetNext(b);
      if p.Err? {
        return Some(p.error), l;
      }
      ParsedSize(rest);
      error, l' := None, l - 4 - |p.value.key| - 4 - |p.value.value|;
    }

    /** Sets the next pair of the data. */
    method SetNext(b: Buffer) returns (p: Result<Pair, DecodeError>)
      requires Usable() && b.Valid() && b.data !in Storage(slots)
      modifies this, Storage(slots), b
      ensures Usable() && b.Valid() && fresh(Storage(slots) - old(Storage(slots)))
      ensures b.data[..] == old(b.data[..])
      ensures var q := ParsePair(old(b.Rest()));
              if q.Err? then p == Err(q.error) && Value() == old(Value()) && (old(Valid()) ==> Valid())
              else p == Ok(q.value.pair) && b.Rest() == q.value.rest
      ensures p.Ok? && old(Valid()) ==> Valid() && Value() == HeaderMap.Set(old(Value()), p.value.key, p.value.value)
      ensures p.Ok? && old(Appends(ParsePair(b.Rest()).value.pair.key)) ==>
                Appended(old(slots), old(n), p.value.key, p.value.value)
    {
      p := ReadPair(b);
      assert Value() == old(Value());
      if p.Ok? { SetApart(b, p.value.key, p.value.value); }
    }

    /** Set leaves the data being decoded alone. */
    method SetApart(b: Buffer, k: Bytes, v: Bytes)
      requires Usable() && b.Valid() && b.data !in Storage(slots)
      modifies this, Storage(slots)
      ensures Usable() && fresh(Storage(slots) - old(Storage(slots)))
      ensures b.Valid() && b.Rest() == old(b.Rest()) && b.data[..] == old(b.data[..])
      ensures old(Valid()) ==> Valid() && Value() == HeaderMap.Set(old(Value()), k, v)
      ensures old(Appends(k)) ==> Appended(old(slots), old(n), k, v)
    {
      Set(k, v);
    }

    /** Removing a pair shifts the later slots down and leaves the last one where it was: unless the
        pair was the last, two slots then share storage. */
    method Del(k: Bytes)
      requires Usable()
      modifies this
      ensures Usable() && |slots| == old(|slots|) && Storage(slots) <= old(Storage(slots))
      ensures Value() == if Dedicated(k) then HeaderMap.Del(old(Value()), k)
                         else old(Value()).(kvs := Sieve(old(Kvs()), k, 0))
      ensures old(HeaderMap.Valid(Value())) ==> HeaderMap.Valid(Value()) && Value() == HeaderMap.Del(old(Value()), k)
      ensures old(Valid()) ==> (Separate(slots) <==> Dedicated(k) || Find(old(Kvs()), k) >= old(n) - 1)
      ensures old(Valid()) && !Dedicated(k) && Find(old(Kvs()), k) < old(n) ==>
                n == old(n) - 1 && slots == Shifted(old(slots), old(n), Find(old(Kvs()), k))
    {
      ghost var m, before := Value(), slots;
      if HeaderMap.Valid(m) { GetDel(m, k, []); }
      if Dedicated(k) {
        SetDedicated(k, []);
      } else {
        DelOther(k);
        DelOtherDone(m.kvs, before, k, Find(m.kvs, k));
        assert Kvs() == Sieve(m.kvs, k, 0);
      }
    }

    /** The loop of del. */
    method DelOther(k: Bytes)
      requires Usable()
      modifies this`slots, this`n
      ensures Usable() && |slots| == old(|slots|) && Storage(slots) <= old(Storage(slots))
      ensures Kvs() == Sieve(old(Kvs()), k, 0) && slots == SieveSlots(old(slots), old(Kvs()), k, 0)
    {
      ghost var kvs, before := Kvs(), slots;
      var i := 0;
      while i < n
        invariant Usable() && |slots| == |before| && Storage(slots) <= Storage(before)
        invariant Sieve(Kvs(), k, i) == Sieve(kvs, k, 0)
        invariant SieveSlots(slots, Kvs(), k, i) == SieveSlots(before, kvs, k, 0)
        invariant i <= n + 1
      {
        SieveStep(slots, Kvs(), k, i);
        if slots[i].key.buf[..slots[i].key.len] == k {
          RemoveAt(i);
        }
        i := i + 1;
      }
    }

    /** append(m.kvs[:i], m.kvs[i+1:]...) within the backing array. */
    method RemoveAt(i: nat)
      requires Usable() && i < n
      modifies this`slots, this`n
      ensures Usable() && n == old(n) - 1 && slots == Shifted(old(slots), old(n), i)
      ensures |slots| == old(|slots|) && Storage(slots) <= old(Storage(slots))
      ensures Kvs() == old(Kvs()[..i] + Kvs()[i + 1..])
    {
      ghost var kvs, before := Kvs(), slots;
      ShiftedSlots(slots, n, i);
      slots := Shifted(slots, n, i);
      n := n - 1;
      forall j | 0 <= j < n ensures Kvs()[j] == kvs[if j < i then j else j + 1] {
        assert slots[j] == before[if j < i then j else j + 1];
      }
      assert Kvs() == kvs[..i] + kvs[i + 1..];
    }
  }

  /** A backing array after the pair at i of its n live pairs was removed. */
  function Shifted(slots: seq<KvHeader>, n: nat, i: nat): seq<KvHeader>
    requires i < n <= |slots|
  {
    slots[..i] + slots[i + 1..n] + slots[n - 1..]
  }

  lemma ShiftedSlots(slots: seq<KvHeader>, n: nat, i: nat)
    requires i < n <= |slots| && Typed(slots)
    ensures var s := Shifted(slots, n, i);
            && |s| == |slots| && Typed(s) && Storage(s) <= Storage(slots)
            && (forall j :: 0 <= j < |s| ==> s[j] == if i <= j < n - 1 then slots[j + 1] else slots[j])
            && (KeysApart(slots) ==> KeysApart(s))
            && (Separate(slots) ==> (Separate(s) <==> i == n - 1))
  {
    var s := Shifted(slots, n, i);
    if i < n - 1 {
      assert s[n - 2] == s[n - 1];
    } else {
      assert s == slots;
    }
  }

  /** The loop of del: after a removal it goes on behind the pair that took the removed one's place. */
  function Sieve(kvs: seq<Pair>, k: Bytes, i: nat): seq<Pair>
    decreases |kvs| - i
  {
    if i >= |kvs| then kvs
    else if kvs[i].key == k then Sieve(kvs[..i] + kvs[i + 1..], k, i + 1)
    else Sieve(kvs, k, i + 1)
  }

  /** What it does to the backing array. */
  function SieveSlots(slots: seq<KvHeader>, kvs: seq<Pair>, k: Bytes, i: nat): seq<KvHeader>
    requires |kvs| <= |slots|
    decreases |kvs| - i
  {
    if i >= |kvs| then slots
    else if kvs[i].key == k then SieveSlots(Shifted(slots, |kvs|, i), kvs[..i] + kvs[i + 1..], k, i + 1)
    else SieveSlots(slots, kvs, k, i + 1)
  }

  lemma SieveStep(slots: seq<KvHeader>, kvs: seq<Pair>, k: Bytes, i: nat)
    requires i < |kvs| <= |slots|
    ensures var hit := kvs[i].key == k;
            var rest := if hit then kvs[..i] + kvs[i + 1..] else kvs;
            && Sieve(kvs, k, i) == Sieve(rest, k, i + 1)
            && SieveSlots(slots, kvs, k, i)
              == SieveSlots(if hit then Shifted(slots, |kvs|, i) else slots, rest, k, i + 1)
  {
  }

  lemma {:induction false} SieveClean(slots: seq<KvHeader>, kvs: seq<Pair>, k: Bytes, i: nat)
    requires |kvs| <= |slots| && forall j :: i <= j < |kvs| ==> kvs[j].key != k
    ensures Sieve(kvs, k, i) == kvs && SieveSlots(slots, kvs, k, i) == slots
    decreases |kvs| - i
  {
    if i < |kvs| { SieveClean(slots, kvs, k, i + 1); }
  }

  /** With distinct keys the loop of del is the plain map's. */
  lemma {:induction false} SieveIsDel(slots: seq<KvHeader>, kvs: seq<Pair>, k: Bytes, i: nat)
    requires |kvs| <= |slots| && Distinct(kvs) && i <= Find(kvs, k)
    ensures Sieve(kvs, k, i) == DelKv(kvs, k)
    ensures var at := Find(kvs, k);
            SieveSlots(slots, kvs, k, i) == if at < |kvs| then Shifted(slots, |kvs|, at) else slots
    decreases |kvs| - i
  {
    if i < |kvs| {
      if kvs[i].key == k {
        FindUnique(kvs, k, i);
        var rest := kvs[..i] + kvs[i + 1..];
        assert forall j :: i + 1 <= j < |rest| ==> rest[j] == kvs[j + 1];
        SieveClean(Shifted(slots, |kvs|, i), rest, k, i + 1);
      } else {
        SieveIsDel(slots, kvs, k, i + 1);
      }
    }
  }

  lemma DelOtherDone(kvs: seq<Pair>, before: seq<KvHeader>, k: Bytes, at: nat)
    requires |kvs| <= |before| && Typed(before) && at == Find(kvs, k)
    ensures Distinct(kvs) ==>
              && Sieve(kvs, k, 0) == DelKv(kvs, k)
              && SieveSlots(before, kvs, k, 0) == (if at < |kvs| then Shifted(before, |kvs|, at) else before)
    ensures Separate(before) && at < |kvs| ==> (Separate(Shifted(before, |kvs|, at)) <==> at == |kvs| - 1)
  {
    if Distinct(kvs) { SieveIsDel(before, kvs, k, 0); }
    if at < |kvs| { ShiftedSlots(before, |kvs|, at); }
  }

  // ---- What shared storage does ----

  /** A plain map still has its last pair after another key was deleted and a fresh one set. */
  lemma PlainKeepsLast(m: Headers, k: Bytes, k': Bytes, v: Bytes)
    requires HeaderMap.Valid(m) && !Dedicated(k) && Find(m.kvs, k) < |m.kvs| - 1
    requires !Dedicated(k') && forall i :: 0 <= i < |m.kvs| ==> m.kvs[i].key != k'
    ensures var last := m.kvs[|m.kvs| - 1];
            HeaderMap.Get(HeaderMap.Set(HeaderMap.Del(m, k), k', v), last.key) == last.value
  {
    var last := m.kvs[|m.kvs| - 1];
    ReadsLast(m, k);
    GetDel(m, k, last.key);
    var deleted := HeaderMap.Del(m, k);
    GetSet(deleted, k', v, last.key);
  }

  lemma ReadsLast(m: Headers, k: Bytes)
    requires HeaderMap.Valid(m) && Find(m.kvs, k) < |m.kvs| - 1
    ensures var last := m.kvs[|m.kvs| - 1]; HeaderMap.Get(m, last.key) == last.value && last.key != k
  {
    FindUnique(m.kvs, m.kvs[|m.kvs| - 1].key, |m.kvs| - 1);
  }

  /** It is last but one then. */
  lemma PlainLastButOne(kvs: seq<Pair>, k: Bytes, k': Bytes, v: Bytes)
    requires Distinct(kvs) && Find(kvs, k) < |kvs| - 1 && forall i :: 0 <= i < |kvs| ==> kvs[i].key != k'
    ensures Find(DelKv(kvs, k), k') == |DelKv(kvs, k)| == |kvs| - 1
    ensures SetKv(DelKv(kvs, k), k', v)[|kvs| - 2] == kvs[|kvs| - 1]
  {
    DelKvDistinct(kvs, k);
    FindNone(DelKv(kvs, k), k');
  }

  /** After a pair other than the last is deleted, the freed slot is the last live slot again. */
  method DelShares(m: FastSimpleMap, k: Bytes)
    requires m.Valid() && !Dedicated(k) && Find(m.Kvs(), k) < m.n - 1
    modifies m
    ensures m.Usable() && m.n == old(m.n) - 1 && 1 <= m.n < |m.slots| && Storage(m.slots) <= old(Storage(m.slots))
    ensures m.slots[m.n] == m.slots[m.n - 1] == old(m.slots[m.n - 1])
    ensures m.Value() == HeaderMap.Del(old(m.Value()), k) && HeaderMap.Valid(m.Value())
  {
    ghost var before, n, i := m.slots, m.n, Find(m.Kvs(), k);
    m.Del(k);
    ShiftedSlots(before, n, i);
    assert m.slots[n - 2] == before[n - 1] == m.slots[n - 1];
  }

  /** Setting a fresh key, as long as the last one, after that overwrites the last key: the map is not
      what the plain map is. */
  method SetAfterDelDiffers(m: FastSimpleMap, k: Bytes, k': Bytes, v: Bytes)
    requires m.Valid() && !Dedicated(k) && Find(m.Kvs(), k) < m.n - 1
    requires !Dedicated(k') && (forall i :: 0 <= i < m.n ==> m.Kvs()[i].key != k') && |k'| == |m.Kvs()[m.n - 1].key|
    modifies m, Storage(m.slots)
    ensures m.Usable() && m.Value() != HeaderMap.Set(HeaderMap.Del(old(m.Value()), k), k', v)
    ensures m.n == old(m.n) && m.Kvs()[m.n - 2].key == m.Kvs()[m.n - 1].key == k'
  {
    ghost var plain, n := m.Value(), m.n;
    assert m.Kvs()[n - 1] == PairAt(m.slots[n - 1]);
    PlainLastButOne(plain.kvs, k, k', v);
    DelShares(m, k);
    SetIntoShared(m, k', v);
    LastKeyGone(plain, k, k', v, m.Value());
  }

  lemma LastKeyGone(plain: Headers, k: Bytes, k': Bytes, v: Bytes, m: Headers)
    requires HeaderMap.Valid(plain) && !Dedicated(k) && Find(plain.kvs, k) < |plain.kvs| - 1
    requires !Dedicated(k') && forall i :: 0 <= i < |plain.kvs| ==> plain.kvs[i].key != k'
    requires |m.kvs| == |plain.kvs| && m.kvs[|m.kvs| - 2].key == k'
    ensures m != HeaderMap.Set(HeaderMap.Del(plain, k), k', v)
  {
    PlainLastButOne(plain.kvs, k, k', v);
  }

  /** Setting a fresh key into a freed slot that is the last live slot again, by a key of that length. */
  method SetIntoShared(m: FastSimpleMap, k: Bytes, v: Bytes)
    requires m.Usable() && 1 <= m.n < |m.slots| && m.slots[m.n] == m.slots[m.n - 1] && |k| == m.slots[m.n].key.len
    requires !Dedicated(k) && Find(m.Kvs(), k) == m.n
    modifies m, Storage(m.slots)
    ensures m.Usable() && m.n == old(m.n) + 1 && m.Kvs()[m.n - 2].key == m.Kvs()[m.n - 1].key == k
    ensures m.slots == old(m.slots)[old(m.n) := m.slots[old(m.n)]]
  {
    ghost var before, i := m.slots, m.n;
    m.Set(k, v);
    assert m.slots[i - 1] == before[i - 1] && m.Kvs()[i] == PairAt(m.slots[i]);
    assert m.slots[i - 1].key == m.slots[i].key;
    assert m.Kvs()[i - 1] == PairAt(m.slots[i - 1]);
  }

  method OneSet() returns (m: FastSimpleMap)
    ensures fresh(m) && m.Valid() && fresh(Storage(m.slots)) && m.Value() == HeaderMap.Set(EMPTY, [1], [1])
  {
    m := new FastSimpleMap();
    m.Set([1], [1]);
  }

  method TwoSet() returns (m: FastSimpleMap)
    ensures fresh(m) && m.Valid() && fresh(Storage(m.slots))
    ensures m.Value() == EMPTY.(kvs := [Pair([1], [1]), Pair([2], [2])])
  {
    TwoKeys(1, 2);
    m := OneSet();
    m.Set([2], [2]);
  }

  /** Two pairs, the first deleted again: the two slots share their storage, which holds one byte. */
  method Recycled() returns (m: FastSimpleMap)
    ensures fresh(m) && m.Usable() && m.Value() == EMPTY && fresh(Storage(m.slots)) && m.n == 0
    ensures |m.slots| >= 2 && m.slots[0] == m.slots[1]
    ensures m.slots[0].key.buf.Length >= 1 && m.slots[0].value.buf.Length >= 1
  {
    m := TwoSet();
    assert m.Kvs() == m.Value().kvs && PairAt(m.slots[1]) == m.Kvs()[1] && m.Kvs()[0].key == [1];
    DelShares(m, [1]);
    m.Reset();
  }

  /** A recycled map whose slots share storage is filled with two pairs by the rounds of Decode: the
      second overwrites the first, so what a map held before Reset does matter. */
  method RecycledDiffers(data: array<Byte>) returns (m: FastSimpleMap)
    requires data[..] == EncodePair(Pair([3], [3])) + EncodePair(Pair([4], [4]))
    ensures m.Usable() && m.Kvs() == [Pair([4], [4]), Pair([4], [4])]
    ensures m.Value() != HeaderMap.Decode(EMPTY, data[..]).m
  {
    m := Recycled();
    var b := new Buffer(data, 0);
    assert b.Rest() == data[..];
    TwoPairs(data[..]);
    FillShared(m, b);
  }

  /** Two rounds into slots that share storage. */
  method FillShared(m: FastSimpleMap, b: Buffer)
    requires m.Usable() && m.Value() == EMPTY && m.n == 0 && |m.slots| >= 2 && m.slots[0] == m.slots[1]
    requires m.slots[0].key.buf.Length >= 1 && m.slots[0].value.buf.Length >= 1
    requires b.Valid() && b.data !in Storage(m.slots)
    requires var second := EncodePair(Pair([4], [4]));
             && ParsePair(b.Rest()) == Ok(Parsed(Pair([3], [3]), second))
             && ParsePair(second) == Ok(Parsed(Pair([4], [4]), []))
    modifies m, Storage(m.slots), b
    ensures m.Usable() && m.Kvs() == [Pair([4], [4]), Pair([4], [4])]
  {
    FillFirst(m, b);
    FillSecond(m, b);
  }

  method FillFirst(m: FastSimpleMap, b: Buffer)
    requires m.Usable() && m.n == 0 && |m.slots| >= 2 && m.slots[0] == m.slots[1]
    requires m.slots[0].key.buf.Length >= 1 && m.slots[0].value.buf.Length >= 1
    requires b.Valid() && b.data !in Storage(m.slots)
    requires ParsePair(b.Rest()).Ok? && ParsePair(b.Rest()).value.pair == Pair([3], [3])
    modifies m, Storage(m.slots), b
    ensures m.Usable() && m.n == 1 && |m.slots| >= 2 && m.slots[1] == old(m.slots[1])
    ensures m.slots[0].key == Slice(m.slots[1].key.buf, 1) && m.slots[0].value == Slice(m.slots[1].value.buf, 1)
    ensures m.Kvs() == [Pair([3], [3])] && Storage(m.slots) <= old(Storage(m.slots))
    ensures b.Valid() && b.data !in Storage(m.slots) && b.Rest() == ParsePair(old(b.Rest())).value.rest
  {
    var p := m.SetNext(b);
    assert m.Kvs() == [PairAt(m.slots[0])];
  }

  method FillSecond(m: FastSimpleMap, b: Buffer)
    requires m.Usable() && m.n == 1 && |m.slots| >= 2 && m.Kvs() == [Pair([3], [3])]
    requires m.slots[0].key == Slice(m.slots[1].key.buf, 1) && m.slots[0].value == Slice(m.slots[1].value.buf, 1)
    requires m.slots[1].key.buf.Length >= 1 && m.slots[1].value.buf.Length >= 1
    requires b.Valid() && b.data !in Storage(m.slots)
    requires ParsePair(b.Rest()).Ok? && ParsePair(b.Rest()).value.pair == Pair([4], [4])
    modifies m, Storage(m.slots), b
    ensures m.Usable() && m.Kvs() == [Pair([4], [4]), Pair([4], [4])]
  {
    FindNone([Pair([3], [3])], [4]);
    var p := m.SetNext(b);
    assert m.Kvs() == [PairAt(m.slots[0]), PairAt(m.slots[1])];
  }

  lemma TwoPairs(data: Bytes)
    requires data == EncodePair(Pair([3], [3])) + EncodePair(Pair([4], [4]))
    ensures |data| == 20 && ParsePair(data) == Ok(Parsed(Pair([3], [3]), EncodePair(Pair([4], [4]))))
    ensures ParsePair(EncodePair(Pair([4], [4]))) == Ok(Parsed(Pair([4], [4]), []))
    ensures HeaderMap.Decode(EMPTY, data).m.kvs == [Pair([3], [3]), Pair([4], [4])]
  {
    var second := EncodePair(Pair([4], [4]));
    SmallPair(3, second);
    SmallPair(4, []);
    assert second + [] == second;
    DecodeTwo(data, second);
  }

  lemma SmallPair(a: Byte, rest: Bytes)
    ensures |EncodePair(Pair([a], [a]))| == 10
    ensures ParsePair(EncodePair(Pair([a], [a])) + rest) == Ok(Parsed(Pair([a], [a]), rest))
  {
    ParseEncodedPair(Pair([a], [a]), rest);
  }

  lemma DecodeTwo(data: Bytes, second: Bytes)
    requires data != [] && ParsePair(data) == Ok(Parsed(Pair([3], [3]), second))
    requires second != [] && ParsePair(second) == Ok(Parsed(Pair([4], [4]), []))
    ensures HeaderMap.Decode(EMPTY, data).m.kvs == [Pair([3], [3]), Pair([4], [4])]
  {
    DecodeNext(EMPTY, data);
    DecodeNext(HeaderMap.Set(EMPTY, [3], [3]), second);
    TwoKeys(3, 4);
  }

  lemma TwoKeys(a: Byte, b: Byte)
    requires a != b
    ensures HeaderMap.Set(HeaderMap.Set(EMPTY, [a], [a]), [b], [b]) == EMPTY.(kvs := [Pair([a], [a]), Pair([b], [b])])
  {
    assert HeaderMap.Set(EMPTY, [a], [a]).kvs == [Pair([a], [a])];
    FindNone([Pair([a], [a])], [b]);
  }

  lemma DecodeNext(m: Headers, data: Bytes)
    requires data != []
    ensures var r := ParsePair(data);
            HeaderMap.Decode(m, data) ==
            if r.Err? then Decoded(Some(r.error), m)
            else HeaderMap.Decode(HeaderMap.Set(m, r.value.pair.key, r.value.pair.value), r.value.rest)
  {
  }

  /** One round of the Decode loop. */
  method ReadPair(b: Buffer) returns (r: Result<Pair, DecodeError>)
    requires b.Valid()
    modifies b
    ensures b.Valid()
    ensures var p := ParsePair(old(b.Rest()));
            if p.Err? then r == Err(p.error) else r == Ok(p.value.pair) && b.Rest() == p.value.rest
  {
    var k := b.Uint32String();
    if k.Err? { return Err(KeyFailed); }
    ghost var tail := b.Rest();
    var n := b.Uint32();
    if n.Err? { return Err(ValueFailed); }
    if n.value == NULL || n.value == 0 { return Ok(Pair(k.value, [])); }
    if !b.Check(n.value) { return Err(ValueFailed); }
    ghost var rest := b.Rest();
    var v := b.MustRef(n.value);
    assert rest == tail[4..] && rest[..n.value] == tail[4..4 + n.value] && rest[n.value..] == tail[4 + n.value..];
    r := Ok(Pair(k.value, v));
  }

  /** The pairs done so far stand in data[lo..pos], and nothing else has changed. */
  ghost predicate Wrote(b: Buffer, before: Bytes, done: seq<Pair>)
    reads b, b.data
  {
    && b.Valid() && |before| == b.data.Length && b.pos == |EncodePairs(done)|
    && b.data[..] == Put(before, b.lo, EncodePairs(done))
  }

  method PutPairs(data: array<Byte>, lo: nat, ps: seq<Pair>) returns (size: nat)
    requires lo + |EncodePairs(ps)| <= data.Length
    modifies data
    ensures size == |EncodePairs(ps)|
    ensures data[..] == Put(old(data[..]), lo, EncodePairs(ps))
  {
    ghost var before := data[..];
    var b := new Buffer(data, lo);
    var i := 0;
    assert ps[..0] == [];
    while i < |ps|
      invariant i <= |ps| && fresh(b) && b.data == data && b.lo == lo && Wrote(b, before, ps[..i])
    {
      assert ps[..i + 1] == ps[..i] + [ps[i]] && ps == ps[..i + 1] + ps[i + 1..];
      EncodeAppend(ps[..i + 1], ps[i + 1..]);
      PutPair(b, before, ps[..i], ps[i]);
      i := i + 1;
    }
    assert ps[..|ps|] == ps;
    size := b.pos;
  }

  method PutPair(b: Buffer, ghost before: Bytes, ghost done: seq<Pair>, p: Pair)
    requires Wrote(b, before, done) && b.lo + |EncodePairs(done + [p])| <= b.data.Length
    modifies b, b.data
    ensures Wrote(b, before, done + [p])
  {
    EncodeLast(done, p);
    ghost var x, y, z := EncodePairs(done), EncodeString(p.key), EncodeString(p.value);
    PutNext(before, b.lo, x, y);
    PutNext(before, b.lo, x + y, z);
    assert |x| + |y| + |z| == |EncodePairs(done + [p])|;
    b.MustPutUint32String(p.key);
    assert b.data[..] == Put(before, b.lo, x + y) && b.pos == |x + y|;
    b.MustPutUint32String(p.value);
  }

  lemma EncodeLast(ps: seq<Pair>, p: Pair)
    ensures EncodePairs(ps + [p]) == EncodePairs(ps) + EncodeString(p.key) + EncodeString(p.value)
  {
    EncodeAppend(ps, [p]);
    assert [p][1..] == [];
    assert EncodePairs([p]) == EncodePair(p);
    Associative(EncodePairs(ps), EncodeString(p.key), EncodeString(p.value));
  }
}
