/** The header map as a value: four dedicated slots and a list of other pairs, with the wire
    encoding of the pairs.  FastSimpleMap implements these functions over recycled storage. */
module HeaderMap {
  import opened Wrappers
  import opened Bytes

  const HOST: Bytes := [104, 111, 115, 116]
  const CONTENT_TYPE: Bytes := [99, 111, 110, 116, 101, 110, 116, 45, 116, 121, 112, 101]
  const SERVICE: Bytes := [115, 101, 114, 118, 105, 99, 101]
  const AUTHORIZATION: Bytes := [97, 117, 116, 104, 111, 114, 105, 122, 97, 116, 105, 111, 110]

  /** The length that stands for a null value. */
  const NULL: U32 := 0xFFFF_FFFF

  datatype Pair = Pair(key: Bytes, value: Bytes)

  datatype Headers = Headers(
    service: Bytes, host: Bytes, contentType: Bytes, authorization: Bytes, kvs: seq<Pair>)

  const EMPTY := Headers([], [], [], [], [])

  predicate Dedicated(k: Bytes) {
    k == HOST || k == CONTENT_TYPE || k == SERVICE || k == AUTHORIZATION
  }

  ghost predicate Distinct(kvs: seq<Pair>) {
    forall i, j :: 0 <= i < j < |kvs| ==> kvs[i].key != kvs[j].key
  }

  ghost predicate Valid(m: Headers) {
    Distinct(m.kvs) && forall i :: 0 <= i < |m.kvs| ==> !Dedicated(m.kvs[i].key)
  }

  // ---- Operations ----

  /** The position of the first pair with key k, or |kvs|. */
  function Find(kvs: seq<Pair>, k: Bytes): (i: nat)
    ensures i <= |kvs|
    ensures forall j :: 0 <= j < i ==> kvs[j].key != k
    ensures i < |kvs| ==> kvs[i].key == k
  {
    if kvs == [] then 0
    else if kvs[0].key == k then 0
    else
      var j := Find(kvs[1..], k);
      assert forall x :: 1 <= x < j + 1 ==> kvs[x] == kvs[1..][x - 1];
      j + 1
  }

  function SetKv(kvs: seq<Pair>, k: Bytes, v: Bytes): seq<Pair> {
    var i := Find(kvs, k);
    if i < |kvs| then kvs[i := Pair(k, v)] else kvs + [Pair(k, v)]
  }

  function Set(m: Headers, k: Bytes, v: Bytes): Headers {
    if k == HOST then m.(host := v)
    else if k == CONTENT_TYPE then m.(contentType := v)
    else if k == SERVICE then m.(service := v)
    else if k == AUTHORIZATION then m.(authorization := v)
    else m.(kvs := SetKv(m.kvs, k, v))
  }

  /** An absent key reads as empty. */
  function Get(m: Headers, k: Bytes): Bytes {
    if k == HOST then m.host
    else if k == CONTENT_TYPE then m.contentType
    else if k == SERVICE then m.service
    else if k == AUTHORIZATION then m.authorization
    else
      var i := Find(m.kvs, k);
      if i < |m.kvs| then m.kvs[i].value else []
  }

  function DelKv(kvs: seq<Pair>, k: Bytes): seq<Pair> {
    var i := Find(kvs, k);
    if i < |kvs| then kvs[..i] + kvs[i + 1..] else kvs
  }

  function Del(m: Headers, k: Bytes): Headers {
    if k == HOST then m.(host := [])
    else if k == CONTENT_TYPE then m.(contentType := [])
    else if k == SERVICE then m.(service := [])
    else if k == AUTHORIZATION then m.(authorization := [])
    else m.(kvs := DelKv(m.kvs, k))
  }

  lemma FindUnique(kvs: seq<Pair>, k: Bytes, i: nat)
    requires Distinct(kvs) && i < |kvs| && kvs[i].key == k
    ensures Find(kvs, k) == i
  {
  }

  lemma FindIs(kvs: seq<Pair>, k: Bytes, i: nat)
    requires i <= |kvs| && (forall j :: 0 <= j < i ==> kvs[j].key != k) && (i < |kvs| ==> kvs[i].key == k)
    ensures Find(kvs, k) == i
  {
  }

  /** A key nobody has. */
  lemma FindNone(kvs: seq<Pair>, k: Bytes)
    requires forall i :: 0 <= i < |kvs| ==> kvs[i].key != k
    ensures Find(kvs, k) == |kvs|
  {
  }

  /** Reading after writing: exactly the written key changes. */
  lemma GetSet(m: Headers, k: Bytes, v: Bytes, k': Bytes)
    requires Valid(m)
    ensures Valid(Set(m, k, v)) && Get(Set(m, k, v), k') == if k' == k then v else Get(m, k')
  {
    var m' := Set(m, k, v);
    if !Dedicated(k) {
      var i := Find(m.kvs, k);
      var kvs' := m'.kvs;
      assert Distinct(kvs');
      if !Dedicated(k') {
        var j := Find(m.kvs, k');
        if k' == k {
          FindUnique(kvs', k, i);
        } else if j < |m.kvs| {
          assert kvs'[j] == m.kvs[j];
          FindUnique(kvs', k', j);
        } else {
          FindNone(kvs', k');
        }
      }
    }
  }

  /** Reading after deleting: exactly the deleted key reads as absent. */
  lemma GetDel(m: Headers, k: Bytes, k': Bytes)
    requires Valid(m)
    ensures Valid(Del(m, k)) && Get(Del(m, k), k') == if k' == k then [] else Get(m, k')
  {
    if !Dedicated(k) {
      DelKvDistinct(m.kvs, k);
      if !Dedicated(k') {
        FindDelKv(m.kvs, k, k');
      }
    }
  }

  /** The other pairs stay where they are; a new one comes last. */
  lemma SetKeepsOrder(m: Headers, k: Bytes, v: Bytes)
    requires Valid(m)
    ensures Dedicated(k) ==> Set(m, k, v).kvs == m.kvs
    ensures !Dedicated(k) && (forall i :: 0 <= i < |m.kvs| ==> m.kvs[i].key != k) ==>
              Set(m, k, v).kvs == m.kvs + [Pair(k, v)]
    ensures !Dedicated(k) ==> forall i :: 0 <= i < |m.kvs| && m.kvs[i].key == k ==>
              Set(m, k, v).kvs == m.kvs[..i] + [Pair(k, v)] + m.kvs[i + 1..]
  {
    forall i | 0 <= i < |m.kvs| && m.kvs[i].key == k ensures Find(m.kvs, k) == i { FindUnique(m.kvs, k, i); }
  }

  /** The others close up. */
  lemma DelKeepsOrder(m: Headers, k: Bytes)
    requires Valid(m)
    ensures (forall i :: 0 <= i < |m.kvs| ==> m.kvs[i].key != k) ==> Del(m, k).kvs == m.kvs
    ensures forall i :: 0 <= i < |m.kvs| && m.kvs[i].key == k ==> Del(m, k).kvs == m.kvs[..i] + m.kvs[i + 1..]
  {
    forall i | 0 <= i < |m.kvs| && m.kvs[i].key == k ensures Find(m.kvs, k) == i { FindUnique(m.kvs, k, i); }
  }

  lemma DelKvDistinct(kvs: seq<Pair>, k: Bytes)
    requires Distinct(kvs)
    ensures Distinct(DelKv(kvs, k)) && forall x :: 0 <= x < |DelKv(kvs, k)| ==> DelKv(kvs, k)[x] in kvs
  {
    var i, kvs' := Find(kvs, k), DelKv(kvs, k);
    if i < |kvs| {
      assert forall x :: 0 <= x < |kvs'| ==> kvs'[x] == kvs[if x < i then x else x + 1];
    }
  }

  lemma FindDelKv(kvs: seq<Pair>, k: Bytes, k': Bytes)
    requires Distinct(kvs)
    ensures var i, j := Find(DelKv(kvs, k), k'), Find(kvs, k');
            if k' == k || j == |kvs| then i == |DelKv(kvs, k)|
            else i < |DelKv(kvs, k)| && DelKv(kvs, k)[i] == kvs[j]
  {
    var i, j, kvs' := Find(kvs, k), Find(kvs, k'), DelKv(kvs, k);
    if i < |kvs| {
      assert forall x :: 0 <= x < |kvs'| ==> kvs'[x] == kvs[if x < i then x else x + 1];
      DelKvDistinct(kvs, k);
      if k' == k || j == |kvs| {
        FindNone(kvs', k');
      } else {
        FindUnique(kvs', k', if j < i then j else j - 1);
      }
    }
  }

  // ---- Encoding ----

  /** A length-prefixed string; the length is truncated to 32 bits. */
  function EncodeString(s: Bytes): Bytes {
    Put32(Low32(|s|)) + s
  }

  function EncodePair(p: Pair): Bytes {
    EncodeString(p.key) + EncodeString(p.value)
  }

  function EncodePairs(ps: seq<Pair>): Bytes {
    if ps == [] then [] else EncodePair(ps[0]) + EncodePairs(ps[1..])
  }

  function Slot(k: Bytes, v: Bytes): seq<Pair> {
    if |v| > 0 then [Pair(k, v)] else []
  }

  /** The pairs in the order in which Range visits and Encode writes them. */
  function Pairs(m: Headers): seq<Pair> {
    Slot(SERVICE, m.service) + Slot(HOST, m.host) + Slot(CONTENT_TYPE, m.contentType)
    + Slot(AUTHORIZATION, m.authorization) + m.kvs
  }

  function Encode(m: Headers): Bytes {
    EncodePairs(Pairs(m))
  }

  function PairsSize(kvs: seq<Pair>): nat {
    if kvs == [] then 0 else 8 + |kvs[0].key| + |kvs[0].value| + PairsSize(kvs[1..])
  }

  function SlotSize(k: Bytes, v: Bytes): nat {
    if |v| > 0 then 8 + |k| + |v| else 0
  }

  function EncodeSize(m: Headers): nat {
    SlotSize(SERVICE, m.service) + SlotSize(HOST, m.host) + SlotSize(CONTENT_TYPE, m.contentType)
    + SlotSize(AUTHORIZATION, m.authorization) + PairsSize(m.kvs)
  }

  lemma {:induction false} EncodeAppend(a: seq<Pair>, b: seq<Pair>)
    ensures EncodePairs(a + b) == EncodePairs(a) + EncodePairs(b)
  {
    if a == [] {
      assert a + b == b;
    } else {
      EncodeAppend(a[1..], b);
      assert (a + b)[1..] == a[1..] + b;
      Associative(EncodePair(a[0]), EncodePairs(a[1..]), EncodePairs(b));
    }
  }

  lemma {:induction false} PairsSizeIsLength(kvs: seq<Pair>)
    ensures |EncodePairs(kvs)| == PairsSize(kvs)
  {
    if kvs != [] {
      PairsSizeIsLength(kvs[1..]);
    }
  }

  /** GetEncodeSize is exactly the number of bytes Encode writes. */
  lemma EncodeSizeIsLength(m: Headers)
    ensures |Encode(m)| == EncodeSize(m)
  {
    var a, b := Slot(SERVICE, m.service), Slot(HOST, m.host);
    var c, d := Slot(CONTENT_TYPE, m.contentType), Slot(AUTHORIZATION, m.authorization);
    EncodeAppend(a + b + c + d, m.kvs);
    EncodeAppend(a + b + c, d);
    EncodeAppend(a + b, c);
    EncodeAppend(a, b);
    PairsSizeIsLength(m.kvs);
    SlotLength(SERVICE, m.service);
    SlotLength(HOST, m.host);
    SlotLength(CONTENT_TYPE, m.contentType);
    SlotLength(AUTHORIZATION, m.authorization);
  }

  lemma SlotLength(k: Bytes, v: Bytes)
    ensures |EncodePairs(Slot(k, v))| == SlotSize(k, v)
  {
    if |v| > 0 {
      assert Slot(k, v)[1..] == [];
      assert EncodePairs([]) == [];
    }
  }

  // ---- Decoding ----

  datatype DecodeError = KeyFailed | ValueFailed

  datatype Parsed = Parsed(pair: Pair, rest: Bytes)

  function ParseString(data: Bytes): Result<(Bytes, Bytes), ()> {
    if |data| < 4 || |data| < 4 + Get32(data) then Err(())
    else Ok((data[4..4 + Get32(data)], data[4 + Get32(data)..]))
  }

  /** A value; the null marker and a zero length both mean the empty value. */
  function ParseValue(data: Bytes): Result<(Bytes, Bytes), ()> {
    if |data| < 4 then Err(())
    else if Get32(data) == NULL || Get32(data) == 0 then Ok(([], data[4..]))
    else ParseString(data)
  }

  /** One round of the Decode loop: a key, then a value whose length may be the null marker. */
  function ParsePair(data: Bytes): (r: Result<Parsed, DecodeError>)
    ensures r.Ok? ==> |data| >= 8 + |r.value.rest|
  {
    var k := ParseString(data);
    if k.Err? then Err(KeyFailed)
    else
      var v := ParseValue(k.value.1);
      if v.Err? then Err(ValueFailed) else Ok(Parsed(Pair(k.value.0, v.value.0), v.value.1))
  }

  datatype Decoded = Decoded(error: Option<DecodeError>, m: Headers)

  /** Decode sets the pairs as it parses them; a failure keeps those set before it. */
  function Decode(m: Headers, data: Bytes): Decoded
    decreases |data|
  {
    if data == [] then Decoded(None, m)
    else
      var r := ParsePair(data);
      if r.Err? then Decoded(Some(r.error), m)
      else Decode(Set(m, r.value.pair.key, r.value.pair.value), r.value.rest)
  }

  /** All pairs before the end of the data or the first failure. */
  function ParseAll(data: Bytes): (seq<Pair>, Option<DecodeError>)
    decreases |data|
  {
    if data == [] then ([], None)
    else
      var r := ParsePair(data);
      if r.Err? then ([], Some(r.error))
      else
        var (ps, err) := ParseAll(r.value.rest);
        ([r.value.pair] + ps, err)
  }

  function SetAll(m: Headers, ps: seq<Pair>): Headers
    decreases |ps|
  {
    if ps == [] then m else SetAll(Set(m, ps[0].key, ps[0].value), ps[1..])
  }

  /** Decode is the left fold of set over the parsed pairs. */
  lemma {:induction false} DecodeIsFold(m: Headers, data: Bytes)
    ensures Decode(m, data) == Decoded(ParseAll(data).1, SetAll(m, ParseAll(data).0))
    decreases |data|
  {
    if data != [] && ParsePair(data).Ok? {
      var p := ParsePair(data).value;
      DecodeIsFold(Set(m, p.pair.key, p.pair.value), p.rest);
      assert ([p.pair] + ParseAll(p.rest).0)[1..] == ParseAll(p.rest).0;
    }
  }

  /** The value that the last pair with key k gives, if any does. */
  function LastValue(ps: seq<Pair>, k: Bytes): Option<Bytes> {
    if ps == [] then None
    else if ps[|ps| - 1].key == k then Some(ps[|ps| - 1].value)
    else LastValue(ps[..|ps| - 1], k)
  }

  lemma {:induction false} SetAllPush(m: Headers, ps: seq<Pair>, p: Pair)
    ensures SetAll(m, ps + [p]) == Set(SetAll(m, ps), p.key, p.value)
    decreases |ps|
  {
    if ps == [] {
      assert ([] + [p])[1..] == [];
    } else {
      assert (ps + [p])[1..] == ps[1..] + [p];
      SetAllPush(Set(m, ps[0].key, ps[0].value), ps[1..], p);
    }
  }

  lemma {:induction false} SetAllGet(m: Headers, ps: seq<Pair>, k: Bytes)
    requires Valid(m)
    ensures Valid(SetAll(m, ps))
    ensures Get(SetAll(m, ps), k) == match LastValue(ps, k) case Some(v) => v case None => Get(m, k)
  {
    if ps != [] {
      var front, p := ps[..|ps| - 1], ps[|ps| - 1];
      assert ps == front + [p];
      SetAllPush(m, front, p);
      SetAllGet(m, front, k);
      GetSet(SetAll(m, front), p.key, p.value, k);
    }
  }

  /** Decoding any bytes into an empty map: the last pair parsed for a key wins, a key never parsed
      reads as absent, and the result is well formed even after a failure. */
  lemma DecodeReads(data: Bytes, k: Bytes)
    ensures var m := Decode(EMPTY, data).m;
            Valid(m) && Get(m, k) == match LastValue(ParseAll(data).0, k) case Some(v) => v case None => []
  {
    DecodeIsFold(EMPTY, data);
    SetAllGet(EMPTY, ParseAll(data).0, k);
    assert Get(EMPTY, k) == [];
  }

  // ---- Inverses ----

  /** Lengths that survive their 32-bit prefix; a value must also avoid the null marker. */
  predicate Encodable(p: Pair) {
    |p.key| < 0x1_0000_0000 && |p.value| < 0xFFFF_FFFF
  }

  ghost predicate AllEncodable(ps: seq<Pair>) {
    forall i :: 0 <= i < |ps| ==> Encodable(ps[i])
  }

  lemma ParseEncodedString(s: Bytes, rest: Bytes)
    requires |s| < 0x1_0000_0000
    ensures ParseString(EncodeString(s) + rest) == Ok((s, rest))
  {
    assert Low32(|s|) == |s|;
    var len := Put32(|s|);
    assert EncodeString(s) + rest == len + s + rest == len + (s + rest);
    GetPut32(|s|, s + rest);
    Cut(len, s, rest);
  }

  lemma ParseEncodedValue(v: Bytes, rest: Bytes)
    requires |v| < 0xFFFF_FFFF
    ensures ParseValue(EncodeString(v) + rest) == Ok((v, rest))
  {
    ParseEncodedString(v, rest);
    assert EncodeString(v) + rest == Put32(|v|) + (v + rest);
    GetPut32(|v|, v + rest);
    if v == [] {
      assert (EncodeString(v) + rest)[4..] == rest;
    }
  }

  lemma ParseEncodedPair(p: Pair, rest: Bytes)
    requires Encodable(p)
    ensures ParsePair(EncodePair(p) + rest) == Ok(Parsed(p, rest))
  {
    var tail := EncodeString(p.value) + rest;
    assert EncodePair(p) + rest == EncodeString(p.key) + tail;
    ParseEncodedString(p.key, tail);
    ParseEncodedValue(p.value, rest);
  }

  lemma {:induction false} ParseEncodedPairs(ps: seq<Pair>)
    requires AllEncodable(ps)
    ensures ParseAll(EncodePairs(ps)) == (ps, None)
  {
    if ps != [] {
      ParseEncodedPair(ps[0], EncodePairs(ps[1..]));
      ParseEncodedPairs(ps[1..]);
      assert [ps[0]] + ps[1..] == ps;
    }
  }

  lemma {:induction false} SetAllAppend(m: Headers, a: seq<Pair>, b: seq<Pair>)
    ensures SetAll(m, a + b) == SetAll(SetAll(m, a), b)
    decreases |a|
  {
    if a == [] {
      assert a + b == b;
    } else {
      assert (a + b)[1..] == a[1..] + b;
      SetAllAppend(Set(m, a[0].key, a[0].value), a[1..], b);
    }
  }

  lemma {:induction false} SetAllKvs(m: Headers, kvs: seq<Pair>, rest: seq<Pair>)
    requires Valid(m.(kvs := kvs + rest))
    ensures SetAll(m.(kvs := kvs), rest) == m.(kvs := kvs + rest)
    decreases |rest|
  {
    if rest == [] {
      assert kvs + rest == kvs;
    } else {
      var p := rest[0];
      assert (kvs + rest)[|kvs|] == p;
      forall i | 0 <= i < |kvs| ensures kvs[i].key != p.key {
        assert kvs[i] == (kvs + rest)[i];
      }
      FindNone(kvs, p.key);
      assert Set(m.(kvs := kvs), p.key, p.value) == m.(kvs := kvs + [p]);
      assert (kvs + [p]) + rest[1..] == kvs + rest;
      SetAllKvs(m, kvs + [p], rest[1..]);
    }
  }

  /** Setting the visited pairs one by one into an empty map rebuilds the map. */
  lemma SetAllPairs(m: Headers)
    requires Valid(m)
    ensures SetAll(EMPTY, Pairs(m)) == m
  {
    var a, b := Slot(SERVICE, m.service), Slot(HOST, m.host);
    var c, d := Slot(CONTENT_TYPE, m.contentType), Slot(AUTHORIZATION, m.authorization);
    SetAllAppend(EMPTY, a + b + c + d, m.kvs);
    SetAllAppend(EMPTY, a + b + c, d);
    SetAllAppend(EMPTY, a + b, c);
    SetAllAppend(EMPTY, a, b);
    SetSlot(EMPTY, SERVICE, m.service);
    SetSlot(SetAll(EMPTY, a), HOST, m.host);
    SetSlot(SetAll(EMPTY, a + b), CONTENT_TYPE, m.contentType);
    SetSlot(SetAll(EMPTY, a + b + c), AUTHORIZATION, m.authorization);
    var dedicated := Headers(m.service, m.host, m.contentType, m.authorization, []);
    assert SetAll(EMPTY, a + b + c + d) == dedicated;
    assert [] + m.kvs == m.kvs;
    SetAllKvs(dedicated, [], m.kvs);
  }

  lemma SetSlot(m: Headers, k: Bytes, v: Bytes)
    ensures SetAll(m, Slot(k, v)) == if |v| > 0 then Set(m, k, v) else m
  {
    if |v| > 0 {
      assert Slot(k, v)[1..] == [];
    }
  }

  /** Decode undoes Encode. */
  lemma DecodeEncode(m: Headers)
    requires Valid(m) && AllEncodable(Pairs(m))
    ensures Decode(EMPTY, Encode(m)) == Decoded(None, m)
  {
    DecodeIsFold(EMPTY, Encode(m));
    ParseEncodedPairs(Pairs(m));
    SetAllPairs(m);
  }

  /** Every value decoded from the wire can be encoded again. */
  lemma {:induction false} DecodedEncodable(m: Headers, data: Bytes)
    requires Valid(m) && AllEncodable(Pairs(m))
    ensures Valid(Decode(m, data).m) && AllEncodable(Pairs(Decode(m, data).m))
    decreases |data|
  {
    if data != [] && ParsePair(data).Ok? {
      var p := ParsePair(data).value;
      GetSet(m, p.pair.key, p.pair.value, []);
      SetEncodable(m, p.pair);
      DecodedEncodable(Set(m, p.pair.key, p.pair.value), p.rest);
    }
  }

  ghost predicate SlotsEncodable(m: Headers) {
    && |m.service| < 0xFFFF_FFFF && |m.host| < 0xFFFF_FFFF && |m.contentType| < 0xFFFF_FFFF
    && |m.authorization| < 0xFFFF_FFFF && AllEncodable(m.kvs)
  }

  lemma PairsEncodable(m: Headers)
    ensures AllEncodable(Pairs(m)) <==> SlotsEncodable(m)
  {
    var a, b := Slot(SERVICE, m.service), Slot(HOST, m.host);
    var c, d := Slot(CONTENT_TYPE, m.contentType), Slot(AUTHORIZATION, m.authorization);
    AppendEncodable(a + b + c + d, m.kvs);
    AppendEncodable(a + b + c, d);
    AppendEncodable(a + b, c);
    AppendEncodable(a, b);
    assert AllEncodable(a) <==> |m.service| < 0xFFFF_FFFF by { SlotEncodable(SERVICE, m.service); }
    assert AllEncodable(b) <==> |m.host| < 0xFFFF_FFFF by { SlotEncodable(HOST, m.host); }
    assert AllEncodable(c) <==> |m.contentType| < 0xFFFF_FFFF by { SlotEncodable(CONTENT_TYPE, m.contentType); }
    assert AllEncodable(d) <==> |m.authorization| < 0xFFFF_FFFF by { SlotEncodable(AUTHORIZATION, m.authorization); }
  }

  lemma SlotEncodable(k: Bytes, v: Bytes)
    requires |k| < 0x1_0000_0000
    ensures AllEncodable(Slot(k, v)) <==> |v| < 0xFFFF_FFFF
  {
    if |v| > 0 {
      assert Slot(k, v)[0] == Pair(k, v);
    }
  }

  lemma AppendEncodable(a: seq<Pair>, b: seq<Pair>)
    ensures AllEncodable(a + b) <==> AllEncodable(a) && AllEncodable(b)
  {
    if AllEncodable(a + b) {
      forall i | 0 <= i < |a| ensures Encodable(a[i]) { assert a[i] == (a + b)[i]; }
      forall i | 0 <= i < |b| ensures Encodable(b[i]) { assert b[i] == (a + b)[|a| + i]; }
    }
  }

  lemma SetEncodable(m: Headers, p: Pair)
    requires AllEncodable(Pairs(m)) && Encodable(p)
    ensures AllEncodable(Pairs(Set(m, p.key, p.value)))
  {
    PairsEncodable(m);
    PairsEncodable(Set(m, p.key, p.value));
  }

  /** Whatever bytes Decode accepts into an empty map, encoding the map and decoding again gives
      the same map. */
  lemma DecodeEncodeDecode(data: Bytes)
    requires Decode(EMPTY, data).error.None?
    ensures var m := Decode(EMPTY, data).m; Decode(EMPTY, Encode(m)) == Decoded(None, m)
  {
    assert Pairs(EMPTY) == [];
    DecodedEncodable(EMPTY, data);
    DecodeEncode(Decode(EMPTY, data).m);
  }

  // ---- The size after decoding ----

  lemma {:induction false} SizeAppend(a: seq<Pair>, b: seq<Pair>)
    ensures PairsSize(a + b) == PairsSize(a) + PairsSize(b)
  {
    if a == [] {
      assert a + b == b;
    } else {
      assert (a + b)[1..] == a[1..] + b;
      SizeAppend(a[1..], b);
    }
  }

  lemma SizeAt(kvs: seq<Pair>, i: nat)
    requires i < |kvs|
    ensures PairsSize(kvs) == PairsSize(kvs[..i]) + (8 + |kvs[i].key| + |kvs[i].value|) + PairsSize(kvs[i + 1..])
  {
    assert kvs == kvs[..i] + kvs[i..];
    SizeAppend(kvs[..i], kvs[i..]);
  }

  lemma SetKvSize(kvs: seq<Pair>, k: Bytes, v: Bytes)
    ensures PairsSize(SetKv(kvs, k, v)) <= PairsSize(kvs) + 8 + |k| + |v|
  {
    var i := Find(kvs, k);
    if i < |kvs| {
      var kvs' := kvs[i := Pair(k, v)];
      assert kvs'[..i] == kvs[..i] && kvs'[i + 1..] == kvs[i + 1..];
      SizeAt(kvs, i);
      SizeAt(kvs', i);
    } else {
      SizeAppend(kvs, [Pair(k, v)]);
      assert PairsSize([Pair(k, v)]) == 8 + |k| + |v|;
    }
  }

  lemma SetSize(m: Headers, k: Bytes, v: Bytes)
    ensures EncodeSize(Set(m, k, v)) <= EncodeSize(m) + 8 + |k| + |v|
  {
    if Dedicated(k) { SetSlotSize(m, k, v); } else { SetKvSize(m.kvs, k, v); }
  }

  lemma SetSlotSize(m: Headers, k: Bytes, v: Bytes)
    requires Dedicated(k)
    ensures EncodeSize(Set(m, k, v)) <= EncodeSize(m) + 8 + |k| + |v|
  {
  }

  /** Decoding never grows a header block: what was read fits where it came from. */
  lemma {:induction false} DecodeSize(m: Headers, data: Bytes)
    ensures EncodeSize(Decode(m, data).m) <= EncodeSize(m) + |data|
    decreases |data|
  {
    if data != [] && ParsePair(data).Ok? {
      var p := ParsePair(data).value;
      SetSize(m, p.pair.key, p.pair.value);
      DecodeSize(Set(m, p.pair.key, p.pair.value), p.rest);
      ParsedSize(data);
    }
  }

  lemma ParsedSize(data: Bytes)
    requires ParsePair(data).Ok?
    ensures var p := ParsePair(data).value;
            8 + |p.pair.key| + |p.pair.value| + |p.rest| == |data| && p.rest == data[|data| - |p.rest|..]
            && Encodable(p.pair)
  {
  }
}
