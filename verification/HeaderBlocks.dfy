/** The header block as a grammar over bytes, independent of how it is parsed: what Decode accepts, and
    why it fails on the rest. */
module HeaderBlocks {
  import opened Wrappers
  import opened Bytes
  import opened HeaderMap

  /** A big-endian number of four bytes at i. */
  function Number(d: Bytes, i: nat): nat
    requires i + 4 <= |d|
  {
    ((d[i] as int * 256 + d[i + 1]) * 256 + d[i + 2]) * 256 + d[i + 3]
  }

  predicate IsString(d: Bytes, s: Bytes) {
    |d| >= 4 && Number(d, 0) == |s| && d[4..] == s
  }

  /** The null length stands for an empty value. */
  predicate IsNull(d: Bytes) { d == [255, 255, 255, 255] }

  predicate IsValue(d: Bytes, v: Bytes) {
    if v == [] && IsNull(d) then true else |v| < 0xFFFF_FFFF && IsString(d, v)
  }

  /** d is the strings k and v, cut at i. */
  predicate IsPair(d: Bytes, i: nat, p: Pair) {
    i <= |d| && IsString(d[..i], p.key) && IsValue(d[i..], p.value)
  }

  /** d is the pairs ps, one after the other. */
  ghost predicate Block(d: Bytes, ps: seq<Pair>)
    decreases |ps|
  {
    if ps == [] then d == []
    else exists n: nat, i: nat :: n <= |d| && IsPair(d[..n], i, ps[0]) && Block(d[n..], ps[1..])
  }

  /** No string starts d. */
  ghost predicate NoString(d: Bytes) { forall i: nat, s :: i <= |d| ==> !IsString(d[..i], s) }

  ghost predicate NoValue(d: Bytes) { forall i: nat, v :: i <= |d| ==> !IsValue(d[..i], v) }

  /** Why no pair starts d: it has no key, or a key and then no value. */
  ghost predicate Fails(d: Bytes, e: DecodeError) {
    match e
    case KeyFailed => NoString(d)
    case ValueFailed => exists i: nat, k :: i <= |d| && IsString(d[..i], k) && NoValue(d[i..])
  }

  // ---- One string ----

  lemma StringParses(d: Bytes, i: nat, s: Bytes)
    requires i <= |d| && IsString(d[..i], s)
    ensures ParseString(d) == Ok((s, d[i..]))
  {
    assert Number(d[..i], 0) == Get32(d);
    assert d[..i][4..] == d[4..i];
  }

  lemma ParsedString(d: Bytes)
    requires ParseString(d).Ok?
    ensures var (s, t) := ParseString(d).value; IsString(d[..4 + |s|], s) && t == d[4 + |s|..]
  {
    var s := ParseString(d).value.0;
    assert Number(d[..4 + |s|], 0) == Get32(d);
    assert d[..4 + |s|][4..] == s;
  }

  lemma NoStringParses(d: Bytes)
    ensures ParseString(d).Err? <==> NoString(d)
  {
    if ParseString(d).Ok? {
      ParsedString(d);
      assert !NoString(d);
    } else {
      forall i: nat, s | i <= |d| ensures !IsString(d[..i], s) {
        if IsString(d[..i], s) { StringParses(d, i, s); }
      }
    }
  }

  // ---- One value ----

  lemma NullIs(d: Bytes)
    requires |d| >= 4
    ensures Get32(d) == 0xFFFF_FFFF <==> IsNull(d[..4])
  {
    assert d[..4] == [d[0], d[1], d[2], d[3]];
  }

  lemma ValueParses(d: Bytes, i: nat, v: Bytes)
    requires i <= |d| && IsValue(d[..i], v)
    ensures ParseValue(d) == Ok((v, d[i..]))
  {
    NullIs(d);
    if v == [] && IsNull(d[..i]) {
      assert i == 4;
    } else {
      StringParses(d, i, v);
      assert Get32(d) == |v|;
    }
  }

  lemma ParsedValue(d: Bytes) returns (i: nat)
    requires ParseValue(d).Ok?
    ensures var (v, t) := ParseValue(d).value; i <= |d| && IsValue(d[..i], v) && t == d[i..]
  {
    NullIs(d);
    i := 4;
    if Get32(d) != 0xFFFF_FFFF {
      assert Number(d[..4], 0) == Get32(d);
      if Get32(d) != 0 {
        ParsedString(d);
        i := 4 + |ParseString(d).value.0|;
      }
    }
  }

  lemma NoValueParses(d: Bytes)
    ensures ParseValue(d).Err? <==> NoValue(d)
  {
    if ParseValue(d).Ok? {
      var i := ParsedValue(d);
      assert IsValue(d[..i], ParseValue(d).value.0);
    } else {
      forall i: nat, v | i <= |d| ensures !IsValue(d[..i], v) {
        if IsValue(d[..i], v) { ValueParses(d, i, v); }
      }
    }
  }

  // ---- One pair ----

  lemma PairParses(d: Bytes, n: nat, i: nat, p: Pair)
    requires n <= |d| && IsPair(d[..n], i, p)
    ensures ParsePair(d) == Ok(Parsed(p, d[n..]))
  {
    assert d[..n][..i] == d[..i] && d[..n][i..] == d[i..][..n - i];
    StringParses(d, i, p.key);
    ValueParses(d[i..], n - i, p.value);
    assert d[i..][n - i..] == d[n..];
  }

  lemma ParsedIsPair(d: Bytes) returns (n: nat, i: nat)
    requires ParsePair(d).Ok?
    ensures var p := ParsePair(d).value; n <= |d| && IsPair(d[..n], i, p.pair) && p.rest == d[n..]
  {
    ParsedString(d);
    i := 4 + |ParseString(d).value.0|;
    var j := ParsedValue(d[i..]);
    n := i + j;
    assert d[..n][..i] == d[..i] && d[..n][i..] == d[i..][..j] && d[i..][j..] == d[n..];
  }

  /** A pair fails to parse with an error exactly when the grammar has that reason for it. */
  lemma FailsExactly(d: Bytes, e: DecodeError)
    ensures ParsePair(d) == Err(e) <==> Fails(d, e)
  {
    NoStringParses(d);
    if ParseString(d).Ok? {
      ParsedString(d);
      var (k, t) := ParseString(d).value;
      NoValueParses(t);
      assert IsString(d[..4 + |k|], k) && t == d[4 + |k|..];
      if e.ValueFailed? && Fails(d, e) {
        var i: nat, s :| i <= |d| && IsString(d[..i], s) && NoValue(d[i..]);
        StringParses(d, i, s);
      }
    }
  }

  // ---- The block ----

  /** A slice of a slice. */
  lemma Slices(d: Bytes, m: nat, n: nat)
    requires m <= n <= |d|
    ensures d[..n][..m] == d[..m] && d[..n][m..] == d[m..][..n - m] && d[m..][n - m..] == d[n..]
  {
  }

  lemma BlockFirst(d: Bytes, n: nat, ps: seq<Pair>) returns (m: nat, i: nat)
    requires n <= |d| && ps != [] && Block(d[..n], ps)
    ensures m <= n && IsPair(d[..m], i, ps[0]) && Block(d[m..][..n - m], ps[1..])
  {
    m, i :| m <= |d[..n]| && IsPair(d[..n][..m], i, ps[0]) && Block(d[..n][m..], ps[1..]);
    Slices(d, m, n);
  }

  lemma ParseNext(d: Bytes, p: Pair, rest: Bytes)
    requires d != [] && ParsePair(d) == Ok(Parsed(p, rest))
    ensures ParseAll(d) == ([p] + ParseAll(rest).0, ParseAll(rest).1)
  {
  }

  lemma {:induction false} BlockParses(d: Bytes, n: nat, ps: seq<Pair>)
    requires n <= |d| && Block(d[..n], ps)
    ensures ParseAll(d) == (ps + ParseAll(d[n..]).0, ParseAll(d[n..]).1)
    decreases |ps|
  {
    if ps == [] {
      assert d[n..] == d;
      assert ps + ParseAll(d).0 == ParseAll(d).0;
    } else {
      var m, i := BlockFirst(d, n, ps);
      PairParses(d, m, i, ps[0]);
      ParseNext(d, ps[0], d[m..]);
      BlockParses(d[m..], n - m, ps[1..]);
      Slices(d, m, n);
      Reassemble(ps, ParseAll(d[n..]).0);
    }
  }

  lemma Reassemble(ps: seq<Pair>, more: seq<Pair>)
    requires ps != []
    ensures [ps[0]] + (ps[1..] + more) == ps + more
  {
  }

  /** The parser of d stops at n, at the end or at the first failure. */
  predicate StopsAt(d: Bytes, n: nat) {
    match ParseAll(d).1
    case None => n == |d|
    case Some(e) => n < |d| && ParsePair(d[n..]) == Err(e)
  }

  lemma StopsNext(d: Bytes, p: Pair, m: nat, k: nat)
    requires m + k <= |d| && d != [] && ParsePair(d) == Ok(Parsed(p, d[m..])) && StopsAt(d[m..], k)
    ensures StopsAt(d, m + k)
  {
    ParseNext(d, p, d[m..]);
    Slices(d, m, m + k);
  }

  /** What was parsed up to there is a block. */
  lemma {:induction false} ParsedIsBlock(d: Bytes) returns (n: nat)
    ensures n <= |d| && StopsAt(d, n) && Block(d[..n], ParseAll(d).0)
    decreases |d|, 1
  {
    if d == [] {
      n := 0;
    } else if ParsePair(d).Err? {
      n := 0;
      assert d[0..] == d;
    } else {
      n := ParsedNext(d);
    }
  }

  lemma {:induction false} ParsedNext(d: Bytes) returns (n: nat)
    requires d != [] && ParsePair(d).Ok?
    ensures n <= |d| && StopsAt(d, n) && Block(d[..n], ParseAll(d).0)
    decreases |d|, 0
  {
    var p := ParsePair(d).value.pair;
    var m, i := ParsedIsPair(d);
    var k := ParsedIsBlock(d[m..]);
    n := m + k;
    StopsNext(d, p, m, k);
    ParseNext(d, p, d[m..]);
    BlockExtends(d, m, i, n, p, ParseAll(d[m..]).0);
  }

  lemma BlockExtends(d: Bytes, m: nat, i: nat, n: nat, p: Pair, ps: seq<Pair>)
    requires m <= n <= |d| && IsPair(d[..m], i, p) && Block(d[m..][..n - m], ps)
    ensures Block(d[..n], [p] + ps)
  {
    Slices(d, m, n);
    var all := [p] + ps;
    assert all[0] == p && all[1..] == ps;
    assert m <= |d[..n]| && IsPair(d[..n][..m], i, all[0]) && Block(d[..n][m..], all[1..]);
  }

  /** Decode accepts exactly the blocks: pairs of a key and a value, each with its length before it, or
      with the null length for the value. */
  lemma AcceptedExactly(d: Bytes, ps: seq<Pair>)
    ensures ParseAll(d) == (ps, None) <==> Block(d, ps)
  {
    assert d[..|d|] == d;
    if Block(d, ps) {
      BlockParses(d, |d|, ps);
      assert ParseAll(d[|d|..]) == ([], None) && ps + [] == ps;
    }
    if ParseAll(d) == (ps, None) {
      var n := ParsedIsBlock(d);
    }
  }

  /** It fails exactly on a block that something else follows, which has no key, or a key and no value. */
  lemma RefusedExactly(d: Bytes, ps: seq<Pair>, e: DecodeError)
    ensures ParseAll(d) == (ps, Some(e)) <==> exists n: nat :: n < |d| && Block(d[..n], ps) && Fails(d[n..], e)
  {
    if ParseAll(d) == (ps, Some(e)) {
      var n := ParsedIsBlock(d);
      FailsExactly(d[n..], e);
    }
    if n: nat :| n < |d| && Block(d[..n], ps) && Fails(d[n..], e) {
      FailsExactly(d[n..], e);
      BlockParses(d, n, ps);
      assert ps + [] == ps;
    }
  }

  /** A block whose header map holds a key with the null length. */
  lemma NullIsEmpty(m: Headers, k: Bytes)
    requires |k| < 0x1_0000_0000
    ensures Decode(m, EncodeString(k) + [255, 255, 255, 255]) == Decoded(None, Set(m, k, []))
  {
    var none: Bytes := [255, 255, 255, 255];
    var d := EncodeString(k) + none;
    ParseEncodedString(k, none);
    NullIs(none);
    assert none[..4] == none && none[4..] == [];
    assert ParsePair(d) == Ok(Parsed(Pair(k, []), []));
  }

  /** What Encode writes is a block of the pairs that Range visits. */
  lemma EncodeIsBlock(m: Headers)
    requires AllEncodable(Pairs(m))
    ensures Block(Encode(m), Pairs(m))
  {
    ParseEncodedPairs(Pairs(m));
    AcceptedExactly(Encode(m), Pairs(m));
  }

  // ---- The order of the pairs ----

  /** A name as bytes. */
  predicate Named(k: Bytes, name: string) {
    |k| == |name| && forall i :: 0 <= i < |k| ==> k[i] == name[i] as int
  }

  /** Where a key comes in a block. */
  function Rank(k: Bytes): nat {
    if Named(k, "service") then 0 else if Named(k, "host") then 1 else if Named(k, "content-type") then 2
    else if Named(k, "authorization") then 3 else 4
  }

  lemma NamesAre(k: Bytes)
    ensures k == SERVICE <==> Rank(k) == 0
    ensures k == HOST <==> Rank(k) == 1
    ensures k == CONTENT_TYPE <==> Rank(k) == 2
    ensures k == AUTHORIZATION <==> Rank(k) == 3
  {
  }

  /** The dedicated pairs of a block. */
  function Lead(m: Headers): seq<Pair> {
    Slot(SERVICE, m.service) + Slot(HOST, m.host) + Slot(CONTENT_TYPE, m.contentType)
    + Slot(AUTHORIZATION, m.authorization)
  }

  /** In the order of their ranks, no dedicated one twice. */
  ghost predicate Ordered(ps: seq<Pair>) {
    forall i, j :: 0 <= i < j < |ps| ==>
      Rank(ps[i].key) < Rank(ps[j].key) || Rank(ps[i].key) == Rank(ps[j].key) == 4
  }

  lemma OrderedAppend(a: seq<Pair>, b: seq<Pair>, n: nat)
    requires Ordered(a) && Ordered(b) && n <= 4
    requires (forall p :: p in a ==> Rank(p.key) < n) && (forall p :: p in b ==> Rank(p.key) >= n)
    ensures Ordered(a + b)
  {
    forall i, j | 0 <= i < j < |a + b|
      ensures var x, y := Rank((a + b)[i].key), Rank((a + b)[j].key); x < y || x == y == 4
    {
      if i < |a| <= j { assert a[i] in a && b[j - |a|] in b; }
    }
  }

  lemma SlotRank(k: Bytes, v: Bytes)
    ensures Ordered(Slot(k, v)) && forall p :: p in Slot(k, v) ==> p == Pair(k, v) && v != []
    ensures v != [] ==> Pair(k, v) in Slot(k, v)
  {
  }

  lemma RanksAre()
    ensures Rank(SERVICE) == 0 && Rank(HOST) == 1 && Rank(CONTENT_TYPE) == 2 && Rank(AUTHORIZATION) == 3
  {
    NamesAre(SERVICE);
    NamesAre(HOST);
    NamesAre(CONTENT_TYPE);
    NamesAre(AUTHORIZATION);
  }

  lemma LeadInOrder(m: Headers)
    ensures Ordered(Lead(m)) && forall p :: p in Lead(m) ==> Rank(p.key) < 4 && p.value != []
    ensures forall p :: p in Lead(m) <==>
              (p in Slot(SERVICE, m.service) || p in Slot(HOST, m.host) || p in Slot(CONTENT_TYPE, m.contentType)
               || p in Slot(AUTHORIZATION, m.authorization))
  {
    RanksAre();
    var a, b := Slot(SERVICE, m.service), Slot(HOST, m.host);
    var c, d := Slot(CONTENT_TYPE, m.contentType), Slot(AUTHORIZATION, m.authorization);
    SlotRank(SERVICE, m.service);
    SlotRank(HOST, m.host);
    SlotRank(CONTENT_TYPE, m.contentType);
    SlotRank(AUTHORIZATION, m.authorization);
    OrderedAppend(a, b, 1);
    OrderedAppend(a + b, c, 2);
    OrderedAppend(a + b + c, d, 3);
  }

  lemma LeadIsGet(m: Headers, p: Pair)
    ensures p in Lead(m) <==> Rank(p.key) < 4 && p.value != [] && p.value == Get(m, p.key)
  {
    LeadInOrder(m);
    NamesAre(p.key);
    SlotRank(SERVICE, m.service);
    SlotRank(HOST, m.host);
    SlotRank(CONTENT_TYPE, m.contentType);
    SlotRank(AUTHORIZATION, m.authorization);
  }

  /** In a block the dedicated keys that have a value come first, in the order service, host,
      content-type, authorization, each once with its value; the others follow in the order of kvs. */
  lemma PairsInOrder(m: Headers)
    requires Valid(m)
    ensures var n := |Pairs(m)| - |m.kvs|;
            n >= 0 && Pairs(m)[n..] == m.kvs && Ordered(Pairs(m))
            && forall p :: p in Pairs(m)[..n] <==> Rank(p.key) < 4 && p.value != [] && p.value == Get(m, p.key)
  {
    assert Pairs(m) == Lead(m) + m.kvs;
    LeadInOrder(m);
    forall i | 0 <= i < |m.kvs| ensures Rank(m.kvs[i].key) == 4 { NamesAre(m.kvs[i].key); }
    OrderedAppend(Lead(m), m.kvs, 4);
    assert Pairs(m)[..|Lead(m)|] == Lead(m);
    forall p ensures p in Lead(m) <==> Rank(p.key) < 4 && p.value != [] && p.value == Get(m, p.key) { LeadIsGet(m, p); }
  }
}
