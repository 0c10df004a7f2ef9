/** The keep-aliver: pools of clients by address, clients that are retired when they were used too
    often, and the sweep that closes retired clients. */
module KeepAlive {
  import opened Wrappers
  import opened Pools

  // ---- Choosing a client ----

  /** The outcome of get on a pool: the client, those retired on the way, and what is left. */
  datatype Pick<T> = Pick(client: T, retired: seq<T>, left: seq<T>, next: nat)

  /** over are the clients that have reached the use limit. */
  function Choose<T>(s: seq<T>, next: nat, over: set<T>): Pick<T>
    requires |s| > 0
    decreases |s|
  {
    var i := Slot(next, |s|);
    if |s| >= 2 && s[i] in over then
      WithoutPresent(s, s[i]);
      var p := Choose(Without(s, s[i]), i, over);
      p.(retired := [s[i]] + p.retired)
    else Pick(s[i], [], s, i)
  }

  lemma {:induction false} WithoutPresent<T>(s: seq<T>, c: T)
    requires c in s
    ensures |Without(s, c)| == |s| - 1
  {
    if s[0] != c { WithoutPresent(s[1..], c); }
  }

  lemma WithoutKeeps<T>(s: seq<T>, c: T)
    ensures forall d :: d in Without(s, c) ==> d in s
  {
    WithoutCounts(s, c);
    forall d | d in Without(s, c) ensures d in s { assert d in multiset(Without(s, c)); }
  }

  /** Never the last client: one is left, and it is in the pool.  Only clients over the limit are
      retired, and what is retired and what is left make up the pool. */
  lemma {:induction false} ChooseIsSound<T>(s: seq<T>, next: nat, over: set<T>)
    requires |s| > 0
    ensures var p := Choose(s, next, over);
            && p.next < |p.left| && p.client == p.left[p.next]
            && multiset(p.left) + multiset(p.retired) == multiset(s)
            && (forall c :: c in p.retired ==> c in over)
    decreases |s|
  {
    var i := Slot(next, |s|);
    if |s| >= 2 && s[i] in over {
      var r := Without(s, s[i]);
      WithoutPresent(s, s[i]);
      ChooseIsSound(r, i, over);
      var p := Choose(r, i, over);
      RetiredFirst(s, s[i], p.left, p.retired);
    } else {
      assert multiset(Choose(s, next, over).retired) == multiset{};
    }
  }

  lemma RetiredFirst<T>(s: seq<T>, c: T, left: seq<T>, retired: seq<T>)
    requires c in s && multiset(left) + multiset(retired) == multiset(Without(s, c))
    ensures multiset(left) + multiset([c] + retired) == multiset(s)
  {
    WithoutCounts(s, c);
    assert multiset([c] + retired) == multiset{c} + multiset(retired);
    assert c in multiset(s);
    assert multiset(s) - multiset{c} + multiset{c} == multiset(s);
  }

  /** The client returned is under the limit, unless no client is: then it is the only one left. */
  lemma {:induction false} ChooseIsUnder<T>(s: seq<T>, next: nat, over: set<T>)
    requires |s| > 0
    ensures var p := Choose(s, next, over);
            && (p.client in over <==> forall c :: c in s ==> c in over)
            && (p.client in over ==> |p.left| == 1)
    decreases |s|
  {
    var i := Slot(next, |s|);
    if |s| >= 2 && s[i] in over {
      WithoutPresent(s, s[i]);
      WithoutKeeps(s, s[i]);
      WithoutLeaves(s, s[i]);
      ChooseIsUnder(Without(s, s[i]), i, over);
    } else {
      assert s[i] in s;
      assert |s| == 1 ==> forall c :: c in s ==> c == s[0];
    }
  }

  lemma WithoutLeaves<T>(s: seq<T>, c: T)
    ensures forall d :: d in s && d != c ==> d in Without(s, c)
  {
    WithoutCounts(s, c);
    forall d | d in s && d != c ensures d in Without(s, c) { assert d in multiset(s) - multiset{c}; }
  }

  /** dying after the clients in cs, one after the other, were retired; busy are those with references. */
  function Stored<T>(dying: map<T, int>, cs: seq<T>, busy: set<T>): map<T, int>
    decreases cs
  {
    if cs == [] then dying else Stored(if cs[0] in busy then dying[cs[0] := 1] else dying, cs[1..], busy)
  }

  /** Every retired client with references is in dying, at its first check; nothing else changes. */
  lemma {:induction false} StoredIs<T>(dying: map<T, int>, cs: seq<T>, busy: set<T>)
    ensures var d := Stored(dying, cs, busy);
            && (forall c :: c in cs && c in busy ==> c in d && d[c] == 1)
            && (forall c :: c !in cs || c !in busy ==> (c in d <==> c in dying) && (c in d ==> d[c] == dying[c]))
    decreases cs
  {
    if cs != [] {
      var before := if cs[0] in busy then dying[cs[0] := 1] else dying;
      StoredIs(before, cs[1..], busy);
      assert cs == [cs[0]] + cs[1..];
    }
  }

  /** What get looks at and changes: a pool, dying, and which clients are closed. */
  datatype Shelf<T> = Shelf(clients: seq<T>, next: nat, dying: map<T, int>, closed: set<T>)

  /** A client is deleted from its pool and gracefully closed. */
  function Retired<T>(h: Shelf<T>, c: T, busy: set<T>): Shelf<T> {
    Shelf(Without(h.clients, c), h.next,
          if c in busy then h.dying[c := 1] else h.dying, if c in busy then h.closed else h.closed + {c})
  }

  /** The loop of get. */
  function Loop<T>(h: Shelf<T>, over: set<T>, busy: set<T>): Shelf<T>
    decreases |h.clients|
  {
    if h.clients == [] then h
    else
      var i := Slot(h.next, |h.clients|);
      var c := h.clients[i];
      if |h.clients| >= 2 && c in over then
        WithoutPresent(h.clients, c);
        Loop(Retired(h.(next := i), c, busy), over, busy)
      else h.(next := i)
  }

  /** All that the loop does. */
  lemma {:induction false} LoopIsChoose<T>(h: Shelf<T>, over: set<T>, busy: set<T>)
    requires h.clients != []
    ensures var p := Choose(h.clients, h.next, over);
            && Loop(h, over, busy).clients == p.left && Loop(h, over, busy).next == p.next
            && Loop(h, over, busy).dying == Stored(h.dying, p.retired, busy)
            && Loop(h, over, busy).closed == h.closed + (set c | c in p.retired && c !in busy)
    decreases |h.clients|
  {
    var i := Slot(h.next, |h.clients|);
    var c := h.clients[i];
    if |h.clients| >= 2 && c in over {
      WithoutPresent(h.clients, c);
      LoopIsChoose(Retired(h.(next := i), c, busy), over, busy);
    }
  }

  /** How often c was retired. */
  function Gone<T>(h: Shelf<T>, h': Shelf<T>, c: T): int {
    multiset(h.clients)[c] as int - multiset(h'.clients)[c] as int
  }

  /** What was retired was over, and is in dying at its first check or closed; whatever was not is as it
      was.  The client that is returned is over only if all were, and then it is the only one left. */
  lemma LoopRetiresOver<T>(h: Shelf<T>, over: set<T>, busy: set<T>)
    requires h.clients != []
    ensures var h' := Loop(h, over, busy);
            && h'.next < |h'.clients|
            && (h'.clients[h'.next] in over <==> forall c :: c in h.clients ==> c in over)
            && (h'.clients[h'.next] in over ==> |h'.clients| == 1)
            && (forall c :: if Gone(h, h', c) > 0 then c in over && Laid(h, h', c, busy) else Left(h, h', c))
  {
    LoopIsChoose(h, over, busy);
    ChooseIsSound(h.clients, h.next, over);
    ChooseIsUnder(h.clients, h.next, over);
    var p, h' := Choose(h.clients, h.next, over), Loop(h, over, busy);
    StoredIs(h.dying, p.retired, busy);
    forall c ensures if Gone(h, h', c) > 0 then c in over && Laid(h, h', c, busy) else Left(h, h', c) {
      assert Gone(h, h', c) == multiset(p.retired)[c];
      assert c in multiset(p.retired) <==> c in p.retired;
    }
  }

  predicate Laid<T>(h: Shelf<T>, h': Shelf<T>, c: T, busy: set<T>) {
    if c in busy then c in h'.dying && h'.dying[c] == 1 && (c in h'.closed <==> c in h.closed)
    else c in h'.closed && Same(h, h', c)
  }

  predicate Left<T>(h: Shelf<T>, h': Shelf<T>, c: T) {
    Gone(h, h', c) == 0 && Same(h, h', c) && (c in h'.closed <==> c in h.closed)
  }

  predicate Same<T>(h: Shelf<T>, h': Shelf<T>, c: T) {
    (c in h'.dying <==> c in h.dying) && (c in h.dying ==> h'.dying[c] == h.dying[c])
  }

  /** Without a limit nothing is retired. */
  lemma LoopWithoutLimit<T>(h: Shelf<T>, busy: set<T>)
    requires h.clients != []
    ensures Loop(h, {}, busy) == h.(next := (h.next + 1) % |h.clients|)
  {
  }

  // ---- The heartbeat ----

  /** The clients whose heartbeat failed. */
  function Broken<T>(s: seq<T>, failed: seq<bool>): seq<T>
    requires |failed| == |s|
  {
    if s == [] then [] else (if failed[0] then [s[0]] else []) + Broken(s[1..], failed[1..])
  }

  function Sound<T>(s: seq<T>, failed: seq<bool>): seq<T>
    requires |failed| == |s|
  {
    if s == [] then [] else (if failed[0] then [] else [s[0]]) + Sound(s[1..], failed[1..])
  }

  lemma {:induction false} BrokenStep<T>(s: seq<T>, failed: seq<bool>, i: nat)
    requires |failed| == |s| && i < |s|
    ensures Broken(s[..i + 1], failed[..i + 1]) == Broken(s[..i], failed[..i]) + if failed[i] then [s[i]] else []
  {
    if i > 0 {
      BrokenStep(s[1..], failed[1..], i - 1);
      assert s[..i + 1][1..] == s[1..][..i] && failed[..i + 1][1..] == failed[1..][..i];
      assert s[..i][1..] == s[1..][..i - 1] && failed[..i][1..] == failed[1..][..i - 1];
    } else {
      assert s[..1] == [s[0]] && failed[..1] == [failed[0]] && s[..1][1..] == [];
    }
  }

  lemma {:induction false} BrokenAre<T>(s: seq<T>, failed: seq<bool>)
    requires |failed| == |s|
    ensures forall c :: c in Broken(s, failed) <==> exists i: nat :: i < |s| && s[i] == c && failed[i]
  {
    if s != [] {
      BrokenAre(s[1..], failed[1..]);
      forall c, i: nat | i < |s| && s[i] == c && failed[i] ensures c in Broken(s, failed) {
        if i > 0 { assert s[1..][i - 1] == c && failed[1..][i - 1]; }
      }
    }
  }

  /** In a pool without repetitions, what a heartbeat leaves are the clients that answered, in order. */
  lemma {:induction false} HeartbeatLeavesSound<T>(s: seq<T>, failed: seq<bool>)
    requires |failed| == |s| && forall i, j :: 0 <= i < j < |s| ==> s[i] != s[j]
    ensures WithoutAll(s, Broken(s, failed)) == Sound(s, failed)
  {
    if s != [] {
      HeartbeatLeavesSound(s[1..], failed[1..]);
      BrokenAre(s[1..], failed[1..]);
      if failed[0] {
        assert Broken(s, failed)[1..] == Broken(s[1..], failed[1..]);
      } else {
        assert s == [s[0]] + s[1..] && Broken(s, failed) == Broken(s[1..], failed[1..]);
        WithoutAllBehind(s[0], s[1..], Broken(s[1..], failed[1..]));
      }
    }
  }

  lemma {:induction false} WithoutAllBehind<T>(c: T, s: seq<T>, cs: seq<T>)
    requires c !in cs
    ensures WithoutAll([c] + s, cs) == [c] + WithoutAll(s, cs)
    decreases cs
  {
    if cs != [] {
      assert ([c] + s)[1..] == s;
      WithoutAllBehind(c, Without(s, cs[0]), cs[1..]);
    }
  }

  // ---- The way of a dying client ----

  datatype Condition = Condition(checks: int, closed: bool, closings: nat)

  function Closing(d: Condition): Condition {
    d.(closed := true, closings := if d.closed then d.closings else d.closings + 1)
  }

  /** What one sweep does to a client in dying that has refs references. */
  function SweepOne(d: Condition, refs: int, max: int): Condition {
    if d.checks >= max || refs <= 0 then Closing(d) else d.(checks := d.checks + 1)
  }

  /** What GracefullyClose does to a client in dying. */
  function RetireOne(d: Condition, refs: int): Condition {
    if refs > 0 then d.(checks := 1) else Closing(d)
  }

  /** What may happen to a dying client, in any order, with any number of references each time. */
  datatype Event = Sweeping(refs: int) | Retiring(refs: int) | Called

  function After(events: seq<Event>, max: int): Condition {
    if events == [] then Condition(1, false, 0)
    else
      var d, e := After(events[..|events| - 1], max), events[|events| - 1];
      match e
      case Sweeping(refs) => SweepOne(d, refs, max)
      case Retiring(refs) => RetireOne(d, refs)
      case Called => Closing(d)
  }

  /** One more than the sweeps since the client was last put into dying. */
  function Age(events: seq<Event>): (n: nat)
    ensures n >= 1
  {
    if events == [] then 1
    else
      var n := Age(events[..|events| - 1]);
      match events[|events| - 1]
      case Sweeping(_) => n + 1
      case Retiring(_) => 1
      case Called => n
  }

  /** The moments that close: a call, no references, or a sweep that comes late enough. */
  predicate ClosesAt(events: seq<Event>, i: nat, max: int)
    requires i < |events|
  {
    match events[i]
    case Sweeping(refs) => refs <= 0 || Age(events[..i]) >= max
    case Retiring(refs) => refs <= 0
    case Called => true
  }

  /** A dying client is closed exactly when such a moment has come; until then each sweep counted; and
      Close took effect once, however often it was called. */
  lemma {:induction false} ClosedExactlyWhen(events: seq<Event>, max: int)
    ensures var d := After(events, max);
            && (d.closed <==> exists i: nat :: i < |events| && ClosesAt(events, i, max))
            && (!d.closed ==> d.checks == Age(events))
            && d.closings == if d.closed then 1 else 0
  {
    if events != [] {
      var n := |events| - 1;
      var before := events[..n];
      ClosedExactlyWhen(before, max);
      forall i: nat | i < n ensures ClosesAt(before, i, max) <==> ClosesAt(events, i, max) {
        assert before[..i] == events[..i] && before[i] == events[i];
      }
      if After(before, max).closed {
        var i: nat :| i < n && ClosesAt(before, i, max);
        assert ClosesAt(events, i, max);
      } else {
        assert After(events, max).closed <==> ClosesAt(events, n, max);
      }
    }
  }

  function Sweeps(events: seq<Event>): nat {
    if events == [] then 0
    else Sweeps(events[..|events| - 1]) + if events[|events| - 1].Sweeping? then 1 else 0
  }

  /** Bounded: once it was last retired, a client survives fewer than max(1, max) sweeps, whatever its
      references do. */
  lemma ClosedInTime(events: seq<Event>, since: nat, max: int)
    requires since <= |events| && forall i :: since <= i < |events| ==> !events[i].Retiring?
    requires Sweeps(events[since..]) >= (if max < 1 then 1 else max)
    ensures After(events, max).closed
  {
    ClosedExactlyWhen(events, max);
    var i := LastSweep(events, since, max);
    assert ClosesAt(events, i, max);
  }

  lemma {:induction false} LastSweep(events: seq<Event>, since: nat, max: int) returns (i: nat)
    requires since <= |events| && forall i :: since <= i < |events| ==> !events[i].Retiring?
    requires Sweeps(events[since..]) >= (if max < 1 then 1 else max)
    ensures since <= i < |events| && events[i].Sweeping? && Age(events[..i]) >= max
    decreases |events|
  {
    assert events[since..] != [];
    var n := |events| - 1;
    assert events[since..][..|events[since..]| - 1] == events[..n][since..];
    if events[n].Sweeping? {
      i := n;
      AgeGrows(events[..n], since);
    } else {
      i := LastSweep(events[..n], since, max);
      assert events[..n][..i] == events[..i];
    }
  }

  lemma {:induction false} AgeGrows(events: seq<Event>, since: nat)
    requires since <= |events| && forall i :: since <= i < |events| ==> !events[i].Retiring?
    ensures Age(events) >= 1 + Sweeps(events[since..])
  {
    if since < |events| {
      var n := |events| - 1;
      assert events[since..][..|events[since..]| - 1] == events[..n][since..];
      AgeGrows(events[..n], since);
    }
  }

  // ---- The keep-aliver ----

  class KeepAliver {
    const maxUsed: int
    const minInPool: int
    const maxChecks: int
    var raw: map<string, Pool>
    var tls: map<string, Pool>
    var dying: map<Client, int>

    constructor (maxUsed: int, minInPool: int, maxChecks: int)
      ensures Distinct() && raw == map[] && tls == map[] && dying == map[]
      ensures this.maxUsed == maxUsed && this.minInPool == minInPool
      ensures this.maxChecks == if maxChecks == 0 then 15 else maxChecks
    {
      this.maxUsed, this.minInPool := maxUsed, minInPool;
      this.maxChecks := if maxChecks == 0 then 15 else maxChecks;
      raw, tls, dying := map[], map[], map[];
    }

    /** The pools, as what PoolMap answers. */
    function Map(secure: bool): map<string, Pool> reads this { if secure then tls else raw }

    /** No two addresses share a pool. */
    ghost predicate Distinct() reads this {
      && (forall a, b :: a in raw && b in raw && a != b ==> raw[a] != raw[b])
      && (forall a, b :: a in tls && b in tls && a != b ==> tls[a] != tls[b])
      && (forall a, b :: a in raw && b in tls ==> raw[a] != tls[b])
    }

    predicate Over(c: Client) reads c { maxUsed > 0 && c.used >= maxUsed }

    ghost function OverIn(s: seq<Client>): set<Client>
      reads s
    {
      set c | c in s && Over(c)
    }

    ghost function BusyIn(s: seq<Client>): set<Client>
      reads s
    {
      set c | c in s && c.refs > 0
    }

    ghost function ConditionOf(c: Client): Condition
      reads this, c
      requires c in dying
    {
      Condition(dying[c], c.closed, c.closings)
    }

    // ---- Retiring and sweeping ----

    method GracefullyClose(client: Client)
      requires client.Valid()
      modifies this`dying, client`closed, client`closings
      ensures client.Valid()
      ensures dying == if client.refs > 0 then old(dying)[client := 1] else old(dying)
      ensures client.closed == (old(client.closed) || client.refs <= 0)
      ensures client in old(dying) ==> ConditionOf(client) == RetireOne(old(ConditionOf(client)), client.refs)
      ensures client !in old(dying) && client.refs > 0 && !client.closed ==> ConditionOf(client) == After([], maxChecks)
    {
      if client.refs > 0 {
        dying := dying[client := 1];
      } else {
        var _ := client.Close();
      }
    }

    /** One round of doCleanup, in whatever order dying is visited. */
    method Sweep()
      requires forall c :: c in dying ==> c.Valid()
      modifies this`dying, dying.Keys`closed, dying.Keys`closings
      ensures dying.Keys == old(dying).Keys
      ensures forall c :: c in dying ==> ConditionOf(c) == SweepOne(old(ConditionOf(c)), c.refs, maxChecks)
      ensures forall c :: c in dying ==> c.Valid()
    {
      var todo := dying.Keys;
      while todo != {}
        invariant todo <= dying.Keys == old(dying).Keys
        invariant forall c :: c in dying ==> c.Valid()
        invariant forall c :: c in todo ==> ConditionOf(c) == old(ConditionOf(c))
        invariant forall c :: c in dying && c !in todo
                    ==> ConditionOf(c) == SweepOne(old(ConditionOf(c)), c.refs, maxChecks)
        decreases todo
      {
        var client :| client in todo;
        CheckDying(client);
        todo := todo - {client};
      }
    }

    method CheckDying(client: Client)
      requires client in dying && client.Valid()
      modifies this`dying, client`closed, client`closings
      ensures dying.Keys == old(dying).Keys && forall c :: c in dying && c != client ==> dying[c] == old(dying)[c]
      ensures ConditionOf(client) == SweepOne(old(ConditionOf(client)), client.refs, maxChecks) && client.Valid()
    {
      if dying[client] >= maxChecks {
        var _ := client.Close();
      } else if client.refs > 0 {
        dying := dying[client := dying[client] + 1];
      } else {
        var _ := client.Close();
      }
    }

    /** The heartbeat of one pool: the clients that failed theirs leave the pool and are closed. */
    method CheckPool(p: Pool, failed: seq<bool>, ghost known: set<Client>)
      requires |failed| == |p.clients| && forall c :: c in p.clients ==> c in known
      requires forall c :: c in known ==> c.Valid()
      modifies p`clients, known`closed, known`closings
      ensures p.clients == WithoutAll(old(p.clients), Broken(old(p.clients), failed))
      ensures forall c :: c in known ==> c.Valid() && c.closed == (old(c.closed) || c in Broken(old(p.clients), failed))
    {
      ghost var all := p.clients;
      var brokens := Gather(p, failed);
      BrokenAre(all, failed);
      p.DeleteClients(brokens);
      CloseAll(brokens, known);
    }

    method Gather(p: Pool, failed: seq<bool>) returns (brokens: seq<Client>)
      requires |failed| == |p.clients|
      ensures brokens == Broken(p.clients, failed)
    {
      var clients := p.CopyClients();
      brokens := [];
      for i := 0 to |clients|
        invariant brokens == Broken(clients[..i], failed[..i])
      {
        BrokenStep(clients, failed, i);
        if failed[i] { brokens := brokens + [clients[i]]; }
      }
      assert clients[..|clients|] == clients && failed[..|clients|] == failed;
    }

    method CloseAll(clients: seq<Client>, ghost known: set<Client>)
      requires forall c :: c in clients ==> c in known
      requires forall c :: c in known ==> c.Valid()
      modifies known`closed, known`closings
      ensures forall c :: c in known ==> c.Valid() && c.closed == (old(c.closed) || c in clients)
    {
      for i := 0 to |clients|
        invariant forall c :: c in known ==> c.Valid()
        invariant forall c :: c in known ==> c.closed == (old(c.closed) || c in clients[..i])
      {
        assert clients[..i + 1] == clients[..i] + [clients[i]] && clients[i] in clients;
        var _ := clients[i].Close();
      }
      assert clients[..|clients|] == clients;
    }

    // ---- Get, Put, Del ----

    /** The pool of an address, if there is one. */
    ghost function At(secure: bool, addr: string): set<Pool> reads this {
      if addr in Map(secure) then {Map(secure)[addr]} else {}
    }

    ghost function ClientsAt(secure: bool, addr: string): set<Client>
      reads this, At(secure, addr)
    {
      set p, c | p in At(secure, addr) && c in p.clients :: c
    }

    /** true exactly when the pool has room for the client and the client is not used up; then it is in
        the pool once more.  A new pool holds the client whatever the answer. */
    method Put(secure: bool, force: bool, addr: string, client: Client) returns (ok: bool)
      modifies this`raw, this`tls, At(secure, addr)`clients
      ensures old(Distinct()) ==> Distinct()
      ensures Map(!secure) == old(Map(!secure))
      ensures addr in old(Map(secure)) ==>
                && Map(secure) == old(Map(secure))
                && var p := Map(secure)[addr];
                   var n := |old(p.clients)|;
                   && (ok <==> (maxUsed <= 0 || n < 2 || client.used < maxUsed)
                                && (force || (minInPool > 0 && n <= minInPool)))
                   && p.clients == if ok then old(p.clients) + [client] else old(p.clients)
      ensures addr !in old(Map(secure)) ==>
                && addr in Map(secure) && fresh(Map(secure)[addr])
                && Map(secure) == old(Map(secure))[addr := Map(secure)[addr]]
                && Map(secure)[addr].clients == [client] && (ok <==> force || minInPool > 0)
    {
      var p := new Pool();
      p.Push(client);
      var actual, loaded := LoadOrStore(secure, addr, p);
      var n := actual.Size();
      if n >= 2 && maxUsed > 0 && client.used >= maxUsed { return false; }
      n := actual.Size();
      if force || (minInPool > 0 && n <= minInPool) {
        if loaded { actual.Push(client); }
        return true;
      }
      return false;
    }

    /** What PoolMap does with no one else about. */
    method LoadOrStore(secure: bool, addr: string, p: Pool) returns (actual: Pool, loaded: bool)
      modifies this`raw, this`tls
      ensures loaded == (addr in old(Map(secure))) && Map(!secure) == old(Map(!secure))
      ensures loaded ==> Map(secure) == old(Map(secure)) && actual == Map(secure)[addr]
      ensures !loaded ==> Map(secure) == old(Map(secure))[addr := p] && actual == p
    {
      if addr in Map(secure) { return Map(secure)[addr], true; }
      if secure { tls := tls[addr := p]; } else { raw := raw[addr := p]; }
      return p, false;
    }

    method Del(secure: bool, addr: string, client: Client) returns (ok: bool)
      modifies At(secure, addr)`clients
      ensures ok == (addr in Map(secure))
      ensures ok ==> var p := Map(secure)[addr]; p.clients == Without(old(p.clients), client)
    {
      if addr !in Map(secure) { return false; }
      Map(secure)[addr].Delete(client);
      return true;
    }

    /** The client's retirement from its pool. */
    method Retire(secure: bool, addr: string, client: Client)
      requires addr in Map(secure) && client.Valid()
      modifies this`dying, At(secure, addr)`clients, client`closed, client`closings
      ensures var p := Map(secure)[addr]; p.clients == Without(old(p.clients), client)
      ensures dying == if client.refs > 0 then old(dying)[client := 1] else old(dying)
      ensures client.Valid() && client.closed == (old(client.closed) || client.refs <= 0)
    {
      var _ := Del(secure, addr, client);
      GracefullyClose(client);
    }

    ghost function View(p: Pool, known: set<Client>): Shelf<Client>
      reads this, p, known
    {
      Shelf(p.clients, p.next, dying, set c | c in known && c.closed)
    }

    /** Without a use limit, the next slot and nothing else; with one, clients that have reached it leave
        the pool, into dying when they have references and closed otherwise, and the one returned has not
        reached it, unless all have: then it is the last. */
    ghost predicate Limited(h: Shelf<Client>, h': Shelf<Client>, r: Client, known: set<Client>)
      reads known
    {
      if maxUsed <= 0 then
        h.clients != [] && r == h.clients[(h.next + 1) % |h.clients|] && h' == h.(next := (h.next + 1) % |h.clients|)
      else
        && (if forall c :: c in known ==> c.used >= maxUsed then h'.clients == [r] else r in known && r.used < maxUsed)
        && forall c :: c in known ==>
             if Gone(h, h', c) > 0 then c.used >= maxUsed && Laid(h, h', c, if c.refs > 0 then {c} else {})
             else Left(h, h', c)
    }

    /** Retires clients over the use limit until it meets one that is not, or the last. */
    method Get(secure: bool, addr: string) returns (r: Option<Client>)
      requires forall c :: c in ClientsAt(secure, addr) ==> c.Valid()
      modifies this`dying, At(secure, addr)`clients, At(secure, addr)`next
      modifies ClientsAt(secure, addr)`closed, ClientsAt(secure, addr)`closings
      ensures addr !in Map(secure) ==> r.None? && dying == old(dying)
      ensures addr in Map(secure) ==>
                var p := Map(secure)[addr];
                && View(p, old(ClientsAt(secure, addr))) ==
                   Loop(old(View(Map(secure)[addr], ClientsAt(secure, addr))),
                        old(OverIn(Map(secure)[addr].clients)), old(BusyIn(Map(secure)[addr].clients)))
                && (r.None? <==> old(p.clients) == [])
                && (r.Some? ==> p.next < |p.clients| && r.value == p.clients[p.next])
      ensures r.Some? ==>
                Limited(old(View(Map(secure)[addr], ClientsAt(secure, addr))),
                        View(Map(secure)[addr], old(ClientsAt(secure, addr))), r.value, old(ClientsAt(secure, addr)))
      ensures forall c :: c in old(ClientsAt(secure, addr)) ==> c.Valid()
    {
      if addr !in Map(secure) { return None; }
      var p := Map(secure)[addr];
      ghost var known := ClientsAt(secure, addr);
      assert forall c :: c in p.clients <==> c in known;
      r := GetFrom(secure, addr, p, known, OverIn(p.clients), BusyIn(p.clients));
      if r.Some? {
        LimitedLoop(old(View(p, known)), View(p, known), r.value, old(OverIn(p.clients)), old(BusyIn(p.clients)),
                    known);
      }
    }

    lemma LimitedLoop(h: Shelf<Client>, h': Shelf<Client>, r: Client, over: set<Client>, busy: set<Client>,
                      known: set<Client>)
      requires h.clients != [] && (forall c :: c in h.clients <==> c in known) && h' == Loop(h, over, busy)
      requires forall c :: c in over ==> c in known
      requires forall c :: c in known ==> (c in over <==> Over(c)) && (c in busy <==> c.refs > 0)
      requires h'.next < |h'.clients| && r == h'.clients[h'.next]
      ensures Limited(h, h', r, known)
    {
      LoopRetiresOver(h, over, busy);
      if maxUsed <= 0 {
        assert over == {};
        LoopWithoutLimit(h, busy);
      } else {
        ReturnedIs(h, h', r, over);
      }
    }

    lemma ReturnedIs(h: Shelf<Client>, h': Shelf<Client>, r: Client, over: set<Client>)
      requires h'.next < |h'.clients| && r == h'.clients[h'.next]
      requires forall c :: if Gone(h, h', c) > 0 then c in over else Gone(h, h', c) == 0
      ensures r in h.clients && (|h'.clients| == 1 ==> h'.clients == [r])
    {
      assert r in multiset(h'.clients);
      assert Gone(h, h', r) >= 0;
      assert r in multiset(h.clients);
    }

    /** The loop of get, on the pool it has found. */
    method GetFrom(secure: bool, addr: string, p: Pool, ghost known: set<Client>, ghost over: set<Client>,
                   ghost busy: set<Client>)
      returns (r: Option<Client>)
      requires addr in Map(secure) && Map(secure)[addr] == p && forall c :: c in p.clients ==> c in known
      requires forall c :: c in known ==> c.Valid() && (c in over <==> Over(c)) && (c in busy <==> c.refs > 0)
      modifies this`dying, p`clients, p`next, known`closed, known`closings
      ensures View(p, known) == Loop(old(View(p, known)), over, busy)
      ensures r.None? <==> old(p.clients) == []
      ensures r.Some? ==> p.next < |p.clients| && r.value == p.clients[p.next]
      ensures forall c :: c in known ==> c.Valid()
    {
      while true
        invariant forall c :: c in p.clients ==> c in known
        invariant forall c :: c in known ==> c.Valid()
        invariant p.clients == [] <==> old(p.clients) == []
        invariant Loop(View(p, known), over, busy) == Loop(old(View(p, known)), over, busy)
        decreases |p.clients|
      {
        ghost var s := p.clients;
        var again: bool;
        r, again := GetUnlessOver(secure, addr, p, known, busy);
        if !again { break; }
        WithoutPresent(s, r.value);
        WithoutKeeps(s, r.value);
      }
    }

    /** One round of the loop, and whether it goes on. */
    method GetUnlessOver(secure: bool, addr: string, p: Pool, ghost known: set<Client>, ghost busy: set<Client>)
      returns (r: Option<Client>, again: bool)
      requires addr in Map(secure) && Map(secure)[addr] == p && forall c :: c in p.clients ==> c in known
      requires forall c :: c in known ==> c.Valid() && (c in busy <==> c.refs > 0)
      modifies this`dying, p`clients, p`next, known`closed, known`closings
      ensures r.None? <==> old(p.clients) == []
      ensures r.None? ==> !again && View(p, known) == old(View(p, known))
      ensures r.Some? ==> p.next == Slot(old(p.next), |old(p.clients)|)
      ensures r.Some? ==>
                var h := old(View(p, known));
                var i := Slot(h.next, |h.clients|);
                && r.value == h.clients[i] && (again <==> |h.clients| >= 2 && Over(r.value))
                && View(p, known) == if again then Retired(h.(next := i), r.value, busy) else h.(next := i)
      ensures forall c :: c in known ==> c.Valid()
    {
      r := p.Get();
      if r.None? { return None, false; }
      var n := p.Size();
      again := n >= 2 && maxUsed > 0 && r.value.used >= maxUsed;
      if again { RetireIn(secure, addr, p, r.value, known, busy); }
    }

    /** Retire, as seen on the shelf. */
    method RetireIn(secure: bool, addr: string, p: Pool, c: Client, ghost known: set<Client>, ghost busy: set<Client>)
      requires addr in Map(secure) && Map(secure)[addr] == p && c in known
      requires forall d :: d in known ==> d.Valid() && (d in busy <==> d.refs > 0)
      modifies this`dying, p`clients, c`closed, c`closings
      ensures View(p, known) == Retired(old(View(p, known)), c, busy)
      ensures forall d :: d in known ==> d.Valid()
    {
      ghost var closed := set d | d in known && d.closed;
      Retire(secure, addr, c);
      assert (set d | d in known && d.closed) == if c in busy then closed else closed + {c};
    }
  }
}
