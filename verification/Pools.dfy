/** A pool of client connections to one address: a rotating index over a list that shrinks and grows. */
module Pools {
  import opened Wrappers

  // ---- Values ----

  /** The list without the first occurrence of c. */
  function Without<T(==)>(s: seq<T>, c: T): (r: seq<T>)
    ensures |r| <= |s|
  {
    if s == [] then []
    else if s[0] == c then s[1..]
    else [s[0]] + Without(s[1..], c)
  }

  function WithoutAll<T(==)>(s: seq<T>, cs: seq<T>): seq<T>
    decreases cs
  {
    if cs == [] then s else WithoutAll(Without(s, cs[0]), cs[1..])
  }

  /** The slot that Get moves to. */
  function Slot(next: nat, n: nat): (r: nat)
    requires n > 0
    ensures r < n
  {
    (next + 1) % n
  }

  // ---- Clients ----

  /** What the pool and the keep-aliver use of a Client.  closings counts the times Close reached the
      connection. */
  class Client {
    var refs: int
    var used: int
    var closed: bool
    var closings: nat

    ghost predicate Valid() reads this {
      closings == if closed then 1 else 0
    }

    constructor ()
      ensures Valid() && !closed && refs == 0 && used == 0
    {
      refs, used, closed, closings := 0, 0, false, 0;
    }

    /** Only the first call reaches the connection; every later one is an error. */
    method Close() returns (ok: bool)
      requires Valid()
      modifies this`closed, this`closings
      ensures Valid() && closed && ok == !old(closed)
      ensures closings == 1
    {
      if closed { return false; }
      closed := true;
      closings := closings + 1;
      return true;
    }
  }

  // ---- Pools ----

  class Pool {
    var clients: seq<Client>
    var next: nat

    constructor ()
      ensures clients == [] && next == 0
    {
      clients, next := [], 0;
    }

    method Size() returns (n: nat)
      ensures n == |clients|
    {
      n := |clients|;
    }

    method CopyClients() returns (copy: seq<Client>)
      ensures copy == clients
    {
      copy := clients;
    }

    method Push(client: Client)
      modifies this`clients
      ensures clients == old(clients) + [client]
    {
      clients := clients + [client];
    }

    /** In range whatever was deleted since the last call; the index may be past the end. */
    method Get() returns (r: Option<Client>)
      modifies this`next
      ensures clients == [] ==> r == None && next == old(next)
      ensures clients != [] ==> next == Slot(old(next), |clients|) && r == Some(clients[next])
    {
      if |clients| == 0 { return None; }
      next := (next + 1) % |clients|;
      return Some(clients[next]);
    }

    method DeleteLocked(client: Client)
      modifies this`clients
      ensures clients == Without(old(clients), client)
    {
      var i := 0;
      while i < |clients|
        invariant 0 <= i <= |clients| && clients == old(clients)
        invariant client !in clients[..i]
      {
        if client == clients[i] {
          WithoutAt(clients, client, i);
          clients := clients[..i] + clients[i + 1..];
          return;
        }
        i := i + 1;
      }
      assert clients[..i] == clients;
      WithoutAbsent(clients, client);
    }

    method Delete(client: Client)
      modifies this`clients
      ensures clients == Without(old(clients), client)
    {
      DeleteLocked(client);
    }

    method DeleteClients(gone: seq<Client>)
      modifies this`clients
      ensures clients == WithoutAll(old(clients), gone)
    {
      for i := 0 to |gone|
        invariant WithoutAll(clients, gone[i..]) == WithoutAll(old(clients), gone)
      {
        assert gone[i..][1..] == gone[i + 1..];
        DeleteLocked(gone[i]);
      }
    }
  }

  // ---- Rotation ----

  /** What k Gets in a row return, from index next on an unchanged list. */
  function Row<T>(s: seq<T>, next: nat, k: nat): (r: seq<T>)
    requires |s| > 0
    ensures |r| == k
    decreases k
  {
    if k == 0 then [] else [s[Slot(next, |s|)]] + Row(s, Slot(next, |s|), k - 1)
  }

  /** At most n Gets in a row return a stretch of the list, wrapped round. */
  lemma {:induction false} RowIsStretch<T>(s: seq<T>, next: nat, k: nat)
    requires |s| > 0 && k <= |s|
    ensures var m := Slot(next, |s|); Row(s, next, k) == (s[m..] + s[..m])[..k]
    decreases k
  {
    if k > 0 {
      var m := Slot(next, |s|);
      RowIsStretch(s, m, k - 1);
      SlotWraps(m, |s|);
    }
  }

  lemma SlotWraps(m: nat, n: nat)
    requires m < n
    ensures Slot(m, n) == if m + 1 == n then 0 else m + 1
  {
  }

  /** n Gets on an unchanged pool of n return every slot exactly once. */
  lemma FullTurn<T>(s: seq<T>, next: nat)
    requires |s| > 0
    ensures multiset(Row(s, next, |s|)) == multiset(s)
  {
    var m := Slot(next, |s|);
    RowIsStretch(s, next, |s|);
    var t := s[m..] + s[..m];
    assert t[..|s|] == t;
    assert s == s[..m] + s[m..];
  }

  // ---- Deletion ----

  lemma {:induction false} WithoutAbsent<T>(s: seq<T>, c: T)
    requires c !in s
    ensures Without(s, c) == s
  {
    if s != [] { WithoutAbsent(s[1..], c); }
  }

  /** The first occurrence goes, and the others keep their order. */
  lemma {:induction false} WithoutAt<T>(s: seq<T>, c: T, i: nat)
    requires i < |s| && s[i] == c && c !in s[..i]
    ensures Without(s, c) == s[..i] + s[i + 1..]
  {
    if i > 0 {
      assert s[0] in s[..i];
      forall k | 0 <= k < i - 1 ensures s[1..][k] != c { assert s[k + 1] in s[..i]; }
      WithoutAt(s[1..], c, i - 1);
      assert [s[0]] + s[1..][..i - 1] == s[..i] && s[1..][i..] == s[i + 1..];
    }
  }

  /** One occurrence goes, when there is one, and nothing else. */
  lemma {:induction false} WithoutCounts<T>(s: seq<T>, c: T)
    ensures multiset(Without(s, c)) == multiset(s) - multiset{c}
  {
    if s != [] {
      assert s == [s[0]] + s[1..];
      assert multiset(s) == multiset{s[0]} + multiset(s[1..]);
      if s[0] != c {
        WithoutCounts(s[1..], c);
        assert multiset(Without(s, c)) == multiset{s[0]} + multiset(Without(s[1..], c));
      }
    }
  }

  lemma {:induction false} WithoutAllCounts<T>(s: seq<T>, cs: seq<T>)
    ensures multiset(WithoutAll(s, cs)) == multiset(s) - multiset(cs)
    decreases cs
  {
    if cs != [] {
      WithoutCounts(s, cs[0]);
      WithoutAllCounts(Without(s, cs[0]), cs[1..]);
      assert cs == [cs[0]] + cs[1..];
      TakeBoth(multiset(s), cs[0], multiset(cs[1..]));
    }
  }

  lemma TakeBoth<T>(m: multiset<T>, c: T, n: multiset<T>)
    ensures m - multiset{c} - n == m - (multiset{c} + n)
  {
  }
}
