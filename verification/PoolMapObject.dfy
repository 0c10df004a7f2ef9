/** PoolMap as an object with no one else about: each method refines the same operation on a plain
    map, whatever promotions, expunging and copying it does on the way.  Interleavings are the matter
    of PoolMapMachine. */
module PoolMapObject {
  import opened Wrappers

  datatype Ptr<V> = Nil | Expunged | Live(value: V)

  function Ans<V>(p: Ptr<V>): Option<V> {
    if p.Live? then Some(p.value) else None
  }

  /** With no one else about every swap succeeds at once. */
  class Entry<V(!new)> {
    var p: Ptr<V>

    constructor (value: V)
      ensures p == Live(value)
    {
      p := Live(value);
    }

    method TryStore(value: V) returns (ok: bool)
      modifies this
      ensures ok <==> !old(p).Expunged?
      ensures p == if ok then Live(value) else old(p)
    {
      if p.Expunged? { return false; }
      p := Live(value);
      return true;
    }

    method UnexpungeLocked() returns (was: bool)
      modifies this
      ensures was <==> old(p).Expunged?
      ensures p == if was then Nil else old(p)
    {
      was := p.Expunged?;
      if was { p := Nil; }
    }

    method StoreLocked(value: V)
      modifies this
      ensures p == Live(value)
    {
      p := Live(value);
    }

    method TryLoadOrStore(value: V) returns (actual: V, loaded: bool, ok: bool)
      modifies this
      ensures ok <==> !old(p).Expunged?
      ensures loaded <==> old(p).Live?
      ensures actual == if loaded then old(p).value else value
      ensures p == if old(p).Nil? then Live(value) else old(p)
    {
      if p.Expunged? { return value, false, false; }
      if p.Live? { return p.value, true, true; }
      p := Live(value);
      return value, false, true;
    }

    method Delete() returns (had: bool)
      modifies this
      ensures had <==> old(p).Live?
      ensures p == if had then Nil else old(p)
    {
      had := p.Live?;
      if had { p := Nil; }
    }

    method TryExpungeLocked() returns (gone: bool)
      modifies this
      ensures gone <==> !old(p).Live?
      ensures p == if gone then Expunged else old(p)
    {
      gone := !p.Live?;
      if gone { p := Expunged; }
    }
  }

  class PoolMap<V(!new)> {
    var m: map<string, Entry<V>>
    var amended: bool
    var dirty: Option<map<string, Entry<V>>>
    var misses: nat

    /** A nil map reads as empty. */
    ghost function Dirty(): map<string, Entry<V>> reads this { if dirty.Some? then dirty.value else map[] }

    ghost function Entries(): set<Entry<V>> reads this { m.Values + Dirty().Values }

    /** An entry serves one key. */
    ghost predicate Apart() reads this {
      && (forall a, b :: a in m && b in m && m[a] == m[b] ==> a == b)
      && (forall a, b :: a in Dirty() && b in Dirty() && Dirty()[a] == Dirty()[b] ==> a == b)
      && (forall a, b :: a in m && b in Dirty() && m[a] == Dirty()[b] ==> a == b)
    }

    ghost predicate Valid()
      reads this, Entries()
    {
      && Apart()
      && (dirty.Some? <==> amended)
      && (dirty.None? ==> misses == 0 && forall k :: k in m ==> !m[k].p.Expunged?)
      && (dirty.Some? ==> forall k :: k in m ==> (m[k].p.Expunged? <==> k !in dirty.value))
      && (dirty.Some? ==> forall k :: k in m && k in dirty.value ==> dirty.value[k] == m[k])
      && (forall k :: k in Dirty() ==> !Dirty()[k].p.Expunged?)
    }

    /** The plain map's answer: look in m, else in dirty. */
    ghost function Look(k: string): Option<V>
      reads this, Entries()
    {
      if k in m then Ans(m[k].p) else if k in Dirty() then Ans(Dirty()[k].p) else None
    }

    constructor ()
      ensures Valid() && forall k :: Look(k) == None
    {
      m, amended, dirty, misses := map[], false, None, 0;
    }

    /** dirty becomes the read map. */
    method Promote()
      requires Valid() && dirty.Some?
      modifies this
      ensures Valid() && dirty.None? && m == old(Dirty()) && forall k :: Look(k) == old(Look(k))
      ensures misses == 0 && !amended
    {
      m, amended := dirty.value, false;
      dirty := None;
      misses := 0;
      assert m == old(Dirty()) && Dirty() == map[];
    }

    method MissLocked()
      requires Valid() && dirty.Some?
      modifies this
      ensures Valid() && forall k :: Look(k) == old(Look(k))
      ensures if old(misses) + 1 < |old(Dirty())| then
                misses == old(misses) + 1 && m == old(m) && amended == old(amended) && dirty == old(dirty)
              else
                misses == 0 && m == old(Dirty()) && !amended && dirty.None?
    {
      misses := misses + 1;
      assert Dirty() == old(Dirty());
      if misses < |dirty.value| { return; }
      Promote();
    }

    method Load(key: string) returns (r: Option<V>)
      requires Valid()
      modifies this
      ensures Valid() && r == old(Look(key)) && forall k :: Look(k) == old(Look(k))
    {
      var e: Option<Entry<V>> := if key in m then Some(m[key]) else None;
      if e.None? && amended {
        if key in dirty.value { e := Some(dirty.value[key]); }
        MissLocked();
      }
      return if e.Some? then Ans(e.value.p) else None;
    }

    /** Copies m into a new dirty map, without what is deleted. */
    method DirtyLocked()
      requires Valid() && dirty.None?
      modifies this`dirty, m.Values
      ensures dirty.Some? && m == old(m) && amended == old(amended)
      ensures forall k :: k in m ==> m[k].p == if old(m[k].p).Live? then old(m[k].p) else Expunged
      ensures forall k :: k in dirty.value <==> k in m && m[k].p.Live?
      ensures forall k :: k in dirty.value ==> dirty.value[k] == m[k]
    {
      dirty := Some(map[]);
      var todo := m.Keys;
      while todo != {}
        invariant todo <= m.Keys && dirty.Some?
        invariant forall k :: k in m ==> m[k].p == if old(m[k].p).Live? || k in todo then old(m[k].p) else Expunged
        invariant forall k :: k in dirty.value <==> k in m && k !in todo && m[k].p.Live?
        invariant forall k :: k in dirty.value ==> dirty.value[k] == m[k]
        decreases todo
      {
        var k :| k in todo;
        var gone := m[k].TryExpungeLocked();
        if !gone { dirty := Some(dirty.value[k := m[k]]); }
        todo := todo - {k};
      }
    }

    /** The first new key since the last promotion: dirty is made, and read marked incomplete. */
    method Amend()
      requires Valid() && dirty.None?
      modifies this, m.Values
      ensures Valid() && amended && m == old(m) && forall k :: Look(k) == old(Look(k))
      ensures forall k :: k in Dirty() ==> k in m
    {
      DirtyLocked();
      amended := true;
      assert Dirty() == dirty.value;
    }

    /** The key is in neither map: it goes into dirty. */
    method Insert(key: string, value: V)
      requires Valid() && key !in m && key !in Dirty()
      modifies this, m.Values
      ensures Valid() && forall k :: Look(k) == if k == key then Some(value) else old(Look(k))
    {
      if !amended { Amend(); }
      ghost var d := Dirty();
      var e := new Entry(value);
      dirty := Some(dirty.value[key := e]);
      assert Dirty() == d[key := e];
    }

    /** An entry of m that was expunged goes back into dirty, deleted. */
    method Relink(key: string)
      requires Valid() && key in m
      modifies this`dirty, m[key]
      ensures Valid() && m == old(m) && !m[key].p.Expunged? && forall k :: Look(k) == old(Look(k))
    {
      var was := m[key].UnexpungeLocked();
      if was {
        dirty := Some(dirty.value[key := m[key]]);
        assert Dirty() == old(Dirty())[key := m[key]];
      } else {
        assert Dirty() == old(Dirty());
      }
    }

    method Store(key: string, value: V)
      requires Valid()
      modifies this, Entries()
      ensures Valid() && forall k :: Look(k) == if k == key then Some(value) else old(Look(k))
    {
      if key in m {
        var ok := m[key].TryStore(value);
        if ok { return; }
        assert Valid() && forall k :: Look(k) == old(Look(k));
      }
      if key in m {
        Relink(key);
        m[key].StoreLocked(value);
      } else if dirty.Some? && key in dirty.value {
        dirty.value[key].StoreLocked(value);
      } else {
        Insert(key, value);
      }
    }

    method LoadOrStore(key: string, value: V) returns (actual: V, loaded: bool)
      requires Valid()
      modifies this, Entries()
      ensures Valid() && loaded == old(Look(key)).Some?
      ensures actual == if loaded then old(Look(key)).value else value
      ensures forall k :: Look(k) == if k == key && !loaded then Some(value) else old(Look(k))
    {
      var ok: bool;
      if key in m {
        actual, loaded, ok := m[key].TryLoadOrStore(value);
        if ok { return; }
        assert Valid() && forall k :: Look(k) == old(Look(k));
      }
      if key in m {
        actual, loaded := LoadOrStoreRead(key, value);
      } else if dirty.Some? && key in dirty.value {
        actual, loaded := LoadOrStoreDirty(key, value);
      } else {
        Insert(key, value);
        actual, loaded := value, false;
      }
    }

    method LoadOrStoreRead(key: string, value: V) returns (actual: V, loaded: bool)
      requires Valid() && key in m
      modifies this`dirty, m[key]
      ensures Valid() && loaded == old(Look(key)).Some?
      ensures actual == if loaded then old(Look(key)).value else value
      ensures forall k :: Look(k) == if k == key && !loaded then Some(value) else old(Look(k))
    {
      var ok: bool;
      Relink(key);
      assert Look(key) == Ans(m[key].p);
      actual, loaded, ok := m[key].TryLoadOrStore(value);
    }

    method LoadOrStoreDirty(key: string, value: V) returns (actual: V, loaded: bool)
      requires Valid() && key !in m && key in Dirty()
      modifies this, Dirty()[key]
      ensures Valid() && loaded == old(Look(key)).Some?
      ensures actual == if loaded then old(Look(key)).value else value
      ensures forall k :: Look(k) == if k == key && !loaded then Some(value) else old(Look(k))
    {
      var ok: bool;
      actual, loaded, ok := dirty.value[key].TryLoadOrStore(value);
      assert Dirty() == old(Dirty());
      MissLocked();
    }

    method Delete(key: string)
      requires Valid()
      modifies this, Entries()
      ensures Valid() && forall k :: Look(k) == if k == key then None else old(Look(k))
    {
      if key in m {
        var _ := m[key].Delete();
      } else if amended {
        dirty := Some(dirty.value - {key});
      }
    }

    /** f is called with each pair, in some order, until its call number limit answers false. */
    method Range(limit: nat) returns (pairs: map<string, V>)
      requires Valid() && limit > 0
      modifies this
      ensures Valid() && forall k :: Look(k) == old(Look(k))
      ensures |pairs| <= limit && forall k :: k in pairs ==> Look(k) == Some(pairs[k])
      ensures |pairs| < limit ==> forall k :: Look(k).Some? ==> k in pairs
    {
      if amended { Promote(); }
      assert forall k :: Look(k) == if k in m then Ans(m[k].p) else None;
      pairs := Visit(limit);
    }

    method Visit(limit: nat) returns (pairs: map<string, V>)
      requires limit > 0
      ensures |pairs| <= limit && forall k :: k in pairs ==> k in m && m[k].p == Live(pairs[k])
      ensures |pairs| < limit ==> forall k :: k in m && m[k].p.Live? ==> k in pairs
    {
      var todo := m.Keys;
      pairs := map[];
      while todo != {} && |pairs| < limit
        invariant todo <= m.Keys && |pairs| <= limit
        invariant forall k :: k in pairs ==> k !in todo && k in m && m[k].p == Live(pairs[k])
        invariant forall k :: k in m && k !in todo && m[k].p.Live? ==> k in pairs
        decreases todo
      {
        var k :| k in todo;
        if m[k].p.Live? { pairs := pairs[k := m[k].p.value]; }
        todo := todo - {k};
      }
    }
  }
}
