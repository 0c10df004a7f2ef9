/** What the source's comment on entries says, "p is nil: deleted, and the dirty map is nil", and when
    it is so: a run on which it is not, and the exact condition. */
module PoolMapWitness {
  import opened Wrappers
  import opened PoolMapMachine
  import opened PoolMapProof
  import opened PoolMapTheorems

  /** The comment, for the entries of the current maps. */
  ghost predicate CommentHolds(sh: Shared) {
    && (forall k :: k in ReadMap(sh) && PtrAt(sh, ReadMap(sh)[k]) == Nil ==> sh.dirty.None?)
    && (forall k :: k in DirtyMap(sh) && PtrAt(sh, DirtyMap(sh)[k]) == Nil ==> sh.dirty.None?)
  }

  // ---- When it holds ----

  /** With the mutex free, what is true of a nil read entry: no dirty map, or dirty has it too. */
  lemma NilEntryIsShared(run: seq<State>, j: nat, k: Key)
    requires IsRun(run) && j < |run| && run[j].mu.None?
    requires k in ReadMap(run[j].sh) && PtrAt(run[j].sh, ReadMap(run[j].sh)[k]) == Nil
    ensures var sh := run[j].sh;
            sh.dirty.None? || (k in DirtyMap(sh) && DirtyMap(sh)[k] == ReadMap(sh)[k])
  {
    CacheAtRest(run, j);
  }

  /** k was deleted and not stored since, or was never stored. */
  predicate Gone(log: seq<Event>, k: Key) {
    if log == [] then true
    else if log[|log| - 1].key == k then log[|log| - 1].Remove?
    else Gone(log[..|log| - 1], k)
  }

  lemma {:induction false} GoneIsAbsent(log: seq<Event>, k: Key)
    ensures Gone(log, k) <==> k !in Replay(log)
  {
    if log != [] { GoneIsAbsent(log[..|log| - 1], k); }
  }

  /** With the mutex free the comment holds exactly when there is no dirty map, or no key of dirty has
      been deleted and not stored since. */
  lemma CommentExactly(run: seq<State>, j: nat)
    requires IsRun(run) && j < |run| && run[j].mu.None?
    ensures var sh := run[j].sh;
            CommentHolds(sh) <==> sh.dirty.None? || forall k :: k in DirtyMap(sh) ==> !Gone(sh.log, k)
  {
    var sh := run[j].sh;
    CacheAtRest(run, j);
    RunInv(run, j);
    if sh.dirty.Some? {
      forall k | k in DirtyMap(sh) ensures Gone(sh.log, k) <==> PtrAt(sh, DirtyMap(sh)[k]) == Nil {
        GoneIsAbsent(sh.log, k);
        assert Look(Replay(sh.log), k) == AbsGet(sh, k);
      }
    }
  }

  // ---- The calls of one thread with no one else about ----

  function Alone(sh: Shared, locked: bool, c: Call): State {
    State(sh, if locked then Some(0) else None, map[0 := c], c.id + 1)
  }

  lemma AloneNext(sh: Shared, locked: bool, c: Call, ch: Choice)
    requires var o := Step(sh, if locked then Some(0) else None, 0, c, ch);
             o.Stepped? && o.c.id == c.id && (o.mu.Some? ==> o.mu == Some(0))
    ensures var o := Step(sh, if locked then Some(0) else None, 0, c, ch);
            Next(Alone(sh, locked, c), Alone(o.sh, o.mu.Some?, o.c))
  {
    var s, o := Alone(sh, locked, c), Step(sh, if locked then Some(0) else None, 0, c, ch);
    assert s.calls[0 := o.c] == map[0 := o.c];
    assert Move(s, Alone(o.sh, o.mu.Some?, o.c), 0, ch);
  }

  lemma AloneBegins(sh: Shared, c: Call, op: Op)
    requires c.pc.Done?
    ensures Next(Alone(sh, false, c), Alone(sh, false, Call(c.id + 1, op, |sh.log|, None, Start)))
  {
    var s, d := Alone(sh, false, c), Call(c.id + 1, op, |sh.log|, None, Start);
    assert s.calls[0 := d] == map[0 := d];
    assert Begin(s, Alone(sh, false, d), 0, op);
  }

  function Made(sh: Shared): Shared {
    sh.(dirty := Some(sh.nextMap), maps := sh.maps[sh.nextMap := map[]], nextMap := sh.nextMap + 1)
  }

  function Copied(sh: Shared, k: Key): Shared {
    if sh.dirty.Some? && k in ReadMap(sh) then SetDirty(sh, DirtyMap(sh)[k := ReadMap(sh)[k]]) else sh
  }

  function Amended(sh: Shared): Shared { sh.(read := ReadOnly(sh.read.m, true)) }

  function Inserted(sh: Shared, c: Call): Shared {
    if sh.dirty.Some? && c.op.Store? then InsertEntry(sh, None, c, c.op.key, c.op.pool, Nothing).sh else sh
  }

  function Promoted(sh: Shared): Shared {
    if sh.dirty.None? then sh
    else
      sh.(read := ReadOnly(sh.dirty.value, false), published := sh.published + {sh.dirty.value},
          exposed := sh.exposed + DirtyMap(sh).Values)
  }

  function Cleared(sh: Shared): Shared { sh.(dirty := None, misses := 0) }

  function Removed(sh: Shared, c: Call, e: EntryId): Shared
    requires c.op.Delete?
  {
    Record(SetPtr(sh, e, Nil), UpdateEvent(c))
  }

  /** A Store of a fresh key that makes dirty, up to dirtyLocked. */
  function StoreEnters(sh: Shared, c: Call, i: nat): State {
    match i
    case 0 => Alone(sh, false, c.(pc := Start))
    case 1 => Alone(sh, false, c.(pc := Fast(sh.read)))
    case 2 => Alone(sh, false, c.(pc := WantLock))
    case 3 => Alone(sh, true, c.(pc := Locked))
    case 4 => Alone(sh, true, c.(pc := Slow(sh.read)))
    case 5 => Alone(sh, true, c.(pc := SlowDirty(sh.read)))
    case 6 => Alone(sh, true, c.(pc := MakeDirty(sh.read)))
    case _ => Alone(Made(sh), true, c.(pc := DirtyPick(sh.read, ReadMap(sh).Keys)))
  }

  lemma StoreEntersNext(sh: Shared, c: Call, i: nat)
    requires i < 7 && c.op.Store? && sh.dirty.None? && !sh.read.amended && c.op.key !in ReadMap(sh)
    ensures Next(StoreEnters(sh, c, i), StoreEnters(sh, c, i + 1))
  {
    var ch := Choice("", true);
    match i
    case 0 => AloneNext(sh, false, c.(pc := Start), ch);
    case 1 => AloneNext(sh, false, c.(pc := Fast(sh.read)), ch);
    case 2 => AloneNext(sh, false, c.(pc := WantLock), ch);
    case 3 => AloneNext(sh, true, c.(pc := Locked), ch);
    case 4 => AloneNext(sh, true, c.(pc := Slow(sh.read)), ch);
    case 5 => AloneNext(sh, true, c.(pc := SlowDirty(sh.read)), ch);
    case 6 => AloneNext(sh, true, c.(pc := MakeDirty(sh.read)), ch);
  }

  /** Copying the one entry of read, k, which is live. */
  function StoreCopies(sh: Shared, c: Call, r: ReadOnly, k: Key, i: nat): State {
    match i
    case 0 => Alone(sh, true, c.(pc := DirtyPick(r, {k})))
    case 1 => Alone(sh, true, c.(pc := DirtyLoad(r, {k}, k)))
    case 2 => Alone(sh, true, c.(pc := DirtyPut(r, {k}, k)))
    case _ => Alone(Copied(sh, k), true, c.(pc := DirtyPick(r, {})))
  }

  lemma StoreCopiesNext(sh: Shared, c: Call, r: ReadOnly, k: Key, i: nat)
    requires i < 3 && sh.dirty.Some? && k in ReadMap(sh) && PtrAt(sh, ReadMap(sh)[k]).Box?
    ensures Next(StoreCopies(sh, c, r, k, i), StoreCopies(sh, c, r, k, i + 1))
  {
    match i
    case 0 => AloneNext(sh, true, c.(pc := DirtyPick(r, {k})), Choice(k, true));
    case 1 => AloneNext(sh, true, c.(pc := DirtyLoad(r, {k}, k)), Choice(k, true));
    case 2 =>
      assert {k} - {k} == {};
      AloneNext(sh, true, c.(pc := DirtyPut(r, {k}, k)), Choice(k, true));
  }

  /** From the end of dirtyLocked to the end of the Store. */
  function StoreLeaves(sh: Shared, c: Call, i: nat): State {
    var amended := Amended(sh);
    var stored := c.(lin := Some(|sh.log|));
    match i
    case 0 => Alone(sh, true, c.(pc := DirtyPick(sh.read, {})))
    case 1 => Alone(sh, true, c.(pc := Amend(sh.read)))
    case 2 => Alone(amended, true, c.(pc := InsertNew))
    case 3 => Alone(Inserted(amended, c), true, stored.(pc := Unlock(Return(Nothing))))
    case _ => Alone(Inserted(amended, c), false, stored.(pc := Done(Nothing)))
  }

  lemma StoreLeavesNext(sh: Shared, c: Call, i: nat)
    requires i < 4 && c.op.Store? && sh.dirty.Some?
    ensures Next(StoreLeaves(sh, c, i), StoreLeaves(sh, c, i + 1))
  {
    var ch, amended, stored := Choice("", true), Amended(sh), c.(lin := Some(|sh.log|));
    match i
    case 0 => AloneNext(sh, true, c.(pc := DirtyPick(sh.read, {})), ch);
    case 1 => AloneNext(sh, true, c.(pc := Amend(sh.read)), ch);
    case 2 => AloneNext(amended, true, c.(pc := InsertNew), ch);
    case 3 => AloneNext(Inserted(amended, c), true, stored.(pc := Unlock(Return(Nothing))), ch);
  }

  /** A Range that promotes, up to its loop. */
  function RangeEnters(sh: Shared, c: Call, i: nat): State {
    match i
    case 0 => Alone(sh, false, c.(pc := Start))
    case 1 => Alone(sh, false, c.(pc := Fast(sh.read)))
    case 2 => Alone(sh, false, c.(pc := WantLock))
    case 3 => Alone(sh, true, c.(pc := Locked))
    case 4 => Alone(sh, true, c.(pc := Slow(sh.read)))
    case 5 => Alone(sh, true, c.(pc := Promote(Return(Nothing))))
    case 6 => Alone(Promoted(sh), true, c.(pc := Clear(Scan(Promoted(sh).read.m))))
    case _ => Alone(Cleared(Promoted(sh)), true, c.(pc := Unlock(Scan(Promoted(sh).read.m))))
  }

  lemma RangeEntersNext(sh: Shared, c: Call, i: nat)
    requires i < 7 && c.op.Range? && sh.read.amended && sh.dirty.Some?
    ensures Next(RangeEnters(sh, c, i), RangeEnters(sh, c, i + 1))
  {
    var ch, after := Choice("", true), Scan(Promoted(sh).read.m);
    match i
    case 0 => AloneNext(sh, false, c.(pc := Start), ch);
    case 1 => AloneNext(sh, false, c.(pc := Fast(sh.read)), ch);
    case 2 => AloneNext(sh, false, c.(pc := WantLock), ch);
    case 3 => AloneNext(sh, true, c.(pc := Locked), ch);
    case 4 => AloneNext(sh, true, c.(pc := Slow(sh.read)), ch);
    case 5 => AloneNext(sh, true, c.(pc := Promote(Return(Nothing))), ch);
    case 6 => AloneNext(Promoted(sh), true, c.(pc := Clear(after)), ch);
  }

  /** The loop of Range over one live entry, of key k. */
  function RangeVisits(sh: Shared, c: Call, k: Key, v: PoolId, i: nat): State {
    match i
    case 0 => Alone(sh, true, c.(pc := Unlock(Scan(sh.read.m))))
    case 1 => Alone(sh, false, c.(pc := Iterate(sh.read.m, {k}, map[])))
    case 2 => Alone(sh, false, c.(pc := Iterate(sh.read.m, {}, map[k := v])))
    case _ => Alone(sh, false, c.(pc := Done(Visited(map[k := v], true))))
  }

  lemma RangeVisitsNext(sh: Shared, c: Call, k: Key, v: PoolId, i: nat)
    requires i < 3 && MapAt(sh, sh.read.m).Keys == {k} && Ans(PtrAt(sh, MapAt(sh, sh.read.m)[k])) == Some(v)
    ensures Next(RangeVisits(sh, c, k, v, i), RangeVisits(sh, c, k, v, i + 1))
  {
    var m, ch := sh.read.m, Choice(k, true);
    match i
    case 0 => AloneNext(sh, true, c.(pc := Unlock(Scan(m))), ch);
    case 1 =>
      assert {k} - {k} == {} && k in MapAt(sh, m);
      AloneNext(sh, false, c.(pc := Iterate(m, {k}, map[])), ch);
    case 2 => AloneNext(sh, false, c.(pc := Iterate(m, {}, map[k := v])), ch);
  }

  /** A Delete of a key whose read entry e points to p. */
  function Deletes(sh: Shared, c: Call, e: EntryId, p: Ptr, i: nat): State
    requires c.op.Delete?
  {
    match i
    case 0 => Alone(sh, false, c.(pc := Start))
    case 1 => Alone(sh, false, c.(pc := Fast(sh.read)))
    case 2 => Alone(sh, false, c.(pc := TryEntry(e)))
    case 3 => Alone(sh, false, c.(pc := CasEntry(e, p)))
    case _ => Alone(Removed(sh, c, e), false, c.(lin := Some(|sh.log|), pc := Done(Nothing)))
  }

  lemma DeletesNext(sh: Shared, c: Call, e: EntryId, p: Ptr, i: nat)
    requires i < 4 && c.op.Delete? && c.op.key in ReadMap(sh) && ReadMap(sh)[c.op.key] == e && PtrAt(sh, e) == p
             && p.Box?
    ensures Next(Deletes(sh, c, e, p, i), Deletes(sh, c, e, p, i + 1))
  {
    var ch := Choice("", true);
    match i
    case 0 => AloneNext(sh, false, c.(pc := Start), ch);
    case 1 => AloneNext(sh, false, c.(pc := Fast(sh.read)), ch);
    case 2 => AloneNext(sh, false, c.(pc := TryEntry(e)), ch);
    case 3 => AloneNext(sh, false, c.(pc := CasEntry(e, p)), ch);
  }

  // ---- A run on which the comment fails ----

  ghost predicate Reached(s: State) {
    exists run :: IsRun(run) && run[|run| - 1] == s
  }

  lemma ReachNext(s: State, s': State)
    requires Reached(s) && Next(s, s')
    ensures Reached(s')
  {
    var run :| IsRun(run) && run[|run| - 1] == s;
    var more := run + [s'];
    forall i | 0 <= i < |more| - 1 ensures Next(more[i], more[i + 1]) {
      if i < |run| - 1 { assert Next(run[i], run[i + 1]); }
    }
    assert IsRun(more) && more[|more| - 1] == s';
  }

  lemma ReachDirty(sh: Shared, c: Call)
    requires c.op.Store? && sh.dirty.None? && !sh.read.amended && c.op.key !in ReadMap(sh) && c.pc == Start
    requires Reached(Alone(sh, false, c))
    ensures Reached(Alone(Made(sh), true, c.(pc := DirtyPick(sh.read, ReadMap(sh).Keys))))
  {
    var i := 0;
    assert c.(pc := Start) == c;
    while i < 7
      invariant i <= 7 && Reached(StoreEnters(sh, c, i))
    {
      StoreEntersNext(sh, c, i);
      ReachNext(StoreEnters(sh, c, i), StoreEnters(sh, c, i + 1));
      i := i + 1;
    }
  }

  lemma ReachCopied(sh: Shared, c: Call, r: ReadOnly, k: Key)
    requires sh.dirty.Some? && k in ReadMap(sh) && PtrAt(sh, ReadMap(sh)[k]).Box?
    requires Reached(Alone(sh, true, c.(pc := DirtyPick(r, {k}))))
    ensures Reached(Alone(Copied(sh, k), true, c.(pc := DirtyPick(r, {}))))
  {
    var i := 0;
    while i < 3
      invariant i <= 3 && Reached(StoreCopies(sh, c, r, k, i))
    {
      StoreCopiesNext(sh, c, r, k, i);
      ReachNext(StoreCopies(sh, c, r, k, i), StoreCopies(sh, c, r, k, i + 1));
      i := i + 1;
    }
  }

  lemma ReachStored(sh: Shared, c: Call)
    requires c.op.Store? && sh.dirty.Some? && Reached(Alone(sh, true, c.(pc := DirtyPick(sh.read, {}))))
    ensures Reached(Alone(Inserted(Amended(sh), c), false, c.(lin := Some(|sh.log|), pc := Done(Nothing))))
  {
    var i := 0;
    while i < 4
      invariant i <= 4 && Reached(StoreLeaves(sh, c, i))
    {
      StoreLeavesNext(sh, c, i);
      ReachNext(StoreLeaves(sh, c, i), StoreLeaves(sh, c, i + 1));
      i := i + 1;
    }
  }

  lemma ReachPromoted(sh: Shared, c: Call)
    requires c.op.Range? && sh.read.amended && sh.dirty.Some? && c.pc == Start && Reached(Alone(sh, false, c))
    ensures Reached(Alone(Cleared(Promoted(sh)), true, c.(pc := Unlock(Scan(Promoted(sh).read.m)))))
  {
    var i := 0;
    assert c.(pc := Start) == c;
    while i < 7
      invariant i <= 7 && Reached(RangeEnters(sh, c, i))
    {
      RangeEntersNext(sh, c, i);
      ReachNext(RangeEnters(sh, c, i), RangeEnters(sh, c, i + 1));
      i := i + 1;
    }
  }

  lemma ReachVisited(sh: Shared, c: Call, k: Key, v: PoolId)
    requires MapAt(sh, sh.read.m).Keys == {k} && Ans(PtrAt(sh, MapAt(sh, sh.read.m)[k])) == Some(v)
    requires Reached(Alone(sh, true, c.(pc := Unlock(Scan(sh.read.m)))))
    ensures Reached(Alone(sh, false, c.(pc := Done(Visited(map[k := v], true)))))
  {
    var i := 0;
    while i < 3
      invariant i <= 3 && Reached(RangeVisits(sh, c, k, v, i))
    {
      RangeVisitsNext(sh, c, k, v, i);
      ReachNext(RangeVisits(sh, c, k, v, i), RangeVisits(sh, c, k, v, i + 1));
      i := i + 1;
    }
  }

  lemma ReachDeleted(sh: Shared, c: Call, e: EntryId, p: Ptr)
    requires c.op.Delete? && c.op.key in ReadMap(sh) && ReadMap(sh)[c.op.key] == e && PtrAt(sh, e) == p && p.Box?
    requires c.pc == Start && Reached(Alone(sh, false, c))
    ensures Reached(Alone(Removed(sh, c, e), false, c.(lin := Some(|sh.log|), pc := Done(Nothing))))
  {
    var i := 0;
    assert c.(pc := Start) == c;
    while i < 4
      invariant i <= 4 && Reached(Deletes(sh, c, e, p, i))
    {
      DeletesNext(sh, c, e, p, i);
      ReachNext(Deletes(sh, c, e, p, i), Deletes(sh, c, e, p, i + 1));
      i := i + 1;
    }
  }

  const A: Key := "a"
  const B: Key := "b"

  /** The map after Store(A) only: A is in dirty. */
  predicate OnlyDirty(sh: Shared) {
    && sh.read.amended && sh.dirty.Some? && sh.read.m < sh.nextMap && sh.dirty.value < sh.nextMap
    && DirtyMap(sh) == map[A := 0] && PtrAt(sh, 0) == Box(0, 1) && sh.nextEntry == 1
    && sh.dirty.value in sh.maps && 0 in sh.entries
  }

  /** After Range as well: A is in read. */
  predicate OnlyRead(sh: Shared) {
    && !sh.read.amended && sh.dirty.None? && sh.read.m < sh.nextMap && sh.read.m in sh.maps
    && ReadMap(sh) == map[A := 0] && PtrAt(sh, 0) == Box(0, 1) && sh.nextEntry == 1 && 0 in sh.entries
  }

  /** After Store(B) as well: A is in both. */
  predicate InBoth(sh: Shared) {
    sh.dirty.Some? && A in ReadMap(sh) && ReadMap(sh)[A] == 0 && PtrAt(sh, 0) == Box(0, 1)
  }

  lemma FirstStore() returns (sh: Shared, c: Call)
    ensures c.pc.Done? && c.id == 0 && Reached(Alone(sh, false, c)) && OnlyDirty(sh)
  {
    var sh0, d := Initial().sh, Call(0, Store(A, 1), 0, None, Start);
    assert IsRun([Initial()]) && [Initial()][0] == Initial();
    assert map[][0 := d] == map[0 := d];
    assert Begin(Initial(), Alone(sh0, false, d), 0, Store(A, 1));
    ReachNext(Initial(), Alone(sh0, false, d));
    ReachDirty(sh0, d);
    assert ReadMap(sh0).Keys == {};
    ReachStored(Made(sh0), d);
    sh, c := Inserted(Amended(Made(sh0)), d), d.(lin := Some(0), pc := Done(Nothing));
    FirstEntry(d);
  }

  lemma FirstEntry(d: Call)
    requires d.id == 0 && d.op == Store(A, 1)
    ensures OnlyDirty(Inserted(Amended(Made(Initial().sh)), d))
  {
  }

  lemma ThenRange(sh: Shared, c: Call) returns (sh': Shared, c': Call)
    requires c.pc.Done? && Reached(Alone(sh, false, c)) && OnlyDirty(sh)
    ensures c'.pc.Done? && Reached(Alone(sh', false, c')) && OnlyRead(sh')
  {
    var d := Call(c.id + 1, Range, |sh.log|, None, Start);
    AloneBegins(sh, c, Range);
    ReachNext(Alone(sh, false, c), Alone(sh, false, d));
    ReachPromoted(sh, d);
    sh' := Cleared(Promoted(sh));
    assert MapAt(sh', sh'.read.m) == DirtyMap(sh) && DirtyMap(sh).Keys == {A};
    ReachVisited(sh', d, A, 1);
    c' := d.(pc := Done(Visited(map[A := 1], true)));
  }

  lemma ThenStore(sh: Shared, c: Call) returns (sh': Shared, c': Call)
    requires c.pc.Done? && Reached(Alone(sh, false, c)) && OnlyRead(sh)
    ensures c'.pc.Done? && Reached(Alone(sh', false, c')) && InBoth(sh')
  {
    var d := Call(c.id + 1, Store(B, 2), |sh.log|, None, Start);
    AloneBegins(sh, c, Store(B, 2));
    ReachNext(Alone(sh, false, c), Alone(sh, false, d));
    assert "a"[0] == 'a' && "b"[0] == 'b';
    ReachDirty(sh, d);
    assert ReadMap(sh).Keys == {A};
    ReachCopied(Made(sh), d, sh.read, A);
    var copied := Copied(Made(sh), A);
    ReachStored(copied, d);
    sh', c' := Inserted(Amended(copied), d), d.(lin := Some(|sh.log|), pc := Done(Nothing));
  }

  /** Store(A), Range, Store(B), Delete(A) by one thread leave a nil entry and a dirty map. */
  lemma CommentFails()
    ensures exists s :: Reached(s) && s.mu.None? && (forall t :: t in s.calls ==> s.calls[t].pc.Done?)
                        && !CommentHolds(s.sh)
  {
    var sh, c := FirstStore();
    sh, c := ThenRange(sh, c);
    sh, c := ThenStore(sh, c);
    var d := Call(c.id + 1, Delete(A), |sh.log|, None, Start);
    AloneBegins(sh, c, Delete(A));
    ReachNext(Alone(sh, false, c), Alone(sh, false, d));
    ReachDeleted(sh, d, 0, Box(0, 1));
    var s := Alone(Removed(sh, d, 0), false, d.(lin := Some(|sh.log|), pc := Done(Nothing)));
    assert ReadMap(s.sh) == ReadMap(sh) && PtrAt(s.sh, 0) == Nil;
    assert Reached(s) && !CommentHolds(s.sh);
  }
}
