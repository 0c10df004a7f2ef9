/** Obstruction freedom: from any state of any run, a call that is left alone returns, within a bounded
    number of steps, as soon as no other call holds the mutex. */
module PoolMapProgress {
  import opened Wrappers
  import opened PoolMapMachine
  import opened PoolMapProof
  import opened PoolMapTheorems

  // ---- How far a call has to go ----

  /** Sizes of the two maps. */
  function Reads(sh: Shared): nat { |ReadMap(sh)| }

  function Dirties(sh: Shared): nat { |DirtyMap(sh)| }

  function FromLock(sh: Shared): nat { 4 * Reads(sh) + Dirties(sh) + 33 }

  function FromTry(sh: Shared, c: Call, e: EntryId): nat {
    if Writes(c) && PtrAt(sh, e) == Expunged then FromLock(sh) + 1 else 3
  }

  function AfterUnlock(sh: Shared, after: After): nat {
    match after
    case Return(_) => 0
    case Use(_) => 3
    case Scan(m) => |MapAt(sh, m)| + 1
  }

  function RankOutside(sh: Shared, c: Call): nat {
    match c.pc
    case Start => FromLock(sh) + Reads(sh) + 3
    case Fast(r) => FromLock(sh) + |MapAt(sh, r.m)| + 2
    case TryEntry(e) => FromTry(sh, c, e)
    case CasEntry(e, p) => if PtrAt(sh, e) == p then 1 else FromTry(sh, c, e) + 1
    case WantLock => FromLock(sh)
    case Iterate(_, todo, _) => |todo| + 1
    case _ => 0
  }

  function RankLooking(sh: Shared, c: Call): nat {
    match c.pc
    case Locked => 4 * Reads(sh) + Dirties(sh) + 32
    case Slow(_) => 4 * Reads(sh) + Dirties(sh) + 31
    case SlowDirty(_) => 4 * Reads(sh) + Dirties(sh) + 30
    case Unexpunge(_) => Dirties(sh) + 10
    case Link(_) => Dirties(sh) + 9
    case LockedTry(_, _) => Dirties(sh) + 7
    case LockedCas(e, _) => if PtrAt(sh, e) == Nil then Dirties(sh) + 6 else Dirties(sh) + 8
    case _ => 0
  }

  function RankGrowing(sh: Shared, c: Call): nat {
    match c.pc
    case MakeDirty(_) => 4 * Reads(sh) + 5
    case Amend(_) => 3
    case _ => 2
  }

  function RankCopying(sh: Shared, c: Call): nat {
    match c.pc
    case DirtyPick(_, todo) => 4 * |todo| + 4
    case DirtyLoad(_, todo, _) => 4 * |todo| + 3
    case DirtyCas(_, todo, k) =>
      if k in ReadMap(sh) && PtrAt(sh, ReadMap(sh)[k]) == Nil then 4 * |todo| + 2 else 4 * |todo| + 4
    case DirtyPut(_, todo, _) => 4 * |todo| + 1
    case _ => 0
  }

  function RankLeaving(sh: Shared, c: Call): nat {
    match c.pc
    case Miss(after) => AfterUnlock(sh, after) + Dirties(sh) + 5
    case Promote(after) => if c.op.Range? then Dirties(sh) + 4 else AfterUnlock(sh, after) + 3
    case Clear(after) => AfterUnlock(sh, after) + 2
    case Unlock(after) => AfterUnlock(sh, after) + 1
    case _ => 0
  }

  /** No more steps than that, if no one else takes any. */
  function Rank(sh: Shared, c: Call): nat {
    if Looking?(c.pc) then RankLooking(sh, c)
    else if Growing?(c.pc) then RankGrowing(sh, c)
    else if Copying?(c.pc) then RankCopying(sh, c)
    else if Leaving?(c.pc) then RankLeaving(sh, c)
    else RankOutside(sh, c)
  }

  /** Only Load and Delete use an entry after they have released the mutex. */
  predicate Tame(c: Call) { Leaving?(c.pc) && c.pc.after.Use? ==> !Writes(c) }

  predicate Nearer(sh: Shared, c: Call, o: Outcome) {
    o.Stepped? ==> Rank(o.sh, o.c) < Rank(sh, c) && Tame(o.c)
  }

  lemma TakeOut<T>(s: set<T>, x: T)
    requires x in s
    ensures |s - {x}| == |s| - 1
  {
  }

  lemma PutIn(m: map<Key, EntryId>, k: Key, e: EntryId)
    ensures |m[k := e]| <= |m| + 1
  {
    if k in m { assert m[k := e].Keys == m.Keys; } else { assert m[k := e].Keys == m.Keys + {k}; }
    assert |m[k := e]| == |m[k := e].Keys| && |m| == |m.Keys|;
  }

  lemma KeysCount(m: map<Key, EntryId>)
    ensures |m.Keys| == |m|
  {
  }

  lemma FastNearer(sh: Shared, mu: Option<Tid>, c: Call, r: ReadOnly)
    requires c.pc == Fast(r)
    ensures Nearer(sh, c, StepFast(sh, mu, c, r))
  {
    KeysCount(MapAt(sh, r.m));
  }

  lemma TryNearer(sh: Shared, mu: Option<Tid>, c: Call, e: EntryId)
    requires c.pc == TryEntry(e)
    ensures Nearer(sh, c, StepTry(sh, mu, c, e))
  {
  }

  lemma CasNearer(sh: Shared, mu: Option<Tid>, c: Call, e: EntryId, p: Ptr)
    requires c.pc == CasEntry(e, p)
    ensures Nearer(sh, c, StepCas(sh, mu, c, e, p))
  {
  }

  lemma IterateNearer(sh: Shared, mu: Option<Tid>, c: Call, m: MapId, todo: set<Key>, pairs: map<Key, PoolId>,
                      ch: Choice)
    requires c.pc == Iterate(m, todo, pairs)
    ensures Nearer(sh, c, StepIterate(sh, mu, c, m, todo, pairs, ch))
  {
    if ch.key in todo { TakeOut(todo, ch.key); }
  }

  lemma OutsideNearer(sh: Shared, mu: Option<Tid>, t: Tid, c: Call, ch: Choice)
    requires !Holding(c.pc)
    ensures Nearer(sh, c, StepOutside(sh, mu, t, c, ch))
  {
    match c.pc
    case Fast(r) => FastNearer(sh, mu, c, r);
    case TryEntry(e) => TryNearer(sh, mu, c, e);
    case CasEntry(e, p) => CasNearer(sh, mu, c, e, p);
    case Iterate(m, todo, pairs) => IterateNearer(sh, mu, c, m, todo, pairs, ch);
    case _ =>
  }

  lemma SlowNearer(sh: Shared, mu: Option<Tid>, c: Call, r: ReadOnly)
    requires c.pc == Slow(r) && r == sh.read
    ensures Nearer(sh, c, StepSlow(sh, mu, c, r))
  {
  }

  lemma SlowDirtyLoads(sh: Shared, mu: Option<Tid>, c: Call, r: ReadOnly)
    requires c.pc == SlowDirty(r) && c.op.Load?
    ensures Nearer(sh, c, StepSlowDirty(sh, mu, c, r))
  {
  }

  lemma SlowDirtyDeletes(sh: Shared, mu: Option<Tid>, c: Call, r: ReadOnly)
    requires c.pc == SlowDirty(r) && c.op.Delete?
    ensures Nearer(sh, c, StepSlowDirty(sh, mu, c, r))
  {
  }

  lemma SlowDirtyWrites(sh: Shared, mu: Option<Tid>, c: Call, r: ReadOnly)
    requires c.pc == SlowDirty(r) && Writes(c)
    ensures Nearer(sh, c, StepSlowDirty(sh, mu, c, r))
  {
  }

  lemma LinkNearer(sh: Shared, mu: Option<Tid>, c: Call, e: EntryId)
    requires c.pc == Link(e) && !c.op.Range?
    ensures Nearer(sh, c, StepLink(sh, mu, c, e))
  {
    PutIn(DirtyMap(sh), c.op.key, e);
  }

  lemma LockedTryNearer(sh: Shared, mu: Option<Tid>, c: Call, e: EntryId, inRead: bool)
    requires c.pc == LockedTry(e, inRead)
    ensures Nearer(sh, c, StepLockedTry(sh, mu, c, e, inRead))
  {
  }

  lemma LockedCasNearer(sh: Shared, mu: Option<Tid>, c: Call, e: EntryId, inRead: bool)
    requires c.pc == LockedCas(e, inRead)
    ensures Nearer(sh, c, StepLockedCas(sh, mu, c, e, inRead))
  {
  }

  lemma LookingNearer(sh: Shared, mu: Option<Tid>, c: Call)
    requires Looking?(c.pc) && (c.pc.Slow? ==> c.pc.r == sh.read)
    ensures Nearer(sh, c, StepLooking(sh, mu, c))
  {
    match c.pc
    case Slow(r) => SlowNearer(sh, mu, c, r);
    case SlowDirty(r) =>
      if Writes(c) { SlowDirtyWrites(sh, mu, c, r); }
      else if c.op.Load? { SlowDirtyLoads(sh, mu, c, r); }
      else if c.op.Delete? { SlowDirtyDeletes(sh, mu, c, r); }
    case Link(e) => if !c.op.Range? { LinkNearer(sh, mu, c, e); }
    case LockedTry(e, inRead) => LockedTryNearer(sh, mu, c, e, inRead);
    case LockedCas(e, inRead) => LockedCasNearer(sh, mu, c, e, inRead);
    case _ =>
  }

  lemma GrowingNearer(sh: Shared, mu: Option<Tid>, c: Call)
    requires Growing?(c.pc)
    ensures Nearer(sh, c, StepGrowing(sh, mu, c))
  {
    KeysCount(ReadMap(sh));
  }

  lemma PickNearer(sh: Shared, mu: Option<Tid>, c: Call, r: ReadOnly, todo: set<Key>, ch: Choice)
    requires c.pc == DirtyPick(r, todo)
    ensures Nearer(sh, c, StepDirtyPick(sh, mu, c, r, todo, ch))
  {
  }

  lemma LoadNearer(sh: Shared, mu: Option<Tid>, c: Call, r: ReadOnly, todo: set<Key>, k: Key)
    requires c.pc == DirtyLoad(r, todo, k) && k in todo
    ensures Nearer(sh, c, StepDirtyLoad(sh, mu, c, r, todo, k))
  {
    TakeOut(todo, k);
  }

  lemma SwapNearer(sh: Shared, mu: Option<Tid>, c: Call, r: ReadOnly, todo: set<Key>, k: Key)
    requires c.pc == DirtyCas(r, todo, k) && k in todo
    ensures Nearer(sh, c, StepDirtyCas(sh, mu, c, r, todo, k))
  {
    TakeOut(todo, k);
  }

  lemma PutNearer(sh: Shared, mu: Option<Tid>, c: Call, r: ReadOnly, todo: set<Key>, k: Key)
    requires c.pc == DirtyPut(r, todo, k) && k in todo
    ensures Nearer(sh, c, StepDirtyPut(sh, mu, c, r, todo, k))
  {
    TakeOut(todo, k);
  }

  lemma CopyingNearer(sh: Shared, mu: Option<Tid>, c: Call, ch: Choice)
    requires Copying?(c.pc) && (!c.pc.DirtyPick? ==> c.pc.k in c.pc.todo)
    ensures Nearer(sh, c, StepCopying(sh, mu, c, ch))
  {
    match c.pc
    case DirtyPick(r, todo) => PickNearer(sh, mu, c, r, todo, ch);
    case DirtyLoad(r, todo, k) => LoadNearer(sh, mu, c, r, todo, k);
    case DirtyCas(r, todo, k) => SwapNearer(sh, mu, c, r, todo, k);
    case DirtyPut(r, todo, k) => PutNearer(sh, mu, c, r, todo, k);
    case _ =>
  }

  lemma MissNearer(sh: Shared, mu: Option<Tid>, c: Call, after: After)
    requires c.pc == Miss(after) && Tame(c)
    ensures Nearer(sh, c, StepMiss(sh, mu, c, after))
  {
  }

  lemma PromoteNearer(sh: Shared, mu: Option<Tid>, c: Call, after: After)
    requires c.pc == Promote(after) && Tame(c)
    ensures Nearer(sh, c, StepPromote(sh, mu, c, after))
  {
  }

  lemma UnlockNearer(sh: Shared, c: Call, after: After)
    requires c.pc == Unlock(after) && Tame(c)
    ensures Nearer(sh, c, StepUnlock(sh, c, after))
  {
    if after.Scan? { KeysCount(MapAt(sh, after.m)); }
  }

  lemma LeavingNearer(sh: Shared, mu: Option<Tid>, c: Call)
    requires Leaving?(c.pc) && Tame(c)
    ensures Nearer(sh, c, StepLeaving(sh, mu, c))
  {
    match c.pc
    case Miss(after) => MissNearer(sh, mu, c, after);
    case Promote(after) => PromoteNearer(sh, mu, c, after);
    case Unlock(after) => UnlockNearer(sh, c, after);
    case _ =>
  }

  /** Every step of its own brings a call nearer to its end. */
  lemma StepNearer(sh: Shared, mu: Option<Tid>, t: Tid, c: Call, ch: Choice)
    requires PCOk(sh, c) && Tame(c)
    ensures Nearer(sh, c, Step(sh, mu, t, c, ch))
  {
    if Looking?(c.pc) {
      LookingNearer(sh, mu, c);
    } else if Growing?(c.pc) {
      GrowingNearer(sh, mu, c);
    } else if Copying?(c.pc) {
      CopyingNearer(sh, mu, c, ch);
    } else if Leaving?(c.pc) {
      LeavingNearer(sh, mu, c);
    } else {
      OutsideNearer(sh, mu, t, c, ch);
    }
  }

  // ---- Alone ----

  ghost predicate AllTame(s: State) { forall t :: t in s.calls ==> Tame(s.calls[t]) }

  lemma MoveTame(s: State, s': State, t: Tid, ch: Choice)
    requires Inv(s) && AllTame(s) && Move(s, s', t, ch)
    ensures AllTame(s') && Rank(s'.sh, s'.calls[t]) < Rank(s.sh, s.calls[t])
  {
    assert CallOk(s.sh, s.calls[t]);
    StepNearer(s.sh, s.mu, t, s.calls[t], ch);
  }

  lemma NextTame(s: State, s': State)
    requires Inv(s) && AllTame(s) && Next(s, s')
    ensures AllTame(s')
  {
    if t, op :| Begin(s, s', t, op) {
    } else {
      var t, ch :| Move(s, s', t, ch);
      MoveTame(s, s', t, ch);
    }
  }

  lemma {:induction false} RunTame(run: seq<State>, j: nat)
    requires IsRun(run) && j < |run|
    ensures AllTame(run[j])
  {
    if j > 0 {
      RunTame(run, j - 1);
      RunInv(run, j - 1);
      RunNext(run, j);
      NextTame(run[j - 1], run[j]);
    }
  }

  function Last(run: seq<State>): State
    requires run != []
  {
    run[|run| - 1]
  }

  /** The mutex is free, or t holds it. */
  predicate Free(s: State, t: Tid) { s.mu.None? || s.mu == Some(t) }

  /** The states of more are reached from s by steps of t alone. */
  ghost predicate Alone(s: State, more: seq<State>, t: Tid)
    decreases |more|
  {
    more != [] ==> (exists ch :: Move(s, more[0], t, ch)) && Alone(more[0], more[1..], t)
  }

  lemma Extend(run: seq<State>, s: State)
    requires IsRun(run) && Next(Last(run), s)
    ensures IsRun(run + [s]) && Last(run + [s]) == s
  {
    var more := run + [s];
    forall i | 0 <= i < |more| - 1 ensures Next(more[i], more[i + 1]) {
      if i < |run| - 1 { assert Next(run[i], run[i + 1]); }
    }
  }

  lemma OneMove(run: seq<State>, t: Tid) returns (s': State, ch: Choice)
    requires IsRun(run) && t in Last(run).calls && !Last(run).calls[t].pc.Done? && Free(Last(run), t)
    ensures Move(Last(run), s', t, ch) && Free(s', t)
  {
    var j, s := |run| - 1, Last(run);
    RunInv(run, j);
    ch := Unblocked(run, j, t);
    var o := Step(s.sh, s.mu, t, s.calls[t], ch);
    MutexStep(s.sh, s.mu, t, s.calls[t], ch);
    s' := s.(sh := o.sh, mu := o.mu, calls := s.calls[t := o.c]);
  }

  /** The call id of t has at most n steps to go. */
  ghost predicate Within(s: State, t: Tid, id: CallId, n: nat) {
    t in s.calls && s.calls[t].id == id && Free(s, t) && Rank(s.sh, s.calls[t]) <= n
  }

  lemma OneStep(run: seq<State>, t: Tid, id: CallId, n: nat) returns (s': State)
    requires IsRun(run) && Within(Last(run), t, id, n) && !Last(run).calls[t].pc.Done?
    ensures IsRun(run + [s']) && Last(run + [s']) == s' && n > 0 && Within(s', t, id, n - 1)
    ensures exists ch :: Move(Last(run), s', t, ch)
  {
    var ch;
    s', ch := OneMove(run, t);
    RunInv(run, |run| - 1);
    RunTame(run, |run| - 1);
    MoveTame(Last(run), s', t, ch);
    MoveKeepsId(Last(run), s', t, ch);
    Extend(run, s');
  }

  lemma MoveKeepsId(s: State, s': State, t: Tid, ch: Choice)
    requires Inv(s) && Move(s, s', t, ch)
    ensures t in s'.calls && s'.calls[t].id == s.calls[t].id
  {
    MoveInv(s, s', t, ch);
  }

  ghost predicate Finished(s: State, t: Tid, id: CallId) {
    t in s.calls && s.calls[t].id == id && s.calls[t].pc.Done?
  }

  lemma {:induction false} FinishesWithin(run: seq<State>, t: Tid, id: CallId, n: nat) returns (more: seq<State>)
    requires IsRun(run) && Within(Last(run), t, id, n)
    ensures IsRun(run + more) && Alone(Last(run), more, t) && |more| <= n && Finished(Last(run + more), t, id)
    decreases n
  {
    if Last(run).calls[t].pc.Done? {
      more := [];
      assert run + more == run;
    } else {
      var s' := OneStep(run, t, id, n);
      var rest := FinishesWithin(run + [s'], t, id, n - 1);
      more := Longer(run, s', rest, t);
    }
  }

  lemma Longer(run: seq<State>, s': State, rest: seq<State>, t: Tid) returns (more: seq<State>)
    requires run != [] && (exists ch :: Move(Last(run), s', t, ch)) && Alone(s', rest, t)
    ensures more == [s'] + rest && run + more == run + [s'] + rest && Alone(Last(run), more, t)
  {
    more := [s'] + rest;
    assert more[0] == s' && more[1..] == rest;
  }

  /** Left alone, a call returns: in no more steps of its own than its rank, if no other holds the mutex. */
  lemma FinishesAlone(run: seq<State>, t: Tid) returns (more: seq<State>)
    requires IsRun(run) && t in Last(run).calls && Free(Last(run), t)
    ensures IsRun(run + more) && Alone(Last(run), more, t)
    ensures |more| <= Rank(Last(run).sh, Last(run).calls[t])
    ensures Finished(Last(run + more), t, Last(run).calls[t].id)
  {
    more := FinishesWithin(run, t, Last(run).calls[t].id, Rank(Last(run).sh, Last(run).calls[t]));
  }
}
