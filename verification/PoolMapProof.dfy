/** Linearizability of PoolMap, by rely/guarantee: one invariant on the shared state, indexed by
    what the mutex holder is doing, one assertion per call, and a guarantee that every step gives
    to all other calls. */
module PoolMapProof {
  import opened Wrappers
  import opened PoolMapMachine

  // ---- What a call can have observed ----

  /** Some moment between the start of the call and now had answer a for key k. */
  ghost predicate Seen(log: seq<Event>, start: nat, k: Key, a: Option<PoolId>) {
    exists n :: start <= n <= |log| && Look(Replay(log[..n]), k) == a
  }

  ghost predicate Grows(log: seq<Event>, log': seq<Event>) {
    log <= log'
  }

  lemma SeenGrows(log: seq<Event>, log': seq<Event>, start: nat, k: Key, a: Option<PoolId>)
    requires Grows(log, log') && Seen(log, start, k, a)
    ensures Seen(log', start, k, a)
  {
    var n :| start <= n <= |log| && Look(Replay(log[..n]), k) == a;
    assert log'[..n] == log[..n];
  }

  lemma SeenNow(log: seq<Event>, start: nat, k: Key)
    requires start <= |log|
    ensures Seen(log, start, k, Look(Replay(log), k))
  {
    assert log[..|log|] == log;
  }

  // ---- The shared state ----

  ghost predicate Basic(sh: Shared) {
    && sh.read.m in sh.maps && sh.read.m in sh.published && sh.published <= sh.maps.Keys
    && (sh.dirty.Some? ==> sh.dirty.value in sh.maps)
    && (forall m :: m in sh.maps ==> m < sh.nextMap)
    && (forall e :: e in sh.entries ==> e < sh.nextEntry)
    && sh.entries.Keys == sh.owner.Keys
    && sh.exposed <= sh.entries.Keys
    && (forall m, k :: m in sh.maps && k in sh.maps[m] ==>
          sh.maps[m][k] in sh.entries && sh.owner[sh.maps[m][k]] == k)
    && (forall m, k :: m in sh.published && k in sh.maps[m] ==> sh.maps[m][k] in sh.exposed)
    && (forall e :: e in sh.exposed ==> sh.entries[e] == Expunged || IsRead(sh, e))
  }

  /** e is the entry that the current read map has for e's key. */
  ghost predicate IsRead(sh: Shared, e: EntryId) {
    e in sh.owner && sh.owner[e] in ReadMap(sh) && ReadMap(sh)[sh.owner[e]] == e
  }

  /** What the holder of the mutex, if any, is in the middle of. */
  datatype Phase = Quiet | Unlinked(key: Key) | Building(todo: set<Key>) | Swapped

  /** Dirty has the read entry of k exactly when that entry is not expunged. */
  ghost predicate Mirrored(sh: Shared, k: Key)
    requires k in ReadMap(sh)
  {
    if PtrAt(sh, ReadMap(sh)[k]) == Expunged then k !in DirtyMap(sh)
    else k in DirtyMap(sh) && DirtyMap(sh)[k] == ReadMap(sh)[k]
  }

  ghost predicate NoneExpunged(sh: Shared, m: map<Key, EntryId>) {
    forall k :: k in m ==> PtrAt(sh, m[k]) != Expunged
  }

  ghost predicate Cache(sh: Shared, ph: Phase) {
    match ph
    case Quiet =>
      if sh.dirty.None? then !sh.read.amended && sh.misses == 0 && NoneExpunged(sh, ReadMap(sh))
      else
        && sh.read.amended && sh.dirty.value !in sh.published && NoneExpunged(sh, DirtyMap(sh))
        && forall k :: k in ReadMap(sh) ==> Mirrored(sh, k)
    case Unlinked(key) =>
      && sh.dirty.Some? && sh.read.amended && sh.dirty.value !in sh.published && NoneExpunged(sh, DirtyMap(sh))
      && key in ReadMap(sh) && key !in DirtyMap(sh) && PtrAt(sh, ReadMap(sh)[key]) != Expunged
      && forall k :: k in ReadMap(sh) && k != key ==> Mirrored(sh, k)
    case Building(todo) =>
      && sh.dirty.Some? && !sh.read.amended && sh.misses == 0 && sh.dirty.value !in sh.published
      && NoneExpunged(sh, DirtyMap(sh))
      && DirtyMap(sh).Keys <= ReadMap(sh).Keys - todo
      && (forall k :: k in todo ==> k in ReadMap(sh) && PtrAt(sh, ReadMap(sh)[k]) != Expunged)
      && forall k :: k in ReadMap(sh) && k !in todo ==> Mirrored(sh, k)
    case Swapped =>
      sh.dirty == Some(sh.read.m) && !sh.read.amended && NoneExpunged(sh, ReadMap(sh))
  }

  ghost predicate Matches(sh: Shared) {
    forall k :: Look(Replay(sh.log), k) == AbsGet(sh, k)
  }

  /** Insert events, made by LoadOrStore, only ever add an absent key. */
  ghost predicate Legal(log: seq<Event>) {
    forall i :: 0 <= i < |log| && log[i].Insert? ==> log[i].key !in Replay(log[..i])
  }

  // ---- One call ----

  predicate Holding(pc: PC) {
    match pc
    case Start | Fast(_) | TryEntry(_) | CasEntry(_, _) | WantLock | Iterate(_, _, _) | Done(_) => false
    case _ => true
  }

  function PhaseOf(c: Call): Phase {
    if c.pc.Link? && !c.op.Range? then Unlinked(c.op.key)
    else if Copying?(c.pc) then Building(c.pc.todo)
    else if c.pc.Amend? then Building({})
    else if c.pc.Clear? then Swapped
    else Quiet
  }

  /** The call may use e for key k: whatever e's pointer answers now was k's answer at some moment
      of the call, including when e has since been unlinked. */
  ghost predicate Held(sh: Shared, c: Call, k: Key, e: EntryId) {
    e in sh.entries && e in sh.owner && sh.owner[e] == k && Seen(sh.log, c.start, k, Ans(sh.entries[e]))
  }

  ghost predicate Snapshot(sh: Shared, c: Call, r: ReadOnly) {
    && r.m in sh.published
    && (forall k :: k in MapAt(sh, r.m) ==> Held(sh, c, k, MapAt(sh, r.m)[k]))
    && (!r.amended ==> forall k :: k !in MapAt(sh, r.m) ==> Seen(sh.log, c.start, k, None))
  }

  ghost predicate AnswerOk(sh: Shared, c: Call, a: Answer) {
    match c.op
    case Load(k) => a.Value? && c.lin.None? && Seen(sh.log, c.start, k, a.found)
    case Store(_, _) => a.Nothing? && c.lin.Some?
    case LoadOrStore(k, v) =>
      && a.Actual? && a.actual.Some?
      && (a.loaded ==> c.lin.None? && Seen(sh.log, c.start, k, a.actual))
      && (!a.loaded ==> c.lin.Some? && a.actual == Some(v))
    case Delete(k) => a.Nothing? && (c.lin.None? ==> Seen(sh.log, c.start, k, None))
    case Range =>
      && a.Visited? && c.lin.None?
      && (forall k :: k in a.pairs ==> Seen(sh.log, c.start, k, Some(a.pairs[k])))
      && (a.complete ==> forall k :: k !in a.pairs ==> Seen(sh.log, c.start, k, None))
  }

  ghost predicate AfterOk(sh: Shared, c: Call, after: After) {
    match after
    case Return(a) => AnswerOk(sh, c, a)
    case Use(e) => EntryOk(sh, c, e)
    case Scan(m) => c.op.Range? && c.lin.None? && Snapshot(sh, c, ReadOnly(m, false))
  }

  ghost predicate EntryOk(sh: Shared, c: Call, e: EntryId) {
    && c.lin.None? && !c.op.Range? && Held(sh, c, c.op.key, e)
    && (!c.op.Load? ==> e in sh.exposed)
  }

  /** The holder's view: its key is not in the current read map, which it knows to be r. */
  ghost predicate NotRead(sh: Shared, c: Call, r: ReadOnly) {
    c.lin.None? && !c.op.Range? && r == sh.read && c.op.key !in ReadMap(sh)
  }

  predicate Writes(c: Call) { c.op.Store? || c.op.LoadOrStore? }

  ghost predicate LockedEntry(sh: Shared, c: Call, e: EntryId, inRead: bool) {
    && c.lin.None? && Writes(c) && PtrAt(sh, e) != Expunged
    && (if inRead then c.op.key in ReadMap(sh) && ReadMap(sh)[c.op.key] == e
        else sh.read.amended && c.op.key !in ReadMap(sh) && c.op.key in DirtyMap(sh) && DirtyMap(sh)[c.op.key] == e)
  }

  ghost predicate PCOk(sh: Shared, c: Call) {
    var pc := c.pc;
    if pc.Start? || pc.WantLock? || pc.Locked? then c.lin.None?
    else if pc.Fast? || pc.Slow? then c.lin.None? && Snapshot(sh, c, pc.r) && (pc.Slow? ==> pc.r == sh.read)
    else if pc.TryEntry? || pc.CasEntry? then
      && EntryOk(sh, c, pc.e)
      && (pc.CasEntry? ==>
            !c.op.Load? && pc.p != Expunged && (c.op.LoadOrStore? ==> pc.p == Nil) && (c.op.Delete? ==> pc.p.Box?))
    else if pc.Unexpunge? || pc.Link? then
      c.lin.None? && Writes(c) && c.op.key in ReadMap(sh) && ReadMap(sh)[c.op.key] == pc.e
    else if pc.LockedTry? || pc.LockedCas? then
      LockedEntry(sh, c, pc.e, pc.inRead) && (pc.LockedCas? ==> c.op.LoadOrStore?)
    else if pc.InsertNew? then
      c.lin.None? && Writes(c) && sh.read.amended && c.op.key !in ReadMap(sh) && c.op.key !in DirtyMap(sh)
    else if Leaving?(pc) then
      && (pc.Miss? || pc.Promote? ==> sh.read.amended) && (pc.Miss? ==> !c.op.Range?)
      && if pc.Promote? && c.op.Range? then c.lin.None? else AfterOk(sh, c, pc.after)
    else if pc.Iterate? then Iterating(sh, c, pc.m, pc.todo, pc.pairs)
    else if pc.Done? then AnswerOk(sh, c, pc.answer)
    else
      && NotRead(sh, c, pc.r)
      && (if pc.SlowDirty? then !Writes(c) ==> pc.r.amended else !pc.r.amended && Writes(c))
      && (pc.DirtyLoad? || pc.DirtyCas? || pc.DirtyPut? ==> pc.k in pc.todo)
  }

  ghost predicate Iterating(sh: Shared, c: Call, m: MapId, todo: set<Key>, pairs: map<Key, PoolId>) {
    && c.op.Range? && c.lin.None? && m in sh.published && todo <= MapAt(sh, m).Keys && todo !! pairs.Keys
    && (forall k :: k in todo ==> Held(sh, c, k, MapAt(sh, m)[k]))
    && (forall k :: k in pairs ==> Seen(sh.log, c.start, k, Some(pairs[k])))
    && forall k :: k !in todo && k !in pairs ==> Seen(sh.log, c.start, k, None)
  }

  /** A call's update is in the log at most once, within the call, at the recorded position. */
  ghost predicate Committed(log: seq<Event>, c: Call) {
    && c.start <= |log|
    && (c.lin.Some? ==>
          c.start <= c.lin.value < |log| && !c.op.Range? && !c.op.Load? && log[c.lin.value] == UpdateEvent(c))
    && forall i :: 0 <= i < |log| && log[i].call == c.id ==> c.lin == Some(i)
  }

  ghost predicate CallOk(sh: Shared, c: Call) {
    Committed(sh.log, c) && PCOk(sh, c)
  }

  // ---- Guarantees ----

  /** What every step promises to the calls of other threads. */
  ghost predicate Guar(sh: Shared, sh': Shared) {
    && Grows(sh.log, sh'.log)
    && sh.published <= sh'.published && sh.published <= sh.maps.Keys
    && (forall m :: m in sh.published ==> m in sh'.maps && sh'.maps[m] == sh.maps[m])
    && sh.exposed <= sh'.exposed
    && sh.entries.Keys == sh.owner.Keys && sh.entries.Keys <= sh'.entries.Keys && sh.entries.Keys <= sh'.owner.Keys
    && (forall e :: e in sh.entries ==>
          && sh'.owner[e] == sh.owner[e]
          && (|| Ans(sh'.entries[e]) == Ans(sh.entries[e])
              || Ans(sh'.entries[e]) == Look(Replay(sh'.log), sh'.owner[e])))
  }

  /** What a step outside the mutex promises to its holder: only pointers move, none in or out of
      the expunged state. */
  ghost predicate GuarFree(sh: Shared, sh': Shared) {
    && Guar(sh, sh')
    && sh' == sh.(entries := sh'.entries, log := sh'.log)
    && sh'.entries.Keys == sh.entries.Keys
    && forall e :: e in sh.entries ==> (sh'.entries[e] == Expunged <==> sh.entries[e] == Expunged)
  }

  lemma HeldStable(sh: Shared, sh': Shared, c: Call, k: Key, e: EntryId)
    requires Guar(sh, sh') && c.start <= |sh.log| && Held(sh, c, k, e)
    ensures Held(sh', c, k, e)
  {
    if Ans(sh'.entries[e]) == Ans(sh.entries[e]) {
      SeenGrows(sh.log, sh'.log, c.start, k, Ans(sh.entries[e]));
    } else {
      SeenNow(sh'.log, c.start, k);
    }
  }

  lemma SnapshotStable(sh: Shared, sh': Shared, c: Call, r: ReadOnly)
    requires Guar(sh, sh') && c.start <= |sh.log| && Snapshot(sh, c, r)
    ensures Snapshot(sh', c, r)
  {
    forall k | k in MapAt(sh', r.m) ensures Held(sh', c, k, MapAt(sh', r.m)[k]) {
      HeldStable(sh, sh', c, k, MapAt(sh, r.m)[k]);
    }
    if !r.amended {
      forall k | k !in MapAt(sh', r.m) ensures Seen(sh'.log, c.start, k, None) {
        SeenGrows(sh.log, sh'.log, c.start, k, None);
      }
    }
  }

  lemma AnswerStable(sh: Shared, sh': Shared, c: Call, a: Answer)
    requires Guar(sh, sh') && AnswerOk(sh, c, a)
    ensures AnswerOk(sh', c, a)
  {
    forall k, x | Seen(sh.log, c.start, k, x) ensures Seen(sh'.log, c.start, k, x) {
      SeenGrows(sh.log, sh'.log, c.start, k, x);
    }
  }

  lemma EntryStable(sh: Shared, sh': Shared, c: Call, e: EntryId)
    requires Guar(sh, sh') && c.start <= |sh.log| && EntryOk(sh, c, e)
    ensures EntryOk(sh', c, e)
  {
    HeldStable(sh, sh', c, c.op.key, e);
  }

  lemma AfterStable(sh: Shared, sh': Shared, c: Call, after: After)
    requires Guar(sh, sh') && c.start <= |sh.log| && AfterOk(sh, c, after)
    ensures AfterOk(sh', c, after)
  {
    match after
    case Return(a) => AnswerStable(sh, sh', c, a);
    case Use(e) => EntryStable(sh, sh', c, e);
    case Scan(m) => SnapshotStable(sh, sh', c, ReadOnly(m, false));
  }

  lemma IterateStable(sh: Shared, sh': Shared, c: Call)
    requires Guar(sh, sh') && c.start <= |sh.log| && c.pc.Iterate? && PCOk(sh, c)
    ensures PCOk(sh', c)
  {
    forall k, x | Seen(sh.log, c.start, k, x) ensures Seen(sh'.log, c.start, k, x) {
      SeenGrows(sh.log, sh'.log, c.start, k, x);
    }
    forall k | k in c.pc.todo ensures Held(sh', c, k, MapAt(sh', c.pc.m)[k]) {
      HeldStable(sh, sh', c, k, MapAt(sh, c.pc.m)[k]);
    }
  }

  /** A call outside the mutex keeps its assertion under any step of any other thread. */
  lemma StableOutside(sh: Shared, sh': Shared, c: Call)
    requires Guar(sh, sh') && c.start <= |sh.log| && !Holding(c.pc) && PCOk(sh, c)
    ensures PCOk(sh', c)
  {
    match c.pc
    case Start =>
    case WantLock =>
    case Fast(r) => SnapshotStable(sh, sh', c, r);
    case TryEntry(e) => EntryStable(sh, sh', c, e);
    case CasEntry(e, p) => EntryStable(sh, sh', c, e);
    case Iterate(_, _, _) => IterateStable(sh, sh', c);
    case Done(a) => AnswerStable(sh, sh', c, a);
  }

  /** The holder keeps its assertion under the steps other threads can take meanwhile. */
  lemma StableHolder(sh: Shared, sh': Shared, c: Call)
    requires GuarFree(sh, sh') && Basic(sh) && c.start <= |sh.log| && Holding(c.pc) && PCOk(sh, c)
    ensures PCOk(sh', c)
  {
    match c.pc
    case Slow(r) => SnapshotStable(sh, sh', c, r);
    case Miss(after) => AfterStable(sh, sh', c, after);
    case Promote(after) => if !c.op.Range? { AfterStable(sh, sh', c, after); }
    case Clear(after) => AfterStable(sh, sh', c, after);
    case Unlock(after) => AfterStable(sh, sh', c, after);
    case LockedTry(e, inRead) =>
    case LockedCas(e, inRead) =>
    case _ =>
  }

  lemma CacheStable(sh: Shared, sh': Shared, ph: Phase)
    requires GuarFree(sh, sh') && Basic(sh) && Cache(sh, ph)
    ensures Cache(sh', ph)
  {
    assert ReadMap(sh') == ReadMap(sh) && DirtyMap(sh') == DirtyMap(sh);
    assert forall e :: PtrAt(sh', e) == Expunged <==> PtrAt(sh, e) == Expunged;
    assert forall k :: k in ReadMap(sh) && Mirrored(sh, k) ==> Mirrored(sh', k);
  }

  // ---- Single steps ----

  lemma ReplayPush(log: seq<Event>, ev: Event)
    ensures Replay(log + [ev]) == Apply(Replay(log), ev)
  {
    assert (log + [ev])[..|log|] == log;
  }

  lemma LegalPush(log: seq<Event>, ev: Event)
    requires Legal(log) && (ev.Insert? ==> ev.key !in Replay(log))
    ensures Legal(log + [ev])
  {
    var log' := log + [ev];
    forall i | 0 <= i < |log'| && log'[i].Insert? ensures log'[i].key !in Replay(log'[..i]) {
      if i < |log| {
        assert log'[..i] == log[..i];
      } else {
        assert log'[..i] == log;
      }
    }
  }

  /** A step adds nothing to the log, or exactly its call's own update, once. */
  ghost predicate Logs(sh: Shared, c: Call, sh': Shared, c': Call) {
    && c' == c.(pc := c'.pc, lin := c'.lin)
    && (|| (sh'.log == sh.log && c'.lin == c.lin)
        || (&& c.lin.None? && !c.op.Range? && !c.op.Load?
            && sh'.log == sh.log + [UpdateEvent(c)] && c'.lin == Some(|sh.log|)))
  }

  ghost predicate Before(sh: Shared, c: Call) {
    && Basic(sh) && Matches(sh) && Legal(sh.log) && c.start <= |sh.log| && PCOk(sh, c)
    && (Holding(c.pc) ==> Cache(sh, PhaseOf(c)))
  }

  ghost predicate Keeps(sh: Shared, c: Call, sh': Shared, c': Call) {
    && Basic(sh') && Matches(sh') && Legal(sh'.log) && PCOk(sh', c')
    && Logs(sh, c, sh', c')
    && (if Holding(c.pc) then Guar(sh, sh') && Cache(sh', PhaseOf(c')) else GuarFree(sh, sh'))
  }

  /** A step that leaves the shared state alone only has to establish its own next assertion. */
  lemma Local(sh: Shared, c: Call, c': Call)
    requires Before(sh, c) && c' == c.(pc := c'.pc) && PCOk(sh, c')
    requires Holding(c.pc) ==> Cache(sh, PhaseOf(c'))
    ensures Keeps(sh, c, sh, c')
  {
  }

  /** At the moment of a load of m.read, every entry of the snapshot answers for its key. */
  lemma SnapshotNow(sh: Shared, c: Call)
    requires Basic(sh) && Matches(sh) && c.start <= |sh.log|
    ensures Snapshot(sh, c, sh.read)
  {
    assert MapAt(sh, sh.read.m) == ReadMap(sh);
    forall k | k in ReadMap(sh) ensures Held(sh, c, k, ReadMap(sh)[k]) {
      var e := sh.maps[sh.read.m][k];
      SeenNow(sh.log, c.start, k);
      assert Look(Replay(sh.log), k) == AbsGet(sh, k) == Ans(sh.entries[e]);
    }
    forall k | !sh.read.amended && k !in ReadMap(sh) ensures Seen(sh.log, c.start, k, None) {
      SeenNow(sh.log, c.start, k);
    }
  }

  lemma OfStart(sh: Shared, mu: Option<Tid>, t: Tid, c: Call, ch: Choice)
    requires Before(sh, c) && (c.pc.Start? || c.pc.WantLock?)
    requires StepOutside(sh, mu, t, c, ch).Stepped?
    ensures var o := StepOutside(sh, mu, t, c, ch); Keeps(sh, c, o.sh, o.c)
  {
    SnapshotNow(sh, c);
    Local(sh, c, c.(pc := if c.pc.Start? then Fast(sh.read) else Locked));
  }

  lemma OfLocked(sh: Shared, mu: Option<Tid>, c: Call)
    requires Before(sh, c) && c.pc.Locked?
    ensures var o := StepLooking(sh, mu, c); o.Stepped? && Keeps(sh, c, o.sh, o.c)
  {
    SnapshotNow(sh, c);
    Local(sh, c, c.(pc := Slow(sh.read)));
  }

  lemma FastOk(sh: Shared, mu: Option<Tid>, c: Call, r: ReadOnly)
    requires Basic(sh) && PCOk(sh, c) && c.pc == Fast(r)
    ensures var o := StepFast(sh, mu, c, r);
            o.Stepped? && o.sh == sh && o.c == c.(pc := o.c.pc) && PCOk(sh, o.c) && !Holding(o.c.pc)
  {
    if c.op.Range? {
      FastRange(sh, c, r);
    } else if c.op.key in MapAt(sh, r.m) {
      FastHit(sh, c, r);
    } else {
      FastMiss(sh, c, r);
    }
  }

  lemma FastRange(sh: Shared, c: Call, r: ReadOnly)
    requires c.lin.None? && Snapshot(sh, c, r) && c.op.Range?
    ensures PCOk(sh, c.(pc := WantLock))
            && (!r.amended ==> PCOk(sh, c.(pc := Iterate(r.m, MapAt(sh, r.m).Keys, map[]))))
  {
    var d := c.(pc := Iterate(r.m, MapAt(sh, r.m).Keys, map[]));
    forall k | k in MapAt(sh, r.m).Keys ensures Held(sh, d, k, MapAt(sh, r.m)[k]) {
      assert Held(sh, c, k, MapAt(sh, r.m)[k]);
    }
  }

  lemma FastHit(sh: Shared, c: Call, r: ReadOnly)
    requires Basic(sh) && c.lin.None? && Snapshot(sh, c, r) && !c.op.Range? && c.op.key in MapAt(sh, r.m)
    ensures PCOk(sh, c.(pc := TryEntry(MapAt(sh, r.m)[c.op.key])))
  {
    assert Held(sh, c, c.op.key, MapAt(sh, r.m)[c.op.key]);
  }

  lemma FastMiss(sh: Shared, c: Call, r: ReadOnly)
    requires c.lin.None? && Snapshot(sh, c, r) && !c.op.Range? && c.op.key !in MapAt(sh, r.m)
    ensures PCOk(sh, c.(pc := WantLock))
    ensures c.op.Load? && !r.amended ==> PCOk(sh, c.(pc := Done(Value(None))))
    ensures c.op.Delete? && !r.amended ==> PCOk(sh, c.(pc := Done(Nothing)))
  {
  }

  lemma OfFast(sh: Shared, mu: Option<Tid>, c: Call, r: ReadOnly)
    requires Before(sh, c) && c.pc == Fast(r)
    ensures var o := StepFast(sh, mu, c, r); o.Stepped? && Keeps(sh, c, o.sh, o.c)
  {
    FastOk(sh, mu, c, r);
    Local(sh, c, StepFast(sh, mu, c, r).c);
  }

  lemma OfTry(sh: Shared, mu: Option<Tid>, c: Call, e: EntryId)
    requires Before(sh, c) && c.pc == TryEntry(e)
    ensures var o := StepTry(sh, mu, c, e); o.Stepped? && Keeps(sh, c, o.sh, o.c)
  {
    Local(sh, c, StepTry(sh, mu, c, e).c);
  }

  lemma OfSlow(sh: Shared, mu: Option<Tid>, c: Call, r: ReadOnly)
    requires Before(sh, c) && c.pc == Slow(r)
    ensures var o := StepSlow(sh, mu, c, r); o.Stepped? && Keeps(sh, c, o.sh, o.c)
  {
    assert MapAt(sh, r.m) == ReadMap(sh);
    var c' := StepSlow(sh, mu, c, r).c;
    SlowOk(sh, mu, c, r);
    Local(sh, c, c');
  }

  lemma SlowOk(sh: Shared, mu: Option<Tid>, c: Call, r: ReadOnly)
    requires Basic(sh) && PCOk(sh, c) && c.pc == Slow(r) && MapAt(sh, r.m) == ReadMap(sh)
    ensures var o := StepSlow(sh, mu, c, r); o.Stepped? && o.sh == sh && PCOk(sh, o.c) && PhaseOf(o.c) == Quiet
  {
    if c.op.Range? {
      SlowRange(sh, c, r);
    } else if c.op.key in ReadMap(sh) {
      SlowHit(sh, c, r);
    } else {
      SlowMiss(sh, c, r);
    }
  }

  lemma SlowRange(sh: Shared, c: Call, r: ReadOnly)
    requires c.lin.None? && Snapshot(sh, c, r) && c.op.Range? && r == sh.read
    ensures r.amended ==> PCOk(sh, c.(pc := Promote(Return(Nothing))))
    ensures !r.amended ==> PCOk(sh, c.(pc := Unlock(Scan(r.m))))
  {
    if !r.amended {
      var d := c.(pc := Unlock(Scan(r.m)));
      forall k | k in MapAt(sh, r.m)
        ensures Held(sh, d, k, MapAt(sh, r.m)[k])
      {
        assert Held(sh, c, k, MapAt(sh, r.m)[k]);
      }
    }
  }

  lemma SlowHit(sh: Shared, c: Call, r: ReadOnly)
    requires Basic(sh) && c.lin.None? && Snapshot(sh, c, r) && r == sh.read && MapAt(sh, r.m) == ReadMap(sh)
    requires !c.op.Range? && c.op.key in ReadMap(sh)
    ensures var e := ReadMap(sh)[c.op.key];
            PCOk(sh, c.(pc := if c.op.Load? || c.op.Delete? then Unlock(Use(e)) else Unexpunge(e)))
  {
    assert Held(sh, c, c.op.key, MapAt(sh, r.m)[c.op.key]);
  }

  lemma SlowMiss(sh: Shared, c: Call, r: ReadOnly)
    requires c.lin.None? && Snapshot(sh, c, r) && r == sh.read && MapAt(sh, r.m) == ReadMap(sh)
    requires !c.op.Range? && c.op.key !in ReadMap(sh)
    ensures PCOk(sh, c.(pc := if (c.op.Load? || c.op.Delete?) && !r.amended
                              then Unlock(Return(if c.op.Load? then Value(None) else Nothing)) else SlowDirty(r)))
  {
  }

  lemma OfUnlock(sh: Shared, c: Call, after: After)
    requires Before(sh, c) && c.pc == Unlock(after)
    ensures var o := StepUnlock(sh, c, after); o.Stepped? && Keeps(sh, c, o.sh, o.c)
  {
    Local(sh, c, StepUnlock(sh, c, after).c);
  }

  lemma OfIterate(sh: Shared, mu: Option<Tid>, c: Call, m: MapId, todo: set<Key>, pairs: map<Key, PoolId>, ch: Choice)
    requires Before(sh, c) && c.pc == Iterate(m, todo, pairs)
    requires StepIterate(sh, mu, c, m, todo, pairs, ch).Stepped?
    ensures var o := StepIterate(sh, mu, c, m, todo, pairs, ch); Keeps(sh, c, o.sh, o.c)
  {
    var c' := StepIterate(sh, mu, c, m, todo, pairs, ch).c;
    if todo != {} {
      IterateNext(sh, c, m, todo, pairs, ch);
    }
    Local(sh, c, c');
  }

  lemma IterateNext(sh: Shared, c: Call, m: MapId, todo: set<Key>, pairs: map<Key, PoolId>, ch: Choice)
    requires PCOk(sh, c) && c.pc == Iterate(m, todo, pairs) && ch.key in todo
    requires StepIterate(sh, None, c, m, todo, pairs, ch).Stepped?
    ensures PCOk(sh, StepIterate(sh, None, c, m, todo, pairs, ch).c)
  {
    assert Held(sh, c, ch.key, MapAt(sh, m)[ch.key]);
    var a := Ans(PtrAt(sh, MapAt(sh, m)[ch.key]));
    assert Seen(sh.log, c.start, ch.key, a);
    if a.Some? {
      var pairs' := pairs[ch.key := a.value];
      assert forall k :: k in pairs' ==> Seen(sh.log, c.start, k, Some(pairs'[k]));
    }
  }

  // ---- Steps that move a pointer ----

  /** The entry that the abstract map consults for key k. */
  ghost predicate Linked(sh: Shared, k: Key, e: EntryId) {
    if k in ReadMap(sh) then ReadMap(sh)[k] == e
    else sh.read.amended && k in DirtyMap(sh) && DirtyMap(sh)[k] == e
  }

  lemma LinkedOwner(sh: Shared, k: Key, e: EntryId)
    requires Basic(sh) && Linked(sh, k, e)
    ensures e in sh.entries && e in sh.owner && sh.owner[e] == k
  {
    if k in ReadMap(sh) {
      assert sh.maps[sh.read.m][k] == e;
    } else {
      assert sh.maps[sh.dirty.value][k] == e;
    }
  }

  lemma AbsOther(sh: Shared, sh': Shared, k: Key, e: EntryId, k': Key)
    requires Basic(sh) && Linked(sh, k, e) && k' != k
    requires sh' == sh.(entries := sh'.entries, log := sh'.log)
    requires sh'.entries.Keys == sh.entries.Keys
    requires forall x :: x in sh.entries && x != e ==> sh'.entries[x] == sh.entries[x]
    ensures AbsGet(sh', k') == AbsGet(sh, k')
  {
    LinkedOwner(sh, k, e);
    if k' in ReadMap(sh) {
      LinkedOwner(sh, k', ReadMap(sh)[k']);
    } else if sh.read.amended && k' in DirtyMap(sh) {
      LinkedOwner(sh, k', DirtyMap(sh)[k']);
    }
  }

  /** Writing a live pointer into the linked entry of k is the plain map's update of k. */
  lemma WriteLinked(sh: Shared, k: Key, e: EntryId, p: Ptr, ev: Event)
    requires Basic(sh) && Matches(sh) && Legal(sh.log) && Linked(sh, k, e)
    requires PtrAt(sh, e) != Expunged && p != Expunged && ev.key == k
    requires Look(Apply(Replay(sh.log), ev), k) == Ans(p)
    requires ev.Insert? ==> Ans(PtrAt(sh, e)).None?
    ensures var sh' := Record(SetPtr(sh, e, p), ev);
            Basic(sh') && Matches(sh') && Legal(sh'.log) && GuarFree(sh, sh')
  {
    var sh' := Record(SetPtr(sh, e, p), ev);
    LinkedOwner(sh, k, e);
    ReplayPush(sh.log, ev);
    assert Look(Replay(sh.log), k) == AbsGet(sh, k) == Ans(PtrAt(sh, e));
    LegalPush(sh.log, ev);
    assert sh'.entries.Keys == sh.entries.Keys;
    assert ReadMap(sh') == ReadMap(sh) && DirtyMap(sh') == DirtyMap(sh);
    forall k' ensures Look(Replay(sh'.log), k') == AbsGet(sh', k') {
      if k' != k {
        AbsOther(sh, sh', k, e, k');
      }
    }
    forall x | x in sh'.exposed ensures sh'.entries[x] == Expunged || IsRead(sh', x) {
      assert sh.entries[x] == Expunged || IsRead(sh, x);
    }
    assert Basic(sh');
  }

  /** A step that moved one pointer only has to establish its own next assertion. */
  lemma Moved(sh: Shared, c: Call, sh': Shared, c': Call)
    requires Before(sh, c) && Basic(sh') && Matches(sh') && Legal(sh'.log) && GuarFree(sh, sh')
    requires Logs(sh, c, sh', c') && PCOk(sh', c')
    requires Holding(c.pc) ==> PhaseOf(c) == PhaseOf(c')
    ensures Keeps(sh, c, sh', c')
  {
    if Holding(c.pc) {
      CacheStable(sh, sh', PhaseOf(c));
    }
  }

  /** An update that has taken effect may return. */
  lemma UpdateReturns(sh: Shared, c: Call)
    requires c.lin.Some? && !c.op.Load? && !c.op.Range?
    requires c.pc == Done(if c.op.LoadOrStore? then Actual(Some(c.op.pool), false) else Nothing)
    ensures PCOk(sh, c)
  {
  }

  lemma SwapIs(sh: Shared, mu: Option<Tid>, c: Call, e: EntryId, p: Ptr)
    requires PtrAt(sh, e) == p && !c.op.Load? && !c.op.Range?
    ensures var q := if c.op.Delete? then Nil else Box(c.id, c.op.pool);
            var a := if c.op.LoadOrStore? then Actual(Some(c.op.pool), false) else Nothing;
            StepCas(sh, mu, c, e, p) == Commit(SetPtr(sh, e, q), mu, c, UpdateEvent(c), Done(a))
  {
  }

  lemma SwapEntry(sh: Shared, mu: Option<Tid>, c: Call, e: EntryId, p: Ptr)
    requires Before(sh, c) && c.pc == CasEntry(e, p) && PtrAt(sh, e) == p
    ensures var o := StepCas(sh, mu, c, e, p); o.Stepped? && Keeps(sh, c, o.sh, o.c)
  {
    assert IsRead(sh, e) && Linked(sh, c.op.key, e);
    var q := if c.op.Delete? then Nil else Box(c.id, c.op.pool);
    var a := if c.op.LoadOrStore? then Actual(Some(c.op.pool), false) else Nothing;
    var o := Commit(SetPtr(sh, e, q), mu, c, UpdateEvent(c), Done(a));
    WriteLinked(sh, c.op.key, e, q, UpdateEvent(c));
    SwapIs(sh, mu, c, e, p);
    UpdateReturns(o.sh, o.c);
    Moved(sh, c, o.sh, o.c);
  }

  lemma OfCas(sh: Shared, mu: Option<Tid>, c: Call, e: EntryId, p: Ptr)
    requires Before(sh, c) && c.pc == CasEntry(e, p)
    ensures var o := StepCas(sh, mu, c, e, p); o.Stepped? && Keeps(sh, c, o.sh, o.c)
  {
    if PtrAt(sh, e) == p {
      SwapEntry(sh, mu, c, e, p);
    } else {
      Local(sh, c, c.(pc := TryEntry(e)));
    }
  }

  lemma StoreLocked(sh: Shared, c: Call, e: EntryId, inRead: bool, pc: PC)
    requires Before(sh, c) && LockedEntry(sh, c, e, inRead) && Holding(c.pc) && PhaseOf(c) == Quiet
    requires c.op.LoadOrStore? ==> PtrAt(sh, e) == Nil
    requires pc == if c.op.Store? then Unlock(Return(Nothing)) else AfterTry(Actual(Some(c.op.pool), false), inRead)
    ensures Keeps(sh, c, Record(SetPtr(sh, e, Box(c.id, c.op.pool)), UpdateEvent(c)),
                  c.(lin := Some(|sh.log|), pc := pc))
  {
    assert Linked(sh, c.op.key, e);
    WriteLinked(sh, c.op.key, e, Box(c.id, c.op.pool), UpdateEvent(c));
    var sh', c' := Record(SetPtr(sh, e, Box(c.id, c.op.pool)), UpdateEvent(c)), c.(lin := Some(|sh.log|), pc := pc);
    StoredReturns(sh', c', inRead);
    Moved(sh, c, sh', c');
  }

  lemma StoredReturns(sh: Shared, c: Call, inRead: bool)
    requires c.lin.Some? && Writes(c) && (!inRead ==> sh.read.amended)
    requires c.pc == if c.op.Store? then Unlock(Return(Nothing)) else AfterTry(Actual(Some(c.op.pool), false), inRead)
    ensures PCOk(sh, c)
  {
  }

  /** Under the mutex the entry is never expunged, so a failed attempt has found a value. */
  lemma HitLocked(sh: Shared, c: Call, e: EntryId, inRead: bool)
    requires Before(sh, c) && LockedEntry(sh, c, e, inRead) && Holding(c.pc) && PhaseOf(c) == Quiet
    requires c.op.LoadOrStore? && PtrAt(sh, e).Box?
    ensures Keeps(sh, c, sh, c.(pc := AfterTry(Actual(Ans(PtrAt(sh, e)), true), inRead)))
  {
    assert Linked(sh, c.op.key, e);
    SeenNow(sh.log, c.start, c.op.key);
    assert Look(Replay(sh.log), c.op.key) == AbsGet(sh, c.op.key) == Ans(PtrAt(sh, e));
    Local(sh, c, c.(pc := AfterTry(Actual(Ans(PtrAt(sh, e)), true), inRead)));
  }

  lemma OfLockedTry(sh: Shared, mu: Option<Tid>, c: Call, e: EntryId, inRead: bool)
    requires Before(sh, c) && c.pc == LockedTry(e, inRead)
    ensures var o := StepLockedTry(sh, mu, c, e, inRead); o.Stepped? && Keeps(sh, c, o.sh, o.c)
  {
    if c.op.Store? {
      StoreLocked(sh, c, e, inRead, Unlock(Return(Nothing)));
    } else if PtrAt(sh, e) == Nil {
      Local(sh, c, c.(pc := LockedCas(e, inRead)));
    } else {
      HitLocked(sh, c, e, inRead);
    }
  }

  lemma OfLockedCas(sh: Shared, mu: Option<Tid>, c: Call, e: EntryId, inRead: bool)
    requires Before(sh, c) && c.pc == LockedCas(e, inRead)
    ensures var o := StepLockedCas(sh, mu, c, e, inRead); o.Stepped? && Keeps(sh, c, o.sh, o.c)
  {
    if PtrAt(sh, e) == Nil {
      StoreLocked(sh, c, e, inRead, AfterTry(Actual(Some(c.op.pool), false), inRead));
    } else {
      Local(sh, c, c.(pc := LockedTry(e, inRead)));
    }
  }

  // ---- Steps that change what is cached, and not what the map means ----

  lemma UnexpungeEntry(sh: Shared, c: Call, e: EntryId)
    requires Before(sh, c) && c.pc == Unexpunge(e) && PtrAt(sh, e) == Expunged
    ensures Keeps(sh, c, SetPtr(sh, e, Nil), c.(pc := Link(e)))
  {
    assert Mirrored(sh, c.op.key);
    SwapNil(sh, c.op.key, e, Nil);
    UnexpungeCache(sh, c.op.key, e);
    Recached(sh, c, SetPtr(sh, e, Nil), c.(pc := Link(e)));
  }

  lemma OfUnexpunge(sh: Shared, mu: Option<Tid>, c: Call, e: EntryId)
    requires Before(sh, c) && c.pc == Unexpunge(e)
    ensures var o := StepUnexpunge(sh, mu, c, e); o.Stepped? && Keeps(sh, c, o.sh, o.c)
  {
    if PtrAt(sh, e) == Expunged {
      UnexpungeEntry(sh, c, e);
    } else {
      Local(sh, c, c.(pc := LockedTry(e, true)));
    }
  }

  /** Moving the read entry of k between nil and expunged changes no answer. */
  lemma SwapNil(sh: Shared, k: Key, e: EntryId, p: Ptr)
    requires Basic(sh) && Matches(sh) && k in ReadMap(sh) && ReadMap(sh)[k] == e
    requires !PtrAt(sh, e).Box? && !p.Box?
    ensures var sh' := SetPtr(sh, e, p);
            Basic(sh') && Matches(sh') && Guar(sh, sh') && forall k' :: AbsGet(sh', k') == AbsGet(sh, k')
  {
    LinkedOwner(sh, k, e);
    var sh' := SetPtr(sh, e, p);
    assert sh'.entries.Keys == sh.entries.Keys;
    assert ReadMap(sh') == ReadMap(sh) && DirtyMap(sh') == DirtyMap(sh);
    forall k' ensures AbsGet(sh', k') == AbsGet(sh, k') {
    }
    forall x | x in sh'.exposed ensures sh'.entries[x] == Expunged || IsRead(sh', x) {
      assert sh.entries[x] == Expunged || IsRead(sh, x);
    }
  }

  /** Any key other than k has another entry. */
  lemma OtherMirrored(sh: Shared, k: Key, e: EntryId, p: Ptr, k': Key)
    requires Basic(sh) && k in ReadMap(sh) && ReadMap(sh)[k] == e
    requires k' in ReadMap(sh) && k' != k && Mirrored(sh, k')
    ensures Mirrored(SetPtr(sh, e, p), k')
  {
    LinkedOwner(sh, k, e);
    LinkedOwner(sh, k', ReadMap(sh)[k']);
  }

  lemma UnexpungeCache(sh: Shared, k: Key, e: EntryId)
    requires Basic(sh) && Cache(sh, Quiet) && k in ReadMap(sh) && ReadMap(sh)[k] == e && PtrAt(sh, e) == Expunged
    ensures Cache(SetPtr(sh, e, Nil), Unlinked(k))
  {
    assert Mirrored(sh, k);
    forall k' | k' in ReadMap(sh) && k' != k ensures Mirrored(SetPtr(sh, e, Nil), k') {
      OtherMirrored(sh, k, e, Nil, k');
    }
  }

  /** A step that changes only caching has to establish the shared invariant and its next assertion. */
  lemma Recached(sh: Shared, c: Call, sh': Shared, c': Call)
    requires Before(sh, c) && Holding(c.pc) && Basic(sh') && Guar(sh, sh') && sh'.log == sh.log
    requires forall k :: AbsGet(sh', k) == AbsGet(sh, k)
    requires c' == c.(pc := c'.pc) && PCOk(sh', c') && Cache(sh', PhaseOf(c'))
    ensures Keeps(sh, c, sh', c')
  {
  }

  /** An unpublished dirty map may be rewritten with entries of the right keys. */
  lemma WriteDirty(sh: Shared, m: map<Key, EntryId>)
    requires Basic(sh) && sh.dirty.Some? && sh.dirty.value !in sh.published
    requires forall k :: k in m ==> m[k] in sh.entries && sh.owner[m[k]] == k
    ensures var sh' := SetDirty(sh, m);
            Basic(sh') && Guar(sh, sh') && ReadMap(sh') == ReadMap(sh) && DirtyMap(sh') == m
  {
    var sh' := SetDirty(sh, m);
    assert ReadMap(sh') == ReadMap(sh);
    forall x | x in sh'.exposed ensures sh'.entries[x] == Expunged || IsRead(sh', x) {
      assert sh.entries[x] == Expunged || IsRead(sh, x);
    }
  }

  /** Putting the read entry of k into dirty, which lacks nothing but k and the keys in todo. */
  lemma MirrorKey(sh: Shared, k: Key)
    requires Basic(sh) && sh.dirty.Some? && sh.dirty.value !in sh.published && NoneExpunged(sh, DirtyMap(sh))
    requires k in ReadMap(sh) && PtrAt(sh, ReadMap(sh)[k]) != Expunged
    ensures var sh' := SetDirty(sh, DirtyMap(sh)[k := ReadMap(sh)[k]]);
            && Basic(sh') && Guar(sh, sh') && ReadMap(sh') == ReadMap(sh) && sh' == sh.(maps := sh'.maps)
            && DirtyMap(sh') == DirtyMap(sh)[k := ReadMap(sh)[k]] && NoneExpunged(sh', DirtyMap(sh'))
            && Mirrored(sh', k)
            && (forall x :: x in ReadMap(sh) && x != k && Mirrored(sh, x) ==> Mirrored(sh', x))
  {
    var m := DirtyMap(sh)[k := ReadMap(sh)[k]];
    LinkedOwner(sh, k, ReadMap(sh)[k]);
    forall x | x in m ensures m[x] in sh.entries && sh.owner[m[x]] == x {
      if x != k { assert sh.maps[sh.dirty.value][x] == m[x]; }
    }
    WriteDirty(sh, m);
  }

  lemma LinkIs(sh: Shared, mu: Option<Tid>, c: Call, e: EntryId)
    requires !c.op.Range? && sh.dirty.Some?
    ensures StepLink(sh, mu, c, e) == Go(SetDirty(sh, DirtyMap(sh)[c.op.key := e]), mu, c, LockedTry(e, true))
  {
  }

  lemma LinkCache(sh: Shared, k: Key)
    requires Basic(sh) && Cache(sh, Unlinked(k))
    ensures var sh' := SetDirty(sh, DirtyMap(sh)[k := ReadMap(sh)[k]]);
            && Basic(sh') && Guar(sh, sh') && Cache(sh', Quiet) && sh' == sh.(maps := sh'.maps)
            && ReadMap(sh') == ReadMap(sh) && k in DirtyMap(sh') && forall x :: AbsGet(sh', x) == AbsGet(sh, x)
  {
    MirrorKey(sh, k);
  }

  lemma OfLink(sh: Shared, mu: Option<Tid>, c: Call, e: EntryId)
    requires Before(sh, c) && c.pc == Link(e)
    ensures var o := StepLink(sh, mu, c, e); o.Stepped? && Keeps(sh, c, o.sh, o.c)
  {
    LinkCache(sh, c.op.key);
    LinkIs(sh, mu, c, e);
    var sh', c' := SetDirty(sh, DirtyMap(sh)[c.op.key := e]), c.(pc := LockedTry(e, true));
    LinkedTry(sh', c', e);
    Recached(sh, c, sh', c');
  }

  lemma LinkedTry(sh: Shared, c: Call, e: EntryId)
    requires c.pc == LockedTry(e, true) && c.lin.None? && Writes(c) && Cache(sh, Quiet) && sh.dirty.Some?
    requires c.op.key in ReadMap(sh) && ReadMap(sh)[c.op.key] == e && c.op.key in DirtyMap(sh)
    ensures PCOk(sh, c) && PhaseOf(c) == Quiet
  {
    assert Mirrored(sh, c.op.key);
  }

  lemma OfSlowDirty(sh: Shared, mu: Option<Tid>, c: Call, r: ReadOnly)
    requires Before(sh, c) && c.pc == SlowDirty(r)
    ensures var o := StepSlowDirty(sh, mu, c, r); o.Stepped? && Keeps(sh, c, o.sh, o.c)
  {
    if c.op.Delete? {
      DeleteDirty(sh, mu, c, r);
    } else if c.op.Load? {
      LookDirty(sh, mu, c, r);
    } else {
      Local(sh, c, StepSlowDirty(sh, mu, c, r).c);
    }
  }

  lemma LookDirty(sh: Shared, mu: Option<Tid>, c: Call, r: ReadOnly)
    requires Before(sh, c) && c.pc == SlowDirty(r) && c.op.Load?
    ensures var o := StepSlowDirty(sh, mu, c, r); o.Stepped? && Keeps(sh, c, o.sh, o.c)
  {
    var k := c.op.key;
    var after := if k in DirtyMap(sh) then Use(DirtyMap(sh)[k]) else Return(Value(None));
    DirtyAnswers(sh, c);
    Local(sh, c, c.(pc := Miss(after)));
  }

  lemma DirtyAnswers(sh: Shared, c: Call)
    requires Basic(sh) && Matches(sh) && sh.read.amended && c.start <= |sh.log| && c.lin.None?
    requires c.op.Load? && c.op.key !in ReadMap(sh)
    ensures var k := c.op.key;
            PCOk(sh, c.(pc := Miss(if k in DirtyMap(sh) then Use(DirtyMap(sh)[k]) else Return(Value(None)))))
  {
    var k := c.op.key;
    SeenNow(sh.log, c.start, k);
    assert Look(Replay(sh.log), k) == AbsGet(sh, k);
    if k in DirtyMap(sh) {
      LinkedOwner(sh, k, DirtyMap(sh)[k]);
    }
  }

  lemma DeleteDirty(sh: Shared, mu: Option<Tid>, c: Call, r: ReadOnly)
    requires Before(sh, c) && c.pc == SlowDirty(r) && c.op.Delete?
    ensures var o := StepSlowDirty(sh, mu, c, r); o.Stepped? && Keeps(sh, c, o.sh, o.c)
  {
    var m := DirtyMap(sh) - {c.op.key};
    forall x | x in m ensures m[x] in sh.entries && sh.owner[m[x]] == x {
      assert sh.maps[sh.dirty.value][x] == m[x];
    }
    WriteDirty(sh, m);
    var sh1 := SetDirty(sh, m);
    assert Cache(sh1, Quiet) by {
      forall x | x in ReadMap(sh1) ensures Mirrored(sh1, x) {
        assert Mirrored(sh, x);
      }
    }
    DeleteMeaning(sh, m, c.id, c.op.key);
    Recorded(sh, c, sh1, UpdateEvent(c), Unlock(Return(Nothing)));
  }

  lemma DeleteMeaning(sh: Shared, m: map<Key, EntryId>, id: CallId, k: Key)
    requires Basic(sh) && Matches(sh) && sh.dirty.Some? && sh.dirty.value != sh.read.m
    requires m == DirtyMap(sh) - {k} && k !in ReadMap(sh)
    ensures var sh' := Record(SetDirty(sh, m), Remove(id, k)); Matches(sh')
  {
    var sh' := Record(SetDirty(sh, m), Remove(id, k));
    ReplayPush(sh.log, Remove(id, k));
    assert ReadMap(sh') == ReadMap(sh) && DirtyMap(sh') == m;
    forall x ensures Look(Replay(sh'.log), x) == AbsGet(sh', x) {
      assert Look(Replay(sh.log), x) == AbsGet(sh, x);
    }
  }

  lemma RecordBasic(sh: Shared, ev: Event, ph: Phase)
    requires Basic(sh) && Cache(sh, ph)
    ensures Basic(Record(sh, ev)) && Cache(Record(sh, ev), ph)
  {
    var sh' := Record(sh, ev);
    assert ReadMap(sh') == ReadMap(sh) && DirtyMap(sh') == DirtyMap(sh);
    forall x | x in sh'.exposed ensures sh'.entries[x] == Expunged || IsRead(sh', x) {
      assert sh.entries[x] == Expunged || IsRead(sh, x);
    }
    forall x | x in ReadMap(sh') && Mirrored(sh, x) ensures Mirrored(sh', x) {
    }
  }

  /** A holder's step that rewrote dirty and takes effect with event ev. */
  lemma Recorded(sh: Shared, c: Call, sh1: Shared, ev: Event, pc: PC)
    requires Before(sh, c) && Holding(c.pc) && c.lin.None? && !c.op.Range? && !c.op.Load? && ev == UpdateEvent(c)
    requires Basic(sh1) && Cache(sh1, Quiet) && Guar(sh, sh1) && sh1.log == sh.log && Matches(Record(sh1, ev))
    requires forall e :: e in sh.entries ==> sh1.entries[e] == sh.entries[e]
    requires ev.Insert? ==> AbsGet(sh, ev.key).None?
    requires var c' := c.(lin := Some(|sh.log|), pc := pc); PCOk(Record(sh1, ev), c') && PhaseOf(c') == Quiet
    ensures Keeps(sh, c, Record(sh1, ev), c.(lin := Some(|sh.log|), pc := pc))
  {
    RecordBasic(sh1, ev, Quiet);
    assert Look(Replay(sh.log), ev.key) == AbsGet(sh, ev.key);
    LegalPush(sh.log, ev);
    assert Guar(sh, Record(sh1, ev));
  }

  lemma NewDirty(sh: Shared)
    requires Basic(sh) && Cache(sh, Quiet) && !sh.read.amended
    ensures sh.dirty.None?
    ensures var sh' := sh.(dirty := Some(sh.nextMap), maps := sh.maps[sh.nextMap := map[]], nextMap := sh.nextMap + 1);
            && ReadMap(sh') == ReadMap(sh) && Basic(sh') && Cache(sh', Building(ReadMap(sh).Keys)) && Guar(sh, sh')
            && forall k :: AbsGet(sh', k) == AbsGet(sh, k)
  {
    var sh' := sh.(dirty := Some(sh.nextMap), maps := sh.maps[sh.nextMap := map[]], nextMap := sh.nextMap + 1);
    assert ReadMap(sh') == ReadMap(sh) && DirtyMap(sh') == map[];
    forall x | x in sh'.exposed ensures sh'.entries[x] == Expunged || IsRead(sh', x) {
      assert sh.entries[x] == Expunged || IsRead(sh, x);
    }
  }

  lemma MakeDirtyIs(sh: Shared, mu: Option<Tid>, c: Call, r: ReadOnly)
    requires sh.dirty.None?
    ensures var sh' := sh.(dirty := Some(sh.nextMap), maps := sh.maps[sh.nextMap := map[]], nextMap := sh.nextMap + 1);
            StepMakeDirty(sh, mu, c, r) == Go(sh', mu, c, DirtyPick(r, ReadMap(sh).Keys))
  {
  }

  lemma OfMakeDirty(sh: Shared, mu: Option<Tid>, c: Call, r: ReadOnly)
    requires Before(sh, c) && c.pc == MakeDirty(r)
    ensures var o := StepMakeDirty(sh, mu, c, r); o.Stepped? && Keeps(sh, c, o.sh, o.c)
  {
    NewDirty(sh);
    MakeDirtyIs(sh, mu, c, r);
    var sh' := sh.(dirty := Some(sh.nextMap), maps := sh.maps[sh.nextMap := map[]], nextMap := sh.nextMap + 1);
    Recached(sh, c, sh', c.(pc := DirtyPick(r, ReadMap(sh).Keys)));
  }

  lemma OfDirtyPick(sh: Shared, mu: Option<Tid>, c: Call, r: ReadOnly, todo: set<Key>, ch: Choice)
    requires Before(sh, c) && c.pc == DirtyPick(r, todo)
    requires StepDirtyPick(sh, mu, c, r, todo, ch).Stepped?
    ensures var o := StepDirtyPick(sh, mu, c, r, todo, ch); Keeps(sh, c, o.sh, o.c)
  {
    Local(sh, c, StepDirtyPick(sh, mu, c, r, todo, ch).c);
  }

  lemma OfDirtyLoad(sh: Shared, mu: Option<Tid>, c: Call, r: ReadOnly, todo: set<Key>, k: Key)
    requires Before(sh, c) && c.pc == DirtyLoad(r, todo, k)
    ensures var o := StepDirtyLoad(sh, mu, c, r, todo, k); o.Stepped? && Keeps(sh, c, o.sh, o.c)
  {
    Local(sh, c, StepDirtyLoad(sh, mu, c, r, todo, k).c);
  }

  lemma ExpungeNil(sh: Shared, c: Call, r: ReadOnly, todo: set<Key>, k: Key, e: EntryId)
    requires Before(sh, c) && c.pc == DirtyCas(r, todo, k) && ReadMap(sh)[k] == e && PtrAt(sh, e) == Nil
    ensures Keeps(sh, c, SetPtr(sh, e, Expunged), c.(pc := DirtyPick(r, todo - {k})))
  {
    SwapNil(sh, k, e, Expunged);
    ExpungeCache(sh, todo, k, e);
    Recached(sh, c, SetPtr(sh, e, Expunged), c.(pc := DirtyPick(r, todo - {k})));
  }

  lemma OfDirtyCas(sh: Shared, mu: Option<Tid>, c: Call, r: ReadOnly, todo: set<Key>, k: Key)
    requires Before(sh, c) && c.pc == DirtyCas(r, todo, k)
    ensures var o := StepDirtyCas(sh, mu, c, r, todo, k); o.Stepped? && Keeps(sh, c, o.sh, o.c)
  {
    var e := ReadMap(sh)[k];
    if PtrAt(sh, e) == Nil {
      ExpungeNil(sh, c, r, todo, k, e);
    } else {
      Local(sh, c, c.(pc := DirtyLoad(r, todo, k)));
    }
  }

  lemma ExpungeCache(sh: Shared, todo: set<Key>, k: Key, e: EntryId)
    requires Basic(sh) && Cache(sh, Building(todo)) && k in todo && ReadMap(sh)[k] == e
    ensures Cache(SetPtr(sh, e, Expunged), Building(todo - {k}))
  {
    var sh' := SetPtr(sh, e, Expunged);
    LinkedOwner(sh, k, e);
    forall k' | k' in ReadMap(sh') && k' !in todo - {k} ensures Mirrored(sh', k') {
      if k' != k {
        OtherMirrored(sh, k, e, Expunged, k');
      }
    }
    forall k' | k' in todo - {k} ensures PtrAt(sh', ReadMap(sh')[k']) != Expunged {
      LinkedOwner(sh, k', ReadMap(sh)[k']);
    }
    forall k' | k' in DirtyMap(sh') ensures PtrAt(sh', DirtyMap(sh')[k']) != Expunged {
      assert sh.owner[sh.maps[sh.dirty.value][k']] == k';
    }
  }

  lemma DirtyPutIs(sh: Shared, mu: Option<Tid>, c: Call, r: ReadOnly, todo: set<Key>, k: Key)
    requires sh.dirty.Some? && k in ReadMap(sh)
    ensures StepDirtyPut(sh, mu, c, r, todo, k)
            == Go(SetDirty(sh, DirtyMap(sh)[k := ReadMap(sh)[k]]), mu, c, DirtyPick(r, todo - {k}))
  {
  }

  lemma DirtyPutCache(sh: Shared, todo: set<Key>, k: Key)
    requires Basic(sh) && Cache(sh, Building(todo)) && k in todo
    ensures var sh' := SetDirty(sh, DirtyMap(sh)[k := ReadMap(sh)[k]]);
            && Basic(sh') && Guar(sh, sh') && Cache(sh', Building(todo - {k})) && sh' == sh.(maps := sh'.maps)
            && ReadMap(sh') == ReadMap(sh) && forall x :: AbsGet(sh', x) == AbsGet(sh, x)
  {
    MirrorKey(sh, k);
  }

  lemma OfDirtyPut(sh: Shared, mu: Option<Tid>, c: Call, r: ReadOnly, todo: set<Key>, k: Key)
    requires Before(sh, c) && c.pc == DirtyPut(r, todo, k)
    ensures var o := StepDirtyPut(sh, mu, c, r, todo, k); o.Stepped? && Keeps(sh, c, o.sh, o.c)
  {
    DirtyPutCache(sh, todo, k);
    DirtyPutIs(sh, mu, c, r, todo, k);
    Recached(sh, c, SetDirty(sh, DirtyMap(sh)[k := ReadMap(sh)[k]]), c.(pc := DirtyPick(r, todo - {k})));
  }

  lemma OfAmend(sh: Shared, mu: Option<Tid>, c: Call, r: ReadOnly)
    requires Before(sh, c) && c.pc == Amend(r)
    ensures var o := StepAmend(sh, mu, c, r); o.Stepped? && Keeps(sh, c, o.sh, o.c)
  {
    var o := StepAmend(sh, mu, c, r);
    assert ReadMap(o.sh) == ReadMap(sh) && DirtyMap(o.sh) == DirtyMap(sh);
    forall x | x in o.sh.exposed ensures o.sh.entries[x] == Expunged || IsRead(o.sh, x) {
      assert sh.entries[x] == Expunged || IsRead(sh, x);
    }
    forall x | x in ReadMap(o.sh) ensures Mirrored(o.sh, x) {
      assert Mirrored(sh, x);
    }
    Recached(sh, c, o.sh, o.c);
  }

  /** The shared state after m.dirty[key] = newEntry(value), before the event is recorded. */
  function WithEntry(sh: Shared, k: Key, p: Ptr): Shared
    requires sh.dirty.Some?
  {
    SetDirty(sh, DirtyMap(sh)[k := sh.nextEntry])
    .(entries := sh.entries[sh.nextEntry := p], owner := sh.owner[sh.nextEntry := k], nextEntry := sh.nextEntry + 1)
  }

  lemma OfInsertNew(sh: Shared, mu: Option<Tid>, c: Call)
    requires Before(sh, c) && c.pc == InsertNew
    ensures var o := StepInsertNew(sh, mu, c); o.Stepped? && Keeps(sh, c, o.sh, o.c)
  {
    InsertIs(sh, mu, c);
    InsertKeeps(sh, c, if c.op.Store? then Nothing else Actual(Some(c.op.pool), false));
  }

  lemma EntryKeeps(sh: Shared, k: Key, p: Ptr, ev: Event)
    requires Basic(sh) && Matches(sh) && Cache(sh, Quiet) && sh.dirty.Some? && sh.dirty.value !in sh.published
    requires sh.read.amended && k !in ReadMap(sh) && (ev.Put? || ev.Insert?) && ev.key == k
    requires p.Box? && ev.pool == p.pool
    ensures var sh' := WithEntry(sh, k, p);
            Basic(sh') && Cache(sh', Quiet) && Guar(sh, sh') && sh'.log == sh.log && Matches(Record(sh', ev))
    ensures forall e :: e in sh.entries ==> WithEntry(sh, k, p).entries[e] == sh.entries[e]
  {
    EntryBasic(sh, k, p);
    EntryCache(sh, k, p);
    EntryMeaning(sh, k, p, ev);
  }

  lemma InsertKeeps(sh: Shared, c: Call, answer: Answer)
    requires Before(sh, c) && c.pc == InsertNew
    requires answer == if c.op.Store? then Nothing else Actual(Some(c.op.pool), false)
    ensures Keeps(sh, c, Record(WithEntry(sh, c.op.key, Box(c.id, c.op.pool)), UpdateEvent(c)),
                  c.(lin := Some(|sh.log|), pc := Unlock(Return(answer))))
  {
    var sh1 := WithEntry(sh, c.op.key, Box(c.id, c.op.pool));
    EntryKeeps(sh, c.op.key, Box(c.id, c.op.pool), UpdateEvent(c));
    StoredReturns(Record(sh1, UpdateEvent(c)), c.(lin := Some(|sh.log|), pc := Unlock(Return(answer))), true);
    Recorded(sh, c, sh1, UpdateEvent(c), Unlock(Return(answer)));
  }

  lemma InsertIs(sh: Shared, mu: Option<Tid>, c: Call)
    requires sh.dirty.Some? && Writes(c)
    ensures var answer := if c.op.Store? then Nothing else Actual(Some(c.op.pool), false);
            StepInsertNew(sh, mu, c)
            == Commit(WithEntry(sh, c.op.key, Box(c.id, c.op.pool)), mu, c, UpdateEvent(c), Unlock(Return(answer)))
  {
  }

  lemma EntryBasic(sh: Shared, k: Key, p: Ptr)
    requires Basic(sh) && sh.dirty.Some? && sh.dirty.value !in sh.published && p.Box?
    ensures var sh' := WithEntry(sh, k, p);
            Basic(sh') && ReadMap(sh') == ReadMap(sh) && DirtyMap(sh') == DirtyMap(sh)[k := sh.nextEntry]
            && Guar(sh, sh')
  {
    var sh' := WithEntry(sh, k, p);
    assert ReadMap(sh') == ReadMap(sh);
    assert DirtyMap(sh') == DirtyMap(sh)[k := sh.nextEntry];
    forall x | x in sh'.exposed ensures sh'.entries[x] == Expunged || IsRead(sh', x) {
      assert sh.entries[x] == Expunged || IsRead(sh, x);
    }
    forall m, x | m in sh'.maps && x in sh'.maps[m]
      ensures sh'.maps[m][x] in sh'.entries && sh'.owner[sh'.maps[m][x]] == x
    {
      if m == sh.dirty.value {
        assert x == k || sh.maps[m][x] in sh.entries;
      } else {
        assert sh.maps[m][x] in sh.entries;
      }
    }
  }

  lemma EntryMeaning(sh: Shared, k: Key, p: Ptr, ev: Event)
    requires Basic(sh) && Matches(sh) && sh.dirty.Some? && sh.dirty.value !in sh.published && p.Box?
    requires sh.read.amended && k !in ReadMap(sh) && (ev.Put? || ev.Insert?) && ev.key == k && ev.pool == p.pool
    ensures Matches(Record(WithEntry(sh, k, p), ev))
  {
    EntryBasic(sh, k, p);
    var sh' := Record(WithEntry(sh, k, p), ev);
    ReplayPush(sh.log, ev);
    assert ReadMap(sh') == ReadMap(sh) && DirtyMap(sh') == DirtyMap(sh)[k := sh.nextEntry];
    forall x ensures Look(Replay(sh'.log), x) == AbsGet(sh', x) {
      assert Look(Replay(sh.log), x) == AbsGet(sh, x);
      if x in ReadMap(sh) {
        assert sh.maps[sh.read.m][x] in sh.entries;
      } else if x in DirtyMap(sh) {
        assert sh.maps[sh.dirty.value][x] in sh.entries;
      }
    }
  }

  lemma EntryCache(sh: Shared, k: Key, p: Ptr)
    requires Basic(sh) && Cache(sh, Quiet) && sh.dirty.Some? && p.Box? && k !in ReadMap(sh)
    ensures Cache(WithEntry(sh, k, p), Quiet)
  {
    EntryBasic(sh, k, p);
    var sh' := WithEntry(sh, k, p);
    forall x | x in ReadMap(sh') ensures Mirrored(sh', x) {
      assert Mirrored(sh, x);
      assert sh.maps[sh.read.m][x] in sh.entries;
    }
    forall x | x in DirtyMap(sh') ensures PtrAt(sh', DirtyMap(sh')[x]) != Expunged {
      if x != k {
        assert sh.maps[sh.dirty.value][x] in sh.entries;
      }
    }
  }

  /** Counting a miss while dirty exists disturbs nothing. */
  lemma CountMiss(sh: Shared)
    requires Basic(sh) && Cache(sh, Quiet) && sh.dirty.Some?
    ensures var sh' := sh.(misses := sh.misses + 1);
            Basic(sh') && Cache(sh', Quiet) && Guar(sh, sh') && forall k :: AbsGet(sh', k) == AbsGet(sh, k)
  {
    var sh' := sh.(misses := sh.misses + 1);
    assert ReadMap(sh') == ReadMap(sh) && DirtyMap(sh') == DirtyMap(sh);
    forall x | x in sh'.exposed ensures sh'.entries[x] == Expunged || IsRead(sh', x) {
      assert sh.entries[x] == Expunged || IsRead(sh, x);
    }
    forall x | x in ReadMap(sh') ensures Mirrored(sh', x) {
      assert Mirrored(sh, x);
    }
  }

  lemma OfMiss(sh: Shared, c: Call, after: After, pc: PC)
    requires Before(sh, c) && c.pc == Miss(after) && (pc == Unlock(after) || pc == Promote(after))
    ensures Keeps(sh, c, sh.(misses := sh.misses + 1), c.(pc := pc))
  {
    var sh' := sh.(misses := sh.misses + 1);
    assert Cache(sh, Quiet);
    CountMiss(sh);
    AfterStable(sh, sh', c, after);
    MissOk(sh', c, c.(pc := pc), after);
    Recached(sh, c, sh', c.(pc := pc));
  }

  lemma MissOk(sh: Shared, c: Call, c': Call, after: After)
    requires AfterOk(sh, c, after) && c' == c.(pc := c'.pc) && !c.op.Range? && sh.read.amended
    requires c'.pc == Unlock(after) || c'.pc == Promote(after)
    ensures PCOk(sh, c')
  {
    AfterSame(sh, c, c', after);
  }

  lemma AfterSame(sh: Shared, c: Call, c': Call, after: After)
    requires AfterOk(sh, c, after) && c' == c.(pc := c'.pc)
    ensures AfterOk(sh, c', after)
  {
    if after.Scan? {
      assert forall k :: k in MapAt(sh, after.m) ==> Held(sh, c, k, MapAt(sh, after.m)[k]);
    }
  }

  lemma PromoteShared(sh: Shared)
    requires Basic(sh) && Cache(sh, Quiet) && sh.read.amended
    ensures var sh' := sh.(read := ReadOnly(sh.dirty.value, false), published := sh.published + {sh.dirty.value},
                           exposed := sh.exposed + DirtyMap(sh).Values);
            Basic(sh') && Cache(sh', Swapped) && Guar(sh, sh') && forall k :: AbsGet(sh', k) == AbsGet(sh, k)
  {
    var d := sh.dirty.value;
    var sh' := sh.(read := ReadOnly(d, false), published := sh.published + {d},
                   exposed := sh.exposed + DirtyMap(sh).Values);
    assert ReadMap(sh') == DirtyMap(sh);
    forall k ensures AbsGet(sh', k) == AbsGet(sh, k) {
      assert k in ReadMap(sh) ==> Mirrored(sh, k);
    }
    forall x | x in sh'.exposed ensures x in sh'.entries && (sh'.entries[x] == Expunged || IsRead(sh', x)) {
      if x in sh.exposed {
        assert sh.entries[x] == Expunged || IsRead(sh, x);
        if IsRead(sh, x) { assert Mirrored(sh, sh.owner[x]); }
      } else {
        var k :| k in DirtyMap(sh) && DirtyMap(sh)[k] == x;
        assert sh.owner[sh.maps[d][k]] == k;
      }
    }
    forall m, k | m in sh'.published && k in sh'.maps[m] ensures sh'.maps[m][k] in sh'.exposed {
      assert m == d || sh.maps[m][k] in sh.exposed;
    }
  }

  lemma OfPromote(sh: Shared, mu: Option<Tid>, c: Call, after: After)
    requires Before(sh, c) && c.pc == Promote(after)
    ensures var o := StepPromote(sh, mu, c, after); o.Stepped? && Keeps(sh, c, o.sh, o.c)
  {
    var o := StepPromote(sh, mu, c, after);
    PromoteShared(sh);
    if c.op.Range? {
      SnapshotNow(o.sh, c);
      ScanOk(o.sh, c, o.c, sh.dirty.value);
    } else {
      AfterStable(sh, o.sh, c, after);
    }
    Recached(sh, c, o.sh, o.c);
  }

  lemma ScanOk(sh: Shared, c: Call, c': Call, d: MapId)
    requires Snapshot(sh, c, ReadOnly(d, false)) && c' == c.(pc := Clear(Scan(d))) && c.op.Range? && c.lin.None?
    ensures PCOk(sh, c')
  {
    forall k | k in MapAt(sh, d) ensures Held(sh, c', k, MapAt(sh, d)[k]) {
      assert Held(sh, c, k, MapAt(sh, d)[k]);
    }
  }

  lemma OfClear(sh: Shared, mu: Option<Tid>, c: Call, after: After)
    requires Before(sh, c) && c.pc == Clear(after)
    ensures var sh' := sh.(dirty := None, misses := 0); Keeps(sh, c, sh', c.(pc := Unlock(after)))
  {
    var sh' := sh.(dirty := None, misses := 0);
    assert ReadMap(sh') == ReadMap(sh);
    forall x | x in sh'.exposed ensures sh'.entries[x] == Expunged || IsRead(sh', x) {
      assert sh.entries[x] == Expunged || IsRead(sh, x);
    }
    AfterStable(sh, sh', c, after);
    Recached(sh, c, sh', c.(pc := Unlock(after)));
  }

  // ---- All steps ----

  lemma OfOutside(sh: Shared, mu: Option<Tid>, t: Tid, c: Call, ch: Choice)
    requires Before(sh, c) && !Holding(c.pc) && StepOutside(sh, mu, t, c, ch).Stepped?
    ensures var o := StepOutside(sh, mu, t, c, ch); Keeps(sh, c, o.sh, o.c)
  {
    match c.pc
    case Start => OfStart(sh, mu, t, c, ch);
    case Fast(r) => OfFast(sh, mu, c, r);
    case TryEntry(e) => OfTry(sh, mu, c, e);
    case CasEntry(e, p) => OfCas(sh, mu, c, e, p);
    case WantLock => OfStart(sh, mu, t, c, ch);
    case Iterate(m, todo, pairs) => OfIterate(sh, mu, c, m, todo, pairs, ch);
  }

  lemma OfReading(sh: Shared, mu: Option<Tid>, c: Call)
    requires Before(sh, c) && (c.pc.Locked? || c.pc.Slow? || c.pc.SlowDirty?)
    ensures var o := StepLooking(sh, mu, c); o.Stepped? && Keeps(sh, c, o.sh, o.c)
  {
    if c.pc.Locked? {
      OfLocked(sh, mu, c);
    } else if c.pc.Slow? {
      OfSlow(sh, mu, c, c.pc.r);
    } else {
      OfSlowDirty(sh, mu, c, c.pc.r);
    }
  }

  lemma OfRelinking(sh: Shared, mu: Option<Tid>, c: Call)
    requires Before(sh, c) && (c.pc.Unexpunge? || c.pc.Link?)
    ensures var o := StepLooking(sh, mu, c); o.Stepped? && Keeps(sh, c, o.sh, o.c)
  {
    if c.pc.Unexpunge? { OfUnexpunge(sh, mu, c, c.pc.e); } else { OfLink(sh, mu, c, c.pc.e); }
  }

  lemma OfTrying(sh: Shared, mu: Option<Tid>, c: Call)
    requires Before(sh, c) && (c.pc.LockedTry? || c.pc.LockedCas?)
    ensures var o := StepLooking(sh, mu, c); o.Stepped? && Keeps(sh, c, o.sh, o.c)
  {
    if c.pc.LockedTry? {
      OfLockedTry(sh, mu, c, c.pc.e, c.pc.inRead);
    } else {
      OfLockedCas(sh, mu, c, c.pc.e, c.pc.inRead);
    }
  }

  lemma OfLooking(sh: Shared, mu: Option<Tid>, c: Call)
    requires Before(sh, c) && Looking?(c.pc)
    ensures var o := StepLooking(sh, mu, c); o.Stepped? && Keeps(sh, c, o.sh, o.c)
  {
    if c.pc.LockedTry? || c.pc.LockedCas? {
      OfTrying(sh, mu, c);
    } else if c.pc.Unexpunge? || c.pc.Link? {
      OfRelinking(sh, mu, c);
    } else {
      OfReading(sh, mu, c);
    }
  }

  lemma OfGrowing(sh: Shared, mu: Option<Tid>, c: Call)
    requires Before(sh, c) && Growing?(c.pc)
    ensures var o := StepGrowing(sh, mu, c); o.Stepped? && Keeps(sh, c, o.sh, o.c)
  {
    if c.pc.MakeDirty? {
      OfMakeDirty(sh, mu, c, c.pc.r);
    } else if c.pc.Amend? {
      OfAmend(sh, mu, c, c.pc.r);
    } else {
      OfInsertNew(sh, mu, c);
    }
  }

  lemma OfCopying(sh: Shared, mu: Option<Tid>, c: Call, ch: Choice)
    requires Before(sh, c) && Copying?(c.pc) && StepCopying(sh, mu, c, ch).Stepped?
    ensures var o := StepCopying(sh, mu, c, ch); Keeps(sh, c, o.sh, o.c)
  {
    match c.pc
    case DirtyPick(r, todo) => OfDirtyPick(sh, mu, c, r, todo, ch);
    case DirtyLoad(r, todo, k) => OfDirtyLoad(sh, mu, c, r, todo, k);
    case DirtyCas(r, todo, k) => OfDirtyCas(sh, mu, c, r, todo, k);
    case DirtyPut(r, todo, k) => OfDirtyPut(sh, mu, c, r, todo, k);
  }

  lemma OfPromoting(sh: Shared, mu: Option<Tid>, c: Call)
    requires Before(sh, c) && (c.pc.Promote? || c.pc.Clear?)
    ensures var o := StepLeaving(sh, mu, c); o.Stepped? && Keeps(sh, c, o.sh, o.c)
  {
    if c.pc.Promote? { OfPromote(sh, mu, c, c.pc.after); } else { OfClear(sh, mu, c, c.pc.after); }
  }

  lemma OfLeaving(sh: Shared, mu: Option<Tid>, c: Call)
    requires Before(sh, c) && Leaving?(c.pc)
    ensures var o := StepLeaving(sh, mu, c); o.Stepped? && Keeps(sh, c, o.sh, o.c)
  {
    if c.pc.Miss? {
      OfMissStep(sh, mu, c, c.pc.after);
    } else if c.pc.Unlock? {
      OfUnlock(sh, c, c.pc.after);
    } else {
      OfPromoting(sh, mu, c);
    }
  }

  lemma OfMissStep(sh: Shared, mu: Option<Tid>, c: Call, after: After)
    requires Before(sh, c) && c.pc == Miss(after)
    ensures var o := StepMiss(sh, mu, c, after); o.Stepped? && Keeps(sh, c, o.sh, o.c)
  {
    var pc := StepMiss(sh, mu, c, after).c.pc;
    MissIs(sh, mu, c, after, pc);
    OfMiss(sh, c, after, pc);
  }

  lemma MissIs(sh: Shared, mu: Option<Tid>, c: Call, after: After, pc: PC)
    requires pc == StepMiss(sh, mu, c, after).c.pc
    ensures StepMiss(sh, mu, c, after) == Go(sh.(misses := sh.misses + 1), mu, c, pc)
            && (pc == Unlock(after) || pc == Promote(after))
  {
  }

  lemma OfStep(sh: Shared, mu: Option<Tid>, t: Tid, c: Call, ch: Choice)
    requires Before(sh, c) && Step(sh, mu, t, c, ch).Stepped?
    ensures var o := Step(sh, mu, t, c, ch); Keeps(sh, c, o.sh, o.c)
  {
    if Looking?(c.pc) {
      OfLooking(sh, mu, c);
    } else if Growing?(c.pc) {
      OfGrowing(sh, mu, c);
    } else if Copying?(c.pc) {
      OfCopying(sh, mu, c, ch);
    } else if Leaving?(c.pc) {
      OfLeaving(sh, mu, c);
    } else {
      OfOutside(sh, mu, t, c, ch);
    }
  }
}
