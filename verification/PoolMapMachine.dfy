/** The concurrent map PoolMap as a machine of atomic steps.

    Every atomic load, compare-and-swap, lock, unlock and guarded map write of the source is one
    step of one thread.  Map objects and entries have identities, so that a snapshot of `read`
    taken long ago still means the map object it named, and a pointer loaded long ago is compared
    by identity when it is swapped.  The fields published, exposed, owner and log are history
    variables: no step looks at them. */
module PoolMapMachine {
  import opened Wrappers

  type Key = string
  type PoolId = nat
  type MapId = nat
  type EntryId = nat
  type Tid = nat
  type CallId = nat

  /** The three states of an entry's pointer.  A Box is the cell allocated by one call; two boxes
      are the same pointer exactly when the same call allocated them. */
  datatype Ptr = Nil | Expunged | Box(call: CallId, pool: PoolId)

  datatype ReadOnly = ReadOnly(m: MapId, amended: bool)

  /** An update that took effect, named by the call that made it. */
  datatype Event =
    | Put(call: CallId, key: Key, pool: PoolId)
    | Insert(call: CallId, key: Key, pool: PoolId)
    | Remove(call: CallId, key: Key)

  datatype Shared = Shared(
    maps: map<MapId, map<Key, EntryId>>,
    entries: map<EntryId, Ptr>,
    read: ReadOnly,
    dirty: Option<MapId>,
    misses: nat,
    nextMap: MapId,
    nextEntry: EntryId,
    // history variables
    published: set<MapId>,
    exposed: set<EntryId>,
    owner: map<EntryId, Key>,
    log: seq<Event>)

  datatype Op =
    | Load(key: Key)
    | Store(key: Key, pool: PoolId)
    | LoadOrStore(key: Key, pool: PoolId)
    | Delete(key: Key)
    | Range

  datatype Answer =
    | Nothing
    | Value(found: Option<PoolId>)
    | Actual(actual: Option<PoolId>, loaded: bool)
    | Visited(pairs: map<Key, PoolId>, complete: bool)

  /** What a thread does once it has released the mutex. */
  datatype After = Return(answer: Answer) | Use(e: EntryId) | Scan(m: MapId)

  datatype PC =
    | Start                                   // about to load m.read without the mutex
    | Fast(r: ReadOnly)                       // about to look the key up in the snapshot
    | TryEntry(e: EntryId)                    // about to load e.p
    | CasEntry(e: EntryId, p: Ptr)            // about to swap e.p away from p
    | WantLock
    | Locked                                  // about to load m.read under the mutex
    | Slow(r: ReadOnly)                       // about to look the key up under the mutex
    | SlowDirty(r: ReadOnly)                  // the key is not in read: about to consult dirty
    | Unexpunge(e: EntryId)
    | Link(e: EntryId)                        // unexpunged: about to write m.dirty[key] = e
    | LockedTry(e: EntryId, inRead: bool)     // storeLocked, or the load of tryLoadOrStore
    | LockedCas(e: EntryId, inRead: bool)
    | MakeDirty(r: ReadOnly)                  // entering dirtyLocked
    | DirtyPick(r: ReadOnly, todo: set<Key>)
    | DirtyLoad(r: ReadOnly, todo: set<Key>, k: Key)
    | DirtyCas(r: ReadOnly, todo: set<Key>, k: Key)
    | DirtyPut(r: ReadOnly, todo: set<Key>, k: Key)
    | Amend(r: ReadOnly)                      // about to publish read with amended = true
    | InsertNew                               // about to write m.dirty[key] = newEntry(value)
    | Miss(after: After)                      // entering missLocked
    | Promote(after: After)                   // about to publish dirty as read
    | Clear(after: After)                     // about to set dirty = nil, misses = 0
    | Unlock(after: After)
    | Iterate(m: MapId, todo: set<Key>, pairs: map<Key, PoolId>)
    | Done(answer: Answer)

  /** One method call: start is the length of the log when it was invoked, lin the position of the
      update it made, if it has made one. */
  datatype Call = Call(id: CallId, op: Op, start: nat, lin: Option<nat>, pc: PC)

  /** What the environment decides: which key an iteration visits next, whether f goes on. */
  datatype Choice = Choice(key: Key, more: bool)

  datatype Outcome = Blocked | Stepped(sh: Shared, mu: Option<Tid>, c: Call)

  datatype State = State(sh: Shared, mu: Option<Tid>, calls: map<Tid, Call>, nextCall: CallId)

  // ---- The plain map ----

  function Look(m: map<Key, PoolId>, k: Key): Option<PoolId> {
    if k in m then Some(m[k]) else None
  }

  function Apply(m: map<Key, PoolId>, ev: Event): map<Key, PoolId> {
    match ev
    case Put(_, k, v) => m[k := v]
    case Insert(_, k, v) => m[k := v]
    case Remove(_, k) => m - {k}
  }

  function Replay(log: seq<Event>): map<Key, PoolId> {
    if log == [] then map[] else Apply(Replay(log[..|log| - 1]), log[|log| - 1])
  }

  // ---- The concrete map ----

  function ReadMap(sh: Shared): map<Key, EntryId> {
    if sh.read.m in sh.maps then sh.maps[sh.read.m] else map[]
  }

  /** A nil map reads as empty. */
  function DirtyMap(sh: Shared): map<Key, EntryId> {
    if sh.dirty.Some? && sh.dirty.value in sh.maps then sh.maps[sh.dirty.value] else map[]
  }

  function MapAt(sh: Shared, m: MapId): map<Key, EntryId> {
    if m in sh.maps then sh.maps[m] else map[]
  }

  function PtrAt(sh: Shared, e: EntryId): Ptr {
    if e in sh.entries then sh.entries[e] else Nil
  }

  function Ans(p: Ptr): Option<PoolId> {
    if p.Box? then Some(p.pool) else None
  }

  /** The abstract answer: look in read, else in dirty when amended; nil and expunged are absent. */
  function AbsGet(sh: Shared, k: Key): Option<PoolId> {
    if k in ReadMap(sh) then Ans(PtrAt(sh, ReadMap(sh)[k]))
    else if sh.read.amended && k in DirtyMap(sh) then Ans(PtrAt(sh, DirtyMap(sh)[k]))
    else None
  }

  // ---- Steps ----

  function SetPtr(sh: Shared, e: EntryId, p: Ptr): Shared {
    sh.(entries := sh.entries[e := p])
  }

  function SetDirty(sh: Shared, m: map<Key, EntryId>): Shared
    requires sh.dirty.Some?
  {
    sh.(maps := sh.maps[sh.dirty.value := m])
  }

  function Record(sh: Shared, ev: Event): Shared {
    sh.(log := sh.log + [ev])
  }

  function Go(sh: Shared, mu: Option<Tid>, c: Call, pc: PC): Outcome {
    Stepped(sh, mu, c.(pc := pc))
  }

  /** The step at which a call's update takes effect. */
  function Commit(sh: Shared, mu: Option<Tid>, c: Call, ev: Event, pc: PC): Outcome {
    Stepped(Record(sh, ev), mu, c.(lin := Some(|sh.log|), pc := pc))
  }

  function UpdateEvent(c: Call): Event
    requires !c.op.Range? && !c.op.Load?
  {
    match c.op
    case Store(k, v) => Put(c.id, k, v)
    case LoadOrStore(k, v) => Insert(c.id, k, v)
    case Delete(k) => Remove(c.id, k)
  }

  function StepFast(sh: Shared, mu: Option<Tid>, c: Call, r: ReadOnly): Outcome {
    if c.op.Range? then
      if r.amended then Go(sh, mu, c, WantLock)
      else Go(sh, mu, c, Iterate(r.m, MapAt(sh, r.m).Keys, map[]))
    else if c.op.key in MapAt(sh, r.m) then Go(sh, mu, c, TryEntry(MapAt(sh, r.m)[c.op.key]))
    else
      match c.op
      case Load(_) => Go(sh, mu, c, if r.amended then WantLock else Done(Value(None)))
      case Delete(_) => Go(sh, mu, c, if r.amended then WantLock else Done(Nothing))
      case _ => Go(sh, mu, c, WantLock)
  }

  function StepTry(sh: Shared, mu: Option<Tid>, c: Call, e: EntryId): Outcome {
    var p := PtrAt(sh, e);
    match c.op
    case Load(_) => Go(sh, mu, c, Done(Value(Ans(p))))
    case Store(_, _) => Go(sh, mu, c, if p == Expunged then WantLock else CasEntry(e, p))
    case LoadOrStore(_, _) =>
      Go(sh, mu, c,
         if p == Expunged then WantLock
         else if p == Nil then CasEntry(e, Nil)
         else Done(Actual(Ans(p), true)))
    case Delete(_) => Go(sh, mu, c, if p.Box? then CasEntry(e, p) else Done(Nothing))
    case Range => Blocked
  }

  function StepCas(sh: Shared, mu: Option<Tid>, c: Call, e: EntryId, p: Ptr): Outcome {
    if PtrAt(sh, e) != p then Go(sh, mu, c, TryEntry(e))
    else
      match c.op
      case Store(_, v) => Commit(SetPtr(sh, e, Box(c.id, v)), mu, c, UpdateEvent(c), Done(Nothing))
      case LoadOrStore(_, v) =>
        Commit(SetPtr(sh, e, Box(c.id, v)), mu, c, UpdateEvent(c), Done(Actual(Some(v), false)))
      case Delete(_) => Commit(SetPtr(sh, e, Nil), mu, c, UpdateEvent(c), Done(Nothing))
      case _ => Blocked
  }

  function StepSlow(sh: Shared, mu: Option<Tid>, c: Call, r: ReadOnly): Outcome {
    if c.op.Range? then
      Go(sh, mu, c, if r.amended then Promote(Return(Nothing)) else Unlock(Scan(r.m)))
    else if c.op.key in MapAt(sh, r.m) then
      var e := MapAt(sh, r.m)[c.op.key];
      Go(sh, mu, c, if c.op.Load? || c.op.Delete? then Unlock(Use(e)) else Unexpunge(e))
    else if (c.op.Load? || c.op.Delete?) && !r.amended then
      Go(sh, mu, c, Unlock(Return(if c.op.Load? then Value(None) else Nothing)))
    else
      Go(sh, mu, c, SlowDirty(r))
  }

  function StepSlowDirty(sh: Shared, mu: Option<Tid>, c: Call, r: ReadOnly): Outcome {
    if c.op.Range? then Blocked
    else
      var k := c.op.key;
      match c.op
      case Load(_) =>
        Go(sh, mu, c, Miss(if k in DirtyMap(sh) then Use(DirtyMap(sh)[k]) else Return(Value(None))))
      case Delete(_) =>
        if sh.dirty.None? then Go(sh, mu, c, Unlock(Return(Nothing)))
        else Commit(SetDirty(sh, DirtyMap(sh) - {k}), mu, c, UpdateEvent(c), Unlock(Return(Nothing)))
      case _ =>
        if k in DirtyMap(sh) then Go(sh, mu, c, LockedTry(DirtyMap(sh)[k], false))
        else Go(sh, mu, c, if r.amended then InsertNew else MakeDirty(r))
  }

  function StepUnexpunge(sh: Shared, mu: Option<Tid>, c: Call, e: EntryId): Outcome {
    if PtrAt(sh, e) == Expunged then Go(SetPtr(sh, e, Nil), mu, c, Link(e))
    else Go(sh, mu, c, LockedTry(e, true))
  }

  function StepLink(sh: Shared, mu: Option<Tid>, c: Call, e: EntryId): Outcome {
    if c.op.Range? || sh.dirty.None? then Blocked  // writing to a nil map panics
    else Go(SetDirty(sh, DirtyMap(sh)[c.op.key := e]), mu, c, LockedTry(e, true))
  }

  /** Where LoadOrStore goes after an attempt under the mutex: a hit in dirty counts as a miss. */
  function AfterTry(answer: Answer, inRead: bool): PC {
    if inRead then Unlock(Return(answer)) else Miss(Return(answer))
  }

  function StepLockedTry(sh: Shared, mu: Option<Tid>, c: Call, e: EntryId, inRead: bool): Outcome {
    match c.op
    case Store(_, v) => Commit(SetPtr(sh, e, Box(c.id, v)), mu, c, UpdateEvent(c), Unlock(Return(Nothing)))
    case LoadOrStore(_, _) =>
      var p := PtrAt(sh, e);
      Go(sh, mu, c,
         if p == Nil then LockedCas(e, inRead)
         else AfterTry(Actual(Ans(p), p.Box?), inRead))  // expunged: ok is discarded
    case _ => Blocked
  }

  function StepLockedCas(sh: Shared, mu: Option<Tid>, c: Call, e: EntryId, inRead: bool): Outcome {
    match c.op
    case LoadOrStore(_, v) =>
      if PtrAt(sh, e) != Nil then Go(sh, mu, c, LockedTry(e, inRead))
      else Commit(SetPtr(sh, e, Box(c.id, v)), mu, c, UpdateEvent(c), AfterTry(Actual(Some(v), false), inRead))
    case _ => Blocked
  }

  function StepMakeDirty(sh: Shared, mu: Option<Tid>, c: Call, r: ReadOnly): Outcome {
    if sh.dirty.Some? then Go(sh, mu, c, Amend(r))
    else
      Go(sh.(dirty := Some(sh.nextMap), maps := sh.maps[sh.nextMap := map[]], nextMap := sh.nextMap + 1),
         mu, c, DirtyPick(r, ReadMap(sh).Keys))
  }

  function StepDirtyPick(sh: Shared, mu: Option<Tid>, c: Call, r: ReadOnly, todo: set<Key>, ch: Choice): Outcome {
    if todo == {} then Go(sh, mu, c, Amend(r))
    else if ch.key in todo then Go(sh, mu, c, DirtyLoad(r, todo, ch.key))
    else Blocked
  }

  /** tryExpungeLocked: the load; nil leads to the swap, expunged is skipped. */
  function StepDirtyLoad(sh: Shared, mu: Option<Tid>, c: Call, r: ReadOnly, todo: set<Key>, k: Key): Outcome {
    if k !in ReadMap(sh) then Blocked
    else
      var p := PtrAt(sh, ReadMap(sh)[k]);
      Go(sh, mu, c,
         if p == Nil then DirtyCas(r, todo, k)
         else if p == Expunged then DirtyPick(r, todo - {k})
         else DirtyPut(r, todo, k))
  }

  function StepDirtyCas(sh: Shared, mu: Option<Tid>, c: Call, r: ReadOnly, todo: set<Key>, k: Key): Outcome {
    if k !in ReadMap(sh) then Blocked
    else
      var e := ReadMap(sh)[k];
      if PtrAt(sh, e) == Nil then Go(SetPtr(sh, e, Expunged), mu, c, DirtyPick(r, todo - {k}))
      else Go(sh, mu, c, DirtyLoad(r, todo, k))
  }

  function StepDirtyPut(sh: Shared, mu: Option<Tid>, c: Call, r: ReadOnly, todo: set<Key>, k: Key): Outcome {
    if k !in ReadMap(sh) || sh.dirty.None? then Blocked
    else Go(SetDirty(sh, DirtyMap(sh)[k := ReadMap(sh)[k]]), mu, c, DirtyPick(r, todo - {k}))
  }

  function StepAmend(sh: Shared, mu: Option<Tid>, c: Call, r: ReadOnly): Outcome {
    Go(sh.(read := ReadOnly(r.m, true)), mu, c, InsertNew)
  }

  function StepInsertNew(sh: Shared, mu: Option<Tid>, c: Call): Outcome {
    if sh.dirty.None? then Blocked
    else
      match c.op
      case Store(k, v) => InsertEntry(sh, mu, c, k, v, Nothing)
      case LoadOrStore(k, v) => InsertEntry(sh, mu, c, k, v, Actual(Some(v), false))
      case _ => Blocked
  }

  function InsertEntry(sh: Shared, mu: Option<Tid>, c: Call, k: Key, v: PoolId, answer: Answer): Outcome
    requires sh.dirty.Some? && !c.op.Range? && !c.op.Load?
  {
    var e := sh.nextEntry;
    var sh1 := SetDirty(sh, DirtyMap(sh)[k := e]);
    var sh2 := sh1.(entries := sh.entries[e := Box(c.id, v)], owner := sh.owner[e := k], nextEntry := e + 1);
    Commit(sh2, mu, c, UpdateEvent(c), Unlock(Return(answer)))
  }

  function StepMiss(sh: Shared, mu: Option<Tid>, c: Call, after: After): Outcome {
    Go(sh.(misses := sh.misses + 1), mu, c,
       if sh.misses + 1 < |DirtyMap(sh)| then Unlock(after) else Promote(after))
  }

  function StepPromote(sh: Shared, mu: Option<Tid>, c: Call, after: After): Outcome {
    if sh.dirty.None? then Blocked
    else
      var d := sh.dirty.value;
      Go(sh.(read := ReadOnly(d, false),
             published := sh.published + {d},
             exposed := sh.exposed + DirtyMap(sh).Values),
         mu, c, Clear(if c.op.Range? then Scan(d) else after))
  }

  function StepUnlock(sh: Shared, c: Call, after: After): Outcome {
    match after
    case Return(a) => Go(sh, None, c, Done(a))
    case Use(e) => Go(sh, None, c, TryEntry(e))
    case Scan(m) => Go(sh, None, c, Iterate(m, MapAt(sh, m).Keys, map[]))
  }

  function StepIterate(sh: Shared, mu: Option<Tid>, c: Call, m: MapId, todo: set<Key>,
                       pairs: map<Key, PoolId>, ch: Choice): Outcome {
    if todo == {} then Go(sh, mu, c, Done(Visited(pairs, true)))
    else if ch.key !in todo || ch.key !in MapAt(sh, m) then Blocked
    else
      var a := Ans(PtrAt(sh, MapAt(sh, m)[ch.key]));
      if a.None? then Go(sh, mu, c, Iterate(m, todo - {ch.key}, pairs))
      else if ch.more then Go(sh, mu, c, Iterate(m, todo - {ch.key}, pairs[ch.key := a.value]))
      else Go(sh, mu, c, Done(Visited(pairs[ch.key := a.value], false)))
  }

  predicate Looking?(pc: PC) {
    pc.Locked? || pc.Slow? || pc.SlowDirty? || pc.Unexpunge? || pc.Link? || pc.LockedTry? || pc.LockedCas?
  }

  predicate Growing?(pc: PC) { pc.MakeDirty? || pc.Amend? || pc.InsertNew? }

  predicate Copying?(pc: PC) { pc.DirtyPick? || pc.DirtyLoad? || pc.DirtyCas? || pc.DirtyPut? }

  predicate Leaving?(pc: PC) { pc.Miss? || pc.Promote? || pc.Clear? || pc.Unlock? }

  /** Without the mutex. */
  function StepOutside(sh: Shared, mu: Option<Tid>, t: Tid, c: Call, ch: Choice): Outcome {
    match c.pc
    case Start => Go(sh, mu, c, Fast(sh.read))
    case Fast(r) => StepFast(sh, mu, c, r)
    case TryEntry(e) => StepTry(sh, mu, c, e)
    case CasEntry(e, p) => StepCas(sh, mu, c, e, p)
    case WantLock => if mu.Some? then Blocked else Go(sh, Some(t), c, Locked)
    case Iterate(m, todo, pairs) => StepIterate(sh, mu, c, m, todo, pairs, ch)
    case _ => Blocked
  }

  /** With the mutex, from taking it to the key's entry. */
  function StepLooking(sh: Shared, mu: Option<Tid>, c: Call): Outcome {
    match c.pc
    case Locked => Go(sh, mu, c, Slow(sh.read))
    case Slow(r) => StepSlow(sh, mu, c, r)
    case SlowDirty(r) => StepSlowDirty(sh, mu, c, r)
    case Unexpunge(e) => StepUnexpunge(sh, mu, c, e)
    case Link(e) => StepLink(sh, mu, c, e)
    case LockedTry(e, inRead) => StepLockedTry(sh, mu, c, e, inRead)
    case LockedCas(e, inRead) => StepLockedCas(sh, mu, c, e, inRead)
    case _ => Blocked
  }

  /** A new key. */
  function StepGrowing(sh: Shared, mu: Option<Tid>, c: Call): Outcome {
    match c.pc
    case MakeDirty(r) => StepMakeDirty(sh, mu, c, r)
    case Amend(r) => StepAmend(sh, mu, c, r)
    case InsertNew => StepInsertNew(sh, mu, c)
    case _ => Blocked
  }

  /** The loop of dirtyLocked. */
  function StepCopying(sh: Shared, mu: Option<Tid>, c: Call, ch: Choice): Outcome {
    match c.pc
    case DirtyPick(r, todo) => StepDirtyPick(sh, mu, c, r, todo, ch)
    case DirtyLoad(r, todo, k) => StepDirtyLoad(sh, mu, c, r, todo, k)
    case DirtyCas(r, todo, k) => StepDirtyCas(sh, mu, c, r, todo, k)
    case DirtyPut(r, todo, k) => StepDirtyPut(sh, mu, c, r, todo, k)
    case _ => Blocked
  }

  /** To the release of the mutex. */
  function StepLeaving(sh: Shared, mu: Option<Tid>, c: Call): Outcome {
    match c.pc
    case Miss(after) => StepMiss(sh, mu, c, after)
    case Promote(after) => StepPromote(sh, mu, c, after)
    case Clear(after) => Go(sh.(dirty := None, misses := 0), mu, c, Unlock(after))
    case Unlock(after) => StepUnlock(sh, c, after)
    case _ => Blocked
  }

  function Step(sh: Shared, mu: Option<Tid>, t: Tid, c: Call, ch: Choice): Outcome {
    if Looking?(c.pc) then StepLooking(sh, mu, c)
    else if Growing?(c.pc) then StepGrowing(sh, mu, c)
    else if Copying?(c.pc) then StepCopying(sh, mu, c, ch)
    else if Leaving?(c.pc) then StepLeaving(sh, mu, c)
    else StepOutside(sh, mu, t, c, ch)
  }

  // ---- Runs ----

  /** The zero PoolMap: read is the nil map, which is map object 0 here. */
  function Initial(): State {
    State(Shared(map[0 := map[]], map[], ReadOnly(0, false), None, 0, 1, 0, {0}, {}, map[], []), None, map[], 0)
  }

  /** A thread that is not inside a call may begin one. */
  predicate Begin(s: State, s': State, t: Tid, op: Op) {
    && (t in s.calls ==> s.calls[t].pc.Done?)
    && s' == s.(calls := s.calls[t := Call(s.nextCall, op, |s.sh.log|, None, Start)], nextCall := s.nextCall + 1)
  }

  predicate Move(s: State, s': State, t: Tid, ch: Choice) {
    && t in s.calls
    && var o := Step(s.sh, s.mu, t, s.calls[t], ch);
    && o.Stepped?
    && s' == s.(sh := o.sh, mu := o.mu, calls := s.calls[t := o.c])
  }

  ghost predicate Next(s: State, s': State) {
    || (exists t, op :: Begin(s, s', t, op))
    || (exists t, ch :: Move(s, s', t, ch))
  }

  ghost predicate IsRun(run: seq<State>) {
    && |run| > 0
    && run[0] == Initial()
    && forall i :: 0 <= i < |run| - 1 ==> Next(run[i], run[i + 1])
  }
}
