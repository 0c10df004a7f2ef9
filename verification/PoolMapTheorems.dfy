/** What holds of every run of PoolMap, by any number of threads: the map behind read and dirty
    is the plain map obtained by replaying the log of updates, every call's update enters that log
    once while the call is in progress, and every answer was right at some moment of its call. */
module PoolMapTheorems {
  import opened Wrappers
  import opened PoolMapMachine
  import opened PoolMapProof

  function HolderPhase(s: State): Phase {
    if s.mu.Some? && s.mu.value in s.calls then PhaseOf(s.calls[s.mu.value]) else Quiet
  }

  ghost predicate Mutex(s: State) {
    && (s.mu.Some? ==> s.mu.value in s.calls && Holding(s.calls[s.mu.value].pc))
    && forall t :: t in s.calls && Holding(s.calls[t].pc) ==> s.mu == Some(t)
  }

  ghost predicate Ids(s: State) {
    && (forall t :: t in s.calls ==> s.calls[t].id < s.nextCall)
    && (forall t, u :: t in s.calls && u in s.calls && t != u ==> s.calls[t].id != s.calls[u].id)
    && forall i :: 0 <= i < |s.sh.log| ==> s.sh.log[i].call < s.nextCall
  }

  ghost predicate Inv(s: State) {
    && Basic(s.sh) && Matches(s.sh) && Legal(s.sh.log) && Cache(s.sh, HolderPhase(s))
    && Mutex(s) && Ids(s)
    && forall t :: t in s.calls ==> CallOk(s.sh, s.calls[t])
  }

  // ---- The invariant holds in every run ----

  lemma InitialInv()
    ensures Inv(Initial())
  {
  }

  lemma BeginInv(s: State, s': State, t: Tid, op: Op)
    requires Inv(s) && Begin(s, s', t, op)
    ensures Inv(s')
  {
    assert HolderPhase(s') == HolderPhase(s);
    BeginIds(s, s', t, op);
    var c := s'.calls[t];
    assert CallOk(s.sh, c) by {
      assert forall i :: 0 <= i < |s.sh.log| ==> s.sh.log[i].call != c.id;
    }
    forall u | u in s'.calls ensures CallOk(s'.sh, s'.calls[u]) {
      assert u == t || s'.calls[u] == s.calls[u];
    }
  }

  lemma BeginIds(s: State, s': State, t: Tid, op: Op)
    requires Ids(s) && Mutex(s) && Begin(s, s', t, op)
    ensures Ids(s') && Mutex(s')
  {
  }

  /** How a step moves the mutex: only WantLock takes it and only Unlock gives it back. */
  predicate MutexMoves(mu: Option<Tid>, t: Tid, c: Call, mu': Option<Tid>, c': Call) {
    if c.pc.WantLock? then mu.None? && mu' == Some(t) && c'.pc.Locked?
    else if c.pc.Unlock? then mu'.None? && !Holding(c'.pc)
    else mu' == mu && Holding(c'.pc) == Holding(c.pc)
  }

  lemma MutexOutside(sh: Shared, mu: Option<Tid>, t: Tid, c: Call, ch: Choice)
    requires StepOutside(sh, mu, t, c, ch).Stepped? && !Holding(c.pc)
    ensures var o := StepOutside(sh, mu, t, c, ch); MutexMoves(mu, t, c, o.mu, o.c)
  {
  }

  lemma MutexGrowing(sh: Shared, mu: Option<Tid>, t: Tid, c: Call)
    requires StepGrowing(sh, mu, c).Stepped?
    ensures var o := StepGrowing(sh, mu, c); MutexMoves(mu, t, c, o.mu, o.c)
  {
  }

  lemma MutexCopying(sh: Shared, mu: Option<Tid>, t: Tid, c: Call, ch: Choice)
    requires StepCopying(sh, mu, c, ch).Stepped?
    ensures var o := StepCopying(sh, mu, c, ch); MutexMoves(mu, t, c, o.mu, o.c)
  {
  }

  lemma MutexLeaving(sh: Shared, mu: Option<Tid>, t: Tid, c: Call)
    requires StepLeaving(sh, mu, c).Stepped?
    ensures var o := StepLeaving(sh, mu, c); MutexMoves(mu, t, c, o.mu, o.c)
  {
  }

  lemma MutexLooking(sh: Shared, mu: Option<Tid>, t: Tid, c: Call)
    requires StepLooking(sh, mu, c).Stepped?
    ensures var o := StepLooking(sh, mu, c); MutexMoves(mu, t, c, o.mu, o.c)
  {
  }

  lemma MutexStep(sh: Shared, mu: Option<Tid>, t: Tid, c: Call, ch: Choice)
    requires Step(sh, mu, t, c, ch).Stepped?
    ensures var o := Step(sh, mu, t, c, ch); MutexMoves(mu, t, c, o.mu, o.c)
  {
    if Looking?(c.pc) {
      MutexLooking(sh, mu, t, c);
    } else if Growing?(c.pc) {
      MutexGrowing(sh, mu, t, c);
    } else if Copying?(c.pc) {
      MutexCopying(sh, mu, t, c, ch);
    } else if Leaving?(c.pc) {
      MutexLeaving(sh, mu, t, c);
    } else {
      MutexOutside(sh, mu, t, c, ch);
    }
  }

  lemma OthersCommitted(log: seq<Event>, c: Call, log': seq<Event>, d: Call)
    requires Committed(log, d) && d.id != c.id
    requires log' == log || (!c.op.Range? && !c.op.Load? && log' == log + [UpdateEvent(c)])
    ensures Committed(log', d)
  {
  }

  lemma OwnCommitted(sh: Shared, c: Call, sh': Shared, c': Call)
    requires Committed(sh.log, c) && Logs(sh, c, sh', c')
    ensures Committed(sh'.log, c')
  {
  }

  /** Another thread's call keeps its assertion. */
  lemma OtherOk(s: State, t: Tid, ch: Choice, u: Tid)
    requires Inv(s) && t in s.calls && u in s.calls && u != t
    requires Step(s.sh, s.mu, t, s.calls[t], ch).Stepped?
    requires var o := Step(s.sh, s.mu, t, s.calls[t], ch); Keeps(s.sh, s.calls[t], o.sh, o.c)
    ensures CallOk(Step(s.sh, s.mu, t, s.calls[t], ch).sh, s.calls[u])
  {
    var o := Step(s.sh, s.mu, t, s.calls[t], ch);
    var d := s.calls[u];
    OthersCommitted(s.sh.log, s.calls[t], o.sh.log, d);
    if Holding(d.pc) {
      StableHolder(s.sh, o.sh, d);
    } else {
      StableOutside(s.sh, o.sh, d);
    }
  }

  lemma HolderCache(s: State, s': State, t: Tid)
    requires t in s.calls && t in s'.calls && s'.calls == s.calls[t := s'.calls[t]]
    requires Mutex(s) && Basic(s.sh) && Cache(s.sh, HolderPhase(s))
    requires MutexMoves(s.mu, t, s.calls[t], s'.mu, s'.calls[t])
    requires if Holding(s.calls[t].pc) then Cache(s'.sh, PhaseOf(s'.calls[t])) else GuarFree(s.sh, s'.sh)
    ensures Cache(s'.sh, HolderPhase(s')) && Mutex(s')
  {
    HolderMutex(s, s', t);
    if !Holding(s.calls[t].pc) {
      CacheStable(s.sh, s'.sh, HolderPhase(s));
    }
  }

  lemma HolderMutex(s: State, s': State, t: Tid)
    requires t in s.calls && t in s'.calls && s'.calls == s.calls[t := s'.calls[t]]
    requires Mutex(s) && MutexMoves(s.mu, t, s.calls[t], s'.mu, s'.calls[t])
    ensures Mutex(s')
    ensures HolderPhase(s') == if Holding(s.calls[t].pc) then PhaseOf(s'.calls[t]) else HolderPhase(s)
  {
    if Holding(s.calls[t].pc) {
      assert s.mu == Some(t);
    } else {
      assert s.mu != Some(t);
    }
  }

  lemma MoveInv(s: State, s': State, t: Tid, ch: Choice)
    requires Inv(s) && Move(s, s', t, ch)
    ensures Inv(s') && Keeps(s.sh, s.calls[t], s'.sh, s'.calls[t])
  {
    var c := s.calls[t];
    assert CallOk(s.sh, c);
    OfStep(s.sh, s.mu, t, c, ch);
    MutexStep(s.sh, s.mu, t, c, ch);
    HolderCache(s, s', t);
    OwnCommitted(s.sh, c, s'.sh, s'.calls[t]);
    forall u | u in s'.calls ensures CallOk(s'.sh, s'.calls[u]) {
      if u != t {
        OtherOk(s, t, ch, u);
      }
    }
    MoveIds(s, s', t, ch);
  }

  lemma MoveIds(s: State, s': State, t: Tid, ch: Choice)
    requires Ids(s) && Move(s, s', t, ch) && Logs(s.sh, s.calls[t], s'.sh, s'.calls[t])
    ensures Ids(s')
  {
  }

  /** The map object m is not written and stays published. */
  ghost predicate Kept(sh: Shared, sh': Shared, m: MapId) {
    m in sh'.published && m in sh.maps && m in sh'.maps && sh'.maps[m] == sh.maps[m]
  }

  ghost predicate KeepsPublished(sh: Shared, sh': Shared) {
    forall m :: m in sh.published ==> Kept(sh, sh', m)
  }

  lemma RunNext(run: seq<State>, j: nat)
    requires IsRun(run) && 0 < j < |run|
    ensures Next(run[j - 1], run[j])
  {
    assert Next(run[j - 1], run[j - 1 + 1]);
  }

  lemma {:induction false} RunInv(run: seq<State>, j: nat)
    requires IsRun(run) && j < |run|
    ensures Inv(run[j])
    ensures j > 0 ==> KeepsPublished(run[j - 1].sh, run[j].sh)
  {
    if j == 0 {
      InitialInv();
    } else {
      RunInv(run, j - 1);
      RunNext(run, j);
      NextInv(run[j - 1], run[j]);
    }
  }

  lemma NextInv(s: State, s': State)
    requires Inv(s) && Next(s, s')
    ensures Inv(s') && Grows(s.sh.log, s'.sh.log) && |s'.sh.log| <= |s.sh.log| + 1
    ensures KeepsPublished(s.sh, s'.sh)
  {
    if t, op :| Begin(s, s', t, op) {
      BeginInv(s, s', t, op);
    } else {
      var t, ch :| Move(s, s', t, ch);
      MoveInv(s, s', t, ch);
    }
  }

  // ---- Updates ----

  /** The steps at which an update can take effect. */
  predicate Designated(c: Call) {
    match c.pc
    case CasEntry(_, _) => Writes(c) || c.op.Delete?
    case SlowDirty(_) => c.op.Delete?
    case LockedTry(_, _) => c.op.Store?
    case LockedCas(_, _) => c.op.LoadOrStore?
    case InsertNew => Writes(c)
    case _ => false
  }

  /** Every step but a designated one leaves every key's answer alone; a designated step that
      changes anything does what the call's operation does to the plain map, for a call that had
      not taken effect before. */
  lemma UpdatesArePlainMapUpdates(run: seq<State>, i: nat, t: Tid, ch: Choice)
    requires IsRun(run) && i < |run| - 1 && Move(run[i], run[i + 1], t, ch)
    ensures var s, s', c := run[i].sh, run[i + 1].sh, run[i].calls[t];
            || (s'.log == s.log && forall k :: AbsGet(s', k) == AbsGet(s, k))
            || (&& Designated(c) && c.lin.None? && s'.log == s.log + [UpdateEvent(c)]
                && (c.op.LoadOrStore? ==> AbsGet(s, c.op.key).None?)
                && forall k :: AbsGet(s', k) ==
                     if k != c.op.key then AbsGet(s, k) else if c.op.Delete? then None else Some(c.op.pool))
  {
    var s, s', c := run[i].sh, run[i + 1].sh, run[i].calls[t];
    RunInv(run, i);
    MoveInv(run[i], run[i + 1], t, ch);
    if s'.log == s.log {
      SameLog(s, s');
    } else {
      OnlyDesignated(s, run[i].mu, t, c, ch);
      OneEvent(s, s', c);
    }
  }

  lemma SameLog(s: Shared, s': Shared)
    requires Matches(s) && Matches(s') && s'.log == s.log
    ensures forall k :: AbsGet(s', k) == AbsGet(s, k)
  {
    forall k ensures AbsGet(s', k) == AbsGet(s, k) {
      assert Look(Replay(s.log), k) == AbsGet(s, k) && Look(Replay(s'.log), k) == AbsGet(s', k);
    }
  }

  lemma OneEvent(s: Shared, s': Shared, c: Call)
    requires Matches(s) && Matches(s') && Legal(s'.log) && !c.op.Range? && !c.op.Load?
    requires s'.log == s.log + [UpdateEvent(c)]
    ensures c.op.LoadOrStore? ==> AbsGet(s, c.op.key).None?
    ensures forall k :: AbsGet(s', k) ==
              if k != c.op.key then AbsGet(s, k) else if c.op.Delete? then None else Some(c.op.pool)
  {
    var ev := UpdateEvent(c);
    ReplayPush(s.log, ev);
    assert s'.log[|s.log|] == ev && s'.log[..|s.log|] == s.log;
    assert Look(Replay(s.log), c.op.key) == AbsGet(s, c.op.key);
    forall k ensures AbsGet(s', k) ==
                       if k != c.op.key then AbsGet(s, k) else if c.op.Delete? then None else Some(c.op.pool)
    {
      assert Look(Replay(s.log), k) == AbsGet(s, k) && Look(Replay(s'.log), k) == AbsGet(s', k);
    }
  }

  lemma OnlyDesignated(sh: Shared, mu: Option<Tid>, t: Tid, c: Call, ch: Choice)
    requires Step(sh, mu, t, c, ch).Stepped? && Step(sh, mu, t, c, ch).sh.log != sh.log
    ensures Designated(c)
  {
  }

  // ---- Answers ----

  /** At moment m of the run the call id was in progress on thread t, and k had answer a. */
  ghost predicate HeldAt(run: seq<State>, m: nat, t: Tid, id: CallId, k: Key, a: Option<PoolId>) {
    m < |run| && t in run[m].calls && run[m].calls[t].id == id && AbsGet(run[m].sh, k) == a
  }

  ghost predicate LogAt(run: seq<State>, m: nat, t: Tid, id: CallId, log: seq<Event>) {
    m < |run| && t in run[m].calls && run[m].calls[t].id == id && run[m].sh.log == log
  }

  lemma StartStays(s: State, s': State, t: Tid)
    requires Inv(s) && Next(s, s') && t in s'.calls
    ensures if t in s.calls && s.calls[t].id == s'.calls[t].id then s'.calls[t].start == s.calls[t].start
            else s'.calls[t].start == |s.sh.log| && s'.sh.log == s.sh.log
  {
    if u, op :| Begin(s, s', u, op) {
    } else {
      var u, ch :| Move(s, s', u, ch);
      MoveInv(s, s', u, ch);
    }
  }

  /** Every log position since a call's start was the whole log at some moment of that call. */
  lemma {:induction false} PrefixMoment(run: seq<State>, j: nat, t: Tid, n: nat) returns (m: nat)
    requires IsRun(run) && j < |run| && t in run[j].calls
    requires run[j].calls[t].start <= n <= |run[j].sh.log|
    ensures m <= j && LogAt(run, m, t, run[j].calls[t].id, run[j].sh.log[..n])
  {
    var s' := run[j];
    if n == |s'.sh.log| {
      m := j;
      assert s'.sh.log[..n] == s'.sh.log;
    } else {
      assert j > 0;
      var s := run[j - 1];
      RunNext(run, j);
      RunInv(run, j - 1);
      NextInv(s, s');
      StartStays(s, s', t);
      m := PrefixMoment(run, j - 1, t, n);
      assert s.sh.log[..n] == s'.sh.log[..n];
    }
  }

  lemma SeenMoment(run: seq<State>, j: nat, t: Tid, k: Key, a: Option<PoolId>)
    requires IsRun(run) && j < |run| && t in run[j].calls
    requires Seen(run[j].sh.log, run[j].calls[t].start, k, a)
    ensures exists m: nat :: m <= j && HeldAt(run, m, t, run[j].calls[t].id, k, a)
  {
    var log, c := run[j].sh.log, run[j].calls[t];
    var n :| c.start <= n <= |log| && Look(Replay(log[..n]), k) == a;
    var m := PrefixMoment(run, j, t, n);
    RunInv(run, m);
    assert Look(Replay(run[m].sh.log), k) == AbsGet(run[m].sh, k);
    assert HeldAt(run, m, t, c.id, k, a);
  }

  /** A finished Load reports what the map held for its key at some moment of the call. */
  lemma LoadAnswers(run: seq<State>, j: nat, t: Tid)
    requires IsRun(run) && j < |run| && t in run[j].calls
    requires run[j].calls[t].pc.Done? && run[j].calls[t].op.Load?
    ensures var c := run[j].calls[t];
            c.pc.answer.Value? && exists m: nat :: m <= j && HeldAt(run, m, t, c.id, c.op.key, c.pc.answer.found)
  {
    RunInv(run, j);
    var c := run[j].calls[t];
    assert CallOk(run[j].sh, c);
    SeenMoment(run, j, t, c.op.key, c.pc.answer.found);
  }

  /** A finished Store or Delete took effect exactly once, while it was in progress; a Delete that
      took no effect found its key absent at some moment of the call. */
  lemma UpdateAnswers(run: seq<State>, j: nat, t: Tid)
    requires IsRun(run) && j < |run| && t in run[j].calls
    requires run[j].calls[t].pc.Done? && (run[j].calls[t].op.Store? || run[j].calls[t].op.Delete?)
    ensures var c, log := run[j].calls[t], run[j].sh.log;
            || (exists i :: && c.start <= i < |log| && log[i] == UpdateEvent(c)
                            && forall x :: 0 <= x < |log| && log[x].call == c.id ==> x == i)
            || (c.op.Delete? && exists m: nat :: m <= j && HeldAt(run, m, t, c.id, c.op.key, None))
  {
    RunInv(run, j);
    var c := run[j].calls[t];
    assert CallOk(run[j].sh, c);
    if c.lin.None? {
      SeenMoment(run, j, t, c.op.key, None);
    } else {
      assert run[j].sh.log[c.lin.value] == UpdateEvent(c);
    }
  }

  /** A finished LoadOrStore that loaded returns what the map held for its key at some moment of the
      call; one that stored inserted its pool exactly once, while it was in progress, when the map
      had nothing for the key. */
  lemma LoadOrStoreAnswers(run: seq<State>, j: nat, t: Tid)
    requires IsRun(run) && j < |run| && t in run[j].calls
    requires run[j].calls[t].pc.Done? && run[j].calls[t].op.LoadOrStore?
    ensures var c, log := run[j].calls[t], run[j].sh.log;
            && c.pc.answer.Actual? && c.pc.answer.actual.Some?
            && if c.pc.answer.loaded then
                 exists m: nat :: m <= j && HeldAt(run, m, t, c.id, c.op.key, c.pc.answer.actual)
               else
                 && c.pc.answer.actual == Some(c.op.pool)
                 && exists i: nat :: && c.start <= i < |log| && log[i] == Insert(c.id, c.op.key, c.op.pool)
                                     && c.op.key !in Replay(log[..i])
                                     && forall x :: 0 <= x < |log| && log[x].call == c.id ==> x == i
  {
    RunInv(run, j);
    var c, log := run[j].calls[t], run[j].sh.log;
    assert CallOk(run[j].sh, c);
    if c.pc.answer.loaded {
      SeenMoment(run, j, t, c.op.key, c.pc.answer.actual);
    } else {
      assert log[c.lin.value] == Insert(c.id, c.op.key, c.op.pool);
    }
  }

  /** Range reports each key at most once, only with values it held at some moment of the call, and
      when f never stops it, leaves out only keys that were absent at some moment of the call. */
  lemma RangeAnswers(run: seq<State>, j: nat, t: Tid, k: Key)
    requires IsRun(run) && j < |run| && t in run[j].calls
    requires run[j].calls[t].pc.Done? && run[j].calls[t].op.Range?
    ensures var c := run[j].calls[t];
            && c.pc.answer.Visited?
            && (k in c.pc.answer.pairs ==>
                  exists m: nat :: m <= j && HeldAt(run, m, t, c.id, k, Some(c.pc.answer.pairs[k])))
            && (c.pc.answer.complete && k !in c.pc.answer.pairs ==>
                  exists m: nat :: m <= j && HeldAt(run, m, t, c.id, k, None))
  {
    RunInv(run, j);
    var c := run[j].calls[t];
    assert CallOk(run[j].sh, c);
    if k in c.pc.answer.pairs {
      SeenMoment(run, j, t, k, Some(c.pc.answer.pairs[k]));
    } else if c.pc.answer.complete {
      SeenMoment(run, j, t, k, None);
    }
  }

  /** Range never calls f twice with one key: no visit, not even the one at which f stops the
      iteration, is of a key that f was called with before. */
  lemma RangeVisitsOnce(run: seq<State>, i: nat, t: Tid, ch: Choice)
    requires IsRun(run) && i < |run| - 1 && Move(run[i], run[i + 1], t, ch) && run[i].calls[t].pc.Iterate?
    ensures run[i].calls[t].pc.todo != {} ==> ch.key !in run[i].calls[t].pc.pairs
  {
    RunInv(run, i);
    assert CallOk(run[i].sh, run[i].calls[t]);
  }

  // ---- A single winner ----

  /** Only LoadOrStore has updated k. */
  ghost predicate OnlyInserts(log: seq<Event>, k: Key) {
    forall i :: 0 <= i < |log| && log[i].key == k ==> log[i].Insert?
  }

  lemma {:induction false} InsertStays(log: seq<Event>, k: Key, i: nat, n: nat)
    requires Legal(log) && OnlyInserts(log, k) && i < n <= |log| && log[i].key == k
    ensures Look(Replay(log[..n]), k) == Some(log[i].pool)
  {
    assert log[..n] == log[..n - 1] + [log[n - 1]];
    ReplayPush(log[..n - 1], log[n - 1]);
    if n > i + 1 {
      InsertStays(log, k, i, n - 1);
      assert log[n - 1].key != k;
    }
  }

  lemma {:induction false} PresentWasInserted(log: seq<Event>, k: Key, n: nat) returns (i: nat)
    requires OnlyInserts(log, k) && n <= |log| && Look(Replay(log[..n]), k).Some?
    ensures i < n && log[i].key == k && Look(Replay(log[..n]), k) == Some(log[i].pool)
  {
    assert n > 0;
    assert log[..n] == log[..n - 1] + [log[n - 1]];
    ReplayPush(log[..n - 1], log[n - 1]);
    if log[n - 1].key == k {
      i := n - 1;
    } else {
      i := PresentWasInserted(log, k, n - 1);
    }
  }

  /** While nobody stores or deletes k, one insertion of k is the only one, every finished
      LoadOrStore of k returns its pool, and exactly the call that made it returns loaded = false. */
  lemma SingleWinner(run: seq<State>, j: nat, t: Tid)
    requires IsRun(run) && j < |run| && t in run[j].calls
    requires run[j].calls[t].pc.Done? && run[j].calls[t].op.LoadOrStore?
    requires OnlyInserts(run[j].sh.log, run[j].calls[t].op.key)
    ensures var c, log := run[j].calls[t], run[j].sh.log;
            exists i :: && 0 <= i < |log| && log[i].key == c.op.key
                        && (forall x :: 0 <= x < |log| && log[x].key == c.op.key ==> x == i)
                        && c.pc.answer.Actual? && c.pc.answer.actual == Some(log[i].pool)
                        && (c.pc.answer.loaded <==> log[i].call != c.id)
  {
    RunInv(run, j);
    var c, log := run[j].calls[t], run[j].sh.log;
    assert CallOk(run[j].sh, c);
    var k := c.op.key;
    var i: nat;
    if c.pc.answer.loaded {
      var n :| c.start <= n <= |log| && Look(Replay(log[..n]), k) == c.pc.answer.actual;
      i := PresentWasInserted(log, k, n);
      assert log[i].call == c.id ==> c.lin == Some(i);
    } else {
      i := c.lin.value;
    }
    forall x | 0 <= x < |log| && log[x].key == k ensures x == i {
      if x < i {
        InsertStays(log, k, x, i);
      } else if i < x {
        InsertStays(log, k, i, x);
      }
    }
  }

  // ---- The cache ----

  /** With the mutex free: no dirty map means an unamended read map with nothing expunged; a dirty
      map has exactly the unexpunged entries of read, plus live entries of its own. */
  lemma CacheAtRest(run: seq<State>, j: nat)
    requires IsRun(run) && j < |run| && run[j].mu.None?
    ensures var sh := run[j].sh;
            && (sh.dirty.Some? <==> sh.read.amended)
            && (sh.dirty.None? ==> sh.misses == 0 && NoneExpunged(sh, ReadMap(sh)))
            && (sh.dirty.Some? ==>
                  && NoneExpunged(sh, DirtyMap(sh))
                  && forall k :: k in ReadMap(sh) ==>
                       ((k in DirtyMap(sh) && DirtyMap(sh)[k] == ReadMap(sh)[k])
                        <==> PtrAt(sh, ReadMap(sh)[k]) != Expunged))
  {
    RunInv(run, j);
    var sh := run[j].sh;
    if sh.dirty.Some? {
      assert forall k :: k in ReadMap(sh) ==> Mirrored(sh, k);
    }
  }

  /** What makes a swap through an old snapshot sound: an entry that was ever in a published map
      is either expunged or still the read entry of its key. */
  lemma ExposedIsCurrent(run: seq<State>, i: nat, j: nat, k: Key)
    requires IsRun(run) && i <= j < |run| && k in ReadMap(run[i].sh)
    ensures var e := ReadMap(run[i].sh)[k];
            PtrAt(run[j].sh, e) == Expunged || (k in ReadMap(run[j].sh) && ReadMap(run[j].sh)[k] == e)
  {
    RunInv(run, i);
    RunInv(run, j);
    PublishedStays(run, i, j, run[i].sh.read.m);
    assert run[j].sh.maps[run[i].sh.read.m][k] in run[j].sh.exposed;
  }

  /** A map object once published in read is never written again. */
  lemma {:induction false} PublishedStays(run: seq<State>, i: nat, j: nat, m: MapId)
    requires IsRun(run) && i <= j < |run| && m in run[i].sh.published
    ensures Kept(run[i].sh, run[j].sh, m)
  {
    if i == j {
      PublishedMapped(run, i, m);
    } else {
      PublishedStays(run, i, j - 1, m);
      PublishedStep(run, j, m);
    }
  }

  lemma PublishedStep(run: seq<State>, j: nat, m: MapId)
    requires IsRun(run) && 0 < j < |run| && m in run[j - 1].sh.published
    ensures Kept(run[j - 1].sh, run[j].sh, m)
  {
    RunInv(run, j);
  }

  lemma PublishedMapped(run: seq<State>, i: nat, m: MapId)
    requires IsRun(run) && i < |run| && m in run[i].sh.published
    ensures m in run[i].sh.maps
  {
    RunInv(run, i);
  }

  /** storeLocked and the locked tryLoadOrStore never meet an expunged entry, so the discarded ok is
      always true; and no map write ever goes to a nil dirty map. */
  lemma LockedPathsAreSafe(run: seq<State>, j: nat, t: Tid)
    requires IsRun(run) && j < |run| && t in run[j].calls
    ensures var sh, pc := run[j].sh, run[j].calls[t].pc;
            && (pc.LockedTry? ==> PtrAt(sh, pc.e) != Expunged)
            && (pc.LockedCas? ==> PtrAt(sh, pc.e) != Expunged)
            && (pc.Link? || pc.InsertNew? || pc.DirtyPut? || pc.Promote? ==> sh.dirty.Some?)
  {
    RunInv(run, j);
    assert CallOk(run[j].sh, run[j].calls[t]);
  }

  /** A look into dirty under the mutex counts as a miss, and dirty is published, unamended and with the
      count begun anew, exactly when as many misses have been counted as it has keys. */
  lemma MissesPromote(run: seq<State>, i: nat, t: Tid, ch: Choice)
    requires IsRun(run) && i < |run| - 1 && Move(run[i], run[i + 1], t, ch)
    ensures var sh, sh', pc, pc' := run[i].sh, run[i + 1].sh, run[i].calls[t].pc, run[i + 1].calls[t].pc;
            && (pc.Miss? ==> sh'.misses == sh.misses + 1 && sh'.read == sh.read && sh'.dirty == sh.dirty)
            && (pc.Miss? ==> if sh'.misses >= |DirtyMap(sh)| then pc'.Promote? else pc'.Unlock?)
            && (pc.Promote? ==> sh.dirty == Some(sh'.read.m) && !sh'.read.amended && pc'.Clear?)
            && (pc.Clear? ==> sh'.dirty.None? && sh'.misses == 0 && sh'.read == sh.read && pc'.Unlock?)
  {
  }

  lemma UnblockedOutside(sh: Shared, mu: Option<Tid>, t: Tid, c: Call) returns (ch: Choice)
    requires PCOk(sh, c) && !Holding(c.pc) && !c.pc.Done? && (c.pc.WantLock? ==> mu.None?)
    ensures StepOutside(sh, mu, t, c, ch).Stepped?
  {
    ch := Choice("", true);
    if c.pc.Iterate? && c.pc.todo != {} {
      var k :| k in c.pc.todo;
      ch := Choice(k, true);
      assert Held(sh, c, k, MapAt(sh, c.pc.m)[k]);
    }
  }

  lemma UnblockedCopying(sh: Shared, mu: Option<Tid>, c: Call) returns (ch: Choice)
    requires PCOk(sh, c) && Copying?(c.pc) && Cache(sh, PhaseOf(c))
    ensures StepCopying(sh, mu, c, ch).Stepped?
  {
    ch := Choice("", true);
    if c.pc.DirtyPick? && c.pc.todo != {} {
      var k :| k in c.pc.todo;
      ch := Choice(k, true);
    }
  }

  /** An unfinished call is only ever held up by another call holding the mutex. */
  lemma Unblocked(run: seq<State>, j: nat, t: Tid) returns (ch: Choice)
    requires IsRun(run) && j < |run| && t in run[j].calls && !run[j].calls[t].pc.Done?
    requires run[j].calls[t].pc.WantLock? ==> run[j].mu.None?
    ensures Step(run[j].sh, run[j].mu, t, run[j].calls[t], ch).Stepped?
  {
    RunBefore(run, j, t);
    var sh, mu, c := run[j].sh, run[j].mu, run[j].calls[t];
    ch := Choice("", true);
    if Looking?(c.pc) {
      OfLooking(sh, mu, c);
    } else if Growing?(c.pc) {
      OfGrowing(sh, mu, c);
    } else if Copying?(c.pc) {
      ch := UnblockedCopying(sh, mu, c);
    } else if Leaving?(c.pc) {
      OfLeaving(sh, mu, c);
    } else {
      ch := UnblockedOutside(sh, mu, t, c);
    }
  }

  lemma RunBefore(run: seq<State>, j: nat, t: Tid)
    requires IsRun(run) && j < |run| && t in run[j].calls
    ensures Before(run[j].sh, run[j].calls[t])
  {
    RunInv(run, j);
    assert CallOk(run[j].sh, run[j].calls[t]);
  }

  /** The mutex never deadlocks: while any call is unfinished, some call can take a step. */
  lemma NoDeadlock(run: seq<State>, j: nat, t: Tid) returns (u: Tid, ch: Choice)
    requires IsRun(run) && j < |run| && t in run[j].calls && !run[j].calls[t].pc.Done?
    ensures u in run[j].calls && Step(run[j].sh, run[j].mu, u, run[j].calls[u], ch).Stepped?
  {
    RunInv(run, j);
    u := if run[j].calls[t].pc.WantLock? && run[j].mu.Some? then run[j].mu.value else t;
    ch := Unblocked(run, j, u);
  }
}
