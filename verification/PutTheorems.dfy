/** What concurrent calls of KeepAliver.put come to: one permanent pool for an address, and every client
    whose put answered true pushed into it exactly once. */
module PutTheorems {
  import opened Wrappers
  import M = PoolMapMachine
  import P = PoolMapProof
  import T = PoolMapTheorems
  import Pools
  import opened PutMachine

  // ---- The invariant ----

  /** PoolMap answers a for k. */
  predicate Holds(log: seq<M.Event>, k: M.Key, a: PoolId) {
    M.Look(M.Replay(log), k) == Some(a)
  }

  /** Every insertion is that of a put, which inserts its own pool. */
  ghost predicate LogOk(s: State, ev: M.Event) {
    ev.Insert? && ev.pool in s.puts && s.puts[ev.pool].call == Some(ev.call) && s.puts[ev.pool].key == ev.key
  }

  /** Only puts insert: every LoadOrStore is the one of a put, for its own pool. */
  ghost predicate CallOk(s: State, c: M.Call) {
    match c.op
    case Load(_) => true
    case Range => true
    case LoadOrStore(k, v) => v in s.puts && s.puts[v].key == k && s.puts[v].call == Some(c.id)
    case _ => false
  }

  ghost predicate Found(s: State, q: PoolId, a: PoolId, loaded: bool)
    requires q in s.puts
  {
    Holds(s.m.sh.log, s.puts[q].key, a) && (loaded <==> a != q) && a in s.pools
  }

  ghost predicate PutOk(s: State, q: PoolId)
    requires q in s.puts
  {
    && q < s.nextPool && q in s.pools
    && (s.puts[q].call.Some? ==> s.puts[q].call.value < s.m.nextCall)
    && match s.puts[q].stage
       case Fresh => s.puts[q].call.None?
       case Loading => s.puts[q].call.Some?
       case TestSize(a, loaded) => Found(s, q, a, loaded)
       case TestUse(a, loaded) => Found(s, q, a, loaded)
       case TestRoom(a, loaded) => Found(s, q, a, loaded)
       case Pushing(a) => Found(s, q, a, true)
       case Returned(answer, a, loaded) => Found(s, q, a, loaded)
  }

  ghost predicate ThreadOk(s: State, t: Tid)
    requires t in s.current
  {
    && s.current[t] in s.puts && !s.puts[s.current[t]].stage.Returned?
    && (s.puts[s.current[t]].stage.Fresh? ==> t in s.m.calls ==> s.m.calls[t].pc.Done?)
    && (s.puts[s.current[t]].stage.Loading? ==>
          && t in s.m.calls && s.m.calls[t].op == M.LoadOrStore(s.puts[s.current[t]].key, s.current[t])
          && Some(s.m.calls[t].id) == s.puts[s.current[t]].call)
  }

  ghost predicate MapOk(s: State) {
    && T.Inv(s.m)
    && (forall i :: 0 <= i < |s.m.sh.log| ==> LogOk(s, s.m.sh.log[i]))
    && (forall t :: t in s.m.calls ==> CallOk(s, s.m.calls[t]))
  }

  ghost predicate PutsOk(s: State) {
    && (forall q :: q in s.puts ==> PutOk(s, q))
    && (forall t :: t in s.current ==> ThreadOk(s, t))
    && (forall t, u :: t in s.current && u in s.current && s.current[t] == s.current[u] ==> t == u)
    && (forall q, r :: q in s.puts && r in s.puts && s.puts[q].call.Some? && s.puts[q].call == s.puts[r].call
         ==> q == r)
  }

  /** What a put has pushed. */
  function By(pushes: seq<Push>, q: PoolId): seq<Push> {
    if pushes == [] then []
    else By(pushes[..|pushes| - 1], q) + if pushes[|pushes| - 1].put == q then [pushes[|pushes| - 1]] else []
  }

  /** The clients that were pushed into a pool. */
  function Into(pushes: seq<Push>, p: PoolId): multiset<ClientId> {
    if pushes == [] then multiset{}
    else Into(pushes[..|pushes| - 1], p)
         + if pushes[|pushes| - 1].pool == p then multiset{pushes[|pushes| - 1].client} else multiset{}
  }

  predicate Pushed(stage: Stage) { stage.Returned? && stage.answer && stage.loaded }

  /** Its client, first into its own pool, and then into the one it found, if it pushes. */
  function Expected(s: State, q: PoolId): seq<Push>
    requires q in s.puts
  {
    var first := Push(q, q, s.puts[q].client);
    if Pushed(s.puts[q].stage) then [first, Push(q, s.puts[q].stage.actual, s.puts[q].client)] else [first]
  }

  ghost predicate PushesOk(s: State) {
    && (forall q :: q in s.puts ==> By(s.pushes, q) == Expected(s, q))
    && (forall i :: 0 <= i < |s.pushes| ==> s.pushes[i].put in s.puts && s.pushes[i].pool in s.pools)
  }

  /** What was pushed into a pool is in it or was deleted from it. */
  ghost predicate PoolsOk(s: State) {
    forall p :: p in s.pools ==> p < s.nextPool && PoolOk(s, p)
  }

  ghost predicate PoolOk(s: State, p: PoolId) {
    p in s.pools && p in s.removed && Conserved(s.pools[p].clients, s.removed[p], Into(s.pushes, p))
  }

  predicate Conserved(clients: seq<ClientId>, removed: multiset<ClientId>, pushed: multiset<ClientId>) {
    multiset(clients) + removed == pushed
  }

  ghost predicate Inv(s: State) {
    MapOk(s) && PutsOk(s) && PushesOk(s) && PoolsOk(s)
  }

  // ---- Histories ----

  lemma ByPush(pushes: seq<Push>, x: Push, q: PoolId)
    ensures By(pushes + [x], q) == By(pushes, q) + if x.put == q then [x] else []
  {
    assert (pushes + [x])[..|pushes|] == pushes;
  }

  lemma ByOther(pushes: seq<Push>, x: Push, q: PoolId)
    requires x.put != q
    ensures By(pushes + [x], q) == By(pushes, q)
  {
    ByPush(pushes, x, q);
  }

  lemma ByFirst(pushes: seq<Push>, x: Push)
    requires forall i :: 0 <= i < |pushes| ==> pushes[i].put != x.put
    ensures By(pushes + [x], x.put) == [x]
  {
    ByPush(pushes, x, x.put);
    ByNone(pushes, x.put);
  }

  lemma IntoPush(pushes: seq<Push>, x: Push, p: PoolId)
    ensures Into(pushes + [x], p) == Into(pushes, p) + if x.pool == p then multiset{x.client} else multiset{}
  {
    assert (pushes + [x])[..|pushes|] == pushes;
  }

  lemma {:induction false} ByNone(pushes: seq<Push>, q: PoolId)
    requires forall i :: 0 <= i < |pushes| ==> pushes[i].put != q
    ensures By(pushes, q) == []
  {
    if pushes != [] { ByNone(pushes[..|pushes| - 1], q); }
  }

  lemma {:induction false} IntoNone(pushes: seq<Push>, p: PoolId)
    requires forall i :: 0 <= i < |pushes| ==> pushes[i].pool != p
    ensures Into(pushes, p) == multiset{}
  {
    if pushes != [] { IntoNone(pushes[..|pushes| - 1], p); }
  }

  // ---- PoolMap, with insertions only ----

  /** What was found stays: insertions only add absent keys. */
  lemma HoldsOn(log: seq<M.Event>, ev: M.Event, k: M.Key, a: PoolId)
    requires P.Legal(log + [ev]) && ev.Insert? && Holds(log, k, a)
    ensures Holds(log + [ev], k, a)
  {
    P.ReplayPush(log, ev);
    assert (log + [ev])[|log|] == ev && (log + [ev])[..|log|] == log;
  }

  /** A finished LoadOrStore returned what PoolMap holds now. */
  lemma LoadOrStoreFinds(s: State, t: Tid, q: PoolId)
    requires MapOk(s) && t in s.m.calls && s.m.calls[t].pc.Done? && q in s.puts
    requires s.m.calls[t].op == M.LoadOrStore(s.puts[q].key, q) && s.puts[q].call == Some(s.m.calls[t].id)
    requires forall r :: r in s.puts && s.puts[r].call == s.puts[q].call ==> r == q
    ensures var a := s.m.calls[t].pc.answer;
            a.Actual? && a.actual.Some? && Holds(s.m.sh.log, s.puts[q].key, a.actual.value)
            && (a.loaded <==> a.actual.value != q)
    ensures s.m.calls[t].pc.answer.actual.value in s.puts
  {
    var c, log, k := s.m.calls[t], s.m.sh.log, s.puts[q].key;
    assert P.CallOk(s.m.sh, c);
    AllInserts(s, k);
    var i: nat;
    if c.pc.answer.loaded {
      var n :| c.start <= n <= |log| && M.Look(M.Replay(log[..n]), k) == c.pc.answer.actual;
      i := T.PresentWasInserted(log, k, n);
    } else {
      i := c.lin.value;
    }
    T.InsertStays(log, k, i, |log|);
    assert log[..|log|] == log;
    assert LogOk(s, log[i]);
  }

  // ---- Steps of PoolMap ----

  lemma LoadMap(s: State, s': State, t: Tid, q: PoolId)
    requires MapOk(s) && PutsOk(s) && Loads(s, s', t, q)
    ensures MapOk(s')
  {
    assert PutOk(s, q) && ThreadOk(s, t);
    T.BeginInv(s.m, s'.m, t, M.LoadOrStore(s.puts[q].key, q));
    forall i | 0 <= i < |s'.m.sh.log| ensures LogOk(s', s'.m.sh.log[i]) { assert LogOk(s, s.m.sh.log[i]); }
    forall u | u in s'.m.calls ensures CallOk(s', s'.m.calls[u]) { if u != t { assert CallOk(s, s.m.calls[u]); } }
  }

  lemma LoadPuts(s: State, s': State, t: Tid, q: PoolId)
    requires PutsOk(s) && Loads(s, s', t, q)
    ensures PutsOk(s')
  {
    forall r | r in s'.puts ensures PutOk(s', r) { assert PutOk(s, r); }
    forall u | u in s'.current ensures ThreadOk(s', u) { assert ThreadOk(s, u); }
    forall r, w | r in s'.puts && w in s'.puts && s'.puts[r].call.Some? && s'.puts[r].call == s'.puts[w].call
      ensures r == w {
      assert PutOk(s, r) && PutOk(s, w);
    }
  }

  lemma LookMap(s: State, s': State, t: Tid, op: M.Op)
    requires MapOk(s) && Looks(s, s', t, op)
    ensures MapOk(s')
  {
    T.BeginInv(s.m, s'.m, t, op);
    forall i | 0 <= i < |s'.m.sh.log| ensures LogOk(s', s'.m.sh.log[i]) { assert LogOk(s, s.m.sh.log[i]); }
    forall u | u in s'.m.calls ensures CallOk(s', s'.m.calls[u]) { if u != t { assert CallOk(s, s.m.calls[u]); } }
  }

  lemma LookPuts(s: State, s': State, t: Tid, op: M.Op)
    requires PutsOk(s) && Looks(s, s', t, op)
    ensures PutsOk(s')
  {
    forall r | r in s'.puts ensures PutOk(s', r) { assert PutOk(s, r); }
    forall u | u in s'.current ensures ThreadOk(s', u) { assert ThreadOk(s, u); }
  }

  /** A step of PoolMap adds nothing to its history, or the insertion of a put's own pool. */
  ghost predicate Grew(s: State, s': State) {
    var log, log' := s.m.sh.log, s'.m.sh.log;
    log' == log || (|log'| > 0 && log' == log + [log'[|log'| - 1]] && LogOk(s, log'[|log'| - 1]))
  }

  lemma MoveLogs(s: State, s': State, t: Tid, ch: M.Choice)
    requires MapOk(s) && Moves(s, s', t, ch)
    ensures T.Inv(s'.m) && Moved(s, s', t)
    ensures Grew(s, s')
    ensures P.Legal(s'.m.sh.log)
  {
    T.MoveInv(s.m, s'.m, t, ch);
    assert CallOk(s, s.m.calls[t]);
  }

  lemma MoveHolds(s: State, s': State, k: M.Key, a: PoolId)
    requires P.Legal(s'.m.sh.log) && Holds(s.m.sh.log, k, a)
    requires Grew(s, s')
    ensures Holds(s'.m.sh.log, k, a)
  {
    var log, log' := s.m.sh.log, s'.m.sh.log;
    if log' != log { HoldsOn(log, log'[|log'| - 1], k, a); }
  }

  lemma MoveMap(s: State, s': State, t: Tid, ch: M.Choice)
    requires MapOk(s) && Moves(s, s', t, ch)
    ensures MapOk(s')
  {
    MoveLogs(s, s', t, ch);
    GrewOk(s, s');
    MovedOk(s, s', t);
  }

  lemma GrewOk(s: State, s': State)
    requires s'.puts == s.puts && Grew(s, s') && forall i :: 0 <= i < |s.m.sh.log| ==> LogOk(s, s.m.sh.log[i])
    ensures forall i :: 0 <= i < |s'.m.sh.log| ==> LogOk(s', s'.m.sh.log[i])
  {
    var log, log' := s.m.sh.log, s'.m.sh.log;
    forall i | 0 <= i < |log'|
      ensures LogOk(s', log'[i])
    {
      if i < |log| { assert LogOk(s, log[i]) && log'[i] == log[i]; }
    }
  }

  lemma MovedOk(s: State, s': State, t: Tid)
    requires Moved(s, s', t) && forall u :: u in s.m.calls ==> CallOk(s, s.m.calls[u])
    ensures forall u :: u in s'.m.calls ==> CallOk(s', s'.m.calls[u])
  {
    forall u | u in s'.m.calls ensures CallOk(s', s'.m.calls[u]) { assert CallOk(s, s.m.calls[u]); }
  }

  /** What a move of thread t leaves of the map for puts. */
  predicate Moved(s: State, s': State, t: Tid) {
    && s' == s.(m := s'.m) && s'.m.nextCall == s.m.nextCall && t in s.m.calls && t in s'.m.calls
    && s'.m.calls == s.m.calls[t := s'.m.calls[t]] && !s.m.calls[t].pc.Done?
    && s'.m.calls[t].op == s.m.calls[t].op && s'.m.calls[t].id == s.m.calls[t].id
  }

  lemma MovePuts(s: State, s': State, t: Tid)
    requires PutsOk(s) && Moved(s, s', t) && P.Legal(s'.m.sh.log)
    requires Grew(s, s')
    ensures PutsOk(s')
  {
    forall r | r in s'.puts ensures PutOk(s', r) {
      assert PutOk(s, r);
      var stage := s.puts[r].stage;
      if !stage.Fresh? && !stage.Loading? { MoveHolds(s, s', s.puts[r].key, stage.actual); }
    }
    forall u | u in s'.current ensures ThreadOk(s', u) { assert ThreadOk(s, u); }
  }

  lemma MapStepMap(s: State, s': State, a: Action)
    requires MapOk(s) && PutsOk(s) && MapStep(s, s', a)
    ensures MapOk(s')
  {
    match a
    case ALoad(t, q) => LoadMap(s, s', t, q);
    case ALook(t, op) => LookMap(s, s', t, op);
    case AMove(t, ch) => MoveMap(s, s', t, ch);
  }

  lemma MapStepPuts(s: State, s': State, a: Action)
    requires MapOk(s) && PutsOk(s) && MapStep(s, s', a)
    ensures PutsOk(s')
  {
    match a
    case ALoad(t, q) => LoadPuts(s, s', t, q);
    case ALook(t, op) => LookPuts(s, s', t, op);
    case AMove(t, ch) =>
      MoveLogs(s, s', t, ch);
      MovePuts(s, s', t);
  }

  lemma MapStepHistories(s: State, s': State, a: Action)
    requires PushesOk(s) && PoolsOk(s) && MapStep(s, s', a)
    ensures PushesOk(s') && PoolsOk(s')
  {
    MapStepStays(s, s', a);
    forall q | q in s'.puts ensures By(s'.pushes, q) == Expected(s', q) { assert By(s.pushes, q) == Expected(s, q); }
    PoolsCarry(s, s');
  }

  lemma MapStepStays(s: State, s': State, a: Action)
    requires MapStep(s, s', a)
    ensures s'.pools == s.pools && s'.removed == s.removed && s'.pushes == s.pushes && s'.nextPool == s.nextPool
    ensures s'.puts.Keys == s.puts.Keys
    ensures forall q :: q in s.puts ==>
              Pushed(s'.puts[q].stage) == Pushed(s.puts[q].stage) && s'.puts[q].client == s.puts[q].client
    ensures forall q :: q in s.puts && Pushed(s.puts[q].stage) ==> s'.puts[q] == s.puts[q]
  {
  }

  lemma PoolsCarry(s: State, s': State)
    requires PoolsOk(s) && s'.pools == s.pools && s'.removed == s.removed && s'.pushes == s.pushes
             && s'.nextPool == s.nextPool
    ensures PoolsOk(s')
  {
    forall p | p in s'.pools ensures p < s'.nextPool && PoolOk(s', p) { assert PoolOk(s, p); }
  }

  // ---- Steps of a put, and on pools ----

  /** The map is left alone, and every put keeps its call. */
  lemma MapCarries(s: State, s': State)
    requires MapOk(s) && s'.m == s.m
    requires forall q :: q in s.puts ==> q in s'.puts && s'.puts[q].(stage := s.puts[q].stage) == s.puts[q]
    ensures MapOk(s')
  {
    forall i | 0 <= i < |s'.m.sh.log| ensures LogOk(s', s'.m.sh.log[i]) { assert LogOk(s, s.m.sh.log[i]); }
    forall u | u in s'.m.calls ensures CallOk(s', s'.m.calls[u]) { assert CallOk(s, s.m.calls[u]); }
  }

  lemma FreshPool(s: State)
    requires PutsOk(s)
    ensures s.nextPool !in s.puts
  {
    forall q | q in s.puts ensures q < s.nextPool { assert PutOk(s, q); }
  }

  /** A put goes to the next stage, and nothing else changes. */
  predicate Turns(s: State, s': State, t: Tid, q: PoolId, stage: Stage) {
    In(s, t, q) && s' == Turn(s, t, q, stage)
  }

  /** It keeps what it found, and has not pushed again. */
  predicate KeepsFind(s: State, q: PoolId, stage: Stage)
    requires q in s.puts
  {
    var was := s.puts[q].stage;
    && (was.TestSize? || was.TestUse? || was.TestRoom?) && !stage.Fresh? && !stage.Loading?
    && stage.actual == was.actual && (stage.Pushing? || stage.loaded) == was.loaded && !Pushed(stage)
  }

  predicate Tests(s: State, s': State, a: Action) {
    || (a.ATestSize? && TestsSize(s, s', a.t, a.q))
    || (a.ATestUse? && TestsUse(s, s', a.t, a.q))
    || (a.ATestRoom? && TestsRoom(s, s', a.t, a.q))
  }

  lemma SizeTurns(s: State, s': State, t: Tid, q: PoolId)
    requires TestsSize(s, s', t, q)
    ensures q in s'.puts && Turns(s, s', t, q, s'.puts[q].stage) && KeepsFind(s, q, s'.puts[q].stage)
  {
  }

  lemma UseTurns(s: State, s': State, t: Tid, q: PoolId)
    requires TestsUse(s, s', t, q)
    ensures q in s'.puts && Turns(s, s', t, q, s'.puts[q].stage) && KeepsFind(s, q, s'.puts[q].stage)
  {
  }

  lemma RoomTurns(s: State, s': State, t: Tid, q: PoolId)
    requires TestsRoom(s, s', t, q)
    ensures q in s'.puts && Turns(s, s', t, q, s'.puts[q].stage) && KeepsFind(s, q, s'.puts[q].stage)
  {
  }

  lemma TestTurns(s: State, s': State, a: Action)
    requires Tests(s, s', a)
    ensures a.q in s'.puts && Turns(s, s', a.t, a.q, s'.puts[a.q].stage) && KeepsFind(s, a.q, s'.puts[a.q].stage)
  {
    if a.ATestSize? { SizeTurns(s, s', a.t, a.q); }
    else if a.ATestUse? { UseTurns(s, s', a.t, a.q); }
    else { RoomTurns(s, s', a.t, a.q); }
  }

  lemma LoadedTurns(s: State, s': State, t: Tid, q: PoolId)
    requires Loaded(s, s', t, q)
    ensures q in s'.puts && Turns(s, s', t, q, s'.puts[q].stage) && s'.puts[q].stage.TestSize?
    ensures s.puts[q].stage.Loading? && t in s.m.calls && s.m.calls[t].pc.Done?
    ensures var a := s.m.calls[t].pc.answer;
            a.Actual? && a.actual.Some? && s'.puts[q].stage == TestSize(a.actual.value, a.loaded)
  {
  }

  /** A step of a put is a turn, a push or a new put. */
  lemma PutStepIs(s: State, s': State, a: Action)
    requires PutStep(s, s', a)
    ensures a.ABegin? || a.APush? || a.ALoaded? || Tests(s, s', a)
  {
  }

  ghost predicate Stays(s: State, s': State) {
    && s'.m == s.m && s'.o == s.o
    && forall q :: q in s.puts ==> q in s'.puts && s'.puts[q].(stage := s.puts[q].stage) == s.puts[q]
  }

  lemma TurnStays(s: State, s': State, t: Tid, q: PoolId, stage: Stage)
    requires Turns(s, s', t, q, stage)
    ensures Stays(s, s')
  {
  }

  lemma PushStays(s: State, s': State, t: Tid, q: PoolId)
    requires Pushes(s, s', t, q)
    ensures Stays(s, s')
  {
  }

  /** No step but those of PoolMap changes the map, nor any put's address, client or call. */
  lemma PutStepStays(s: State, s': State, a: Action)
    requires PutStep(s, s', a) && s.nextPool !in s.puts
    ensures Stays(s, s')
  {
    PutStepIs(s, s', a);
    if a.APush? {
      PushStays(s, s', a.t, a.q);
    } else if a.ALoaded? {
      LoadedTurns(s, s', a.t, a.q);
      TurnStays(s, s', a.t, a.q, s'.puts[a.q].stage);
    } else if Tests(s, s', a) {
      TestTurns(s, s', a);
      TurnStays(s, s', a.t, a.q, s'.puts[a.q].stage);
    }
  }

  lemma PoolStepStays(s: State, s': State, a: Action)
    requires PoolStep(s, s', a)
    ensures Stays(s, s')
  {
  }

  lemma BeginPuts(s: State, s': State, t: Tid, key: M.Key, client: ClientId, force: bool)
    requires PutsOk(s) && s.nextPool !in s.puts && Begins(s, s', t, key, client, force)
    ensures PutsOk(s')
  {
    forall r | r in s'.puts ensures PutOk(s', r) { if r != s.nextPool { assert PutOk(s, r); } }
    BeginThreads(s, s', t, key, client, force);
  }

  lemma BeginThreads(s: State, s': State, t: Tid, key: M.Key, client: ClientId, force: bool)
    requires (forall u :: u in s.current ==> ThreadOk(s, u)) && s.nextPool !in s.puts
             && Begins(s, s', t, key, client, force)
    requires forall u, w :: u in s.current && w in s.current && s.current[u] == s.current[w] ==> u == w
    ensures forall u :: u in s'.current ==> ThreadOk(s', u)
    ensures forall u, w :: u in s'.current && w in s'.current && s'.current[u] == s'.current[w] ==> u == w
  {
    forall u | u in s'.current ensures ThreadOk(s', u) { if u != t { assert ThreadOk(s, u); } }
    forall u | u in s.current ensures s.current[u] != s.nextPool { assert ThreadOk(s, u); }
  }

  /** A put goes from one stage to the next with what it found. */
  predicate Follows(s: State, s': State, t: Tid, q: PoolId, stage: Stage) {
    && In(s, t, q) && s'.m == s.m && s'.nextPool == s.nextPool && s'.pools.Keys == s.pools.Keys
    && s'.puts == s.puts[q := s.puts[q].(stage := stage)]
    && s'.current == (if stage.Returned? then s.current - {t} else s.current)
    && !stage.Fresh? && !stage.Loading?
  }

  lemma FollowPuts(s: State, s': State, t: Tid, q: PoolId, stage: Stage)
    requires PutsOk(s) && Follows(s, s', t, q, stage)
    requires Found(s, q, stage.actual, stage.Pushing? || stage.loaded)
    ensures PutsOk(s')
  {
    FollowThreads(s, s', t, q, stage);
    forall r | r in s'.puts ensures PutOk(s', r) { assert PutOk(s, r); }
  }

  lemma FollowThreads(s: State, s': State, t: Tid, q: PoolId, stage: Stage)
    requires PutsOk(s) && Follows(s, s', t, q, stage)
    ensures forall u :: u in s'.current ==> ThreadOk(s', u)
    ensures forall u, w :: u in s'.current && w in s'.current && s'.current[u] == s'.current[w] ==> u == w
  {
    forall u | u in s'.current ensures ThreadOk(s', u) { assert ThreadOk(s, u); }
  }

  lemma LoadedPuts(s: State, s': State, t: Tid, q: PoolId)
    requires MapOk(s) && PutsOk(s) && Loaded(s, s', t, q)
    ensures PutsOk(s')
  {
    assert ThreadOk(s, t);
    LoadOrStoreFinds(s, t, q);
    assert PutOk(s, s.m.calls[t].pc.answer.actual.value);
    LoadedFollows(s, s', t, q);
  }

  lemma LoadedFollows(s: State, s': State, t: Tid, q: PoolId)
    requires PutsOk(s) && Loaded(s, s', t, q)
    requires var a := s.m.calls[t].pc.answer; Found(s, q, a.actual.value, a.loaded)
    ensures PutsOk(s')
  {
    LoadedTurns(s, s', t, q);
    FollowPuts(s, s', t, q, s'.puts[q].stage);
  }

  lemma TestPuts(s: State, s': State, a: Action)
    requires PutsOk(s) && Tests(s, s', a)
    ensures PutsOk(s')
  {
    TestTurns(s, s', a);
    assert PutOk(s, a.q);
    FollowPuts(s, s', a.t, a.q, s'.puts[a.q].stage);
  }

  lemma PushPuts(s: State, s': State, t: Tid, q: PoolId)
    requires PutsOk(s) && Pushes(s, s', t, q)
    ensures PutsOk(s')
  {
    assert PutOk(s, q);
    assert s'.pools.Keys == s.pools.Keys;
    FollowPuts(s, s', t, q, s'.puts[q].stage);
  }

  lemma PutStepPuts(s: State, s': State, a: Action)
    requires MapOk(s) && PutsOk(s) && s.nextPool !in s.puts && PutStep(s, s', a)
    ensures PutsOk(s')
  {
    PutStepIs(s, s', a);
    if a.ABegin? { BeginPuts(s, s', a.t, a.key, a.client, a.force); }
    else if a.APush? { PushPuts(s, s', a.t, a.q); }
    else if a.ALoaded? { LoadedPuts(s, s', a.t, a.q); }
    else { TestPuts(s, s', a); }
  }

  lemma PoolStepPuts(s: State, s': State, a: Action)
    requires PutsOk(s) && PoolStep(s, s', a)
    ensures PutsOk(s')
  {
    assert s'.pools.Keys == s.pools.Keys;
    forall r | r in s'.puts ensures PutOk(s', r) { assert PutOk(s, r); }
    forall u | u in s'.current ensures ThreadOk(s', u) { assert ThreadOk(s, u); }
  }

  // ---- Histories under the steps of a put ----

  lemma BeginPushes(s: State, s': State, q: PoolId, client: ClientId)
    requires PushesOk(s) && q !in s.puts && q in s'.puts && !Pushed(s'.puts[q].stage) && s'.puts[q].client == client
    requires s'.puts == s.puts[q := s'.puts[q]] && s.pools.Keys <= s'.pools.Keys && q in s'.pools
    requires s'.pushes == s.pushes + [Push(q, q, client)]
    ensures PushesOk(s')
  {
    forall r | r in s'.puts ensures By(s'.pushes, r) == Expected(s', r) {
      if r == q {
        ByFirst(s.pushes, Push(q, q, client));
      } else {
        ByOther(s.pushes, Push(q, q, client), r);
        assert By(s.pushes, r) == Expected(s, r);
      }
    }
  }

  lemma BeginPools(s: State, s': State, client: ClientId)
    requires PoolsOk(s) && Into(s.pushes, s.nextPool) == multiset{} && s'.nextPool == s.nextPool + 1
    requires s'.pools == s.pools[s.nextPool := Pool([client], 0)] && s'.removed == s.removed[s.nextPool := multiset{}]
    requires s'.pushes == s.pushes + [Push(s.nextPool, s.nextPool, client)]
    ensures PoolsOk(s')
  {
    forall p | p in s'.pools ensures p < s'.nextPool && PoolOk(s', p) {
      if p == s.nextPool { NewPoolConserves(s, s', client); } else { OldPoolConserves(s, s', client, p); }
    }
  }

  lemma NewPoolConserves(s: State, s': State, client: ClientId)
    requires Into(s.pushes, s.nextPool) == multiset{} && s'.pushes == s.pushes + [Push(s.nextPool, s.nextPool, client)]
    requires s.nextPool in s'.pools && s'.pools[s.nextPool].clients == [client]
    requires s.nextPool in s'.removed && s'.removed[s.nextPool] == multiset{}
    ensures PoolOk(s', s.nextPool)
  {
    IntoPush(s.pushes, Push(s.nextPool, s.nextPool, client), s.nextPool);
  }

  lemma OldPoolConserves(s: State, s': State, client: ClientId, p: PoolId)
    requires PoolOk(s, p) && p != s.nextPool && p in s'.pools && p in s'.removed
    requires s'.pools[p] == s.pools[p] && s'.removed[p] == s.removed[p]
    requires s'.pushes == s.pushes + [Push(s.nextPool, s.nextPool, client)]
    ensures PoolOk(s', p)
  {
    IntoPush(s.pushes, Push(s.nextPool, s.nextPool, client), p);
  }

  lemma NoPushes(s: State)
    requires PushesOk(s) && PoolsOk(s)
    ensures Into(s.pushes, s.nextPool) == multiset{}
  {
    IntoNone(s.pushes, s.nextPool);
  }

  lemma PushPushes(s: State, s': State, t: Tid, q: PoolId)
    requires PushesOk(s) && Pushes(s, s', t, q)
    ensures PushesOk(s')
  {
    var a, client := s.puts[q].stage.actual, s.puts[q].client;
    forall r | r in s'.puts ensures By(s'.pushes, r) == Expected(s', r) {
      ByPush(s.pushes, Push(q, a, client), r);
    }
  }

  lemma PushPools(s: State, s': State, t: Tid, q: PoolId)
    requires PoolsOk(s) && Pushes(s, s', t, q)
    ensures PoolsOk(s')
  {
    var a, client := s.puts[q].stage.actual, s.puts[q].client;
    forall p | p in s'.pools ensures p < s'.nextPool && PoolOk(s', p) {
      assert PoolOk(s, p);
      IntoPush(s.pushes, Push(q, a, client), p);
    }
  }

  lemma TurnHistories(s: State, s': State, t: Tid, q: PoolId, stage: Stage)
    requires PushesOk(s) && PoolsOk(s) && Turns(s, s', t, q, stage) && !Pushed(s.puts[q].stage) && !Pushed(stage)
    ensures PushesOk(s') && PoolsOk(s')
  {
    forall r | r in s'.puts ensures By(s'.pushes, r) == Expected(s', r) { assert By(s.pushes, r) == Expected(s, r); }
    PoolsCarry(s, s');
  }

  lemma PutStepHistories(s: State, s': State, a: Action)
    requires PushesOk(s) && PoolsOk(s) && s.nextPool !in s.puts && PutStep(s, s', a)
    ensures PushesOk(s') && PoolsOk(s')
  {
    PutStepIs(s, s', a);
    if a.ABegin? {
      BeginPushes(s, s', s.nextPool, a.client);
      NoPushes(s);
      BeginPools(s, s', a.client);
    } else if a.APush? {
      PushPushes(s, s', a.t, a.q);
      PushPools(s, s', a.t, a.q);
    } else if a.ALoaded? {
      LoadedTurns(s, s', a.t, a.q);
      TurnHistories(s, s', a.t, a.q, s'.puts[a.q].stage);
    } else {
      TestTurns(s, s', a);
      TurnHistories(s, s', a.t, a.q, s'.puts[a.q].stage);
    }
  }

  lemma PoolStepHistories(s: State, s': State, a: Action)
    requires PushesOk(s) && PoolsOk(s) && PoolStep(s, s', a)
    ensures PushesOk(s') && PoolsOk(s')
  {
    assert s'.pools.Keys == s.pools.Keys;
    PushesCarry(s, s');
    if a.ADelete? { DeletePools(s, s', a.p, a.client); }
    else if a.AGet? { GetPools(s, s', a.p); }
    else { UsePools(s, s', a.client); }
  }

  lemma PushesCarry(s: State, s': State)
    requires PushesOk(s) && s'.puts == s.puts && s'.pushes == s.pushes && s'.pools.Keys == s.pools.Keys
    ensures PushesOk(s')
  {
    forall q | q in s'.puts ensures By(s'.pushes, q) == Expected(s', q) { assert By(s.pushes, q) == Expected(s, q); }
  }

  lemma UsePools(s: State, s': State, client: ClientId)
    requires PoolsOk(s) && Uses(s, s', client)
    ensures PoolsOk(s')
  {
    forall r | r in s'.pools ensures r < s'.nextPool && PoolOk(s', r) { assert PoolOk(s, r); }
  }

  lemma GetPools(s: State, s': State, p: PoolId)
    requires PoolsOk(s) && Gets(s, s', p)
    ensures PoolsOk(s')
  {
    forall r | r in s'.pools ensures r < s'.nextPool && PoolOk(s', r) { assert PoolOk(s, r); }
  }

  lemma DeletePools(s: State, s': State, p: PoolId, client: ClientId)
    requires PoolsOk(s) && Deletes(s, s', p, client)
    ensures PoolsOk(s')
  {
    assert PoolOk(s, p);
    DeleteConserves(s.pools[p].clients, client, s.removed[p], Into(s.pushes, p));
    forall r | r in s'.pools ensures r < s'.nextPool && PoolOk(s', r) { assert PoolOk(s, r); }
  }

  lemma DeleteConserves(clients: seq<ClientId>, client: ClientId, removed: multiset<ClientId>,
                         pushed: multiset<ClientId>)
    requires Conserved(clients, removed, pushed)
    ensures Conserved(Pools.Without(clients, client),
                      removed + (if client in clients then multiset{client} else multiset{}), pushed)
  {
    Pools.WithoutCounts(clients, client);
    if client in clients { assert client in multiset(clients); }
  }

  // ---- Runs ----

  lemma InitialOk(o: Options)
    ensures Inv(Initial(o))
  {
    T.InitialInv();
  }

  lemma NextMap(s: State, s': State, a: Action)
    requires MapOk(s) && PutsOk(s) && s.nextPool !in s.puts
    requires MapStep(s, s', a) || PutStep(s, s', a) || PoolStep(s, s', a)
    ensures MapOk(s')
  {
    if MapStep(s, s', a) {
      MapStepMap(s, s', a);
    } else {
      if PutStep(s, s', a) { PutStepStays(s, s', a); } else { PoolStepStays(s, s', a); }
      MapCarries(s, s');
    }
  }

  lemma NextPuts(s: State, s': State, a: Action)
    requires MapOk(s) && PutsOk(s) && s.nextPool !in s.puts
    requires MapStep(s, s', a) || PutStep(s, s', a) || PoolStep(s, s', a)
    ensures PutsOk(s')
  {
    if MapStep(s, s', a) { MapStepPuts(s, s', a); }
    else if PutStep(s, s', a) { PutStepPuts(s, s', a); }
    else { PoolStepPuts(s, s', a); }
  }

  lemma NextHistories(s: State, s': State, a: Action)
    requires PushesOk(s) && PoolsOk(s) && s.nextPool !in s.puts
    requires MapStep(s, s', a) || PutStep(s, s', a) || PoolStep(s, s', a)
    ensures PushesOk(s') && PoolsOk(s')
  {
    if MapStep(s, s', a) {
      MapStepHistories(s, s', a);
    } else if PutStep(s, s', a) {
      PutStepHistories(s, s', a);
    } else {
      PoolStepHistories(s, s', a);
    }
  }

  lemma NextKeeps(s: State, s': State)
    requires Inv(s) && Next(s, s')
    ensures Inv(s')
  {
    var a :| MapStep(s, s', a) || PutStep(s, s', a) || PoolStep(s, s', a);
    FreshPool(s);
    NextMap(s, s', a);
    NextPuts(s, s', a);
    NextHistories(s, s', a);
  }

  lemma {:induction false} RunInv(run: seq<State>, o: Options, i: nat)
    requires IsRun(run, o) && i < |run|
    ensures Inv(run[i])
    decreases i
  {
    if i == 0 {
      InitialOk(o);
    } else {
      RunInv(run, o, i - 1);
      NextKeeps(run[i - 1], run[i]);
    }
  }

  // ---- What holds in every run ----

  /** PoolMap's pool for an address never changes: what a put has found is what PoolMap answers at every
      later moment. */
  lemma PoolIsPermanent(run: seq<State>, o: Options, i: nat, j: nat, q: PoolId)
    requires IsRun(run, o) && i <= j < |run| && q in run[i].puts && run[i].puts[q].stage.Returned?
    ensures q in run[j].puts && run[j].puts[q] == run[i].puts[q]
    ensures M.AbsGet(run[j].m.sh, run[i].puts[q].key) == Some(run[i].puts[q].stage.actual)
  {
    ReturnedStays(run, o, i, j, q);
    RunInv(run, o, j);
    assert PutOk(run[j], q);
    assert P.Matches(run[j].m.sh);
  }

  lemma ReturnedStep(s: State, s': State, q: PoolId)
    requires Next(s, s') && s.nextPool !in s.puts && q in s.puts && s.puts[q].stage.Returned?
    ensures q in s'.puts && s'.puts[q] == s.puts[q]
  {
    var a :| MapStep(s, s', a) || PutStep(s, s', a) || PoolStep(s, s', a);
    if MapStep(s, s', a) { MapStepReturned(s, s', a, q); }
    else if PutStep(s, s', a) { PutStepReturned(s, s', a, q); }
  }

  lemma MapStepReturned(s: State, s': State, a: Action, q: PoolId)
    requires MapStep(s, s', a) && q in s.puts && s.puts[q].stage.Returned?
    ensures q in s'.puts && s'.puts[q] == s.puts[q]
  {
  }

  lemma PutStepReturned(s: State, s': State, a: Action, q: PoolId)
    requires PutStep(s, s', a) && s.nextPool !in s.puts && q in s.puts && s.puts[q].stage.Returned?
    ensures q in s'.puts && s'.puts[q] == s.puts[q]
  {
    PutStepIs(s, s', a);
    if a.ALoaded? { LoadedTurns(s, s', a.t, a.q); }
    else if Tests(s, s', a) { TestTurns(s, s', a); }
  }

  ghost predicate ReturnedStay(run: seq<State>, q: PoolId) {
    forall h, k :: 0 <= h && k == h + 1 && k < |run| && q in run[h].puts && run[h].puts[q].stage.Returned? ==>
      q in run[k].puts && run[k].puts[q] == run[h].puts[q]
  }

  lemma {:induction false} ReturnedAlong(run: seq<State>, i: nat, j: nat, q: PoolId)
    requires ReturnedStay(run, q) && i <= j < |run| && q in run[i].puts && run[i].puts[q].stage.Returned?
    ensures q in run[j].puts && run[j].puts[q] == run[i].puts[q]
    decreases j
  {
    if i < j { ReturnedAlong(run, i, j - 1, q); }
  }

  lemma ReturnedStays(run: seq<State>, o: Options, i: nat, j: nat, q: PoolId)
    requires IsRun(run, o) && i <= j < |run| && q in run[i].puts && run[i].puts[q].stage.Returned?
    ensures q in run[j].puts && run[j].puts[q] == run[i].puts[q]
  {
    assert ReturnedStay(run, q) by {
      forall h, k | 0 <= h && k == h + 1 && k < |run| && q in run[h].puts && run[h].puts[q].stage.Returned?
        ensures q in run[k].puts && run[k].puts[q] == run[h].puts[q]
      {
        ReadyToStep(run, o, h);
        ReturnedStep(run[h], run[k], q);
      }
    }
    ReturnedAlong(run, i, j, q);
  }

  lemma ReadyToStep(run: seq<State>, o: Options, i: nat)
    requires IsRun(run, o) && i < |run|
    ensures run[i].nextPool !in run[i].puts
  {
    RunInv(run, o, i);
    FreshPool(run[i]);
  }

  function Times(pushes: seq<Push>, p: Push): nat { multiset(pushes)[p] }

  lemma ExpectedTimes(s: State, q: PoolId)
    requires q in s.puts && PutOk(s, q) && s.puts[q].stage.Returned?
    ensures var stage, client := s.puts[q].stage, s.puts[q].client;
            && Times(Expected(s, q), Push(q, stage.actual, client))
               == (if stage.answer || stage.actual == q then 1 else 0)
            && (forall x :: x in Expected(s, q) ==> x.client == client && (x.pool == stage.actual || x.pool == q))
  {
  }

  /** In every run of any number of callers: a put that answered true has pushed its client exactly once
      into the pool that PoolMap has for its address; its only other push, if any, was into its own pool,
      which PoolMap then has for no address.  One that answered false has pushed it there only if that
      pool is its own. */
  lemma PushedExactlyOnce(run: seq<State>, o: Options, j: nat, q: PoolId)
    requires IsRun(run, o) && j < |run| && q in run[j].puts && run[j].puts[q].stage.Returned?
    ensures var s := run[j];
            var stage, client, mine := s.puts[q].stage, s.puts[q].client, By(s.pushes, q);
            && M.AbsGet(s.m.sh, s.puts[q].key) == Some(stage.actual)
            && Times(mine, Push(q, stage.actual, client)) == (if stage.answer || stage.actual == q then 1 else 0)
            && (forall x :: x in mine ==> x.client == client && (x.pool == stage.actual || x.pool == q))
            && (stage.actual != q ==> forall k :: M.AbsGet(s.m.sh, k) != Some(q))
  {
    var s := run[j];
    PoolIsPermanent(run, o, j, j, q);
    RunInv(run, o, j);
    assert PutOk(s, q) && By(s.pushes, q) == Expected(s, q);
    ExpectedTimes(s, q);
    if s.puts[q].stage.actual != q {
      forall k ensures M.AbsGet(s.m.sh, k) != Some(q) { Discarded(s, q, k); }
    }
  }

  /** The pool of a put that found another is discarded. */
  lemma Discarded(s: State, q: PoolId, k: M.Key)
    requires MapOk(s) && PutsOk(s) && q in s.puts && s.puts[q].stage.Returned? && s.puts[q].stage.actual != q
    ensures M.AbsGet(s.m.sh, k) != Some(q)
  {
    var log := s.m.sh.log;
    assert PutOk(s, q) && M.Look(M.Replay(log), k) == M.AbsGet(s.m.sh, k);
    if M.AbsGet(s.m.sh, k) == Some(q) {
      AllInserts(s, k);
      assert log[..|log|] == log;
      var i := T.PresentWasInserted(log, k, |log|);
    }
  }

  lemma AllInserts(s: State, k: M.Key)
    requires MapOk(s)
    ensures T.OnlyInserts(s.m.sh.log, k)
  {
    forall i | 0 <= i < |s.m.sh.log| && s.m.sh.log[i].key == k
      ensures s.m.sh.log[i].Insert?
    {
      assert LogOk(s, s.m.sh.log[i]);
    }
  }

  /** All puts for one address found one pool, and at most one of them found its own. */
  lemma OnePool(run: seq<State>, o: Options, j: nat, q: PoolId, r: PoolId)
    requires IsRun(run, o) && j < |run| && q in run[j].puts && r in run[j].puts
    requires run[j].puts[q].stage.Returned? && run[j].puts[r].stage.Returned?
             && run[j].puts[q].key == run[j].puts[r].key
    ensures run[j].puts[q].stage.actual == run[j].puts[r].stage.actual
    ensures q != r ==> run[j].puts[q].stage.loaded || run[j].puts[r].stage.loaded
  {
    RunInv(run, o, j);
    assert PutOk(run[j], q) && PutOk(run[j], r);
  }

  /** No client is lost: a pool holds what was pushed into it and not deleted from it. */
  lemma ClientsConserved(run: seq<State>, o: Options, j: nat, p: PoolId)
    requires IsRun(run, o) && j < |run| && p in run[j].pools
    ensures p in run[j].removed && multiset(run[j].pools[p].clients) + run[j].removed[p] == Into(run[j].pushes, p)
  {
    RunInv(run, o, j);
    assert PoolOk(run[j], p);
  }

  // ---- Progress ----

  /** A put is held up only by its LoadOrStore; what else it does it can do at once. */
  lemma PutGoesOn(run: seq<State>, o: Options, i: nat, t: Tid) returns (a: Action, s': State)
    requires IsRun(run, o) && i < |run| && t in run[i].current
    requires var s, q := run[i], run[i].current[t];
             q in s.puts && s.puts[q].stage.Loading? ==> t in s.m.calls && s.m.calls[t].pc.Done?
    ensures (MapStep(run[i], s', a) || PutStep(run[i], s', a)) && run[i].current[t] in run[i].puts
    ensures run[i].current[t] in s'.puts
    ensures s'.puts[run[i].current[t]].stage != run[i].puts[run[i].current[t]].stage
  {
    RunInv(run, o, i);
    a, s' := Goes(run[i], t, run[i].current[t]);
  }

  lemma Goes(s: State, t: Tid, q: PoolId) returns (a: Action, s': State)
    requires MapOk(s) && PutsOk(s) && t in s.current && s.current[t] == q
    requires q in s.puts && s.puts[q].stage.Loading? ==> t in s.m.calls && s.m.calls[t].pc.Done?
    ensures q in s.puts && (MapStep(s, s', a) || PutStep(s, s', a))
    ensures q in s'.puts && s'.puts[q].stage != s.puts[q].stage
  {
    assert ThreadOk(s, t) && PutOk(s, q);
    if s.puts[q].stage.Fresh? {
      a, s' := LoadStep(s, t, q);
    } else if s.puts[q].stage.Loading? {
      LoadOrStoreFinds(s, t, q);
      a, s' := LoadedStep(s, t, q);
    } else {
      a, s' := TestStep(s, t, q);
    }
  }

  lemma LoadedStep(s: State, t: Tid, q: PoolId) returns (a: Action, s': State)
    requires In(s, t, q) && s.puts[q].stage.Loading? && t in s.m.calls
    requires var c := s.m.calls[t]; c.pc.Done? && c.pc.answer.Actual? && c.pc.answer.actual.Some?
    ensures PutStep(s, s', a) && q in s'.puts && s'.puts[q].stage.TestSize?
  {
    var answer := s.m.calls[t].pc.answer;
    a, s' := ALoaded(t, q), Turn(s, t, q, TestSize(answer.actual.value, answer.loaded));
  }

  lemma LoadStep(s: State, t: Tid, q: PoolId) returns (a: Action, s': State)
    requires In(s, t, q) && s.puts[q].stage.Fresh? && (t in s.m.calls ==> s.m.calls[t].pc.Done?)
    ensures MapStep(s, s', a) && q in s'.puts && s'.puts[q].stage.Loading?
  {
    var call := M.Call(s.m.nextCall, M.LoadOrStore(s.puts[q].key, q), |s.m.sh.log|, None, M.Start);
    var m := s.m.(calls := s.m.calls[t := call], nextCall := s.m.nextCall + 1);
    a := ALoad(t, q);
    s' := s.(m := m, callPut := s.callPut[s.m.nextCall := q],
             puts := s.puts[q := s.puts[q].(call := Some(s.m.nextCall), stage := Loading)]);
  }

  lemma TestStep(s: State, t: Tid, q: PoolId) returns (a: Action, s': State)
    requires In(s, t, q) && !s.puts[q].stage.Fresh? && !s.puts[q].stage.Loading? && !s.puts[q].stage.Returned?
    requires s.puts[q].stage.actual in s.pools
    ensures PutStep(s, s', a) && q in s'.puts && s'.puts[q].stage != s.puts[q].stage
  {
    var stage, p := s.puts[q].stage, s.pools[s.puts[q].stage.actual];
    if stage.TestSize? {
      var limited := |p.clients| >= 2 && s.o.maxUsed > 0;
      a := ATestSize(t, q);
      s' := Turn(s, t, q, if limited then TestUse(stage.actual, stage.loaded)
                          else TestRoom(stage.actual, stage.loaded));
    } else if stage.TestUse? {
      a := ATestUse(t, q);
      s' := Turn(s, t, q, if Used(s, s.puts[q].client) >= s.o.maxUsed then Returned(false, stage.actual, stage.loaded)
                          else TestRoom(stage.actual, stage.loaded));
    } else if stage.TestRoom? {
      var room := s.puts[q].force || (s.o.minInPool > 0 && |p.clients| <= s.o.minInPool);
      a := ATestRoom(t, q);
      s' := Turn(s, t, q, if room && stage.loaded then Pushing(stage.actual)
                          else Returned(room, stage.actual, stage.loaded));
    } else {
      a := APush(t, q);
      s' := Turn(s, t, q, Returned(true, stage.actual, true)).(
              pools := s.pools[stage.actual := p.(clients := p.clients + [s.puts[q].client])],
              pushes := s.pushes + [Push(q, stage.actual, s.puts[q].client)]);
    }
  }
}
