/** KeepAliver.put by any number of callers at once, over PoolMap step by step.  The pool of each put is
    named by a number, and the put by its pool.  Others look pools up, take clients from them and delete
    clients in between; no one else changes the map.  The fields callPut, pushes and removed are history
    variables: no step looks at them. */
module PutMachine {
  import opened Wrappers
  import M = PoolMapMachine
  import Pools

  type Tid = M.Tid
  type PoolId = M.PoolId
  type ClientId = nat

  datatype Pool = Pool(clients: seq<ClientId>, next: nat)

  datatype Stage =
    | Fresh                                        // about to call LoadOrStore
    | Loading
    | TestSize(actual: PoolId, loaded: bool)       // about to look whether the pool has another client
    | TestUse(actual: PoolId, loaded: bool)        // about to look whether the client is used up
    | TestRoom(actual: PoolId, loaded: bool)       // about to look whether the pool has room
    | Pushing(actual: PoolId)
    | Returned(answer: bool, actual: PoolId, loaded: bool)

  /** One call of put; call is its LoadOrStore. */
  datatype Put = Put(key: M.Key, client: ClientId, force: bool, call: Option<M.CallId>, stage: Stage)

  datatype Push = Push(put: PoolId, pool: PoolId, client: ClientId)

  datatype Options = Options(minInPool: int, maxUsed: int)

  datatype State = State(
    o: Options,
    m: M.State,
    pools: map<PoolId, Pool>,
    nextPool: PoolId,
    puts: map<PoolId, Put>,
    current: map<Tid, PoolId>,
    callPut: map<M.CallId, PoolId>,
    pushes: seq<Push>,
    removed: map<PoolId, multiset<ClientId>>,
    used: map<ClientId, nat>)

  function Initial(o: Options): State {
    State(o, M.Initial(), map[], 0, map[], map[], map[], [], map[], map[])
  }

  function SetStage(s: State, q: PoolId, stage: Stage): State
    requires q in s.puts
  {
    s.(puts := s.puts[q := s.puts[q].(stage := stage)])
  }

  /** Thread t's put q comes to the next stage, and t leaves it when that is the last. */
  function Turn(s: State, t: Tid, q: PoolId, stage: Stage): State
    requires q in s.puts
  {
    SetStage(s, q, stage).(current := if stage.Returned? then s.current - {t} else s.current)
  }

  /** The put that thread t is in. */
  predicate In(s: State, t: Tid, q: PoolId) {
    t in s.current && s.current[t] == q && q in s.puts
  }

  /** NewPool and Push: the client is in a pool of its own. */
  predicate Begins(s: State, s': State, t: Tid, key: M.Key, client: ClientId, force: bool) {
    && t !in s.current && (t in s.m.calls ==> s.m.calls[t].pc.Done?)
    && var q := s.nextPool;
    && s' == s.(nextPool := q + 1, pools := s.pools[q := Pool([client], 0)],
                puts := s.puts[q := Put(key, client, force, None, Fresh)], current := s.current[t := q],
                pushes := s.pushes + [Push(q, q, client)], removed := s.removed[q := multiset{}])
  }

  predicate Loads(s: State, s': State, t: Tid, q: PoolId) {
    && In(s, t, q) && s.puts[q].stage.Fresh?
    && M.Begin(s.m, s'.m, t, M.LoadOrStore(s.puts[q].key, q))
    && s' == s.(m := s'.m, callPut := s.callPut[s.m.nextCall := q],
                puts := s.puts[q := s.puts[q].(call := Some(s.m.nextCall), stage := Loading)])
  }

  /** get, del and the heartbeat look pools up. */
  predicate Looks(s: State, s': State, t: Tid, op: M.Op) {
    && t !in s.current && (op.Load? || op.Range?)
    && M.Begin(s.m, s'.m, t, op) && s' == s.(m := s'.m)
  }

  predicate Moves(s: State, s': State, t: Tid, ch: M.Choice) {
    M.Move(s.m, s'.m, t, ch) && s' == s.(m := s'.m)
  }

  predicate Loaded(s: State, s': State, t: Tid, q: PoolId) {
    && In(s, t, q) && s.puts[q].stage.Loading? && t in s.m.calls
    && var c := s.m.calls[t];
    && c.pc.Done? && c.pc.answer.Actual? && c.pc.answer.actual.Some?
    && s' == Turn(s, t, q, TestSize(c.pc.answer.actual.value, c.pc.answer.loaded))
  }

  predicate TestsSize(s: State, s': State, t: Tid, q: PoolId) {
    && In(s, t, q) && s.puts[q].stage.TestSize? && s.puts[q].stage.actual in s.pools
    && var stage := s.puts[q].stage;
    && var limited := |s.pools[stage.actual].clients| >= 2 && s.o.maxUsed > 0;
    && s' == Turn(s, t, q, if limited then TestUse(stage.actual, stage.loaded)
                           else TestRoom(stage.actual, stage.loaded))
  }

  /** How often a client was used. */
  function Used(s: State, client: ClientId): nat { if client in s.used then s.used[client] else 0 }

  predicate TestsUse(s: State, s': State, t: Tid, q: PoolId) {
    && In(s, t, q) && s.puts[q].stage.TestUse?
    && var stage := s.puts[q].stage;
    && s' == Turn(s, t, q, if Used(s, s.puts[q].client) >= s.o.maxUsed then Returned(false, stage.actual, stage.loaded)
                           else TestRoom(stage.actual, stage.loaded))
  }

  predicate TestsRoom(s: State, s': State, t: Tid, q: PoolId) {
    && In(s, t, q) && s.puts[q].stage.TestRoom? && s.puts[q].stage.actual in s.pools
    && var stage := s.puts[q].stage;
    && var room := s.puts[q].force || (s.o.minInPool > 0 && |s.pools[stage.actual].clients| <= s.o.minInPool);
    && s' == Turn(s, t, q, if room && stage.loaded then Pushing(stage.actual)
                           else Returned(room, stage.actual, stage.loaded))
  }

  predicate Pushes(s: State, s': State, t: Tid, q: PoolId) {
    && In(s, t, q) && s.puts[q].stage.Pushing? && s.puts[q].stage.actual in s.pools
    && var a, client := s.puts[q].stage.actual, s.puts[q].client;
    && s' == Turn(s, t, q, Returned(true, a, true)).(
                pools := s.pools[a := s.pools[a].(clients := s.pools[a].clients + [client])],
                pushes := s.pushes + [Push(q, a, client)])
  }

  predicate Gets(s: State, s': State, p: PoolId) {
    && p in s.pools && s.pools[p].clients != []
    && s' == s.(pools := s.pools[p := s.pools[p].(next := Pools.Slot(s.pools[p].next, |s.pools[p].clients|))])
  }

  predicate Deletes(s: State, s': State, p: PoolId, client: ClientId) {
    && p in s.pools && p in s.removed
    && var clients := s.pools[p].clients;
    && s' == s.(pools := s.pools[p := s.pools[p].(clients := Pools.Without(clients, client))],
                removed := s.removed[p := s.removed[p] + if client in clients then multiset{client} else multiset{}])
  }

  predicate Uses(s: State, s': State, client: ClientId) {
    s' == s.(used := s.used[client := Used(s, client) + 1])
  }

  datatype Action =
    | ABegin(t: Tid, key: M.Key, client: ClientId, force: bool)
    | ALoad(t: Tid, q: PoolId)
    | ALook(t: Tid, op: M.Op)
    | AMove(t: Tid, ch: M.Choice)
    | ALoaded(t: Tid, q: PoolId)
    | ATestSize(t: Tid, q: PoolId)
    | ATestUse(t: Tid, q: PoolId)
    | ATestRoom(t: Tid, q: PoolId)
    | APush(t: Tid, q: PoolId)
    | AGet(p: PoolId)
    | ADelete(p: PoolId, client: ClientId)
    | AUse(client: ClientId)

  predicate MapStep(s: State, s': State, a: Action) {
    match a
    case ALoad(t, q) => Loads(s, s', t, q)
    case ALook(t, op) => Looks(s, s', t, op)
    case AMove(t, ch) => Moves(s, s', t, ch)
    case _ => false
  }

  predicate PutStep(s: State, s': State, a: Action) {
    match a
    case ABegin(t, key, client, force) => Begins(s, s', t, key, client, force)
    case ALoaded(t, q) => Loaded(s, s', t, q)
    case ATestSize(t, q) => TestsSize(s, s', t, q)
    case ATestUse(t, q) => TestsUse(s, s', t, q)
    case ATestRoom(t, q) => TestsRoom(s, s', t, q)
    case APush(t, q) => Pushes(s, s', t, q)
    case _ => false
  }

  predicate PoolStep(s: State, s': State, a: Action) {
    match a
    case AGet(p) => Gets(s, s', p)
    case ADelete(p, client) => Deletes(s, s', p, client)
    case AUse(client) => Uses(s, s', client)
    case _ => false
  }

  ghost predicate Next(s: State, s': State) {
    exists a :: MapStep(s, s', a) || PutStep(s, s', a) || PoolStep(s, s', a)
  }

  ghost predicate IsRun(run: seq<State>, o: Options) {
    && |run| > 0 && run[0] == Initial(o)
    && forall i, j :: 0 <= i && j == i + 1 && j < |run| ==> Next(run[i], run[j])
  }
}
