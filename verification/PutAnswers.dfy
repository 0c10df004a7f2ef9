/** What KeepAliver.put answers, by any number of callers at once: it says no to a client that is used up
    when the pool has another, and where there is no room; and each test counts when it is made. */
module PutAnswers {
  import opened Wrappers
  import M = PoolMapMachine
  import opened PutMachine
  import opened PutTheorems

  /** The pool has another client, and there is a limit on use. */
  predicate Limited(s: State, o: Options, a: PoolId) {
    a in s.pools && |s.pools[a].clients| >= 2 && o.maxUsed > 0
  }

  predicate UsedUp(s: State, o: Options, client: ClientId) { Used(s, client) >= o.maxUsed }

  predicate HasRoom(s: State, o: Options, a: PoolId, force: bool) {
    force || (o.minInPool > 0 && a in s.pools && |s.pools[a].clients| <= o.minInPool)
  }

  predicate At(s: State, q: PoolId, stage: Stage) { q in s.puts && s.puts[q].stage == stage }

  // ---- One step ----

  /** What brought put q, which is put p now, to its stage: its own step, from the stage before. */
  predicate Came(s: State, p: Put, q: PoolId) {
    && q in s.puts && p.(stage := s.puts[q].stage, call := s.puts[q].call) == s.puts[q]
    && (p.stage == s.puts[q].stage ||
        match p.stage
        case TestUse(a, l) => At(s, q, TestSize(a, l)) && Limited(s, s.o, a)
        case TestRoom(a, l) =>
          || (At(s, q, TestSize(a, l)) && !Limited(s, s.o, a))
          || (At(s, q, TestUse(a, l)) && !UsedUp(s, s.o, p.client))
        case Pushing(a) => At(s, q, TestRoom(a, true)) && HasRoom(s, s.o, a, p.force)
        case Returned(ok, a, l) =>
          || (At(s, q, TestUse(a, l)) && UsedUp(s, s.o, p.client) && !ok)
          || (At(s, q, TestRoom(a, l)) && (ok <==> HasRoom(s, s.o, a, p.force)) && (ok ==> !l))
          || (At(s, q, Pushing(a)) && ok && l)
        case _ => true)
  }

  lemma TestCame(s: State, s': State, a: Action)
    requires Tests(s, s', a)
    ensures a.q in s'.puts && Came(s, s'.puts[a.q], a.q)
  {
  }

  lemma PushCame(s: State, s': State, t: Tid, q: PoolId)
    requires Pushes(s, s', t, q)
    ensures q in s'.puts && Came(s, s'.puts[q], q)
  {
  }

  lemma PutStepCame(s: State, s': State, a: Action, q: PoolId)
    requires PutStep(s, s', a) && s.nextPool !in s.puts && q in s.puts
    ensures q in s'.puts && Came(s, s'.puts[q], q)
  {
    PutStepIs(s, s', a);
    if a.APush? {
      PushCame(s, s', a.t, a.q);
    } else if a.ALoaded? {
      LoadedTurns(s, s', a.t, a.q);
    } else if Tests(s, s', a) {
      TestTurns(s, s', a);
      TestCame(s, s', a);
    }
  }

  lemma MapStepCame(s: State, s': State, a: Action, q: PoolId)
    requires MapStep(s, s', a) && q in s.puts
    ensures s'.o == s.o && q in s'.puts && Came(s, s'.puts[q], q)
  {
  }

  lemma NewIsFresh(s: State, s': State, a: Action, q: PoolId)
    requires MapStep(s, s', a) || PutStep(s, s', a) || PoolStep(s, s', a)
    requires q !in s.puts && q in s'.puts
    ensures s'.puts[q].stage.Fresh?
  {
    if MapStep(s, s', a) {
    } else if PutStep(s, s', a) {
      PutStepIs(s, s', a);
      if a.ALoaded? { LoadedTurns(s, s', a.t, a.q); }
      else if Tests(s, s', a) { TestTurns(s, s', a); }
    } else {
      PoolStepKeepsPuts(s, s', a);
    }
  }

  lemma PoolStepKeepsPuts(s: State, s': State, a: Action)
    requires PoolStep(s, s', a)
    ensures s'.puts == s.puts && s'.o == s.o
  {
  }

  lemma NextCame(s: State, s': State, q: PoolId)
    requires Next(s, s') && s.nextPool !in s.puts && q in s'.puts
    ensures q in s.puts ==> Came(s, s'.puts[q], q)
    ensures q !in s.puts ==> s'.puts[q].stage.Fresh?
    ensures s'.o == s.o
  {
    var a :| MapStep(s, s', a) || PutStep(s, s', a) || PoolStep(s, s', a);
    if q !in s.puts { NewIsFresh(s, s', a, q); }
    if MapStep(s, s', a) {
      if q in s.puts { MapStepCame(s, s', a, q); } else { MapStepOptions(s, s', a); }
    } else if PutStep(s, s', a) {
      PutStepStays(s, s', a);
      if q in s.puts { PutStepCame(s, s', a, q); }
    } else {
      PoolStepKeepsPuts(s, s', a);
    }
  }

  lemma MapStepOptions(s: State, s': State, a: Action)
    requires MapStep(s, s', a)
    ensures s'.o == s.o
  {
  }

  // ---- A whole put ----

  ghost predicate CameTo(run: seq<State>, o: Options, i: nat, j: nat, q: PoolId) {
    i < |run| && j < |run| && q in run[j].puts && Came(run[i], run[j].puts[q], q) && run[i].o == o
  }

  lemma NoneAtFirst(run: seq<State>, o: Options)
    requires IsRun(run, o)
    ensures run[0].puts == map[]
  {
  }

  lemma CameBefore(run: seq<State>, o: Options, i: nat, j: nat, q: PoolId)
    requires IsRun(run, o) && j == i + 1 < |run| && q in run[j].puts && !run[j].puts[q].stage.Fresh?
    ensures CameTo(run, o, i, j, q)
  {
    ReadyToStep(run, o, i);
    OptionsAre(run, o, i);
    assert Next(run[i], run[j]);
    NextCame(run[i], run[j], q);
  }

  lemma {:induction false} OptionsAre(run: seq<State>, o: Options, i: nat)
    requires IsRun(run, o) && i < |run|
    ensures run[i].o == o
  {
    if i > 0 {
      var h := i - 1;
      OptionsAre(run, o, h);
      assert Next(run[h], run[i]);
      NextOptions(run[h], run[i]);
    }
  }

  lemma NextOptions(s: State, s': State)
    requires Next(s, s')
    ensures s'.o == s.o
  {
    var a :| MapStep(s, s', a) || PutStep(s, s', a) || PoolStep(s, s', a);
    if MapStep(s, s', a) { MapStepOptions(s, s', a); }
    else if PutStep(s, s', a) { PutStepOptions(s, s', a); }
    else { PoolStepKeepsPuts(s, s', a); }
  }

  lemma PutStepOptions(s: State, s': State, a: Action)
    requires PutStep(s, s', a)
    ensures s'.o == s.o
  {
    PutStepIs(s, s', a);
    if a.ALoaded? { LoadedTurns(s, s', a.t, a.q); }
    else if Tests(s, s', a) { TestTurns(s, s', a); }
  }

  /** Every put has come to its stage so. */
  ghost predicate CameAt(run: seq<State>, o: Options, j: nat, q: PoolId) {
    j < |run| && q in run[j].puts && !run[j].puts[q].stage.Fresh? ==> j > 0 && CameTo(run, o, j - 1, j, q)
  }

  ghost predicate Steady(run: seq<State>, o: Options) { forall j: nat, q :: CameAt(run, o, j, q) }

  lemma RunIsSteady(run: seq<State>, o: Options)
    requires IsRun(run, o)
    ensures Steady(run, o)
  {
    forall j: nat, q ensures CameAt(run, o, j, q) {
      NoneAtFirst(run, o);
      if 0 < j < |run| && q in run[j].puts && !run[j].puts[q].stage.Fresh? { CameBefore(run, o, j - 1, j, q); }
    }
  }

  /** At u the size of the pool was tested, with this outcome. */
  ghost predicate SizeTested(run: seq<State>, o: Options, u: nat, q: PoolId, a: PoolId, l: bool, limited: bool) {
    u < |run| && At(run[u], q, TestSize(a, l)) && (Limited(run[u], o, a) <==> limited)
  }

  ghost predicate UseTested(run: seq<State>, o: Options, v: nat, q: PoolId, client: ClientId, a: PoolId, l: bool,
                            up: bool)
  {
    v < |run| && At(run[v], q, TestUse(a, l)) && (UsedUp(run[v], o, client) <==> up)
  }

  ghost predicate RoomTested(run: seq<State>, o: Options, r: nat, q: PoolId, force: bool, a: PoolId, l: bool,
                             room: bool)
  {
    r < |run| && At(run[r], q, TestRoom(a, l)) && (HasRoom(run[r], o, a, force) <==> room)
  }

  /** The put was not refused for its client's use: at u the size did not call for a look at it, or it did
      and at v the client was not used up. */
  ghost predicate Passed(run: seq<State>, o: Options, u: nat, v: nat, q: PoolId, client: ClientId, a: PoolId, l: bool) {
    || (u == v && SizeTested(run, o, u, q, a, l, false))
    || (u <= v && SizeTested(run, o, u, q, a, l, true) && UseTested(run, o, v, q, client, a, l, false))
  }

  /** The put is as it was, or has come from another stage. */
  ghost predicate Stayed(run: seq<State>, i: nat, j: nat, q: PoolId) {
    i < |run| && j < |run| && q in run[i].puts && q in run[j].puts && run[i].puts[q].stage == run[j].puts[q].stage
  }

  ghost predicate SamePut(run: seq<State>, i: nat, j: nat, q: PoolId) {
    && i < |run| && j < |run| && q in run[i].puts && q in run[j].puts
    && run[i].puts[q].client == run[j].puts[q].client && run[i].puts[q].force == run[j].puts[q].force
  }

  lemma UseCame(run: seq<State>, o: Options, i: nat, j: nat, q: PoolId, a: PoolId, l: bool)
    requires CameTo(run, o, i, j, q) && At(run[j], q, TestUse(a, l))
    ensures SamePut(run, i, j, q) && (Stayed(run, i, j, q) || SizeTested(run, o, i, q, a, l, true))
  {
  }

  lemma RoomCame(run: seq<State>, o: Options, i: nat, j: nat, q: PoolId, a: PoolId, l: bool)
    requires CameTo(run, o, i, j, q) && At(run[j], q, TestRoom(a, l))
    ensures SamePut(run, i, j, q)
    ensures || Stayed(run, i, j, q) || SizeTested(run, o, i, q, a, l, false)
            || UseTested(run, o, i, q, run[j].puts[q].client, a, l, false)
  {
  }

  lemma PushingCame(run: seq<State>, o: Options, i: nat, j: nat, q: PoolId, a: PoolId)
    requires CameTo(run, o, i, j, q) && At(run[j], q, Pushing(a))
    ensures SamePut(run, i, j, q)
    ensures Stayed(run, i, j, q) || RoomTested(run, o, i, q, run[j].puts[q].force, a, true, true)
  {
  }

  lemma ReturnedCame(run: seq<State>, o: Options, i: nat, j: nat, q: PoolId, ok: bool, a: PoolId, l: bool)
    requires CameTo(run, o, i, j, q) && At(run[j], q, Returned(ok, a, l))
    ensures SamePut(run, i, j, q)
    ensures || Stayed(run, i, j, q) || (!ok && UseTested(run, o, i, q, run[j].puts[q].client, a, l, true))
            || RoomTested(run, o, i, q, run[j].puts[q].force, a, l, ok) || (ok && l && At(run[i], q, Pushing(a)))
  {
  }

  lemma UseBefore(run: seq<State>, o: Options, j: nat, q: PoolId, a: PoolId, l: bool) returns (i: nat)
    requires Steady(run, o) && j < |run| && At(run[j], q, TestUse(a, l))
    ensures j > 0 && i == j - 1 && SamePut(run, i, j, q)
    ensures Stayed(run, i, j, q) || SizeTested(run, o, i, q, a, l, true)
  {
    assert CameAt(run, o, j, q);
    i := j - 1;
    UseCame(run, o, i, j, q, a, l);
  }

  lemma RoomBefore(run: seq<State>, o: Options, j: nat, q: PoolId, a: PoolId, l: bool) returns (i: nat)
    requires Steady(run, o) && j < |run| && At(run[j], q, TestRoom(a, l))
    ensures j > 0 && i == j - 1 && SamePut(run, i, j, q)
    ensures || Stayed(run, i, j, q) || SizeTested(run, o, i, q, a, l, false)
            || UseTested(run, o, i, q, run[j].puts[q].client, a, l, false)
  {
    assert CameAt(run, o, j, q);
    i := j - 1;
    RoomCame(run, o, i, j, q, a, l);
  }

  lemma PushingBefore(run: seq<State>, o: Options, j: nat, q: PoolId, a: PoolId) returns (i: nat)
    requires Steady(run, o) && j < |run| && At(run[j], q, Pushing(a))
    ensures j > 0 && i == j - 1 && SamePut(run, i, j, q)
    ensures Stayed(run, i, j, q) || RoomTested(run, o, i, q, run[j].puts[q].force, a, true, true)
  {
    assert CameAt(run, o, j, q);
    i := j - 1;
    PushingCame(run, o, i, j, q, a);
  }

  lemma ReturnedBefore(run: seq<State>, o: Options, j: nat, q: PoolId, ok: bool, a: PoolId, l: bool) returns (i: nat)
    requires Steady(run, o) && j < |run| && At(run[j], q, Returned(ok, a, l))
    ensures j > 0 && i == j - 1 && SamePut(run, i, j, q)
    ensures || Stayed(run, i, j, q) || (!ok && UseTested(run, o, i, q, run[j].puts[q].client, a, l, true))
            || RoomTested(run, o, i, q, run[j].puts[q].force, a, l, ok) || (ok && l && At(run[i], q, Pushing(a)))
  {
    assert CameAt(run, o, j, q);
    i := j - 1;
    ReturnedCame(run, o, i, j, q, ok, a, l);
  }

  lemma {:induction false} SizeMoment(run: seq<State>, o: Options, j: nat, q: PoolId, a: PoolId, l: bool)
    returns (u: nat)
    requires Steady(run, o) && j < |run| && At(run[j], q, TestUse(a, l))
    ensures u <= j && SizeTested(run, o, u, q, a, l, true)
    decreases j
  {
    var i := UseBefore(run, o, j, q, a, l);
    if Stayed(run, i, j, q) { u := SizeMoment(run, o, i, q, a, l); } else { u := i; }
  }

  lemma {:induction false} UseMoments(run: seq<State>, o: Options, j: nat, q: PoolId, a: PoolId, l: bool)
    returns (u: nat, v: nat)
    requires Steady(run, o) && j < |run| && At(run[j], q, TestRoom(a, l))
    ensures v <= j && Passed(run, o, u, v, q, run[j].puts[q].client, a, l)
    decreases j
  {
    var i := RoomBefore(run, o, j, q, a, l);
    if Stayed(run, i, j, q) {
      u, v := UseMoments(run, o, i, q, a, l);
    } else if SizeTested(run, o, i, q, a, l, false) {
      u, v := i, i;
    } else {
      u := SizeMoment(run, o, i, q, a, l);
      v := i;
    }
  }

  lemma {:induction false} RoomMoments(run: seq<State>, o: Options, j: nat, q: PoolId, a: PoolId)
    returns (u: nat, v: nat, r: nat)
    requires Steady(run, o) && j < |run| && At(run[j], q, Pushing(a))
    ensures v <= r <= j && Passed(run, o, u, v, q, run[j].puts[q].client, a, true)
    ensures RoomTested(run, o, r, q, run[j].puts[q].force, a, true, true)
    decreases j
  {
    var i := PushingBefore(run, o, j, q, a);
    if Stayed(run, i, j, q) {
      u, v, r := RoomMoments(run, o, i, q, a);
    } else {
      u, v := UseMoments(run, o, i, q, a, true);
      r := i;
    }
  }

  /** Why put q of this client answered ok: refused because the pool it found had another client when it
      looked, and then its own was used up; or else by whether the pool had room when it looked for that. */
  ghost predicate Answers(run: seq<State>, o: Options, u: nat, v: nat, r: nat, j: nat, q: PoolId, client: ClientId,
                          force: bool, ok: bool, a: PoolId, l: bool)
  {
    || (u <= v <= j && !ok && SizeTested(run, o, u, q, a, l, true) && UseTested(run, o, v, q, client, a, l, true))
    || (v <= r <= j && Passed(run, o, u, v, q, client, a, l) && RoomTested(run, o, r, q, force, a, l, ok))
  }

  lemma {:induction false} Answered(run: seq<State>, o: Options, j: nat, q: PoolId, ok: bool, a: PoolId, l: bool)
    returns (u: nat, v: nat, r: nat)
    requires Steady(run, o) && j < |run| && At(run[j], q, Returned(ok, a, l))
    ensures Answers(run, o, u, v, r, j, q, run[j].puts[q].client, run[j].puts[q].force, ok, a, l)
    decreases j
  {
    var i := ReturnedBefore(run, o, j, q, ok, a, l);
    u, v, r := 0, 0, 0;
    if Stayed(run, i, j, q) {
      u, v, r := Answered(run, o, i, q, ok, a, l);
    } else if UseTested(run, o, i, q, run[j].puts[q].client, a, l, true) && !ok {
      u := SizeMoment(run, o, i, q, a, l);
      v := i;
    } else if At(run[i], q, Pushing(a)) {
      u, v, r := RoomMoments(run, o, i, q, a);
    } else {
      u, v := UseMoments(run, o, i, q, a, l);
      r := i;
    }
  }

  /** Every finished put answered for one of these reasons. */
  lemma PutAnswersFor(run: seq<State>, o: Options, j: nat, q: PoolId)
    requires IsRun(run, o) && j < |run| && q in run[j].puts && run[j].puts[q].stage.Returned?
    ensures var p := run[j].puts[q];
            exists u: nat, v: nat, r: nat ::
              Answers(run, o, u, v, r, j, q, p.client, p.force, p.stage.answer, p.stage.actual, p.stage.loaded)
  {
    var stage := run[j].puts[q].stage;
    RunIsSteady(run, o);
    var u, v, r := Answered(run, o, j, q, stage.answer, stage.actual, stage.loaded);
  }
}
