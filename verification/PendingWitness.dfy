/** What happens when a peer answers a request that it should not, a one-way request or one whose
    write failed: the response may reach another caller.  This is why the protocol's guarantees name
    what the peer does. */
module PendingWitness {
  import opened Wrappers
  import opened PendingMachine

  /** Steps with a peer that may answer any request at any time. */
  ghost predicate RudeNext(s: State, s': State) {
    Next(s, s') || exists k, n :: Fetched(s, s', k, n)
  }

  ghost predicate IsRudeRun(run: seq<State>) {
    && |run| > 0 && run[0] == Initial(false)
    && forall i, j :: 0 <= i && j == i + 1 && j < |run| ==> RudeNext(run[i], run[j])
  }

  ghost predicate Reached(s: State) {
    exists run :: IsRudeRun(run) && run[|run| - 1] == s
  }

  lemma ReachNext(s: State, s': State)
    requires Reached(s) && RudeNext(s, s')
    ensures Reached(s')
  {
    var run :| IsRudeRun(run) && run[|run| - 1] == s;
    var more := run + [s'];
    forall i, j | 0 <= i && j == i + 1 && j < |more| ensures RudeNext(more[i], more[j]) {
      if j < |run| { assert RudeNext(run[i], run[j]); }
    }
    assert IsRudeRun(more) && more[|more| - 1] == s';
  }

  lemma Reach(s: State, s': State, a: Action)
    requires Reached(s) && Step(s, s', a)
    ensures Reached(s')
  {
    ReachNext(s, s');
  }

  // ---- One context, two calls ----

  /** Nothing is closed or locked, and there is one context, 0. */
  predicate Plain(s: State) {
    !s.strict && s.lock.Free? && !s.closed && s.readError.None? && 0 in s.ctxs && !s.ctxs[0].callback
  }

  lemma Twice<K, V>(m: map<K, V>, k: K, v: V, w: V)
    ensures m[k := v][k := w] == m[k := w]
  {
  }

  /** A call with context 0, from its start to an issued id. */
  lemma Issues(s: State, t: Tid, c: Call) returns (s': State)
    requires Reached(s) && Plain(s) && t in s.calls && s.calls[t] == c == Call(false, c.oneWay, false, 0, None, Check)
    requires Spanned(s)
    ensures Reached(s') && Plain(s')
    ensures var n := s.issued + 1;
            s' == s.(issued := n, ctxs := s.ctxs[0 := s.ctxs[0].(serial := Some(n))],
                     calls := s.calls[t := c.(serial := Some(n), pc := Encode)])
  {
    var s1 := Jump(s, t, CheckError);
    Reach(s, s1, ACheck(t));
    var s2 := Jump(s1, t, Issue);
    Reach(s1, s2, AAdmit(t, true));
    Twice(s.calls, t, s1.calls[t], s2.calls[t]);
    var n := s.issued + 1;
    s' := s2.(issued := n, ctxs := s.ctxs[0 := s.ctxs[0].(serial := Some(n))],
              calls := s2.calls[t := c.(serial := Some(n), pc := Encode)]);
    Twice(s.calls, t, s2.calls[t], s'.calls[t]);
    assert Counted(s2, s', t);
    Reach(s2, s', AIssue(t));
  }

  /** From an issued id to the table. */
  lemma Registers(s: State, t: Tid, c: Call) returns (s': State)
    requires Reached(s) && Plain(s) && t in s.calls && s.calls[t] == c && c.pc == Encode && c.ctx == 0 && c.serial.Some?
    ensures Reached(s') && Plain(s')
    ensures var n := c.serial.value;
            s' == s.(table := s.table[RidOf(n) := 0], reg := s.reg[n := Reg(0, Pending, 0)],
                    calls := s.calls[t := c.(pc := Write)])
  {
    var s1 := Jump(s, t, Add);
    Reach(s, s1, AEncode(t, true));
    var n := c.serial.value;
    s' := Jump(s1.(table := s.table[RidOf(n) := 0], reg := s.reg[n := Reg(0, Pending, 0)]), t, Write);
    Reach(s1, s', AAdd(t));
    Twice(s.calls, t, s1.calls[t], s'.calls[t]);
  }

  // ---- The first call ----

  function Reason(oneWay: bool): Reply { if oneWay then Sent else WriteError }

  /** The first call is at its write. */
  lemma Begins(oneWay: bool) returns (s: State)
    ensures Reached(s) && Plain(s) && s.issued == 1 && s.table == map[1 := 0] && s.reg == map[1 := Reg(0, Pending, 0)]
    ensures s.calls == map[0 := Call(false, oneWay, false, 0, Some(1), Write)] && s.takers == map[] && s.pool == {}
    ensures s.ctxs == map[0 := Ctx(false, None, Response(0), Some(1))]
  {
    assert IsRudeRun([Initial(false)]) && [Initial(false)][0] == Initial(false);
    var c := Call(false, oneWay, false, 0, None, Check);
    var s0 := Initial(false).(nextCtx := 1, ctxs := map[][0 := Ctx(false, None, Response(0), None)],
                               calls := map[][0 := c]);
    Reach(Initial(false), s0, AAllocate(0, false, oneWay, false));
    s := Issues(s0, 0, c);
    s := Registers(s, 0, s.calls[0]);
  }

  /** Its write has ended, and the reader takes the context for an answer that the peer should not
      have sent. */
  lemma TakenTooEarly(s: State, oneWay: bool) returns (s': State)
    requires Reached(s) && Plain(s) && s.table == map[1 := 0] && s.reg == map[1 := Reg(0, Pending, 0)]
             && s.takers == map[]
    requires s.calls == map[0 := Call(false, oneWay, false, 0, Some(1), Write)] && s.ctxs[0].serial == Some(1)
    ensures Reached(s') && s'.table == map[] && s'.reg == map[1 := Reg(0, Taken(0), 0)]
    ensures s' == s.(table := s'.table, reg := s'.reg, takers := map[0 := Taker(0, Response(1), false)],
                     calls := map[0 := Call(false, oneWay, false, 0, Some(1), Withdraw(Reason(oneWay)))])
  {
    var s1 := Jump(s, 0, Withdraw(Reason(oneWay)));
    Reach(s, s1, AWrite(0, oneWay));
    s' := SetFate(s1.(table := s1.table - {1}, takers := s1.takers[0 := Taker(0, Response(1), false)]), 1, Taken(0));
    assert Fetched(s1, s', 0, 1);
    ReachNext(s1, s');
  }

  /** The first call returns, and its context is back in the pool. */
  lemma Returns(s: State, oneWay: bool) returns (s': State)
    requires Reached(s) && Plain(s) && s.table == map[] && s.reg == map[1 := Reg(0, Taken(0), 0)] && s.pool == {}
    requires s.calls == map[0 := Call(false, oneWay, false, 0, Some(1), Withdraw(Reason(oneWay)))]
    ensures Reached(s')
    ensures s' == s.(pool := {0}, calls := map[0 := Call(false, oneWay, false, 0, Some(1), Done(Reason(oneWay)))])
  {
    var s1 := Jump(s, 0, Finish(Reason(oneWay)));
    assert s.table - {1} == map[];
    Reach(s, s1, AWithdraw(0));
    var s2 := Jump(s1, 0, Done(Reason(oneWay)));
    s' := s2.(pool := s2.pool + {0});
    Reach(s1, s', AFinish(0));
    Twice(s.calls, 0, s1.calls[0], s2.calls[0]);
  }

  // ---- The second call ----

  /** The context is recycled for a second, two-way call while the reader still holds it for the
      first. */
  lemma Recycles(s: State, done: Call) returns (s': State)
    requires Reached(s) && Plain(s) && s.issued == 1 && s.table == map[] && s.reg == map[1 := Reg(0, Taken(0), 0)]
    requires s.pool == {0} && done.pc.Done? && s.calls == map[0 := done]
    ensures Reached(s') && Plain(s') && Spanned(s')
    ensures s' == s.(pool := {}, ctxs := s.ctxs[0 := s.ctxs[0].(buf := None, serial := None)],
                     calls := map[0 := done, 1 := Call(false, false, false, 0, None, Check)])
  {
    var c := Call(false, false, false, 0, None, Check);
    s' := s.(pool := s.pool - {0}, ctxs := s.ctxs[0 := s.ctxs[0].(buf := None, serial := None)],
               calls := s.calls[1 := c]);
    Reach(s, s', ARecycle(1, 0, false, false));
  }

  /** The second call waits for its answer. */
  lemma Waits(s: State, done: Call) returns (s': State)
    requires Reached(s) && Plain(s) && Spanned(s) && s.issued == 1 && s.reg == map[1 := Reg(0, Taken(0), 0)]
    requires done.pc.Done? && s.calls == map[0 := done, 1 := Call(false, false, false, 0, None, Check)]
    requires s.takers == map[0 := Taker(0, Response(1), false)]
    ensures Reached(s') && s'.calls == map[0 := done, 1 := Call(false, false, false, 0, Some(2), Wait)]
    ensures s'.takers == s.takers && 2 in s'.reg && 0 in s'.ctxs && s'.ctxs[0] == s.ctxs[0].(serial := Some(2))
  {
    var s2 := Issues(s, 1, s.calls[1]);
    var s3 := Registers(s2, 1, s2.calls[1]);
    s' := Jump(s3.(answerable := s3.answerable + {2}), 1, Wait);
    Reach(s3, s', AWrite(1, true));
  }

  /** The reader hands the first call's answer to the second. */
  lemma Crosses(s: State, done: Call) returns (s': State)
    requires Reached(s) && s.calls == map[0 := done, 1 := Call(false, false, false, 0, Some(2), Wait)] && 0 in s.ctxs
    requires s.takers == map[0 := Taker(0, Response(1), false)] && 2 in s.reg
    requires !s.ctxs[0].callback && s.ctxs[0].buf.None? && s.ctxs[0].serial == Some(2)
    ensures Reached(s') && s'.calls == s.calls && 0 in s'.ctxs
    ensures s'.ctxs[0] == s.ctxs[0].(buf := Some(NoError), ires := Response(1))
  {
    var x := s.ctxs[0].(ires := Response(1));
    var s1 := SetCtx(s, 0, x).(takers := s.takers[0 := Taker(0, Response(1), true)]);
    Reach(s, s1, AAssign(0));
    s' := SetCtx(Complete(s1, 0, Answered), 0, x.(buf := Some(NoError))).(takers := s1.takers - {0});
    Reach(s1, s', ASignal(0));
  }

  lemma Believes(s: State, done: Call) returns (s': State)
    requires Reached(s) && s.calls == map[0 := done, 1 := Call(false, false, false, 0, Some(2), Wait)] && 0 in s.ctxs
    requires s.ctxs[0].buf == Some(NoError) && s.ctxs[0].ires == Response(1)
    ensures Reached(s')
            && s'.calls == map[0 := done, 1 := Call(false, false, false, 0, Some(2), Done(Answer(Response(1))))]
  {
    var s1 := Jump(SetCtx(s, 0, s.ctxs[0].(buf := None)), 1, Copy);
    Reach(s, s1, AReceive(1));
    var s2 := Jump(s1, 1, Finish(Answer(Response(1))));
    Reach(s1, s2, ACopy(1));
    var s3 := Jump(s2, 1, Done(Answer(Response(1))));
    s' := s3.(pool := s3.pool + {0});
    Reach(s2, s', AFinish(1));
  }

  /** A call that returned the answer to another request. */
  predicate Misled(s: State, t: Tid) {
    && t in s.calls
    && var c := s.calls[t];
       c.pc.Done? && c.pc.result.Answer? && c.serial.Some? && c.pc.result.response.serial != c.serial.value
  }

  /** One unsolicited answer, to a request that is about to return because it is one-way or because
      its write failed, ends up as the answer of the next call, whose own request was never answered. */
  lemma UnsolicitedAnswerMisleads(oneWay: bool)
    ensures exists s :: Reached(s) && 0 in s.calls && s.calls[0].pc == Done(Reason(oneWay)) && Misled(s, 1)
  {
    var s := Begins(oneWay);
    s := TakenTooEarly(s, oneWay);
    s := Returns(s, oneWay);
    var done := s.calls[0];
    s := Recycles(s, done);
    s := Waits(s, done);
    s := Crosses(s, done);
    s := Believes(s, done);
    assert Misled(s, 1);
  }
}
