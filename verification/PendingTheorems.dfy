/** What holds in every run of the pending-request protocol, for any number of callers, deliveries,
    timeouts and cleanups in any order. */
module PendingTheorems {
  import opened Wrappers
  import opened PendingMachine
  import opened PendingProof

  // ---- The invariant holds in every run ----

  lemma StartKeeps(s: State, s': State, a: Action)
    requires Inv(s) && Starts(s, s', a)
    ensures Inv(s')
  {
    match a
    case ARecycle(t, x, oneWay, timed) => OnRecycle(s, s', t, x, oneWay, timed);
    case AAllocate(t, callback, oneWay, timed) => OnAllocate(s, s', t, callback, oneWay, timed);
    case ADrop(x) => OnDrop(s, s', x);
    case ACheck(t) => OnCheck(s, s', t);
    case AAdmit(t, isRequest) => OnAdmit(s, s', t, isRequest);
    case AClose(left) => OnClose(s, s', left);
  }

  lemma RegisterKeeps(s: State, s': State, a: Action)
    requires Inv(s) && Registers(s, s', a)
    ensures Inv(s')
  {
    match a
    case AIssue(t) => OnIssue(s, s', t);
    case AEncode(t, ok) => OnEncode(s, s', t, ok);
    case AAdd(t) => OnAdd(s, s', t);
    case AWrite(t, ok) => OnWrite(s, s', t, ok);
  }

  lemma LeaveKeeps(s: State, s': State, a: Action)
    requires Inv(s) && Leaves(s, s', a)
    ensures Inv(s')
  {
    match a
    case AWithdraw(t) => OnWithdraw(s, s', t);
    case AReceive(t) => OnReceive(s, s', t);
    case AFire(t) => OnFire(s, s', t);
    case AGiveUp(t) => OnGiveUp(s, s', t);
    case ACopy(t) => OnCopy(s, s', t);
    case AFinish(t) => OnFinish(s, s', t);
  }

  lemma RespondKeeps(s: State, s': State, a: Action)
    requires Inv(s) && Responds(s, s', a)
    ensures Inv(s')
  {
    match a
    case ADeliver(k, n) => OnDeliver(s, s', k, n);
    case ACallback(k) => OnCallback(s, s', k);
    case AAssign(k) => OnAssign(s, s', k);
    case ASignal(k) => OnSignal(s, s', k);
  }

  lemma CleanupKeeps(s: State, s': State, a: Action)
    requires Inv(s) && CleansUp(s, s', a)
    ensures Inv(s')
  {
    match a
    case ABegin(e) => OnBegin(s, s', e);
    case ASweep(r) => OnSweep(s, s', r);
    case AEnd => OnEnd(s, s');
  }

  lemma NextKeeps(s: State, s': State)
    requires Inv(s) && Next(s, s')
    ensures Inv(s')
  {
    var a :| Step(s, s', a);
    if Starts(s, s', a) { StartKeeps(s, s', a); }
    else if Registers(s, s', a) { RegisterKeeps(s, s', a); }
    else if Leaves(s, s', a) { LeaveKeeps(s, s', a); }
    else if Responds(s, s', a) { RespondKeeps(s, s', a); }
    else { CleanupKeeps(s, s', a); }
  }

  lemma StartKeepsReg(s: State, s': State, a: Action)
    requires Starts(s, s', a)
    ensures s'.reg == s.reg && s'.lock == s.lock && s'.strict == s.strict
  {
  }

  lemma RegisterKeepsLock(s: State, s': State, a: Action)
    requires Registers(s, s', a)
    ensures s'.lock == s.lock && s'.strict == s.strict
  {
    if a.AIssue? { IssueKeepsLock(s, s', a.t); }
  }

  lemma IssueKeepsLock(s: State, s': State, t: Tid)
    requires RanOut(s, s', t) || Counted(s, s', t)
    ensures s'.lock == s.lock && s'.strict == s.strict
  {
  }

  lemma LeaveKeepsLock(s: State, s': State, a: Action)
    requires Leaves(s, s', a)
    ensures s'.lock == s.lock && s'.strict == s.strict
  {
    if a.AWithdraw? || a.AGiveUp? { DeleteKeepsLock(s, s', a.t); } else { LeaveKeepsReg(s, s', a); }
  }

  lemma DeleteKeepsLock(s: State, s': State, t: Tid)
    requires Withdrew(s, s', t) || GaveUp(s, s', t)
    ensures s'.lock == s.lock && s'.strict == s.strict
  {
  }

  lemma LeaveKeepsReg(s: State, s': State, a: Action)
    requires Leaves(s, s', a) && !a.AWithdraw? && !a.AGiveUp?
    ensures s'.reg == s.reg && s'.lock == s.lock && s'.strict == s.strict
  {
  }

  lemma RespondKeepsLock(s: State, s': State, a: Action)
    requires Responds(s, s', a)
    ensures s'.lock == s.lock && s'.strict == s.strict
  {
  }

  lemma StrictStays(s: State, s': State)
    requires Next(s, s')
    ensures s'.strict == s.strict
  {
    var a :| Step(s, s', a);
    if Starts(s, s', a) { StartKeepsReg(s, s', a); }
    else if Registers(s, s', a) { RegisterKeepsLock(s, s', a); }
    else if Leaves(s, s', a) { LeaveKeepsLock(s, s', a); }
    else if Responds(s, s', a) { RespondKeepsLock(s, s', a); }
  }

  lemma {:induction false} RunInv(run: seq<State>, strict: bool, i: nat)
    requires IsRun(run, strict) && i < |run|
    ensures Inv(run[i]) && run[i].strict == strict
    decreases i
  {
    if i == 0 {
      OnInitial(strict);
    } else {
      RunInv(run, strict, i - 1);
      NextKeeps(run[i - 1], run[i]);
      StrictStays(run[i - 1], run[i]);
    }
  }

  // ---- At most once ----

  /** A registered request is completed at most once: exactly once when it was answered or failed by
      a cleanup, never when it is pending, in delivery, expired or withdrawn. */
  lemma CompletedAtMostOnce(run: seq<State>, strict: bool, i: nat, n: Serial)
    requires IsRun(run, strict) && i < |run| && n in run[i].reg
    ensures var g := run[i].reg[n]; g.done == if g.fate.Answered? || g.fate.Failed? then 1 else 0
  {
    RunInv(run, strict, i);
    assert RegOk(run[i], n);
  }

  /** The read loop's blocking send finds room: whoever is about to send can. */
  lemma SendNeverBlocks(run: seq<State>, strict: bool, i: nat, k: Tid)
    requires IsRun(run, strict) && i < |run| && k in run[i].takers && run[i].takers[k].filled
    ensures exists s' :: Signalled(run[i], s', k)
  {
    var s := run[i];
    RunInv(run, strict, i);
    assert TakerOk(s, k) && RegOk(s, s.takers[k].response.serial);
    var x := s.takers[k].ctx;
    var s' := SetCtx(Complete(s, x, Answered), x, s.ctxs[x].(buf := Some(NoError))).(takers := s.takers - {k});
    assert Signalled(s, s', k);
  }

  /** The cleanup's send never takes its default branch: each visited request is failed. */
  lemma CleanupAlwaysSends(run: seq<State>, strict: bool, i: nat, s': State, r: nat)
    requires IsRun(run, strict) && i < |run| && Swept(run[i], s', r)
    ensures exists n :: && n in run[i].reg && run[i].reg[n].fate.Pending? && RidOf(n) == r
                        && n in s'.reg && s'.reg[n] == run[i].reg[n].(fate := Failed(run[i].lock.error), done := 1)
  {
    var s := run[i];
    RunInv(run, strict, i);
    SweepVisits(s, s', r);
    var n :| Visiting(s, s', r, n, s.table[r]);
    assert RegOk(s, n);
  }

  /** A context starts each of its lives with an empty channel, and no one else can write to it. */
  lemma StartsEmpty(run: seq<State>, strict: bool, i: nat, t: Tid)
    requires IsRun(run, strict) && i < |run| && At(run[i], t, Check)
    ensures var x := run[i].calls[t].ctx;
            && x in run[i].ctxs && run[i].ctxs[x].buf.None? && x !in run[i].pool
            && (forall k :: k in run[i].takers ==> run[i].takers[k].ctx != x)
            && (forall r :: r in Live(run[i]) && r in run[i].table ==> run[i].table[r] != x)
  {
    var s := run[i];
    RunInv(run, strict, i);
    assert CallOk(s, s.calls[t]);
    forall k | k in s.takers ensures s.takers[k].ctx != s.calls[t].ctx {
      assert TakerOk(s, k) && RegOk(s, s.takers[k].response.serial);
    }
    forall r | r in Live(s) && r in s.table ensures s.table[r] != s.calls[t].ctx {
      assert EntryOk(s, r);
    }
  }

  // ---- Response matching ----

  /** Serials over a step: kept, or new and above all others; and a call that has returned stays as it
      is until another takes its place. */
  ghost predicate SerialsFrom(s: State, s': State) {
    && s.issued <= s'.issued
    && (forall t :: t in s.calls && s.calls[t].pc.Done? && t in s'.calls ==>
          s'.calls[t] == s.calls[t] || s'.calls[t].serial.None?)
    && forall t :: t in s'.calls && s'.calls[t].serial.Some? ==>
         (t in s.calls && s.calls[t].serial == s'.calls[t].serial) || s'.calls[t].serial.value == s.issued + 1
  }

  /** One call moves on, with its serial. */
  predicate MovesOn(s: State, s': State, t: Tid) {
    && s'.issued == s.issued && t in s.calls && !s.calls[t].pc.Done? && t in s'.calls
    && s'.calls == s.calls[t := s'.calls[t]] && s'.calls[t].serial == s.calls[t].serial
  }

  lemma MovingSerials(s: State, s': State, t: Tid)
    requires MovesOn(s, s', t)
    ensures SerialsFrom(s, s')
  {
  }

  lemma StartSerials(s: State, s': State, a: Action)
    requires Starts(s, s', a)
    ensures SerialsFrom(s, s')
  {
  }

  lemma RegisterSerials(s: State, s': State, a: Action)
    requires Registers(s, s', a)
    ensures SerialsFrom(s, s')
  {
    match a
    case AIssue(t) => IssueSerials(s, s', t);
    case AEncode(t, ok) => MovingSerials(s, s', t);
    case AAdd(t) =>
      AddMoves(s, s', t);
      MovingSerials(s, s', t);
    case AWrite(t, ok) =>
      WriteMoves(s, s', t, ok);
      MovingSerials(s, s', t);
  }

  lemma IssueSerials(s: State, s': State, t: Tid)
    requires RanOut(s, s', t) || Counted(s, s', t)
    ensures SerialsFrom(s, s')
  {
  }

  lemma AddMoves(s: State, s': State, t: Tid)
    requires Added(s, s', t)
    ensures MovesOn(s, s', t)
  {
  }

  lemma WriteMoves(s: State, s': State, t: Tid, ok: bool)
    requires Wrote(s, s', t, ok)
    ensures MovesOn(s, s', t)
  {
  }

  lemma LeaveSerials(s: State, s': State, a: Action)
    requires Leaves(s, s', a)
    ensures SerialsFrom(s, s')
  {
    if a.AWithdraw? || a.AGiveUp? { DeleteMoves(s, s', a.t); } else { LeaveMoves(s, s', a); }
    MovingSerials(s, s', a.t);
  }

  lemma DeleteMoves(s: State, s': State, t: Tid)
    requires Withdrew(s, s', t) || GaveUp(s, s', t)
    ensures MovesOn(s, s', t)
  {
  }

  lemma LeaveMoves(s: State, s': State, a: Action)
    requires Leaves(s, s', a) && !a.AWithdraw? && !a.AGiveUp?
    ensures MovesOn(s, s', a.t)
  {
    if a.AFinish? { FinishReleases(s, s', a.t); }
  }

  lemma OtherSerials(s: State, s': State, a: Action)
    requires Responds(s, s', a) || CleansUp(s, s', a)
    ensures SerialsFrom(s, s')
  {
    assert s'.calls == s.calls && s'.issued == s.issued;
  }

  lemma NextSerials(s: State, s': State)
    requires Next(s, s')
    ensures SerialsFrom(s, s')
  {
    var a :| Step(s, s', a);
    if Starts(s, s', a) { StartSerials(s, s', a); }
    else if Registers(s, s', a) { RegisterSerials(s, s', a); }
    else if Leaves(s, s', a) { LeaveSerials(s, s', a); }
    else { OtherSerials(s, s', a); }
  }

  ghost predicate SerialsGrow(run: seq<State>) {
    forall h, k :: 0 <= h && k == h + 1 && k < |run| ==> SerialsFrom(run[h], run[k])
  }

  lemma {:induction false} IssuedAlong(run: seq<State>, i: nat, j: nat)
    requires SerialsGrow(run) && i <= j < |run|
    ensures run[i].issued <= run[j].issued
    decreases j
  {
    if i < j { IssuedAlong(run, i, j - 1); }
  }

  lemma {:induction false} HolderAlong(run: seq<State>, i: nat, j: nat, u: Tid, t: Tid, n: Serial)
    requires SerialsGrow(run) && i <= j < |run| && n <= run[i].issued
    requires u in run[i].calls && run[i].calls[u].serial == Some(n)
    requires forall v :: v in run[i].calls && run[i].calls[v].serial == Some(n) ==> v == u
    requires t in run[j].calls && run[j].calls[t].serial == Some(n)
    ensures t == u && (run[i].calls[u].pc.Done? ==> run[j].calls[t] == run[i].calls[u])
    decreases j
  {
    if i < j {
      IssuedAlong(run, i, j - 1);
      assert SerialsFrom(run[j - 1], run[j]);
      HolderAlong(run, i, j - 1, u, t, n);
    }
  }

  /** A request belongs to one call: at no two moments of a run do calls of two threads have the same
      number, nor does a thread that has returned from one call have its number in another. */
  lemma OneCallPerSerial(run: seq<State>, strict: bool, i: nat, j: nat, u: Tid, t: Tid)
    requires IsRun(run, strict) && i <= j < |run| && u in run[i].calls && t in run[j].calls
    requires run[i].calls[u].serial.Some? && run[i].calls[u].serial == run[j].calls[t].serial
    ensures t == u && (run[i].calls[u].pc.Done? ==> run[j].calls[t] == run[i].calls[u])
  {
    assert SerialsGrow(run) by {
      forall h, k | 0 <= h && k == h + 1 && k < |run|
        ensures SerialsFrom(run[h], run[k])
      {
        NextSerials(run[h], run[k]);
      }
    }
    SerialAtMost(run, strict, i, u);
    HolderAlong(run, i, j, u, t, run[i].calls[u].serial.value);
  }

  lemma SerialAtMost(run: seq<State>, strict: bool, i: nat, u: Tid)
    requires IsRun(run, strict) && i < |run| && u in run[i].calls && run[i].calls[u].serial.Some?
    ensures run[i].calls[u].serial.value <= run[i].issued
    ensures forall v :: v in run[i].calls && run[i].calls[v].serial == run[i].calls[u].serial ==> v == u
  {
    RunInv(run, strict, i);
    assert CallOk(run[i], run[i].calls[u]);
  }

  /** A call that returns nil with a response returns the response to its own request, which was
      answered; no other call then has that request's number. */
  lemma AnswerIsOwn(run: seq<State>, strict: bool, i: nat, t: Tid)
    requires IsRun(run, strict) && i < |run| && t in run[i].calls
    requires run[i].calls[t].pc.Done? && run[i].calls[t].pc.result.Answer?
    ensures var c := run[i].calls[t];
            && c.serial == Some(c.pc.result.response.serial)
            && c.serial.value in run[i].reg && run[i].reg[c.serial.value].fate.Answered?
            && !c.oneWay && !c.callback
    ensures forall u :: u in run[i].calls && u != t ==> run[i].calls[u].serial != run[i].calls[t].serial
  {
    RunInv(run, strict, i);
    assert CallOk(run[i], run[i].calls[t]);
  }

  /** No response is ever returned to two calls: two calls that have returned, of two threads or one
      after the other of one, at whatever moments of the run, returned the responses to two requests. */
  lemma AnswersDiffer(run: seq<State>, strict: bool, i: nat, j: nat, u: Tid, t: Tid)
    requires IsRun(run, strict) && i <= j < |run| && u in run[i].calls && t in run[j].calls
    requires u != t || run[i].calls[u] != run[j].calls[t]
    requires run[i].calls[u].pc.Done? && run[i].calls[u].pc.result.Answer?
    requires run[j].calls[t].pc.Done? && run[j].calls[t].pc.result.Answer?
    ensures run[i].calls[u].pc.result.response.serial != run[j].calls[t].pc.result.response.serial
  {
    AnswerIsOwn(run, strict, i, u);
    AnswerIsOwn(run, strict, j, t);
    if run[i].calls[u].serial == run[j].calls[t].serial { OneCallPerSerial(run, strict, i, j, u, t); }
  }

  /** What each outcome says about the request, now and at every later moment. */
  lemma OutcomeAgrees(run: seq<State>, strict: bool, i: nat, t: Tid)
    requires IsRun(run, strict) && i < |run| && t in run[i].calls && run[i].calls[t].pc.Done?
    ensures var c, s := run[i].calls[t], run[i];
            match c.pc.result
            case Refused => c.serial.Some? ==> c.serial.value !in s.reg
            case ReadError(e) => c.serial.Some? ==> FateOf(s, c.serial.value) == Some(Failed(e))
            case TimedOut =>
              && c.timed && c.serial.Some? && c.serial.value in s.reg
              && var f := s.reg[c.serial.value].fate;
                 f.Expired? || f.Taken? || f.Answered? || f.Failed?
            case WriteError =>
              && c.serial.Some? && c.serial.value in s.reg
              && var f := s.reg[c.serial.value].fate;
                 f.Withdrawn? || f.Failed?
            case Sent =>
              && c.serial.Some? && c.serial.value in s.reg
              && var f := s.reg[c.serial.value].fate;
                 if c.oneWay then f.Withdrawn? || f.Failed?
                 else c.callback && (f.Pending? || f.Taken? || f.Answered? || f.Failed?)
            case Answer(_) => c.serial.Some? && FateOf(s, c.serial.value) == Some(Answered)
  {
    RunInv(run, strict, i);
    assert CallOk(run[i], run[i].calls[t]);
  }

  // ---- Fates ----

  /** The only changes a registration ever sees. */
  predicate FateMoves(g: Reg, h: Reg) {
    && h.ctx == g.ctx
    && (|| h == g
        || (g.fate.Pending? && (h.fate.Taken? || h.fate.Expired? || h.fate.Withdrawn?) && h.done == g.done)
        || (g.fate.Pending? && h.fate.Failed? && h.done == g.done + 1)
        || (g.fate.Taken? && h.fate.Answered? && h.done == g.done + 1))
  }

  lemma AddKeepsFates(s: State, s': State, t: Tid, n: Serial)
    requires Inv(s) && Added(s, s', t) && n in s.reg
    ensures n in s'.reg && s'.reg[n] == s.reg[n]
  {
    assert CallOk(s, s.calls[t]);
  }

  lemma DeliverMovesFate(s: State, s': State, k: Tid, m: Serial, n: Serial)
    requires Inv(s) && Delivered(s, s', k, m) && n in s.reg
    ensures n in s'.reg && FateMoves(s.reg[n], s'.reg[n])
  {
    if RidOf(m) in s.table { OwnEntry(s, m); }
  }

  lemma CompletionMovesFate(s: State, s': State, k: Tid, n: Serial)
    requires Inv(s) && (CalledBack(s, s', k) || Signalled(s, s', k)) && n in s.reg
    ensures n in s'.reg && FateMoves(s.reg[n], s'.reg[n])
  {
    TakerCompletes(s, k);
    if CalledBack(s, s', k) { CallbackMoves(s, s', k, n); } else { SignalMoves(s, s', k, n); }
  }

  lemma TakerCompletes(s: State, k: Tid)
    requires Regs(s) && Takers(s) && k in s.takers
    ensures var n, x := s.takers[k].response.serial, s.takers[k].ctx;
            n in s.reg && s.reg[n].fate.Taken? && x in s.ctxs && s.ctxs[x].serial == Some(n)
  {
    assert TakerOk(s, k) && RegOk(s, s.takers[k].response.serial);
  }

  lemma CallbackMoves(s: State, s': State, k: Tid, n: Serial)
    requires CalledBack(s, s', k) && n in s.reg
    requires var m := s.takers[k].response.serial;
             m in s.reg && s.reg[m].fate.Taken? && s.ctxs[s.takers[k].ctx].serial == Some(m)
    ensures n in s'.reg && FateMoves(s.reg[n], s'.reg[n])
  {
  }

  lemma SignalMoves(s: State, s': State, k: Tid, n: Serial)
    requires Signalled(s, s', k) && n in s.reg
    requires var m := s.takers[k].response.serial;
             m in s.reg && s.reg[m].fate.Taken? && s.ctxs[s.takers[k].ctx].serial == Some(m)
    ensures n in s'.reg && FateMoves(s.reg[n], s'.reg[n])
  {
  }

  lemma SweepMovesFate(s: State, s': State, r: nat, n: Serial)
    requires Inv(s) && Swept(s, s', r) && n in s.reg
    ensures n in s'.reg && FateMoves(s.reg[n], s'.reg[n])
  {
    SweepVisits(s, s', r);
  }

  lemma NextMovesFate(s: State, s': State, n: Serial)
    requires Inv(s) && Next(s, s') && n in s.reg
    ensures n in s'.reg && FateMoves(s.reg[n], s'.reg[n])
  {
    var a :| Step(s, s', a);
    if Starts(s, s', a) { StartKeepsReg(s, s', a); }
    else if Registers(s, s', a) { RegisterMovesFate(s, s', a, n); }
    else if Leaves(s, s', a) { LeaveMovesFate(s, s', a, n); }
    else if Responds(s, s', a) { RespondMovesFate(s, s', a, n); }
    else { CleanupMovesFate(s, s', a, n); }
  }

  lemma RegisterMovesFate(s: State, s': State, a: Action, n: Serial)
    requires Inv(s) && Registers(s, s', a) && n in s.reg
    ensures n in s'.reg && FateMoves(s.reg[n], s'.reg[n])
  {
    if a.AAdd? { AddKeepsFates(s, s', a.t, n); }
  }

  lemma LeaveMovesFate(s: State, s': State, a: Action, n: Serial)
    requires Leaves(s, s', a) && n in s.reg
    ensures n in s'.reg && FateMoves(s.reg[n], s'.reg[n])
  {
    if a.AWithdraw? || a.AGiveUp? { DeleteMovesFate(s, s', a.t, n); } else { LeaveKeepsReg(s, s', a); }
  }

  lemma DeleteMovesFate(s: State, s': State, t: Tid, n: Serial)
    requires (Withdrew(s, s', t) || GaveUp(s, s', t)) && n in s.reg
    ensures n in s'.reg && FateMoves(s.reg[n], s'.reg[n])
  {
  }

  lemma RespondMovesFate(s: State, s': State, a: Action, n: Serial)
    requires Inv(s) && Responds(s, s', a) && n in s.reg
    ensures n in s'.reg && FateMoves(s.reg[n], s'.reg[n])
  {
    match a
    case ADeliver(k, m) => DeliverMovesFate(s, s', k, m, n);
    case ACallback(k) => CompletionMovesFate(s, s', k, n);
    case AAssign(k) =>
    case ASignal(k) => CompletionMovesFate(s, s', k, n);
  }

  lemma CleanupMovesFate(s: State, s': State, a: Action, n: Serial)
    requires Inv(s) && CleansUp(s, s', a) && n in s.reg
    ensures n in s'.reg && FateMoves(s.reg[n], s'.reg[n])
  {
    if a.ASweep? { SweepMovesFate(s, s', a.r, n); }
  }

  /** At every step of a run, a registration stays, changes as FateMoves says, and nothing else. */
  lemma RunMovesFate(run: seq<State>, strict: bool, i: nat, n: Serial)
    requires IsRun(run, strict) && i + 1 < |run| && n in run[i].reg
    ensures n in run[i + 1].reg && FateMoves(run[i].reg[n], run[i + 1].reg[n])
  {
    RunInv(run, strict, i);
    NextMovesFate(run[i], run[i + 1], n);
  }

  ghost predicate FatesMove(run: seq<State>, n: Serial) {
    forall h, k :: 0 <= h && k == h + 1 && k < |run| && n in run[h].reg
        ==> n in run[k].reg && FateMoves(run[h].reg[n], run[k].reg[n])
  }

  lemma {:induction false} FinalAlong(run: seq<State>, i: nat, j: nat, n: Serial)
    requires FatesMove(run, n) && i <= j < |run| && n in run[i].reg && !Open(run[i].reg[n].fate)
    ensures n in run[j].reg && run[j].reg[n] == run[i].reg[n]
    decreases j
  {
    if i < j { FinalAlong(run, i, j - 1, n); }
  }

  /** A request that was answered, failed, expired or withdrawn stays so: what one of the racing
      parties has decided no other ever changes. */
  lemma FateIsFinal(run: seq<State>, strict: bool, i: nat, j: nat, n: Serial)
    requires IsRun(run, strict) && i <= j < |run| && n in run[i].reg && !Open(run[i].reg[n].fate)
    ensures n in run[j].reg && run[j].reg[n] == run[i].reg[n]
  {
    assert FatesMove(run, n) by {
      forall h, k | 0 <= h && k == h + 1 && k < |run| && n in run[h].reg
        ensures n in run[k].reg && FateMoves(run[h].reg[n], run[k].reg[n])
      {
        RunMovesFate(run, strict, h, n);
      }
    }
    FinalAlong(run, i, j, n);
  }

  // ---- Conservation ----

  lemma {:induction false} IdsOf(a: set<Serial>)
    requires forall m, n :: m in a && n in a && RidOf(m) == RidOf(n) ==> m == n
    ensures |set n | n in a :: RidOf(n)| == |a|
  {
    if a != {} {
      var m :| m in a;
      IdsOf(a - {m});
      var ids := set n | n in a - {m} :: RidOf(n);
      assert RidOf(m) !in ids;
      assert (set n | n in a :: RidOf(n)) == ids + {RidOf(m)};
    } else {
      assert (set n | n in a :: RidOf(n)) == {};
    }
  }

  /** Outside a cleanup, the table is the pending registrations: as many entries, each under the id of
      its own request and holding its own context.  Every other registration has left it. */
  lemma TableIsPending(run: seq<State>, strict: bool, i: nat)
    requires IsRun(run, strict) && i < |run| && run[i].lock.Free?
    ensures var s := run[i];
            && s.table.Keys == (set n | n in PendingOf(s) :: RidOf(n))
            && |s.table| == |PendingOf(s)|
            && forall n :: n in PendingOf(s) ==> RidOf(n) in s.table && s.table[RidOf(n)] == s.reg[n].ctx
  {
    var s := run[i];
    RunInv(run, strict, i);
    PendingIds(s);
    IdsOf(PendingOf(s));
    assert |s.table| == |s.table.Keys|;
  }

  lemma PendingIds(s: State)
    requires Regs(s) && Entries(s) && s.lock.Free?
    ensures s.table.Keys == (set n | n in PendingOf(s) :: RidOf(n))
    ensures forall n :: n in PendingOf(s) ==> RidOf(n) in s.table && s.table[RidOf(n)] == s.reg[n].ctx
    ensures forall m, n :: m in PendingOf(s) && n in PendingOf(s) && RidOf(m) == RidOf(n) ==> m == n
  {
    forall n | n in PendingOf(s)
      ensures RidOf(n) in s.table && s.table[RidOf(n)] == s.reg[n].ctx && s.reg[n].ctx in s.ctxs
              && s.ctxs[s.reg[n].ctx].serial == Some(n)
    {
      assert RegOk(s, n);
    }
    forall r | r in s.table ensures exists n :: n in PendingOf(s) && RidOf(n) == r {
      assert EntryOk(s, r);
      assert s.ctxs[s.table[r]].serial.value in PendingOf(s);
    }
  }

  // ---- Cleanup ----

  /** The lock is held by one cleanup from i to j. */
  ghost predicate OneCleanup(run: seq<State>, i: nat, j: nat, e: ErrorId) {
    && 0 < i <= j < |run| && run[i - 1].lock.Free? && SweepBegins(run[i - 1], run[i], e)
    && forall h :: i <= h <= j ==> run[h].lock.Sweeping?
  }

  lemma LockStays(s: State, s': State)
    requires Next(s, s') && s.lock.Sweeping? && s'.lock.Sweeping?
    ensures s'.lock.error == s.lock.error && s'.lock.began == s.lock.began
  {
    var a :| Step(s, s', a);
    if Starts(s, s', a) { StartKeepsReg(s, s', a); }
    else if Registers(s, s', a) { RegisterKeepsLock(s, s', a); }
    else if Leaves(s, s', a) { LeaveKeepsLock(s, s', a); }
    else if Responds(s, s', a) { RespondKeepsLock(s, s', a); }
    else { CleanupKeepsRecord(s, s', a); }
  }

  lemma CleanupKeepsRecord(s: State, s': State, a: Action)
    requires CleansUp(s, s', a) && s.lock.Sweeping? && s'.lock.Sweeping?
    ensures s'.lock.error == s.lock.error && s'.lock.began == s.lock.began
  {
  }

  lemma BeginRecords(s: State, s': State, e: ErrorId)
    requires SweepBegins(s, s', e)
    ensures s'.lock.error == e && s'.lock.began == PendingOf(s)
  {
  }

  ghost predicate RecordStays(run: seq<State>, i: nat, j: nat) {
    forall h, k :: i <= h && k == h + 1 && k <= j < |run| && run[h].lock.Sweeping? && run[k].lock.Sweeping? ==>
      run[k].lock.error == run[h].lock.error && run[k].lock.began == run[h].lock.began
  }

  lemma {:induction false} RecordAlong(run: seq<State>, i: nat, j: nat)
    requires i <= j < |run| && RecordStays(run, i, j) && forall h :: i <= h <= j ==> run[h].lock.Sweeping?
    ensures run[j].lock.error == run[i].lock.error && run[j].lock.began == run[i].lock.began
    decreases j
  {
    if i < j { RecordAlong(run, i, j - 1); }
  }

  lemma CleanupRemembers(run: seq<State>, strict: bool, i: nat, j: nat)
    requires IsRun(run, strict) && i <= j < |run| && forall h :: i <= h <= j ==> run[h].lock.Sweeping?
    ensures run[j].lock.error == run[i].lock.error && run[j].lock.began == run[i].lock.began
  {
    assert RecordStays(run, i, j) by {
      forall h, k | i <= h && k == h + 1 && k <= j < |run| && run[h].lock.Sweeping? && run[k].lock.Sweeping?
        ensures run[k].lock.error == run[h].lock.error && run[k].lock.began == run[h].lock.began
      {
        LockStays(run[h], run[k]);
      }
    }
    RecordAlong(run, i, j);
  }

  /** When a cleanup ends, the table is empty and every request that was pending when it began has
      been completed once, with the cleanup's error. */
  lemma CleanupFailsAllPending(run: seq<State>, strict: bool, i: nat, j: nat, e: ErrorId)
    requires IsRun(run, strict) && OneCleanup(run, i, j, e) && j + 1 < |run| && SweepEnds(run[j], run[j + 1])
    ensures run[j + 1].table == map[] && PendingOf(run[j + 1]) == {}
    ensures var s, s' := run[i - 1], run[j + 1];
            forall n :: n in PendingOf(s) ==> n in s'.reg && s'.reg[n].fate == Failed(e) && s'.reg[n].done == 1
  {
    BeginRecords(run[i - 1], run[i], e);
    CleanupRemembers(run, strict, i, j);
    RunInv(run, strict, j);
    SweptAll(run[j], run[j + 1]);
  }

  lemma SweptAll(s: State, s': State)
    requires Regs(s) && SweptOk(s) && SweepEnds(s, s')
    ensures PendingOf(s') == {}
    ensures forall n :: n in s.lock.began
              ==> n in s'.reg && s'.reg[n].fate == Failed(s.lock.error) && s'.reg[n].done == 1
  {
    forall n | n in s.reg ensures !s.reg[n].fate.Pending? { assert RegOk(s, n); }
    forall n | n in s.lock.began
      ensures n in s.reg && s.reg[n].fate == Failed(s.lock.error) && s.reg[n].done == 1
    {
      assert RegOk(s, n);
    }
  }

  // ---- Ids of ClientConnBOLT ----

  /** In strict mode no id is used twice in a whole run, and after 2^32 - 1 ids every call that asks
      for one is refused. */
  lemma IdsNeverReused(run: seq<State>, i: nat, m: Serial, n: Serial)
    requires IsRun(run, true) && i < |run| && m in run[i].reg && n in run[i].reg
    requires m % 0x1_0000_0000 == n % 0x1_0000_0000
    ensures m == n
  {
    RunInv(run, true, i);
    assert RegOk(run[i], m) && RegOk(run[i], n);
  }

  /** The serial a call is given is above every serial given before, in either mode. */
  lemma SerialsIncrease(run: seq<State>, strict: bool, i: nat, t: Tid)
    requires IsRun(run, strict) && i + 1 < |run| && Issued(run[i], run[i + 1], t) && run[i + 1].calls[t].serial.Some?
    ensures var s, m := run[i], run[i + 1].calls[t].serial.value;
            && (forall u :: u in s.calls && s.calls[u].serial.Some? ==> s.calls[u].serial.value < m)
            && (forall n :: n in s.reg ==> n < m)
  {
    var s := run[i];
    RunInv(run, strict, i);
    assert CallOk(s, s.calls[t]);
    forall u | u in s.calls && s.calls[u].serial.Some? ensures s.calls[u].serial.value <= s.issued {
      assert CallOk(s, s.calls[u]);
    }
    forall n | n in s.reg ensures n <= s.issued { assert RegOk(s, n); }
  }

  lemma RefusedWhenOut(run: seq<State>, i: nat, s': State, t: Tid)
    requires IsRun(run, true) && i < |run| && Issued(run[i], s', t)
    ensures run[i].issued >= 0xFFFF_FFFF <==> s'.calls[t].pc == Finish(Refused)
  {
    RunInv(run, true, i);
  }
}
