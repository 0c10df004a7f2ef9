/** What a call's result says about the call: over every run with the steps taken, each result has one
    reason, and each reason that occurs gives its result. */
module PendingCalls {
  import opened Wrappers
  import opened PendingMachine
  import opened PendingProof
  import opened PendingTheorems

  // ---- Runs with their steps ----

  ghost predicate IsTrace(run: seq<State>, acts: seq<Action>, strict: bool) {
    |run| == |acts| + 1 && run[0] == Initial(strict) && Steps(run, acts)
  }

  lemma TraceIsRun(run: seq<State>, acts: seq<Action>, strict: bool)
    requires IsTrace(run, acts, strict)
    ensures IsRun(run, strict)
  {
    forall i, j | 0 <= i && j == i + 1 && j < |run| ensures Next(run[i], run[j]) {
      assert Step(run[i], run[j], acts[i]);
    }
  }

  ghost predicate Steps(run: seq<State>, acts: seq<Action>) {
    |acts| < |run| && forall i, j :: 0 <= i < |acts| && j == i + 1 ==> Step(run[i], run[j], acts[i])
  }

  lemma StepsPush(run: seq<State>, acts: seq<Action>, a: Action, i: nat, j: nat)
    requires Steps(run, acts) && i == |acts| && j == i + 1 < |run| && Step(run[i], run[j], a)
    ensures Steps(run, acts + [a])
  {
    var more := acts + [a];
    forall h, k | 0 <= h < |more| && k == h + 1 ensures Step(run[h], run[k], more[h]) {
      if h < i { assert Step(run[h], run[k], acts[h]); }
    }
  }

  lemma RunHasTrace(run: seq<State>, strict: bool) returns (acts: seq<Action>)
    requires IsRun(run, strict)
    ensures IsTrace(run, acts, strict)
  {
    acts := [];
    while |acts| < |run| - 1
      invariant Steps(run, acts)
    {
      var i, j := |acts|, |acts| + 1;
      assert Next(run[i], run[j]);
      var a := StepTaken(run[i], run[j]);
      StepsPush(run, acts, a, i, j);
      acts := acts + [a];
    }
  }

  lemma StepTaken(s: State, s': State) returns (a: Action)
    requires Next(s, s')
    ensures Step(s, s', a)
  {
    a :| Step(s, s', a);
  }

  /** A call of thread t begins. */
  predicate Begins(a: Action, t: Tid) {
    (a.ARecycle? && a.t == t) || (a.AAllocate? && a.t == t)
  }

  /** The step is one of thread t's own. */
  predicate By(a: Action, t: Tid) {
    match a
    case ARecycle(u, _, _, _) => u == t
    case AAllocate(u, _, _, _) => u == t
    case ACheck(u) => u == t
    case AAdmit(u, _) => u == t
    case AIssue(u) => u == t
    case AEncode(u, _) => u == t
    case AAdd(u) => u == t
    case AWrite(u, _) => u == t
    case AWithdraw(u) => u == t
    case AReceive(u) => u == t
    case AFire(u) => u == t
    case AGiveUp(u) => u == t
    case ACopy(u) => u == t
    case AFinish(u) => u == t
    case _ => false
  }

  // ---- Reasons ----

  /** What a message tells the call that has number n. */
  function Told(m: Message, n: Serial): Reply {
    match m
    case NoError => Answer(Response(n))
    case Failure(e) => ReadError(e)
  }

  /** Step a, taken in s, is the reason for the call of thread t to answer r: the client was closed or had
      a read error, it is no request, the ids were used up, it could not be encoded or written, it needs no
      answer, its channel has a message, or its timer fired. */
  predicate Decides(s: State, a: Action, t: Tid, r: Reply) {
    && By(a, t) && t in s.calls
    && var c := s.calls[t];
       match a
       case ACheck(_) => s.closed && r == Refused
       case AAdmit(_, isRequest) =>
         if s.readError.Some? then r == ReadError(s.readError.value) else !isRequest && r == Refused
       case AIssue(_) => s.strict && s.issued >= 0xFFFF_FFFF && r == Refused
       case AEncode(_, ok) => !ok && r == Refused
       case AWrite(_, ok) => if ok then (c.oneWay || c.callback) && r == Sent else r == WriteError
       case AReceive(_) =>
         && c.ctx in s.ctxs && s.ctxs[c.ctx].buf.Some? && c.serial.Some?
         && r == Told(s.ctxs[c.ctx].buf.value, c.serial.value)
       case AFire(_) => r == TimedOut
       case _ => false
  }

  /** The result a call is bound to, once there is one. */
  function Bound(c: Call): Option<Reply> {
    match c.pc
    case Withdraw(r) => Some(r)
    case Finish(r) => Some(r)
    case Done(r) => Some(r)
    case GiveUp => Some(TimedOut)
    case Copy => if c.serial.Some? then Some(Answer(Response(c.serial.value))) else None
    case _ => None
  }

  /** What the caller asked for: a callback, no answer, a timeout. */
  function Asked(c: Call): (bool, bool, bool) { (c.callback, c.oneWay, c.timed) }

  /** A step of a call that is bound keeps it so, with its number; one of a call that is not binds it exactly
      when it is a reason. */
  ghost predicate Binds(s: State, s': State, a: Action, t: Tid)
    requires t in s.calls
  {
    && t in s'.calls && Asked(s'.calls[t]) == Asked(s.calls[t])
    && (if Bound(s.calls[t]).Some? then
          Bound(s'.calls[t]) == Bound(s.calls[t]) && s'.calls[t].serial == s.calls[t].serial
          && forall r :: !Decides(s, a, t, r)
        else forall r :: Bound(s'.calls[t]) == Some(r) <==> Decides(s, a, t, r))
  }

  /** What a step leaves alone: all calls but the one that takes it, and that the client is closed. */
  ghost predicate Untouched(s: State, s': State, a: Action) {
    && (forall t :: (By(a, t) ==> t in s'.calls) && (!By(a, t) ==>
          (t in s'.calls <==> t in s.calls) && (t in s.calls ==> s'.calls[t] == s.calls[t])))
    && (s.closed ==> s'.closed) && (s.readError.Some? ==> s'.readError.Some?)
  }

  /** One call moves, or begins, and nothing is opened again. */
  predicate OneMoves(s: State, s': State, t: Tid) {
    t in s'.calls && s'.calls == s.calls[t := s'.calls[t]] && s'.closed == s.closed && s'.readError == s.readError
  }

  lemma StartLeaves(s: State, s': State, a: Action)
    requires Starts(s, s', a)
    ensures Untouched(s, s', a)
  {
  }

  lemma IssueLeaves(s: State, s': State, t: Tid)
    requires RanOut(s, s', t) || Counted(s, s', t)
    ensures OneMoves(s, s', t)
  {
  }

  lemma AddLeaves(s: State, s': State, t: Tid)
    requires Added(s, s', t)
    ensures OneMoves(s, s', t)
  {
  }

  lemma WriteLeaves(s: State, s': State, t: Tid, ok: bool)
    requires Wrote(s, s', t, ok)
    ensures OneMoves(s, s', t)
  {
  }

  lemma RegisterLeaves(s: State, s': State, a: Action)
    requires Registers(s, s', a)
    ensures Untouched(s, s', a)
  {
    match a
    case AIssue(t) => IssueLeaves(s, s', t);
    case AEncode(t, ok) =>
    case AAdd(t) => AddLeaves(s, s', t);
    case AWrite(t, ok) => WriteLeaves(s, s', t, ok);
  }

  lemma DeleteLeaves(s: State, s': State, t: Tid)
    requires Withdrew(s, s', t) || GaveUp(s, s', t)
    ensures OneMoves(s, s', t)
  {
  }

  lemma LeaveLeaves(s: State, s': State, a: Action)
    requires Leaves(s, s', a)
    ensures Untouched(s, s', a)
  {
    if a.AWithdraw? || a.AGiveUp? { DeleteLeaves(s, s', a.t); } else { assert OneMoves(s, s', a.t); }
  }

  lemma RespondLeaves(s: State, s': State, a: Action)
    requires Responds(s, s', a)
    ensures Untouched(s, s', a)
  {
    assert s'.calls == s.calls && s'.closed == s.closed && s'.readError == s.readError;
  }

  lemma CleanupLeaves(s: State, s': State, a: Action)
    requires CleansUp(s, s', a)
    ensures Untouched(s, s', a)
  {
    assert s'.calls == s.calls && s'.closed == s.closed && s'.readError == s.readError;
  }

  lemma StepLeaves(s: State, s': State, a: Action)
    requires Step(s, s', a)
    ensures Untouched(s, s', a)
  {
    if Starts(s, s', a) { StartLeaves(s, s', a); }
    else if Registers(s, s', a) { RegisterLeaves(s, s', a); }
    else if Leaves(s, s', a) { LeaveLeaves(s, s', a); }
    else if Responds(s, s', a) { RespondLeaves(s, s', a); }
    else { CleanupLeaves(s, s', a); }
  }

  lemma StartBinds(s: State, s': State, a: Action, t: Tid)
    requires Starts(s, s', a) && By(a, t) && !Begins(a, t)
    ensures t in s.calls && Binds(s, s', a, t)
  {
  }

  lemma IssueBinds(s: State, s': State, t: Tid)
    requires Issued(s, s', t)
    ensures t in s.calls && Binds(s, s', AIssue(t), t)
  {
  }

  /** Where a write leads. */
  function Written(c: Call, ok: bool): PC {
    if !ok then Withdraw(WriteError) else if c.oneWay then Withdraw(Sent) else if c.callback then Finish(Sent) else Wait
  }

  lemma WriteIs(s: State, s': State, t: Tid, ok: bool)
    requires Wrote(s, s', t, ok)
    ensures t in s.calls && s.calls[t].pc == Write
    ensures t in s'.calls && s'.calls[t] == s.calls[t].(pc := Written(s.calls[t], ok))
  {
    WriteMoves(s, s', t, ok);
  }

  lemma WriteBinds(s: State, s': State, t: Tid, ok: bool)
    requires t in s.calls && s.calls[t].pc == Write
    requires t in s'.calls && s'.calls[t] == s.calls[t].(pc := Written(s.calls[t], ok))
    ensures Binds(s, s', AWrite(t, ok), t)
  {
  }

  lemma RegisterBinds(s: State, s': State, a: Action, t: Tid)
    requires Registers(s, s', a) && By(a, t)
    ensures t in s.calls && Binds(s, s', a, t)
  {
    if a.AIssue? { IssueBinds(s, s', t); }
    else if a.AWrite? {
      WriteIs(s, s', t, a.ok);
      WriteBinds(s, s', t, a.ok);
    }
  }

  lemma DeleteIs(s: State, s': State, a: Action, t: Tid)
    requires (a == AWithdraw(t) && Withdrew(s, s', t)) || (a == AGiveUp(t) && GaveUp(s, s', t))
    ensures t in s.calls && t in s'.calls && Bound(s.calls[t]).Some?
    ensures s'.calls[t] == s.calls[t].(pc := Finish(Bound(s.calls[t]).value))
  {
    DeleteMoves(s, s', t);
  }

  lemma DeleteBinds(s: State, s': State, a: Action, t: Tid)
    requires (a.AWithdraw? || a.AGiveUp?) && t in s.calls && t in s'.calls && Bound(s.calls[t]).Some?
    requires s'.calls[t] == s.calls[t].(pc := Finish(Bound(s.calls[t]).value))
    ensures Binds(s, s', a, t)
  {
  }

  lemma ReceiveBinds(s: State, s': State, t: Tid)
    requires Received(s, s', t) && CallOk(s, s.calls[t])
    ensures Binds(s, s', AReceive(t), t)
  {
  }

  lemma FinishBinds(s: State, s': State, t: Tid)
    requires Finished(s, s', t)
    ensures t in s.calls && Binds(s, s', AFinish(t), t)
  {
    FinishReleases(s, s', t);
  }

  lemma WaitBinds(s: State, s': State, a: Action, t: Tid)
    requires (a == AFire(t) && Fired(s, s', t)) || (a == ACopy(t) && Copied(s, s', t))
    requires t in s.calls && CallOk(s, s.calls[t])
    ensures Binds(s, s', a, t)
  {
  }

  lemma LeaveBinds(s: State, s': State, a: Action, t: Tid)
    requires Leaves(s, s', a) && By(a, t) && t in s.calls && CallOk(s, s.calls[t])
    ensures Binds(s, s', a, t)
  {
    if a.AWithdraw? || a.AGiveUp? {
      DeleteIs(s, s', a, t);
      DeleteBinds(s, s', a, t);
    } else if a.AReceive? { ReceiveBinds(s, s', t); }
    else if a.AFinish? { FinishBinds(s, s', t); }
    else { WaitBinds(s, s', a, t); }
  }

  lemma StepBinds(s: State, s': State, a: Action, t: Tid)
    requires Calls(s) && Step(s, s', a) && t in s.calls && !Begins(a, t)
    ensures Binds(s, s', a, t)
  {
    assert CallOk(s, s.calls[t]);
    if !By(a, t) { StepLeaves(s, s', a); }
    else if Starts(s, s', a) { StartBinds(s, s', a, t); }
    else if Registers(s, s', a) { RegisterBinds(s, s', a, t); }
    else { LeaveBinds(s, s', a, t); }
  }

  // ---- Whole calls ----

  /** No call of t begins after step i and before state j. */
  predicate Lasts(acts: seq<Action>, i: nat, j: nat, t: Tid) {
    forall h: nat :: i < h < j && h < |acts| ==> !Begins(acts[h], t)
  }

  ghost predicate Reason(run: seq<State>, acts: seq<Action>, i: nat, j: nat, t: Tid, r: Reply) {
    i < j <= |acts| && i < |run| && Decides(run[i], acts[i], t, r) && Lasts(acts, i, j, t)
  }

  ghost predicate HasReason(run: seq<State>, acts: seq<Action>, j: nat, t: Tid, r: Reply) {
    exists i: nat :: Reason(run, acts, i, j, t, r)
  }

  lemma ReasonNext(run: seq<State>, acts: seq<Action>, j: nat, t: Tid, r: Reply)
    requires j < |acts| < |run|
    ensures HasReason(run, acts, j + 1, t, r) <==>
              Decides(run[j], acts[j], t, r) || (HasReason(run, acts, j, t, r) && !Begins(acts[j], t))
  {
    var k := j + 1;
    if i: nat :| Reason(run, acts, i, k, t, r) {
      if i < j { assert Reason(run, acts, i, j, t, r); }
    }
    if i: nat :| Reason(run, acts, i, j, t, r) && !Begins(acts[j], t) { assert Reason(run, acts, i, k, t, r); }
    if Decides(run[j], acts[j], t, r) { assert Reason(run, acts, j, k, t, r); }
  }

  lemma BeginsUnbound(s: State, s': State, a: Action, t: Tid)
    requires Step(s, s', a) && Begins(a, t)
    ensures t in s'.calls && Bound(s'.calls[t]).None? && forall r :: !Decides(s, a, t, r)
  {
  }

  lemma NoneYet(s: State, s': State, a: Action, t: Tid)
    requires Step(s, s', a) && t !in s.calls && !Begins(a, t)
    ensures t !in s'.calls
  {
    StepLeaves(s, s', a);
    if By(a, t) { OnlyCalls(s, s', a, t); }
  }

  lemma OnlyCalls(s: State, s': State, a: Action, t: Tid)
    requires Step(s, s', a) && By(a, t) && !Begins(a, t)
    ensures t in s.calls
  {
  }

  lemma {:induction false} BoundByReason(run: seq<State>, acts: seq<Action>, strict: bool, j: nat, t: Tid, r: Reply)
    requires IsTrace(run, acts, strict) && j < |run|
    ensures HasReason(run, acts, j, t, r) <==> t in run[j].calls && Bound(run[j].calls[t]) == Some(r)
    decreases j
  {
    if j > 0 {
      var i := j - 1;
      TraceIsRun(run, acts, strict);
      RunInv(run, strict, i);
      BoundByReason(run, acts, strict, i, t, r);
      ReasonNext(run, acts, i, t, r);
      assert Step(run[i], run[j], acts[i]);
      BoundNext(run[i], run[j], acts[i], t, r);
    }
  }

  lemma BoundNext(s: State, s': State, a: Action, t: Tid, r: Reply)
    requires Calls(s) && Step(s, s', a)
    ensures (t in s'.calls && Bound(s'.calls[t]) == Some(r)) <==>
              Decides(s, a, t, r) || (t in s.calls && Bound(s.calls[t]) == Some(r) && !Begins(a, t))
  {
    if Begins(a, t) {
      BeginsUnbound(s, s', a, t);
    } else if t in s.calls {
      StepBinds(s, s', a, t);
    } else {
      NoneYet(s, s', a, t);
    }
  }

  /** A call answers r exactly when it had a reason to. */
  lemma ResultIsDecided(run: seq<State>, acts: seq<Action>, strict: bool, j: nat, t: Tid, r: Reply)
    requires IsTrace(run, acts, strict) && j < |run| && t in run[j].calls && run[j].calls[t].pc.Done?
    ensures run[j].calls[t].pc.result == r <==> HasReason(run, acts, j, t, r)
  {
    BoundByReason(run, acts, strict, j, t, r);
  }

  lemma {:induction false} SerialStays(run: seq<State>, acts: seq<Action>, strict: bool, i: nat, j: nat, t: Tid)
    requires IsTrace(run, acts, strict) && i < j < |run| && Lasts(acts, i, j, t)
    requires t in run[i + 1].calls && Bound(run[i + 1].calls[t]).Some?
    ensures t in run[j].calls && run[j].calls[t].serial == run[i + 1].calls[t].serial
    ensures Bound(run[j].calls[t]) == Bound(run[i + 1].calls[t])
    decreases j
  {
    if i + 1 < j {
      var h := j - 1;
      SerialStays(run, acts, strict, i, h, t);
      TraceIsRun(run, acts, strict);
      RunInv(run, strict, h);
      assert Step(run[h], run[j], acts[h]);
      StepBinds(run[h], run[j], acts[h], t);
    }
  }

  lemma BeginAsks(s: State, s': State, a: Action, t: Tid)
    requires Step(s, s', a) && Begins(a, t)
    ensures t in s'.calls && Asked(s'.calls[t]) == (a.AAllocate? && a.callback, a.oneWay, a.timed)
  {
  }

  /** A call is, to its end, what was asked for when it began. */
  lemma {:induction false} CallIsAsAsked(run: seq<State>, acts: seq<Action>, strict: bool, i: nat, j: nat, t: Tid)
    requires IsTrace(run, acts, strict) && i < j < |run| && Begins(acts[i], t) && Lasts(acts, i, j, t)
    ensures t in run[j].calls
    ensures Asked(run[j].calls[t]) == (acts[i].AAllocate? && acts[i].callback, acts[i].oneWay, acts[i].timed)
    decreases j
  {
    var h := j - 1;
    assert Step(run[h], run[j], acts[h]);
    if h == i {
      BeginAsks(run[i], run[j], acts[i], t);
    } else {
      CallIsAsAsked(run, acts, strict, i, h, t);
      TraceIsRun(run, acts, strict);
      RunInv(run, strict, h);
      StepBinds(run[h], run[j], acts[h], t);
    }
  }

  /** A call that finds the client closed, or a read error, answers so without ever having had a number, and
      so without ever being registered. */
  lemma RefusedUnregistered(run: seq<State>, acts: seq<Action>, strict: bool, i: nat, j: nat, t: Tid)
    requires IsTrace(run, acts, strict) && i < j < |run| && Lasts(acts, i, j, t)
    requires (acts[i] == ACheck(t) && run[i].closed) || (acts[i].AAdmit? && acts[i].t == t && run[i].readError.Some?)
    ensures t in run[j].calls && run[j].calls[t].serial.None?
    ensures run[j].calls[t].pc.Done? ==>
              run[j].calls[t].pc.result == if acts[i].ACheck? then Refused else ReadError(run[i].readError.value)
  {
    var k := i + 1;
    TraceIsRun(run, acts, strict);
    RunInv(run, strict, i);
    assert Step(run[i], run[k], acts[i]);
    CheckUnnumbered(run[i], run[k], acts[i], t);
    SerialStays(run, acts, strict, i, j, t);
  }

  lemma CheckUnnumbered(s: State, s': State, a: Action, t: Tid)
    requires Calls(s) && Step(s, s', a)
    requires (a == ACheck(t) && s.closed) || (a.AAdmit? && a.t == t && s.readError.Some?)
    ensures t in s'.calls && s'.calls[t].serial.None?
    ensures Bound(s'.calls[t]) == Some(if a.ACheck? then Refused else ReadError(s.readError.value))
  {
    assert CallOk(s, s.calls[t]);
  }

  /** Once closed, closed for good; and the read error that was left is never lost. */
  lemma {:induction false} ClosedForGood(run: seq<State>, acts: seq<Action>, strict: bool, i: nat, j: nat)
    requires IsTrace(run, acts, strict) && i < j < |run| && acts[i].AClose?
    ensures run[j].closed && (acts[i].left.Some? ==> run[j].readError.Some?)
    decreases j
  {
    var h := j - 1;
    assert Step(run[h], run[j], acts[h]);
    if h > i {
      ClosedForGood(run, acts, strict, i, h);
      CloseStays(run[h], run[j], acts[h]);
    }
  }

  lemma CloseStays(s: State, s': State, a: Action)
    requires Step(s, s', a)
    ensures s.closed ==> s'.closed
    ensures s.readError.Some? ==> s'.readError.Some?
  {
    StepLeaves(s, s', a);
  }

  // ---- Delivery ----

  /** A response that finds an entry takes it: out of the table, into the hands of the goroutine that
      delivers it.  One that finds none changes nothing. */
  lemma DeliveryTakes(run: seq<State>, strict: bool, i: nat, s': State, k: Tid, n: Serial)
    requires IsRun(run, strict) && i < |run| && Delivered(run[i], s', k, n)
    ensures var s, id := run[i], n % 0x1_0000_0000;
            if id !in s.table then s' == s
            else
              && n in s.reg && s.reg[n].fate == Pending && s.table[id] == s.reg[n].ctx
              && s' == s.(table := s.table - {id}, reg := s.reg[n := s.reg[n].(fate := Taken(k))],
                          takers := s.takers[k := Taker(s.reg[n].ctx, Response(n), false)])
  {
    RunInv(run, strict, i);
    if RidOf(n) in run[i].table { OwnEntry(run[i], n); }
  }

  /** While no cleanup has the lock, whatever response the peer may send is looked up. */
  lemma ResponseIsTaken(run: seq<State>, strict: bool, i: nat, k: Tid, n: Serial) returns (s': State)
    requires IsRun(run, strict) && i < |run| && run[i].lock.Free? && k !in run[i].takers
    requires n % 0x1_0000_0000 in run[i].table ==>
               n in run[i].answerable && (strict || run[i].issued < n + 0x1_0000_0000)
    ensures Step(run[i], s', ADeliver(k, n))
  {
    var s, id := run[i], RidOf(n);
    s' := s;
    RunInv(run, strict, i);
    if id in s.table {
      OwnEntry(s, n);
      s' := SetFate(s.(table := s.table - {id}, takers := s.takers[k := Taker(s.table[id], Response(n), false)]), n,
                    Taken(k));
    }
    assert Responds(s, s', ADeliver(k, n));
  }

  /** A cleanup begins whenever the lock is free, visits entries while some are left, and ends. */
  lemma CleanupGoesOn(run: seq<State>, strict: bool, i: nat, e: ErrorId) returns (a: Action, s': State)
    requires IsRun(run, strict) && i < |run|
    ensures Step(run[i], s', a)
    ensures var lock := run[i].lock;
            if lock.Free? then a == ABegin(e) && s'.lock == Sweeping(e, run[i].table.Keys, PendingOf(run[i]))
            else if lock.todo != {} then a.ASweep? && a.r in lock.todo && s'.lock == lock.(todo := lock.todo - {a.r})
            else a == AEnd && s'.lock.Free?
  {
    var s := run[i];
    RunInv(run, strict, i);
    if s.lock.Free? {
      a, s' := ABegin(e), s.(lock := Sweeping(e, s.table.Keys, PendingOf(s)));
      assert CleansUp(s, s', a);
    } else if s.lock.todo == {} {
      a, s' := AEnd, s.(lock := Free, table := map[]);
      assert CleansUp(s, s', a);
    } else {
      var r :| r in s.lock.todo;
      assert EntryOk(s, r);
      a := ASweep(r);
      s' := SweepStep(s, r);
    }
  }

  lemma SweepStep(s: State, r: nat) returns (s': State)
    requires s.lock.Sweeping? && r in s.lock.todo && r in s.table && s.table[r] in s.ctxs
    ensures CleansUp(s, s', ASweep(r)) && s'.lock == s.lock.(todo := s.lock.todo - {r})
  {
    var x, s1 := s.table[r], s.(lock := s.lock.(todo := s.lock.todo - {r}));
    var e := s.lock.error;
    if s.ctxs[x].callback {
      s' := Complete(s1, x, Failed(e));
    } else if s.ctxs[x].buf.None? {
      s' := SetCtx(Complete(s1, x, Failed(e)), x, s.ctxs[x].(buf := Some(Failure(e))));
    } else {
      s' := s1;
    }
  }

  /** What a goroutine does next that has taken the context of request n: it invokes the callback, or assigns
      the response, or, when it has done that, signals; and the first and the last answer the request. */
  lemma TakerGoesOn(run: seq<State>, strict: bool, i: nat, k: Tid) returns (a: Action, s': State)
    requires IsRun(run, strict) && i < |run| && k in run[i].takers
    ensures Step(run[i], s', a)
    ensures var s := run[i];
            var n, x := s.takers[k].response.serial, s.takers[k].ctx;
            && x in s.ctxs && n in s.reg && s.reg[n].fate == Taken(k) && n in s'.reg && x in s'.ctxs
            && if s.ctxs[x].callback then
                 a == ACallback(k) && k !in s'.takers && s'.reg[n].fate == Answered && s'.reg[n].done == 1
               else if !s.takers[k].filled then
                 && a == AAssign(k) && s'.ctxs[x].ires == Response(n)
                 && k in s'.takers && s'.takers[k] == s.takers[k].(filled := true)
               else
                 && a == ASignal(k) && k !in s'.takers && s'.reg[n].fate == Answered && s'.reg[n].done == 1
                 && s'.ctxs[x].buf == Some(NoError) && s'.ctxs[x].ires == Response(n)
  {
    var s := run[i];
    RunInv(run, strict, i);
    var n, x := s.takers[k].response.serial, s.takers[k].ctx;
    assert TakerOk(s, k) && RegOk(s, n);
    if s.ctxs[x].callback {
      a, s' := ACallback(k), Complete(s, x, Answered).(takers := s.takers - {k});
      assert CalledBack(s, s', k);
    } else if !s.takers[k].filled {
      a := AAssign(k);
      s' := SetCtx(s, x, s.ctxs[x].(ires := s.takers[k].response))
            .(takers := s.takers[k := s.takers[k].(filled := true)]);
      assert Assigned(s, s', k);
    } else {
      a := ASignal(k);
      s' := SetCtx(Complete(s, x, Answered), x, s.ctxs[x].(buf := Some(NoError))).(takers := s.takers - {k});
      assert Signalled(s, s', k);
    }
    assert Responds(s, s', a);
  }

  /** Whoever completes a taken request answers it, with its own response in the channel's context. */
  lemma TakerAnswers(run: seq<State>, strict: bool, i: nat, s': State, k: Tid)
    requires IsRun(run, strict) && i < |run| && (CalledBack(run[i], s', k) || Signalled(run[i], s', k))
    ensures var n := run[i].takers[k].response.serial;
            n in s'.reg && s'.reg[n] == Reg(run[i].reg[n].ctx, Answered, 1) && k !in s'.takers && n in run[i].reg
  {
    RunInv(run, strict, i);
    assert TakerOk(run[i], k) && RegOk(run[i], run[i].takers[k].response.serial);
  }

  // ---- The end of a call ----

  /** A call that ends gives its context back, unless it timed out or has a callback. */
  lemma ContextReturns(run: seq<State>, acts: seq<Action>, strict: bool, i: nat, t: Tid)
    requires IsTrace(run, acts, strict) && i < |acts| && t in run[i].calls && !run[i].calls[t].pc.Done?
    requires t in run[i + 1].calls && run[i + 1].calls[t].pc.Done?
    ensures var c, s, s' := run[i + 1].calls[t], run[i], run[i + 1];
            s'.pool == if c.callback || c.pc.result.TimedOut? then s.pool else s.pool + {c.ctx}
  {
    var k := i + 1;
    assert Step(run[i], run[k], acts[i]);
    EndsAt(run[i], run[k], acts[i], t);
  }

  lemma EndsAt(s: State, s': State, a: Action, t: Tid)
    requires Step(s, s', a) && t in s.calls && !s.calls[t].pc.Done? && t in s'.calls && s'.calls[t].pc.Done?
    ensures a == AFinish(t) && Finished(s, s', t)
  {
    StepLeaves(s, s', a);
    assert By(a, t);
    if Leaves(s, s', a) { LeaveEnds(s, s', a, t); }
    else if Registers(s, s', a) { RegisterStays(s, s', a, t); }
  }

  lemma LeaveEnds(s: State, s': State, a: Action, t: Tid)
    requires Leaves(s, s', a) && By(a, t) && t in s'.calls && s'.calls[t].pc.Done?
    ensures a == AFinish(t)
  {
  }

  lemma IssueStays(s: State, s': State, t: Tid)
    requires RanOut(s, s', t) || Counted(s, s', t)
    ensures t in s'.calls && !s'.calls[t].pc.Done?
  {
  }

  lemma RegisterStays(s: State, s': State, a: Action, t: Tid)
    requires Registers(s, s', a) && By(a, t)
    ensures t in s'.calls && !s'.calls[t].pc.Done?
  {
    if a.AIssue? { IssueStays(s, s', t); }
    else if a.AWrite? { WriteIs(s, s', t, a.ok); }
  }

  /** How far a call has come. */
  function Progress(pc: PC): nat {
    match pc
    case Check => 0
    case CheckError => 1
    case Issue => 2
    case Encode => 3
    case Add => 4
    case Write => 5
    case Withdraw(_) => 6
    case Wait => 6
    case GiveUp => 7
    case Copy => 7
    case Finish(_) => 8
    case Done(_) => 9
  }

  predicate Advances(s: State, s': State, t: Tid) {
    t in s.calls && t in s'.calls && Progress(s'.calls[t].pc) > Progress(s.calls[t].pc)
  }

  lemma IssueAdvances(s: State, s': State, t: Tid)
    requires RanOut(s, s', t) || Counted(s, s', t)
    ensures Advances(s, s', t)
  {
  }

  lemma RegisterAdvances(s: State, s': State, a: Action, t: Tid)
    requires Registers(s, s', a) && By(a, t)
    ensures Advances(s, s', t)
  {
    if a.AIssue? { IssueAdvances(s, s', t); }
    else if a.AWrite? { WriteIs(s, s', t, a.ok); }
  }

  lemma LeaveAdvances(s: State, s': State, a: Action, t: Tid)
    requires Leaves(s, s', a) && By(a, t)
    ensures Advances(s, s', t)
  {
    if a.AWithdraw? || a.AGiveUp? {
      DeleteIs(s, s', a, t);
    } else if a.AFinish? {
      FinishReleases(s, s', t);
    } else {
      LeaveMoves(s, s', a);
    }
  }

  /** No step of its own takes a call back: it makes at most nine, and every one of another thread leaves it
      where it is. */
  lemma CallAdvances(run: seq<State>, acts: seq<Action>, strict: bool, i: nat, t: Tid)
    requires IsTrace(run, acts, strict) && i < |acts| && t in run[i].calls && !Begins(acts[i], t)
    ensures if By(acts[i], t) then Advances(run[i], run[i + 1], t)
            else t in run[i + 1].calls && run[i + 1].calls[t] == run[i].calls[t]
  {
    var k, a := i + 1, acts[i];
    var s, s' := run[i], run[k];
    assert Step(s, s', a);
    StepAdvances(s, s', a, t);
  }

  lemma StepAdvances(s: State, s': State, a: Action, t: Tid)
    requires Step(s, s', a) && t in s.calls && !Begins(a, t)
    ensures if By(a, t) then Advances(s, s', t) else t in s'.calls && s'.calls[t] == s.calls[t]
  {
    if !By(a, t) { StepLeaves(s, s', a); }
    else if Registers(s, s', a) { RegisterAdvances(s, s', a, t); }
    else if Leaves(s, s', a) { LeaveAdvances(s, s', a, t); }
  }

  /** What an unfinished call may be waiting for: the lock, room in the span of ids, a message or a timer. */
  ghost predicate Held(s: State, c: Call) {
    match c.pc
    case Issue => !s.strict && !Spanned(s)
    case Add => s.lock.Sweeping?
    case Withdraw(_) => s.lock.Sweeping?
    case GiveUp => s.lock.Sweeping?
    case Wait => !c.timed && c.ctx in s.ctxs && s.ctxs[c.ctx].buf.None?
    case Done(_) => true
    case _ => false
  }

  /** Nothing else holds it up; and a call that waits gets its message when there is one, and its timeout
      whenever it has a timer. */
  lemma CallGoesOn(run: seq<State>, strict: bool, i: nat, t: Tid) returns (a: Action, s': State)
    requires IsRun(run, strict) && i < |run| && t in run[i].calls && !Held(run[i], run[i].calls[t])
    ensures By(a, t) && !Begins(a, t) && Step(run[i], s', a)
  {
    RunInv(run, strict, i);
    assert CallOk(run[i], run[i].calls[t]);
    a, s' := CallStep(run[i], t);
  }

  lemma CallStep(s: State, t: Tid) returns (a: Action, s': State)
    requires t in s.calls && CallOk(s, s.calls[t]) && !Held(s, s.calls[t])
    ensures By(a, t) && !Begins(a, t) && Step(s, s', a)
  {
    var c := s.calls[t];
    match c.pc
    case Check =>
      a, s' := ACheck(t), Jump(s, t, if s.closed then Finish(Refused) else CheckError);
      assert Starts(s, s', a);
    case CheckError =>
      a := AAdmit(t, true);
      s' := Jump(s, t, if s.readError.Some? then Finish(ReadError(s.readError.value)) else Issue);
      assert Starts(s, s', a);
    case Issue => a, s' := IssueStep(s, t);
    case Encode =>
      a, s' := AEncode(t, true), Jump(s, t, Add);
      assert Registers(s, s', a);
    case Add => a, s' := AddStep(s, t);
    case Write =>
      a, s' := AWrite(t, false), Jump(s, t, Withdraw(WriteError));
      assert Registers(s, s', a);
    case Wait => a, s' := WaitStep(s, t);
    case Withdraw(r) =>
      a, s' := AWithdraw(t), Jump(Delete(s, c.serial.value, Withdrawn), t, Finish(r));
      assert Leaves(s, s', a);
    case GiveUp =>
      a, s' := AGiveUp(t), Jump(Delete(s, c.serial.value, Expired), t, Finish(TimedOut));
      assert Leaves(s, s', a);
    case Copy =>
      a, s' := ACopy(t), Jump(s, t, Finish(Answer(CtxOf(s, t).ires)));
      assert Leaves(s, s', a);
    case Finish(r) =>
      a := AFinish(t);
      var s1 := Jump(s, t, Done(r));
      s' := if c.callback || r.TimedOut? then s1 else s1.(pool := s1.pool + {c.ctx});
      assert Leaves(s, s', a);
  }

  lemma IssueStep(s: State, t: Tid) returns (a: Action, s': State)
    requires t in s.calls && Owns(s, s.calls[t]) && s.calls[t].pc == Issue && (s.strict || Spanned(s))
    ensures a == AIssue(t) && Step(s, s', a)
  {
    a := AIssue(t);
    var n := s.issued + 1;
    if s.strict && n >= IDS {
      s' := Jump(s.(issued := n), t, Finish(Refused));
    } else {
      s' := s.(issued := n, ctxs := s.ctxs[s.calls[t].ctx := CtxOf(s, t).(serial := Some(n))],
               calls := s.calls[t := s.calls[t].(serial := Some(n), pc := Encode)]);
    }
    assert Registers(s, s', a);
  }

  lemma AddStep(s: State, t: Tid) returns (a: Action, s': State)
    requires t in s.calls && s.calls[t].pc == Add && s.lock.Free? && s.calls[t].serial.Some?
    ensures a == AAdd(t) && Step(s, s', a)
  {
    a := AAdd(t);
    var n, x := s.calls[t].serial.value, s.calls[t].ctx;
    s' := Jump(s.(table := s.table[RidOf(n) := x], reg := s.reg[n := Reg(x, Pending, 0)]), t, Write);
    assert Registers(s, s', a);
  }

  lemma WaitStep(s: State, t: Tid) returns (a: Action, s': State)
    requires t in s.calls && s.calls[t].pc == Wait && s.calls[t].ctx in s.ctxs
    requires s.calls[t].timed || s.ctxs[s.calls[t].ctx].buf.Some?
    ensures Step(s, s', a) && a == if s.calls[t].timed then AFire(t) else AReceive(t)
  {
    if s.calls[t].timed {
      a, s' := AFire(t), Jump(s, t, GiveUp);
    } else {
      a, s' := ReceiveStep(s, t);
    }
    assert Leaves(s, s', a);
  }

  lemma ReceiveStep(s: State, t: Tid) returns (a: Action, s': State)
    requires t in s.calls && s.calls[t].pc == Wait && s.calls[t].ctx in s.ctxs
    requires s.ctxs[s.calls[t].ctx].buf.Some?
    ensures a == AReceive(t) && Leaves(s, s', a)
  {
    a := AReceive(t);
    s' := Jump(SetCtx(s, s.calls[t].ctx, CtxOf(s, t).(buf := None)), t,
               match CtxOf(s, t).buf.value
               case NoError => Copy
               case Failure(e) => Finish(ReadError(e)));
  }
}
