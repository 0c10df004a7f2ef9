/** The pending-request protocol of Client, and of its sibling ClientConnBOLT, as a machine of
    atomic steps: callers, goroutines that deliver responses, timeouts and the cleanup after a read
    error race for one table of contexts, and contexts are recycled through a pool.

    A serial is the unbounded value of the request counter; the request id on the wire is its low
    32 bits.  In strict mode, that of ClientConnBOLT, a serial past 32 bits is refused instead.  The
    record of every registration, reg, is a history variable: no step looks at it. */
module PendingMachine {
  import opened Wrappers

  type CtxId = nat
  type Tid = nat
  type Serial = nat
  type ErrorId = nat

  const IDS := 0x1_0000_0000

  function RidOf(n: Serial): nat { n % IDS }

  /** A response; serial says which request it answers. */
  datatype Response = Response(serial: Serial)

  /** What travels through errCh. */
  datatype Message = NoError | Failure(error: ErrorId)

  /** A pooled context.  buf is the one place of its error channel; a callback context has no
      channel.  serial is the request it was last used for. */
  datatype Ctx = Ctx(callback: bool, buf: Option<Message>, ires: Response, serial: Option<Serial>)

  datatype Reply =
    | Answer(response: Response)   // nil, with a response copied to the caller
    | Sent                         // nil, for a one-way request or a callback
    | Refused                      // closed, not a request, not encodable, or out of ids
    | ReadError(error: ErrorId)
    | WriteError
    | TimedOut

  datatype PC =
    | Check                        // about to look whether the client was closed
    | CheckError                   // about to look for a read error and at the request's type
    | Issue
    | Encode
    | Add
    | Write
    | Withdraw(result: Reply)     // write failed or one-way: about to delete the entry
    | Wait
    | GiveUp                       // the timer fired: about to delete the entry
    | Copy
    | Finish(result: Reply)       // about to release the context, unless it timed out
    | Done(result: Reply)

  datatype Call = Call(callback: bool, oneWay: bool, timed: bool, ctx: CtxId, serial: Option<Serial>, pc: PC)

  /** A goroutine that has taken a context out of the table, before and after AssignResponse. */
  datatype Taker = Taker(ctx: CtxId, response: Response, filled: bool)

  /** The table's lock: held over several steps only by the cleanup.  todo are the entries it has
      not visited, began the serials that were pending when it took the lock. */
  datatype Lock = Free | Sweeping(error: ErrorId, todo: set<nat>, began: set<Serial>)

  datatype Fate = Pending | Taken(k: Tid) | Answered | Failed(error: ErrorId) | Expired | Withdrawn

  /** One registration: its context, how it left the table, how often it was completed. */
  datatype Reg = Reg(ctx: CtxId, fate: Fate, done: nat)

  datatype State = State(
    strict: bool,
    issued: Serial,
    table: map<nat, CtxId>,
    lock: Lock,
    ctxs: map<CtxId, Ctx>,
    nextCtx: CtxId,
    pool: set<CtxId>,
    calls: map<Tid, Call>,
    takers: map<Tid, Taker>,
    closed: bool,
    readError: Option<ErrorId>,
    answerable: set<Serial>,     // two-way requests whose write succeeded
    reg: map<Serial, Reg>)

  function Initial(strict: bool): State {
    State(strict, 0, map[], Free, map[], 0, {}, map[], map[], false, None, {}, map[])
  }

  // ---- The environment ----

  /** Fewer than 2^32 ids are spanned by what is in flight: every registered entry and every call
      that has its id but no result is younger than 2^32 ids when another id is issued. */
  ghost predicate Spanned(s: State) {
    && (forall n :: n in s.reg && s.reg[n].fate.Pending? ==> s.issued + 1 < n + IDS)
    && (forall t :: t in s.calls && !s.calls[t].pc.Done? && s.calls[t].serial.Some? ==>
          s.issued + 1 < s.calls[t].serial.value + IDS)
  }

  // ---- Steps ----

  function Jump(s: State, t: Tid, pc: PC): State
    requires t in s.calls
  {
    s.(calls := s.calls[t := s.calls[t].(pc := pc)])
  }

  function SetFate(s: State, n: Serial, f: Fate): State
    requires n in s.reg
  {
    s.(reg := s.reg[n := s.reg[n].(fate := f)])
  }

  function SetCtx(s: State, x: CtxId, c: Ctx): State {
    s.(ctxs := s.ctxs[x := c])
  }

  predicate At(s: State, t: Tid, pc: PC) {
    t in s.calls && s.calls[t].pc == pc
  }

  function CtxOf(s: State, t: Tid): Ctx
    requires t in s.calls && s.calls[t].ctx in s.ctxs
  {
    s.ctxs[s.calls[t].ctx]
  }

  predicate Idle(s: State, t: Tid) {
    t in s.calls ==> s.calls[t].pc.Done?
  }

  /** DoTimeout: a recycled context; its channel is replaced if something is left in it. */
  predicate Recycle(s: State, s': State, t: Tid, x: CtxId, oneWay: bool, timed: bool) {
    && Idle(s, t) && x in s.pool && x in s.ctxs
    && s' == s.(pool := s.pool - {x}, ctxs := s.ctxs[x := s.ctxs[x].(buf := None, serial := None)],
                calls := s.calls[t := Call(false, oneWay, timed, x, None, Check)])
  }

  /** A new context: by DoTimeout when the pool gives none, by DoCallbackTimeout always. */
  predicate Allocate(s: State, s': State, t: Tid, callback: bool, oneWay: bool, timed: bool) {
    && Idle(s, t) && (callback ==> !timed)
    && s' == s.(nextCtx := s.nextCtx + 1,
                ctxs := s.ctxs[s.nextCtx := Ctx(callback, None, Response(0), None)],
                calls := s.calls[t := Call(callback, oneWay, timed, s.nextCtx, None, Check)])
  }

  /** The pool may drop what it holds. */
  predicate Drop(s: State, s': State, x: CtxId) {
    x in s.pool && s' == s.(pool := s.pool - {x})
  }

  predicate Checked(s: State, s': State, t: Tid) {
    At(s, t, Check) && s' == Jump(s, t, if s.closed then Finish(Refused) else CheckError)
  }

  predicate Admitted(s: State, s': State, t: Tid, isRequest: bool) {
    && At(s, t, CheckError)
    && s' == Jump(s, t,
                  if s.readError.Some? then Finish(ReadError(s.readError.value))
                  else if !isRequest then Finish(Refused)
                  else Issue)
  }

  ghost predicate Issued(s: State, s': State, t: Tid) {
    && (s.strict || Spanned(s))
    && if s.strict && s.issued + 1 >= IDS then RanOut(s, s', t) else Counted(s, s', t)
  }

  predicate RanOut(s: State, s': State, t: Tid) {
    At(s, t, Issue) && s' == Jump(s.(issued := s.issued + 1), t, Finish(Refused))
  }

  predicate Counted(s: State, s': State, t: Tid) {
    && At(s, t, Issue) && s.calls[t].ctx in s.ctxs
    && var n := s.issued + 1;
    && s' == s.(issued := n, ctxs := s.ctxs[s.calls[t].ctx := CtxOf(s, t).(serial := Some(n))],
                calls := s.calls[t := s.calls[t].(serial := Some(n), pc := Encode)])
  }

  predicate Encoded(s: State, s': State, t: Tid, ok: bool) {
    At(s, t, Encode) && s' == Jump(s, t, if ok then Add else Finish(Refused))
  }

  predicate Added(s: State, s': State, t: Tid) {
    && At(s, t, Add) && s.lock.Free? && s.calls[t].serial.Some?
    && var n, x := s.calls[t].serial.value, s.calls[t].ctx;
    && s' == Jump(s.(table := s.table[RidOf(n) := x], reg := s.reg[n := Reg(x, Pending, 0)]), t, Write)
  }

  /** The write: the peer may answer from the moment a two-way write has succeeded, and never
      answers any other request. */
  predicate Wrote(s: State, s': State, t: Tid, ok: bool) {
    && At(s, t, Write) && s.calls[t].serial.Some?
    && var c := s.calls[t];
    && s' == if !ok then Jump(s, t, Withdraw(WriteError))
             else if c.oneWay then Jump(s, t, Withdraw(Sent))
             else Jump(s.(answerable := s.answerable + {c.serial.value}), t, if c.callback then Finish(Sent) else Wait)
  }

  /** delRequestContext: the entry goes, if it is still there. */
  function Delete(s: State, n: Serial, f: Fate): State {
    var s1 := s.(table := s.table - {RidOf(n)});
    if n in s.reg && s.reg[n].fate.Pending? then SetFate(s1, n, f) else s1
  }

  predicate Withdrew(s: State, s': State, t: Tid) {
    && t in s.calls && s.calls[t].pc.Withdraw? && s.lock.Free? && s.calls[t].serial.Some?
    && s' == Jump(Delete(s, s.calls[t].serial.value, Withdrawn), t, Finish(s.calls[t].pc.result))
  }

  predicate Received(s: State, s': State, t: Tid) {
    && At(s, t, Wait) && s.calls[t].ctx in s.ctxs && CtxOf(s, t).buf.Some?
    && s' == Jump(SetCtx(s, s.calls[t].ctx, CtxOf(s, t).(buf := None)), t,
                  match CtxOf(s, t).buf.value
                  case NoError => Copy
                  case Failure(e) => Finish(ReadError(e)))
  }

  predicate Fired(s: State, s': State, t: Tid) {
    At(s, t, Wait) && s.calls[t].timed && s' == Jump(s, t, GiveUp)
  }

  predicate GaveUp(s: State, s': State, t: Tid) {
    && At(s, t, GiveUp) && s.lock.Free? && s.calls[t].serial.Some?
    && s' == Jump(Delete(s, s.calls[t].serial.value, Expired), t, Finish(TimedOut))
  }

  predicate Copied(s: State, s': State, t: Tid) {
    && At(s, t, Copy) && s.calls[t].ctx in s.ctxs
    && s' == Jump(s, t, Finish(Answer(CtxOf(s, t).ires)))
  }

  /** Back to the pool, unless the call timed out or has a callback. */
  predicate Finished(s: State, s': State, t: Tid) {
    && t in s.calls && s.calls[t].pc.Finish?
    && var c := s.calls[t];
    && var s1 := Jump(s, t, Done(c.pc.result));
    && s' == if c.callback || c.pc.result.TimedOut? then s1 else s1.(pool := s1.pool + {c.ctx})
  }

  /** What the peer keeps to: of what it sends under an id in the table, all are answers to two-way
      requests whose write succeeded, no more than 2^32 ids old.  It may repeat an answer, and send
      anything under an id that is not in the table. */
  predicate Delivered(s: State, s': State, k: Tid, n: Serial) {
    (RidOf(n) in s.table ==> n in s.answerable && (s.strict || s.issued < n + IDS)) && Fetched(s, s', k, n)
  }

  /** getAndDelRequestContext for a response to request n. */

  predicate Fetched(s: State, s': State, k: Tid, n: Serial) {
    && s.lock.Free? && k !in s.takers
    && if RidOf(n) !in s.table || s.table[RidOf(n)] !in s.ctxs then s' == s
       else
         var x := s.table[RidOf(n)];
         var s1 := s.(table := s.table - {RidOf(n)}, takers := s.takers[k := Taker(x, Response(n), false)]);
         var m := s.ctxs[x].serial;
         s' == if m.Some? && m.value in s.reg then SetFate(s1, m.value, Taken(k)) else s1
  }

  function Complete(s: State, x: CtxId, f: Fate): State
    requires x in s.ctxs
  {
    var m := s.ctxs[x].serial;
    if m.Some? && m.value in s.reg then s.(reg := s.reg[m.value := Reg(s.reg[m.value].ctx, f, s.reg[m.value].done + 1)])
    else s
  }

  predicate CalledBack(s: State, s': State, k: Tid) {
    && k in s.takers && s.takers[k].ctx in s.ctxs && s.ctxs[s.takers[k].ctx].callback
    && s' == Complete(s, s.takers[k].ctx, Answered).(takers := s.takers - {k})
  }

  predicate Assigned(s: State, s': State, k: Tid) {
    && k in s.takers && s.takers[k].ctx in s.ctxs && !s.takers[k].filled
    && var x := s.takers[k].ctx;
    && !s.ctxs[x].callback
    && s' == SetCtx(s, x, s.ctxs[x].(ires := s.takers[k].response))
             .(takers := s.takers[k := s.takers[k].(filled := true)])
  }

  /** i.errCh <- nil: not enabled while the channel is full. */
  predicate Signalled(s: State, s': State, k: Tid) {
    && k in s.takers && s.takers[k].ctx in s.ctxs && s.takers[k].filled
    && var x := s.takers[k].ctx;
    && s.ctxs[x].buf.None?
    && s' == SetCtx(Complete(s, x, Answered), x, s.ctxs[x].(buf := Some(NoError))).(takers := s.takers - {k})
  }

  predicate Swept(s: State, s': State, r: nat) {
    && s.lock.Sweeping? && r in s.lock.todo && r in s.table && s.table[r] in s.ctxs
    && var x := s.table[r];
    && var s1 := s.(lock := s.lock.(todo := s.lock.todo - {r}));
    && s' == if s.ctxs[x].callback then Complete(s1, x, Failed(s.lock.error))
             else if s.ctxs[x].buf.None? then
               SetCtx(Complete(s1, x, Failed(s.lock.error)), x, s.ctxs[x].(buf := Some(Failure(s.lock.error))))
             else s1
  }

  ghost function PendingOf(s: State): set<Serial> { set n | n in s.reg && s.reg[n].fate.Pending? }

  ghost predicate SweepBegins(s: State, s': State, e: ErrorId) {
    && s.lock.Free?
    && s' == s.(lock := Sweeping(e, s.table.Keys, PendingOf(s)))
  }

  predicate SweepEnds(s: State, s': State) {
    s.lock.Sweeping? && s.lock.todo == {} && s' == s.(lock := Free, table := map[])
  }

  /** Close, and the read error that doread leaves behind. */
  predicate Closes(s: State, s': State, e: Option<ErrorId>) {
    s' == s.(closed := true, readError := if e.Some? then e else s.readError)
  }

  datatype Action =
    | ARecycle(t: Tid, x: CtxId, oneWay: bool, timed: bool)
    | AAllocate(t: Tid, callback: bool, oneWay: bool, timed: bool)
    | ADrop(x: CtxId)
    | ACheck(t: Tid)
    | AAdmit(t: Tid, isRequest: bool)
    | AIssue(t: Tid)
    | AEncode(t: Tid, ok: bool)
    | AAdd(t: Tid)
    | AWrite(t: Tid, ok: bool)
    | AWithdraw(t: Tid)
    | AReceive(t: Tid)
    | AFire(t: Tid)
    | AGiveUp(t: Tid)
    | ACopy(t: Tid)
    | AFinish(t: Tid)
    | ADeliver(k: Tid, n: Serial)
    | ACallback(k: Tid)
    | AAssign(k: Tid)
    | ASignal(k: Tid)
    | ABegin(e: ErrorId)
    | ASweep(r: nat)
    | AEnd
    | AClose(left: Option<ErrorId>)

  predicate Starts(s: State, s': State, a: Action) {
    match a
    case ARecycle(t, x, oneWay, timed) => Recycle(s, s', t, x, oneWay, timed)
    case AAllocate(t, callback, oneWay, timed) => Allocate(s, s', t, callback, oneWay, timed)
    case ADrop(x) => Drop(s, s', x)
    case ACheck(t) => Checked(s, s', t)
    case AAdmit(t, isRequest) => Admitted(s, s', t, isRequest)
    case AClose(left) => Closes(s, s', left)
    case _ => false
  }

  ghost predicate Registers(s: State, s': State, a: Action) {
    match a
    case AIssue(t) => Issued(s, s', t)
    case AEncode(t, ok) => Encoded(s, s', t, ok)
    case AAdd(t) => Added(s, s', t)
    case AWrite(t, ok) => Wrote(s, s', t, ok)
    case _ => false
  }

  predicate Leaves(s: State, s': State, a: Action) {
    match a
    case AWithdraw(t) => Withdrew(s, s', t)
    case AReceive(t) => Received(s, s', t)
    case AFire(t) => Fired(s, s', t)
    case AGiveUp(t) => GaveUp(s, s', t)
    case ACopy(t) => Copied(s, s', t)
    case AFinish(t) => Finished(s, s', t)
    case _ => false
  }

  predicate Responds(s: State, s': State, a: Action) {
    match a
    case ADeliver(k, n) => Delivered(s, s', k, n)
    case ACallback(k) => CalledBack(s, s', k)
    case AAssign(k) => Assigned(s, s', k)
    case ASignal(k) => Signalled(s, s', k)
    case _ => false
  }

  ghost predicate CleansUp(s: State, s': State, a: Action) {
    match a
    case ABegin(e) => SweepBegins(s, s', e)
    case ASweep(r) => Swept(s, s', r)
    case AEnd => SweepEnds(s, s')
    case _ => false
  }

  ghost predicate Step(s: State, s': State, a: Action) {
    Starts(s, s', a) || Registers(s, s', a) || Leaves(s, s', a) || Responds(s, s', a) || CleansUp(s, s', a)
  }

  ghost predicate Next(s: State, s': State) {
    exists a :: Step(s, s', a)
  }

  ghost predicate IsRun(run: seq<State>, strict: bool) {
    && |run| > 0 && run[0] == Initial(strict)
    && forall i, j :: 0 <= i && j == i + 1 && j < |run| ==> Next(run[i], run[j])
  }
}
