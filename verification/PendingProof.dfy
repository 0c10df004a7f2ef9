/** What every step of the pending-request protocol keeps. */
module PendingProof {
  import opened Wrappers
  import opened PendingMachine

  /** The table entries that may still be looked at: during a cleanup, those not yet visited. */
  function Live(s: State): set<nat> {
    if s.lock.Sweeping? then s.lock.todo else s.table.Keys
  }

  function BufAt(s: State, x: CtxId): Option<Message> {
    if x in s.ctxs then s.ctxs[x].buf else None
  }

  function FateOf(s: State, n: Serial): Option<Fate> {
    if n in s.reg then Some(s.reg[n].fate) else None
  }

  /** A registration still in the table, or in the hands of a taker. */
  predicate Open(f: Fate) { f.Pending? || f.Taken? }

  // ---- One registration ----

  ghost predicate RegOk(s: State, n: Serial)
    requires n in s.reg
  {
    var g := s.reg[n];
    && 1 <= n <= s.issued && (s.strict ==> n < IDS) && g.ctx in s.ctxs
    && g.done == (if g.fate.Answered? || g.fate.Failed? then 1 else 0)
    && (Open(g.fate) ==> s.ctxs[g.ctx].serial == Some(n) && g.ctx !in s.pool && s.ctxs[g.ctx].buf.None?)
    && (g.fate.Pending? ==> RidOf(n) in Live(s) && RidOf(n) in s.table && s.table[RidOf(n)] == g.ctx)
    && (g.fate.Taken? || g.fate.Answered? ==> n in s.answerable)
    && (g.fate.Taken? ==>
          g.fate.k in s.takers && s.takers[g.fate.k].response.serial == n && s.takers[g.fate.k].ctx == g.ctx)
  }

  // ---- The table ----

  ghost predicate EntryOk(s: State, r: nat)
    requires r in s.table
  {
    var x := s.table[r];
    && x in s.ctxs && s.ctxs[x].serial.Some?
    && var n := s.ctxs[x].serial.value;
    && n in s.reg && s.reg[n].fate.Pending? && s.reg[n].ctx == x && RidOf(n) == r
  }

  // ---- A taker ----

  ghost predicate TakerOk(s: State, k: Tid)
    requires k in s.takers
  {
    var n, x := s.takers[k].response.serial, s.takers[k].ctx;
    && n in s.reg && s.reg[n].fate == Taken(k) && s.reg[n].ctx == x && x in s.ctxs
    && (s.takers[k].filled ==> !s.ctxs[x].callback && s.ctxs[x].ires == s.takers[k].response)
  }

  // ---- A call ----

  ghost predicate ReplyOk(s: State, c: Call, r: Reply) {
    match r
    case Answer(resp) => c.serial == Some(resp.serial) && FateOf(s, resp.serial) == Some(Answered) && !c.oneWay
      && !c.callback
    case Sent =>
      && c.serial.Some? && c.serial.value in s.reg
      && var f := s.reg[c.serial.value].fate;
         if c.oneWay then f.Withdrawn? || f.Failed? else c.callback && !f.Withdrawn? && !f.Expired?
    case ReadError(e) => c.serial.Some? ==> FateOf(s, c.serial.value) == Some(Failed(e))
    case WriteError =>
      && c.serial.Some? && c.serial.value in s.reg
      && (s.reg[c.serial.value].fate.Withdrawn? || s.reg[c.serial.value].fate.Failed?)
    case TimedOut =>
      && c.timed && c.serial.Some? && c.serial.value in s.reg
      && !s.reg[c.serial.value].fate.Pending? && !s.reg[c.serial.value].fate.Withdrawn?
    case Refused => c.serial.Some? ==> c.serial.value !in s.reg
  }

  /** A call that is about to release its context has no registration in the table or in delivery. */
  ghost predicate Settled(s: State, c: Call, r: Reply) {
    c.serial.Some? && !c.callback && !r.TimedOut? && c.serial.value in s.reg ==> !Open(s.reg[c.serial.value].fate)
  }

  /** A registered call that has not heard of its outcome. */
  ghost predicate Outstanding(s: State, c: Call) {
    && c.serial.Some? && c.serial.value in s.reg && s.reg[c.serial.value].ctx == c.ctx
    && match s.reg[c.serial.value].fate
       case Failed(e) => c.callback || BufAt(s, c.ctx) == Some(Failure(e))
       case Answered => c.callback || (BufAt(s, c.ctx) == Some(NoError)
                           && s.ctxs[c.ctx].ires == Response(c.serial.value))
       case Pending => true
       case Taken(_) => true
       case _ => false
  }

  /** Whatever it is doing, a call at work owns its context. */
  ghost predicate Owns(s: State, c: Call) {
    && c.ctx in s.ctxs && c.ctx < s.nextCtx
    && (c.callback ==> !c.timed)
    && (c.serial.Some? ==> 1 <= c.serial.value <= s.issued && (s.strict ==> c.serial.value < IDS))
    && (!c.pc.Done? ==>
          s.ctxs[c.ctx].serial == c.serial && s.ctxs[c.ctx].callback == c.callback && c.ctx !in s.pool)
  }

  ghost predicate CallOk(s: State, c: Call) {
    && Owns(s, c)
    && match c.pc
       case Check => c.serial.None? && BufAt(s, c.ctx).None?
       case CheckError => c.serial.None? && BufAt(s, c.ctx).None?
       case Issue => c.serial.None? && BufAt(s, c.ctx).None?
       case Encode => c.serial.Some? && c.serial.value !in s.reg && BufAt(s, c.ctx).None?
         && c.serial.value !in s.answerable
       case Add => c.serial.Some? && c.serial.value !in s.reg && BufAt(s, c.ctx).None?
         && c.serial.value !in s.answerable
       case Write => Outstanding(s, c) && c.serial.value !in s.answerable
       case Withdraw(r) =>
         && Outstanding(s, c) && c.serial.value !in s.answerable
         && (r == WriteError || (r == Sent && c.oneWay))
       case Wait => Outstanding(s, c) && !c.callback && !c.oneWay
       case GiveUp => Outstanding(s, c) && !c.callback && !c.oneWay && c.timed
       case Copy =>
         && c.serial.Some? && FateOf(s, c.serial.value) == Some(Answered) && !c.callback && !c.oneWay
         && s.ctxs[c.ctx].ires == Response(c.serial.value)
       case Finish(r) =>
         && ReplyOk(s, c, r)
         && Settled(s, c, r)
       case Done(r) => ReplyOk(s, c, r)
  }

  ghost predicate Apart(s: State) {
    && (forall t, u :: t in s.calls && u in s.calls && t != u && !s.calls[t].pc.Done? && !s.calls[u].pc.Done? ==>
          s.calls[t].ctx != s.calls[u].ctx)
    && (forall t, u :: t in s.calls && u in s.calls && t != u && s.calls[t].serial.Some? ==>
          s.calls[t].serial != s.calls[u].serial)
  }

  /** Whatever is in flight is younger than 2^32 ids. */
  ghost predicate Window(s: State) {
    s.strict ||
    (&& (forall n :: n in s.reg && s.reg[n].fate.Pending? ==> s.issued < n + IDS)
     && (forall t :: t in s.calls && !s.calls[t].pc.Done? && s.calls[t].serial.Some? ==>
           s.issued < s.calls[t].serial.value + IDS))
  }

  /** During a cleanup: what was pending when it began has been offered the error, once, or is still
      to be visited; nothing else is pending. */
  ghost predicate SweptOk(s: State) {
    s.lock.Sweeping? ==>
      && s.lock.todo <= s.table.Keys
      && (forall n :: n in s.lock.began
             ==> n in s.reg && (s.reg[n].fate.Pending? || s.reg[n].fate == Failed(s.lock.error)))
      && (forall n :: n in s.reg && s.reg[n].fate.Pending? ==> n in s.lock.began)
  }

  ghost predicate Basics(s: State) {
    && (forall x :: x in s.ctxs ==> x < s.nextCtx) && s.pool <= s.ctxs.Keys
    && (forall x :: x in s.pool ==> !s.ctxs[x].callback)
    && (forall n :: n in s.answerable ==> n in s.reg)
  }

  ghost predicate Regs(s: State) { forall n :: n in s.reg ==> RegOk(s, n) }

  ghost predicate Entries(s: State) { forall r :: r in Live(s) ==> r in s.table && EntryOk(s, r) }

  ghost predicate Takers(s: State) { forall k :: k in s.takers ==> TakerOk(s, k) }

  ghost predicate Calls(s: State) { forall t :: t in s.calls ==> CallOk(s, s.calls[t]) }

  ghost predicate Owned(s: State) { forall t :: t in s.calls ==> Owns(s, s.calls[t]) }

  ghost predicate Inv(s: State) {
    Basics(s) && Regs(s) && Entries(s) && SweptOk(s) && Takers(s) && Calls(s) && Apart(s) && Window(s)
  }

  lemma SameId(m: Serial, n: Serial)
    requires RidOf(m) == RidOf(n) && m < n + IDS && n < m + IDS
    ensures m == n
  {
  }

  lemma OnInitial(strict: bool)
    ensures Inv(Initial(strict))
  {
  }

  // ---- Steps of a call that touch nothing shared ----

  lemma CallMoves(s: State, s': State, t: Tid, pc: PC)
    requires Inv(s) && t in s.calls && !s.calls[t].pc.Done?
    requires s' == Jump(s, t, pc) && CallOk(s, s.calls[t].(pc := pc))
    ensures Inv(s')
  {
    MoveTables(s, s', t, pc);
    MoveCalls(s, s', t, pc);
  }

  lemma MoveTables(s: State, s': State, t: Tid, pc: PC)
    requires Basics(s) && Regs(s) && Entries(s) && Takers(s) && SweptOk(s) && t in s.calls && s' == Jump(s, t, pc)
    ensures Basics(s') && Regs(s') && Entries(s') && Takers(s') && SweptOk(s')
  {
    forall n | n in s'.reg ensures RegOk(s', n) { assert RegOk(s, n); }
    forall r | r in Live(s') ensures r in s'.table && EntryOk(s', r) { assert EntryOk(s, r); }
    forall k | k in s'.takers ensures TakerOk(s', k) { assert TakerOk(s, k); }
  }

  lemma MoveCalls(s: State, s': State, t: Tid, pc: PC)
    requires Calls(s) && Apart(s) && Window(s) && t in s.calls && !s.calls[t].pc.Done?
    requires s' == Jump(s, t, pc) && CallOk(s, s.calls[t].(pc := pc))
    ensures Calls(s') && Apart(s') && Window(s')
  {
    CallsOwn(s);
    assert SameForCall(s, s', s'.calls[t]);
    CallCarries(s, s', s'.calls[t]);
    forall u | u in s.calls && u != t ensures SameForCall(s, s', s.calls[u]) { assert Owns(s, s.calls[u]); }
    CallsCarry(s, s', t);
    ApartMoves(s, s', t);
    WindowMoves(s, s', t);
  }

  lemma OnCheck(s: State, s': State, t: Tid)
    requires Inv(s) && Checked(s, s', t)
    ensures Inv(s')
  {
    CallMoves(s, s', t, s'.calls[t].pc);
  }

  lemma OnAdmit(s: State, s': State, t: Tid, isRequest: bool)
    requires Inv(s) && Admitted(s, s', t, isRequest)
    ensures Inv(s')
  {
    CallMoves(s, s', t, s'.calls[t].pc);
  }

  lemma OnEncode(s: State, s': State, t: Tid, ok: bool)
    requires Inv(s) && Encoded(s, s', t, ok)
    ensures Inv(s')
  {
    CallMoves(s, s', t, s'.calls[t].pc);
  }

  lemma OnFire(s: State, s': State, t: Tid)
    requires Inv(s) && Fired(s, s', t)
    ensures Inv(s')
  {
    CallMoves(s, s', t, GiveUp);
  }

  lemma OnCopy(s: State, s': State, t: Tid)
    requires Inv(s) && Copied(s, s', t)
    ensures Inv(s')
  {
    CallMoves(s, s', t, s'.calls[t].pc);
  }

  // ---- What carries over ----

  /** A step leaves alone what a call looks at. */
  ghost predicate SameForCall(s: State, s': State, c: Call) {
    && s'.strict == s.strict && s'.issued >= s.issued && s'.nextCtx >= s.nextCtx && c.ctx in s'.ctxs
    && (c.serial.Some? ==>
          var n := c.serial.value;
          && (n in s'.reg <==> n in s.reg) && (n in s.reg ==> s'.reg[n] == s.reg[n]))
    && (!c.pc.Done? ==>
          && c.ctx in s.ctxs && s'.ctxs[c.ctx] == s.ctxs[c.ctx] && c.ctx !in s'.pool
          && (c.serial.Some? ==> (c.serial.value in s'.answerable <==> c.serial.value in s.answerable)))
  }

  lemma CallCarries(s: State, s': State, c: Call)
    requires CallOk(s, c) && SameForCall(s, s', c)
    ensures CallOk(s', c)
  {
  }

  /** Calls but one carry over. */
  lemma CallsCarry(s: State, s': State, t: Tid)
    requires Calls(s) && t in s'.calls && s'.calls == s.calls[t := s'.calls[t]] && CallOk(s', s'.calls[t])
    requires forall u :: u in s.calls && u != t ==> SameForCall(s, s', s.calls[u])
    ensures Calls(s')
  {
    forall u | u in s'.calls ensures CallOk(s', s'.calls[u]) {
      if u != t { CallCarries(s, s', s.calls[u]); }
    }
  }

  lemma CallsOwn(s: State)
    requires Calls(s)
    ensures Owned(s)
  {
    forall t | t in s.calls ensures Owns(s, s.calls[t]) { assert CallOk(s, s.calls[t]); }
  }

  lemma ApartMoves(s: State, s': State, t: Tid)
    requires Apart(s) && t in s.calls && !s.calls[t].pc.Done? && t in s'.calls && s'.calls == s.calls[t := s'.calls[t]]
    requires s'.calls[t].ctx == s.calls[t].ctx && s'.calls[t].serial == s.calls[t].serial
    ensures Apart(s')
  {
  }

  lemma WindowMoves(s: State, s': State, t: Tid)
    requires Window(s) && t in s.calls && !s.calls[t].pc.Done? && t in s'.calls && s'.calls == s.calls[t := s'.calls[t]]
    requires s'.calls[t].serial == s.calls[t].serial && s'.issued == s.issued && s'.strict == s.strict
    requires forall n :: n in s'.reg && s'.reg[n].fate.Pending? ==> n in s.reg && s.reg[n].fate.Pending?
    ensures Window(s')
  {
  }

  /** Two serials in flight have two ids. */
  lemma AnotherId(s: State, t: Tid, m: Serial)
    requires Regs(s) && Window(s) && t in s.calls && Owns(s, s.calls[t]) && !s.calls[t].pc.Done?
             && s.calls[t].serial.Some?
    requires m in s.reg && s.reg[m].fate.Pending? && m != s.calls[t].serial.value
    ensures RidOf(m) != RidOf(s.calls[t].serial.value)
  {
    assert RegOk(s, m);
    if RidOf(m) == RidOf(s.calls[t].serial.value) {
      SameId(m, s.calls[t].serial.value);
    }
  }

  // ---- Write ----

  lemma WriteTables(s: State, s': State, t: Tid)
    requires Basics(s) && Regs(s) && Entries(s) && Takers(s) && SweptOk(s)
    requires Wrote(s, s', t, true) && !s.calls[t].oneWay && s.calls[t].serial.value in s.reg
    ensures Basics(s') && Regs(s') && Entries(s') && Takers(s') && SweptOk(s')
  {
    forall m | m in s'.reg ensures RegOk(s', m) { assert RegOk(s, m); }
    forall r | r in Live(s') ensures r in s'.table && EntryOk(s', r) { assert EntryOk(s, r); }
    forall k | k in s'.takers ensures TakerOk(s', k) { assert TakerOk(s, k); }
  }

  lemma WriteCalls(s: State, s': State, t: Tid)
    requires Calls(s) && Owned(s) && Apart(s) && Wrote(s, s', t, true) && !s.calls[t].oneWay
    requires CallOk(s', s'.calls[t])
    ensures Calls(s') && Apart(s')
  {
    forall u | u in s.calls && u != t ensures SameForCall(s, s', s.calls[u]) { assert Owns(s, s.calls[u]); }
    CallsCarry(s, s', t);
  }

  lemma WriteSilent(s: State, c: Call, c': Call)
    requires CallOk(s, c) && c.pc == Write
             && (c' == c.(pc := Withdraw(WriteError)) || (c.oneWay && c' == c.(pc := Withdraw(Sent))))
    ensures CallOk(s, c')
  {
  }

  lemma WriteCall(s: State, s': State, t: Tid)
    requires Wrote(s, s', t, true) && CallOk(s, s.calls[t]) && !s.calls[t].oneWay
    ensures CallOk(s', s'.calls[t]) && s.calls[t].serial.value in s.reg
  {
  }

  lemma OnWrite(s: State, s': State, t: Tid, ok: bool)
    requires Inv(s) && Wrote(s, s', t, ok)
    ensures Inv(s')
  {
    assert CallOk(s, s.calls[t]);
    if !ok || s.calls[t].oneWay {
      WriteSilent(s, s.calls[t], s'.calls[t]);
      CallMoves(s, s', t, s'.calls[t].pc);
    } else {
      OnAnswerable(s, s', t);
    }
  }

  lemma OnAnswerable(s: State, s': State, t: Tid)
    requires Inv(s) && Wrote(s, s', t, true) && !s.calls[t].oneWay && CallOk(s, s.calls[t])
    ensures Inv(s')
  {
    WriteCall(s, s', t);
    WriteTables(s, s', t);
    CallsOwn(s);
    WriteCalls(s, s', t);
    WindowMoves(s, s', t);
  }

  // ---- Finish ----

  /** A call returns, and its context is back in the pool perhaps. */
  predicate Releases(s: State, s': State, t: Tid, c: Call, r: Reply) {
    && t in s.calls && s.calls[t] == c && c.pc == Finish(r)
    && s' == s.(calls := s'.calls, pool := s'.pool) && s'.calls == s.calls[t := c.(pc := Done(r))]
    && s.pool <= s'.pool <= s.pool + {c.ctx} && (c.callback || r.TimedOut? ==> s'.pool == s.pool)
  }

  lemma FinishReleases(s: State, s': State, t: Tid)
    requires Finished(s, s', t)
    ensures Releases(s, s', t, s.calls[t], s.calls[t].pc.result)
  {
  }

  lemma FinishTables(s: State, s': State, t: Tid, c: Call, r: Reply)
    requires Basics(s) && Regs(s) && Entries(s) && Takers(s) && SweptOk(s) && Releases(s, s', t, c, r)
    requires Owns(s, c) && Settled(s, c, r)
    ensures Basics(s') && Regs(s') && Entries(s') && Takers(s') && SweptOk(s')
  {
    PoolGrows(s, s', c.ctx);
  }

  /** Only the pool grows, by a context that is no request's in the table or in delivery. */
  lemma PoolGrows(s: State, s': State, x: CtxId)
    requires Basics(s) && Regs(s) && Entries(s) && Takers(s) && SweptOk(s)
    requires s' == s.(calls := s'.calls, pool := s'.pool) && s.pool <= s'.pool <= s.pool + {x}
    requires x in s'.pool ==> x in s.ctxs && !s.ctxs[x].callback
    requires x in s'.pool && x in s.ctxs && s.ctxs[x].serial.Some? && s.ctxs[x].serial.value in s.reg ==>
               !Open(s.reg[s.ctxs[x].serial.value].fate)
    ensures Basics(s') && Regs(s') && Entries(s') && Takers(s') && SweptOk(s')
  {
    forall m | m in s'.reg ensures RegOk(s', m) { assert RegOk(s, m); }
    forall r | r in Live(s') ensures r in s'.table && EntryOk(s', r) { assert EntryOk(s, r); }
    forall k | k in s'.takers ensures TakerOk(s', k) { assert TakerOk(s, k); }
  }

  lemma ReplyCarries(s: State, s': State, c: Call, c': Call, r: Reply)
    requires ReplyOk(s, c, r) && s'.reg == s.reg && c' == c.(pc := c'.pc)
    ensures ReplyOk(s', c', r)
  {
  }

  lemma FinishCall(s: State, s': State, t: Tid, c: Call, r: Reply)
    requires Releases(s, s', t, c, r) && Owns(s, c) && ReplyOk(s, c, r)
    ensures CallOk(s', c.(pc := Done(r)))
  {
    ReplyCarries(s, s', c, c.(pc := Done(r)), r);
  }

  lemma FinishOthers(s: State, s': State, t: Tid, c: Call, r: Reply)
    requires Owned(s) && Apart(s) && Releases(s, s', t, c, r)
    ensures forall u :: u in s.calls && u != t ==> SameForCall(s, s', s.calls[u])
  {
    forall u | u in s.calls && u != t ensures SameForCall(s, s', s.calls[u]) { assert Owns(s, s.calls[u]); }
  }

  lemma FinishCalls(s: State, s': State, t: Tid, c: Call, r: Reply)
    requires Calls(s) && Owned(s) && Apart(s) && Releases(s, s', t, c, r) && CallOk(s', c.(pc := Done(r)))
    ensures Calls(s') && Apart(s')
  {
    FinishOthers(s, s', t, c, r);
    CallsCarry(s, s', t);
    ApartMoves(s, s', t);
  }

  lemma OnFinish(s: State, s': State, t: Tid)
    requires Inv(s) && Finished(s, s', t)
    ensures Inv(s')
  {
    var c, r := s.calls[t], s.calls[t].pc.result;
    FinishReleases(s, s', t);
    assert CallOk(s, c);
    FinishCall(s, s', t, c, r);
    CallsOwn(s);
    FinishCalls(s, s', t, c, r);
    FinishTables(s, s', t, c, r);
    WindowMoves(s, s', t);
  }

  // ---- Contexts from and to the pool ----

  lemma OnDrop(s: State, s': State, x: CtxId)
    requires Inv(s) && Drop(s, s', x)
    ensures Inv(s')
  {
    assert Regs(s') by { forall m | m in s'.reg ensures RegOk(s', m) { assert RegOk(s, m); } }
    assert Entries(s') by { forall r | r in Live(s') ensures r in s'.table && EntryOk(s', r) { assert EntryOk(s, r); } }
    assert Takers(s') by { forall k | k in s'.takers ensures TakerOk(s', k) { assert TakerOk(s, k); } }
    assert Calls(s') by {
      forall u | u in s'.calls ensures CallOk(s', s'.calls[u]) { CallCarries(s, s', s.calls[u]); }
    }
  }

  lemma RecycleTables(s: State, s': State, t: Tid, x: CtxId, oneWay: bool, timed: bool)
    requires Basics(s) && Regs(s) && Entries(s) && Takers(s) && SweptOk(s) && Recycle(s, s', t, x, oneWay, timed)
    ensures Basics(s') && Regs(s') && Entries(s') && Takers(s') && SweptOk(s')
  {
    forall m | m in s'.reg ensures RegOk(s', m) { assert RegOk(s, m); }
    forall r | r in Live(s') ensures r in s'.table && EntryOk(s', r) {
      assert EntryOk(s, r) && RegOk(s, s.ctxs[s.table[r]].serial.value);
    }
    forall k | k in s'.takers ensures TakerOk(s', k) {
      assert TakerOk(s, k) && RegOk(s, s.takers[k].response.serial);
    }
  }

  lemma OnRecycle(s: State, s': State, t: Tid, x: CtxId, oneWay: bool, timed: bool)
    requires Inv(s) && Recycle(s, s', t, x, oneWay, timed)
    ensures Inv(s')
  {
    RecycleTables(s, s', t, x, oneWay, timed);
    forall u | u in s.calls && u != t ensures SameForCall(s, s', s.calls[u]) { assert CallOk(s, s.calls[u]); }
    CallsCarry(s, s', t);
  }

  lemma AllocateTables(s: State, s': State, t: Tid, callback: bool, oneWay: bool, timed: bool)
    requires Basics(s) && Regs(s) && Entries(s) && Takers(s) && SweptOk(s)
    requires Allocate(s, s', t, callback, oneWay, timed)
    ensures Basics(s') && Regs(s') && Entries(s') && Takers(s') && SweptOk(s')
  {
    forall m | m in s'.reg ensures RegOk(s', m) { assert RegOk(s, m); }
    forall r | r in Live(s') ensures r in s'.table && EntryOk(s', r) { assert EntryOk(s, r); }
    forall k | k in s'.takers ensures TakerOk(s', k) { assert TakerOk(s, k); }
  }

  lemma OnAllocate(s: State, s': State, t: Tid, callback: bool, oneWay: bool, timed: bool)
    requires Inv(s) && Allocate(s, s', t, callback, oneWay, timed)
    ensures Inv(s')
  {
    AllocateTables(s, s', t, callback, oneWay, timed);
    CallsOwn(s);
    forall u | u in s.calls && u != t ensures SameForCall(s, s', s.calls[u]) { assert Owns(s, s.calls[u]); }
    CallsCarry(s, s', t);
  }

  // ---- Registration ----

  lemma OnRanOut(s: State, s': State, t: Tid)
    requires Inv(s) && s.strict && RanOut(s, s', t)
    ensures Inv(s')
  {
    assert CallOk(s, s.calls[t]);
    assert Regs(s') by { forall m | m in s'.reg ensures RegOk(s', m) { assert RegOk(s, m); } }
    assert Entries(s') by { forall r | r in Live(s') ensures r in s'.table && EntryOk(s', r) { assert EntryOk(s, r); } }
    assert Takers(s') by { forall k | k in s'.takers ensures TakerOk(s', k) { assert TakerOk(s, k); } }
    assert Calls(s') by {
      forall u | u in s'.calls ensures CallOk(s', s'.calls[u]) { if u != t { CallCarries(s, s', s.calls[u]); } }
    }
    ApartMoves(s, s', t);
  }

  lemma IssueTables(s: State, s': State, t: Tid)
    requires Basics(s) && Regs(s) && SweptOk(s) && Counted(s, s', t)
    requires s.ctxs[s.calls[t].ctx].serial.None? && (s.strict ==> s.issued + 1 < IDS)
    ensures Basics(s') && Regs(s') && SweptOk(s')
  {
    forall m | m in s'.reg ensures RegOk(s', m) { assert RegOk(s, m); }
  }

  lemma IssueEntries(s: State, s': State, t: Tid)
    requires Entries(s) && Takers(s) && Regs(s) && Counted(s, s', t)
    requires s.ctxs[s.calls[t].ctx].serial.None?
    ensures Entries(s') && Takers(s')
  {
    forall r | r in Live(s') ensures r in s'.table && EntryOk(s', r) { assert EntryOk(s, r); }
    forall k | k in s'.takers ensures TakerOk(s', k) { assert TakerOk(s, k) && RegOk(s, s.takers[k].response.serial); }
  }

  lemma IssueCall(s: State, s': State, t: Tid)
    requires Basics(s) && Regs(s) && Counted(s, s', t) && CallOk(s, s.calls[t]) && (s.strict ==> s.issued + 1 < IDS)
    ensures CallOk(s', s'.calls[t])
  {
    assert forall m :: m in s.reg ==> RegOk(s, m);
  }

  lemma IssueOthers(s: State, s': State, t: Tid)
    requires Owned(s) && Apart(s) && Counted(s, s', t)
    ensures forall u :: u in s.calls && u != t ==> SameForCall(s, s', s.calls[u])
  {
    forall u | u in s.calls && u != t ensures SameForCall(s, s', s.calls[u]) { assert Owns(s, s.calls[u]); }
  }

  lemma IssueApart(s: State, s': State, t: Tid)
    requires Owned(s) && Apart(s) && Counted(s, s', t)
    ensures Apart(s')
  {
    forall u | u in s.calls ensures s.calls[u].serial.Some? ==> s.calls[u].serial.value <= s.issued {
      assert Owns(s, s.calls[u]);
    }
  }

  lemma IssueWindow(s: State, s': State, t: Tid)
    requires (s.strict || Spanned(s)) && Counted(s, s', t)
    ensures Window(s')
  {
  }

  lemma OnIssue(s: State, s': State, t: Tid)
    requires Inv(s) && Issued(s, s', t)
    ensures Inv(s')
  {
    assert CallOk(s, s.calls[t]);
    if s.strict && s.issued + 1 >= IDS {
      OnRanOut(s, s', t);
    } else {
      OnCounted(s, s', t);
    }
  }

  lemma OnCounted(s: State, s': State, t: Tid)
    requires Inv(s) && (s.strict || Spanned(s)) && (s.strict ==> s.issued + 1 < IDS) && Counted(s, s', t)
    ensures Inv(s')
  {
    CallsOwn(s);
    assert CallOk(s, s.calls[t]);
    IssueTables(s, s', t);
    IssueEntries(s, s', t);
    IssueCall(s, s', t);
    IssueOthers(s, s', t);
    CallsCarry(s, s', t);
    IssueApart(s, s', t);
    IssueWindow(s, s', t);
  }

  lemma AddTables(s: State, s': State, t: Tid)
    requires Basics(s) && Regs(s) && Entries(s) && Takers(s) && SweptOk(s) && Window(s) && Added(s, s', t)
    requires Owns(s, s.calls[t]) && BufAt(s, s.calls[t].ctx).None?
    requires s.calls[t].serial.value !in s.reg
    ensures Basics(s') && Regs(s') && Entries(s') && Takers(s') && SweptOk(s') && Window(s')
  {
    var n := s.calls[t].serial.value;
    forall m | m in s'.reg ensures RegOk(s', m) {
      if m != n {
        assert RegOk(s, m);
        if s.reg[m].fate.Pending? { AnotherId(s, t, m); }
      }
    }
    forall r | r in Live(s') ensures r in s'.table && EntryOk(s', r) { if r != RidOf(n) { assert EntryOk(s, r); } }
    forall k | k in s'.takers ensures TakerOk(s', k) { assert TakerOk(s, k); }
  }

  lemma AddCalls(s: State, s': State, t: Tid)
    requires Calls(s) && Owned(s) && Apart(s) && Added(s, s', t) && CallOk(s', s'.calls[t])
    ensures Calls(s') && Apart(s')
  {
    forall u | u in s.calls && u != t ensures SameForCall(s, s', s.calls[u]) { assert Owns(s, s.calls[u]); }
    CallsCarry(s, s', t);
  }

  lemma OnAdd(s: State, s': State, t: Tid)
    requires Inv(s) && Added(s, s', t)
    ensures Inv(s')
  {
    assert CallOk(s, s.calls[t]);
    AddTables(s, s', t);
    CallsOwn(s);
    AddCalls(s, s', t);
  }

  // ---- Leaving the table ----

  /** delRequestContext, field by field. */
  predicate Deletion(s: State, s': State, n: Serial, f: Fate) {
    && s'.strict == s.strict && s'.issued == s.issued && s'.lock == s.lock && s'.ctxs == s.ctxs
    && s'.nextCtx == s.nextCtx
    && s'.pool == s.pool && s'.takers == s.takers && s'.answerable == s.answerable
    && s'.table == s.table - {RidOf(n)}
    && s'.reg == if n in s.reg && s.reg[n].fate.Pending? then s.reg[n := s.reg[n].(fate := f)] else s.reg
  }

  lemma DeleteRegs(s: State, s': State, t: Tid, n: Serial, f: Fate)
    requires Basics(s) && Regs(s) && Entries(s) && Window(s) && s.lock.Free?
    requires t in s.calls && Owns(s, s.calls[t]) && s.calls[t].serial == Some(n) && !s.calls[t].pc.Done?
    requires (f.Withdrawn? || f.Expired?) && Deletion(s, s', n, f)
    ensures Basics(s') && Regs(s') && SweptOk(s')
  {
    forall m | m in s'.reg ensures RegOk(s', m) {
      assert RegOk(s, m);
      if m != n && s.reg[m].fate.Pending? { AnotherId(s, t, m); }
    }
  }

  lemma DeleteEntries(s: State, s': State, n: Serial, f: Fate)
    requires Entries(s) && Takers(s) && s.lock.Free? && (f.Withdrawn? || f.Expired?) && Deletion(s, s', n, f)
    ensures Entries(s') && Takers(s')
  {
    forall r | r in Live(s') ensures r in s'.table && EntryOk(s', r) { assert EntryOk(s, r); }
    forall k | k in s'.takers ensures TakerOk(s', k) { assert TakerOk(s, k); }
  }

  lemma DeleteOthers(s: State, s': State, t: Tid, n: Serial, f: Fate)
    requires Owned(s) && Apart(s) && t in s.calls && s.calls[t].serial == Some(n) && Deletion(s, s', n, f)
    ensures forall u :: u in s.calls && u != t ==> SameForCall(s, s', s.calls[u])
  {
    forall u | u in s.calls && u != t ensures SameForCall(s, s', s.calls[u]) {
      assert Owns(s, s.calls[u]);
      assert s.calls[u].serial != Some(n);
    }
  }

  lemma OnDelete(s: State, s': State, t: Tid, n: Serial, f: Fate)
    requires Inv(s) && s.lock.Free? && t in s.calls && s.calls[t].serial == Some(n) && !s.calls[t].pc.Done?
    requires (f.Withdrawn? || f.Expired?) && Deletion(s, s', n, f)
    requires t in s'.calls && s'.calls == s.calls[t := s.calls[t].(pc := s'.calls[t].pc)] && CallOk(s', s'.calls[t])
    ensures Inv(s')
  {
    CallsOwn(s);
    DeleteRegs(s, s', t, n, f);
    DeleteEntries(s, s', n, f);
    DeleteOthers(s, s', t, n, f);
    CallsCarry(s, s', t);
    ApartMoves(s, s', t);
    WindowMoves(s, s', t);
  }

  lemma WithdrawCall(s: State, s': State, t: Tid)
    requires Withdrew(s, s', t) && CallOk(s, s.calls[t]) && Regs(s)
    ensures CallOk(s', s'.calls[t])
  {
    assert RegOk(s, s.calls[t].serial.value);
  }

  lemma OnWithdraw(s: State, s': State, t: Tid)
    requires Inv(s) && Withdrew(s, s', t)
    ensures Inv(s')
  {
    assert CallOk(s, s.calls[t]);
    WithdrawCall(s, s', t);
    OnDelete(s, s', t, s.calls[t].serial.value, Withdrawn);
  }

  lemma GiveUpCall(s: State, s': State, t: Tid)
    requires GaveUp(s, s', t) && CallOk(s, s.calls[t])
    ensures CallOk(s', s'.calls[t])
  {
  }

  lemma OnGiveUp(s: State, s': State, t: Tid)
    requires Inv(s) && GaveUp(s, s', t)
    ensures Inv(s')
  {
    assert CallOk(s, s.calls[t]);
    GiveUpCall(s, s', t);
    OnDelete(s, s', t, s.calls[t].serial.value, Expired);
  }

  // ---- The channel ----

  lemma ReceiveTables(s: State, s': State, t: Tid)
    requires Basics(s) && Regs(s) && Entries(s) && Takers(s) && SweptOk(s) && Received(s, s', t)
    ensures Basics(s') && Regs(s') && SweptOk(s') && Entries(s') && Takers(s')
  {
    forall m | m in s'.reg ensures RegOk(s', m) { assert RegOk(s, m); }
    forall r | r in Live(s') ensures r in s'.table && EntryOk(s', r) { assert EntryOk(s, r); }
    forall k | k in s'.takers ensures TakerOk(s', k) { assert TakerOk(s, k); }
  }

  lemma ReceiveCall(s: State, s': State, t: Tid)
    requires Received(s, s', t) && CallOk(s, s.calls[t]) && Regs(s)
    ensures CallOk(s', s'.calls[t])
  {
    assert RegOk(s, s.calls[t].serial.value);
  }

  lemma ReceiveOthers(s: State, s': State, t: Tid)
    requires Owned(s) && Apart(s) && Received(s, s', t)
    ensures forall u :: u in s.calls && u != t ==> SameForCall(s, s', s.calls[u])
  {
    forall u | u in s.calls && u != t ensures SameForCall(s, s', s.calls[u]) { assert Owns(s, s.calls[u]); }
  }

  lemma OnReceive(s: State, s': State, t: Tid)
    requires Inv(s) && Received(s, s', t)
    ensures Inv(s')
  {
    assert CallOk(s, s.calls[t]);
    CallsOwn(s);
    ReceiveTables(s, s', t);
    ReceiveCall(s, s', t);
    ReceiveOthers(s, s', t);
    CallsCarry(s, s', t);
    ApartMoves(s, s', t);
    WindowMoves(s, s', t);
  }

  // ---- Responses ----

  /** The entry a response finds is that of its own request. */
  lemma OwnEntry(s: State, n: Serial)
    requires Regs(s) && Entries(s) && Window(s) && Basics(s) && s.lock.Free? && n in s.answerable
    requires s.strict || s.issued < n + IDS
    requires RidOf(n) in s.table
    ensures var x := s.table[RidOf(n)];
            x in s.ctxs && s.ctxs[x].serial == Some(n) && n in s.reg && s.reg[n].fate.Pending? && s.reg[n].ctx == x
  {
    assert EntryOk(s, RidOf(n));
    var m := s.ctxs[s.table[RidOf(n)]].serial.value;
    assert RegOk(s, m) && RegOk(s, n);
    SameId(m, n);
  }

  predicate Taking(s: State, s': State, k: Tid, n: Serial, x: CtxId) {
    && k !in s.takers && n in s.answerable && RidOf(n) in s.table && s.table[RidOf(n)] == x
    && x in s.ctxs && s.ctxs[x].serial == Some(n) && n in s.reg && s.reg[n].fate.Pending? && s.reg[n].ctx == x
    && s.lock.Free?
    && s' == SetFate(s.(table := s.table - {RidOf(n)}, takers := s.takers[k := Taker(x, Response(n), false)]), n,
       Taken(k))
  }

  lemma DeliverTables(s: State, s': State, k: Tid, n: Serial, x: CtxId)
    requires Basics(s) && Regs(s) && Entries(s) && Taking(s, s', k, n, x)
    ensures Basics(s') && Regs(s') && SweptOk(s')
  {
    assert RegOk(s, n);
    forall m | m in s'.reg ensures RegOk(s', m) { assert RegOk(s, m); }
  }

  lemma DeliverEntries(s: State, s': State, k: Tid, n: Serial, x: CtxId)
    requires Entries(s) && Takers(s) && Taking(s, s', k, n, x)
    ensures Entries(s') && Takers(s')
  {
    forall r | r in Live(s') ensures r in s'.table && EntryOk(s', r) { assert EntryOk(s, r); }
    forall j | j in s'.takers ensures TakerOk(s', j) { if j != k { assert TakerOk(s, j); } }
  }

  lemma TakenCall(s: State, s': State, k: Tid, n: Serial, x: CtxId, c: Call)
    requires Taking(s, s', k, n, x) && CallOk(s, c) && c.serial == Some(n)
    ensures CallOk(s', c)
  {
  }

  /** Calls for other requests than n carry over when a step is about n alone. */
  lemma OthersCarry(s: State, s': State, n: Serial)
    requires Calls(s) && s'.calls == s.calls
    requires forall u :: u in s.calls && s.calls[u].serial == Some(n) ==> CallOk(s', s.calls[u])
    requires forall u :: u in s.calls && s.calls[u].serial != Some(n) ==> SameForCall(s, s', s.calls[u])
    ensures Calls(s')
  {
    forall u | u in s'.calls ensures CallOk(s', s'.calls[u]) {
      if s.calls[u].serial != Some(n) { CallCarries(s, s', s.calls[u]); }
    }
  }

  lemma DeliverCalls(s: State, s': State, k: Tid, n: Serial, x: CtxId)
    requires Calls(s) && Taking(s, s', k, n, x)
    ensures Calls(s')
  {
    CallsOwn(s);
    forall u | u in s.calls && s.calls[u].serial == Some(n) ensures CallOk(s', s.calls[u]) {
      TakenCall(s, s', k, n, x, s.calls[u]);
    }
    forall u | u in s.calls && s.calls[u].serial != Some(n)
      ensures SameForCall(s, s', s.calls[u])
    {
      assert Owns(s, s.calls[u]);
    }
    OthersCarry(s, s', n);
  }

  lemma OnDeliver(s: State, s': State, k: Tid, n: Serial)
    requires Inv(s) && Delivered(s, s', k, n)
    ensures Inv(s')
  {
    if RidOf(n) in s.table {
      OwnEntry(s, n);
      OnTaking(s, s', k, n, s.table[RidOf(n)]);
    }
  }

  lemma OnTaking(s: State, s': State, k: Tid, n: Serial, x: CtxId)
    requires Inv(s) && Taking(s, s', k, n, x)
    ensures Inv(s')
  {
    DeliverTables(s, s', k, n, x);
    DeliverEntries(s, s', k, n, x);
    DeliverCalls(s, s', k, n, x);
    WindowKept(s, s');
  }

  lemma WindowKept(s: State, s': State)
    requires Window(s) && s'.calls == s.calls && s'.issued == s.issued && s'.strict == s.strict
    requires forall n :: n in s'.reg && s'.reg[n].fate.Pending? ==> n in s.reg && s.reg[n].fate.Pending?
    ensures Window(s')
  {
  }

  // ---- Completion ----

  /** A taker completes request n: reg and takers change, and the channel when there is one. */
  predicate Completing(s: State, s': State, k: Tid, n: Serial, x: CtxId) {
    && s'.strict == s.strict && s'.issued == s.issued && s'.lock == s.lock && s'.nextCtx == s.nextCtx
    && s'.pool == s.pool && s'.answerable == s.answerable && s'.table == s.table && s'.calls == s.calls
    && k in s.takers && s.takers[k].response.serial == n && s.takers[k].ctx == x && s'.takers == s.takers - {k}
    && n in s.reg && s'.reg == s.reg[n := Reg(s.reg[n].ctx, Answered, s.reg[n].done + 1)]
    && x in s.ctxs && s.ctxs[x].serial == Some(n) && (!s.ctxs[x].callback ==> s.ctxs[x].ires == Response(n))
    && s'.ctxs == if s.ctxs[x].callback then s.ctxs else s.ctxs[x := s.ctxs[x].(buf := Some(NoError))]
  }

  lemma CompletingTables(s: State, s': State, k: Tid, n: Serial, x: CtxId)
    requires Basics(s) && Regs(s) && SweptOk(s) && Completing(s, s', k, n, x) && TakerOk(s, k)
    ensures Basics(s') && Regs(s') && SweptOk(s')
  {
    assert RegOk(s, n);
    forall m | m in s'.reg ensures RegOk(s', m) { assert RegOk(s, m); }
  }

  lemma CompletingEntries(s: State, s': State, k: Tid, n: Serial, x: CtxId)
    requires Entries(s) && Takers(s) && Completing(s, s', k, n, x)
    ensures Entries(s') && Takers(s')
  {
    assert TakerOk(s, k);
    forall r | r in Live(s') ensures r in s'.table && EntryOk(s', r) { assert EntryOk(s, r); }
    forall j | j in s'.takers ensures TakerOk(s', j) { assert TakerOk(s, j); }
  }

  lemma CompletedCall(s: State, s': State, k: Tid, n: Serial, x: CtxId, c: Call)
    requires Completing(s, s', k, n, x) && TakerOk(s, k) && CallOk(s, c) && c.serial == Some(n)
    ensures CallOk(s', c)
  {
  }

  lemma CompletingCalls(s: State, s': State, k: Tid, n: Serial, x: CtxId)
    requires Calls(s) && Completing(s, s', k, n, x) && TakerOk(s, k)
    ensures Calls(s')
  {
    CallsOwn(s);
    forall u | u in s.calls && s.calls[u].serial == Some(n) ensures CallOk(s', s.calls[u]) {
      CompletedCall(s, s', k, n, x, s.calls[u]);
    }
    forall u | u in s.calls && s.calls[u].serial != Some(n)
      ensures SameForCall(s, s', s.calls[u])
    {
      assert Owns(s, s.calls[u]);
    }
    OthersCarry(s, s', n);
  }

  lemma OnCompleting(s: State, s': State, k: Tid, n: Serial, x: CtxId)
    requires Inv(s) && Completing(s, s', k, n, x)
    ensures Inv(s')
  {
    assert TakerOk(s, k);
    CompletingTables(s, s', k, n, x);
    CompletingEntries(s, s', k, n, x);
    CompletingCalls(s, s', k, n, x);
    WindowKept(s, s');
  }

  lemma OnCallback(s: State, s': State, k: Tid)
    requires Inv(s) && CalledBack(s, s', k)
    ensures Inv(s')
  {
    assert TakerOk(s, k) && RegOk(s, s.takers[k].response.serial);
    OnCompleting(s, s', k, s.takers[k].response.serial, s.takers[k].ctx);
  }

  lemma OnSignal(s: State, s': State, k: Tid)
    requires Inv(s) && Signalled(s, s', k)
    ensures Inv(s')
  {
    SignalCompletes(s, s', k);
    OnCompleting(s, s', k, s.takers[k].response.serial, s.takers[k].ctx);
  }

  lemma SignalCompletes(s: State, s': State, k: Tid)
    requires Regs(s) && Takers(s) && Signalled(s, s', k)
    ensures Completing(s, s', k, s.takers[k].response.serial, s.takers[k].ctx)
  {
    assert TakerOk(s, k) && RegOk(s, s.takers[k].response.serial);
    assert s.takers[k].response == Response(s.takers[k].response.serial);
  }

  // ---- AssignResponse ----

  lemma AssignTables(s: State, s': State, k: Tid)
    requires Basics(s) && Regs(s) && SweptOk(s) && Assigned(s, s', k)
    ensures Basics(s') && Regs(s') && SweptOk(s')
  {
    forall m | m in s'.reg ensures RegOk(s', m) { assert RegOk(s, m); }
  }

  lemma AssignEntries(s: State, s': State, k: Tid)
    requires Entries(s) && Takers(s) && Regs(s) && Assigned(s, s', k)
    ensures Entries(s') && Takers(s')
  {
    assert TakerOk(s, k) && RegOk(s, s.takers[k].response.serial);
    forall r | r in Live(s') ensures r in s'.table && EntryOk(s', r) { assert EntryOk(s, r); }
    forall j | j in s'.takers ensures TakerOk(s', j) {
      assert TakerOk(s, j) && RegOk(s, s.takers[j].response.serial);
    }
  }

  lemma AssignedCall(s: State, s': State, k: Tid, c: Call)
    requires Assigned(s, s', k) && TakerOk(s, k) && CallOk(s, c)
    requires c.serial == Some(s.takers[k].response.serial) || c.ctx != s.takers[k].ctx || c.pc.Done?
    ensures CallOk(s', c)
  {
  }

  lemma AssignCalls(s: State, s': State, k: Tid)
    requires Calls(s) && Assigned(s, s', k) && TakerOk(s, k) && RegOk(s, s.takers[k].response.serial)
    ensures Calls(s')
  {
    CallsOwn(s);
    forall u | u in s'.calls ensures CallOk(s', s'.calls[u]) {
      assert Owns(s, s.calls[u]);
      AssignedCall(s, s', k, s.calls[u]);
    }
  }

  lemma OnAssign(s: State, s': State, k: Tid)
    requires Inv(s) && Assigned(s, s', k)
    ensures Inv(s')
  {
    assert TakerOk(s, k) && RegOk(s, s.takers[k].response.serial);
    AssignTables(s, s', k);
    AssignEntries(s, s', k);
    AssignCalls(s, s', k);
    WindowKept(s, s');
  }

  // ---- Cleanup ----

  lemma OnBegin(s: State, s': State, e: ErrorId)
    requires Inv(s) && SweepBegins(s, s', e)
    ensures Inv(s')
  {
    assert Regs(s') by { forall m | m in s'.reg ensures RegOk(s', m) { assert RegOk(s, m); } }
    assert Entries(s') by { forall r | r in Live(s') ensures r in s'.table && EntryOk(s', r) { assert EntryOk(s, r); } }
    assert Takers(s') by { forall k | k in s'.takers ensures TakerOk(s', k) { assert TakerOk(s, k); } }
    assert Calls(s') by { forall u | u in s'.calls ensures CallOk(s', s'.calls[u]) { CallCarries(s, s', s.calls[u]); } }
    WindowKept(s, s');
  }

  lemma OnEnd(s: State, s': State)
    requires Inv(s) && SweepEnds(s, s')
    ensures Inv(s')
  {
    assert Regs(s') by { forall m | m in s'.reg ensures RegOk(s', m) { assert RegOk(s, m); } }
    assert Takers(s') by { forall k | k in s'.takers ensures TakerOk(s', k) { assert TakerOk(s, k); } }
    assert Calls(s') by { forall u | u in s'.calls ensures CallOk(s', s'.calls[u]) { CallCarries(s, s', s.calls[u]); } }
    WindowKept(s, s');
  }

  lemma OnClose(s: State, s': State, e: Option<ErrorId>)
    requires Inv(s) && Closes(s, s', e)
    ensures Inv(s')
  {
    assert Regs(s') by { forall m | m in s'.reg ensures RegOk(s', m) { assert RegOk(s, m); } }
    assert Entries(s') by { forall r | r in Live(s') ensures r in s'.table && EntryOk(s', r) { assert EntryOk(s, r); } }
    assert Takers(s') by { forall k | k in s'.takers ensures TakerOk(s', k) { assert TakerOk(s, k); } }
    assert Calls(s') by { forall u | u in s'.calls ensures CallOk(s', s'.calls[u]) { CallCarries(s, s', s.calls[u]); } }
    WindowKept(s, s');
  }

  /** The cleanup visits the entry r, whose request is n. */
  predicate Visiting(s: State, s': State, r: nat, n: Serial, x: CtxId) {
    && s.lock.Sweeping? && r in s.lock.todo && r in s.table && s.table[r] == x && r == RidOf(n)
    && s'.strict == s.strict && s'.issued == s.issued && s'.nextCtx == s.nextCtx && s'.takers == s.takers
    && s'.pool == s.pool && s'.answerable == s.answerable && s'.table == s.table && s'.calls == s.calls
    && s'.lock == s.lock.(todo := s.lock.todo - {r})
    && n in s.reg && s.reg[n].fate.Pending? && s.reg[n].ctx == x
    && s'.reg == s.reg[n := Reg(x, Failed(s.lock.error), s.reg[n].done + 1)]
    && x in s.ctxs && s.ctxs[x].serial == Some(n)
    && s'.ctxs == if s.ctxs[x].callback then s.ctxs else s.ctxs[x := s.ctxs[x].(buf := Some(Failure(s.lock.error)))]
  }

  /** The channel of an entry is empty: the default branch of the send is never taken. */
  lemma SweepVisits(s: State, s': State, r: nat)
    requires Regs(s) && Entries(s) && Swept(s, s', r)
    ensures exists n :: Visiting(s, s', r, n, s.table[r])
  {
    assert EntryOk(s, r);
    var n := s.ctxs[s.table[r]].serial.value;
    assert RegOk(s, n);
    assert Visiting(s, s', r, n, s.table[r]);
  }

  lemma VisitTables(s: State, s': State, r: nat, n: Serial, x: CtxId)
    requires Basics(s) && Regs(s) && SweptOk(s) && Entries(s) && Visiting(s, s', r, n, x)
    ensures Basics(s') && Regs(s') && SweptOk(s')
  {
    assert RegOk(s, n) && EntryOk(s, r);
    forall m | m in s'.reg ensures RegOk(s', m) { assert RegOk(s, m); }
  }

  lemma VisitEntries(s: State, s': State, r: nat, n: Serial, x: CtxId)
    requires Entries(s) && Takers(s) && Visiting(s, s', r, n, x)
    ensures Entries(s') && Takers(s')
  {
    forall q | q in Live(s') ensures q in s'.table && EntryOk(s', q) { assert EntryOk(s, q); }
    forall j | j in s'.takers ensures TakerOk(s', j) { assert TakerOk(s, j); }
  }

  lemma VisitedCall(s: State, s': State, r: nat, n: Serial, x: CtxId, c: Call)
    requires Visiting(s, s', r, n, x) && CallOk(s, c) && c.serial == Some(n)
    ensures CallOk(s', c)
  {
  }

  lemma VisitCalls(s: State, s': State, r: nat, n: Serial, x: CtxId)
    requires Calls(s) && Visiting(s, s', r, n, x)
    ensures Calls(s')
  {
    CallsOwn(s);
    forall u | u in s.calls && s.calls[u].serial == Some(n) ensures CallOk(s', s.calls[u]) {
      VisitedCall(s, s', r, n, x, s.calls[u]);
    }
    forall u | u in s.calls && s.calls[u].serial != Some(n)
      ensures SameForCall(s, s', s.calls[u])
    {
      assert Owns(s, s.calls[u]);
    }
    OthersCarry(s, s', n);
  }

  lemma OnVisit(s: State, s': State, r: nat, n: Serial, x: CtxId)
    requires Inv(s) && Visiting(s, s', r, n, x)
    ensures Inv(s')
  {
    VisitTables(s, s', r, n, x);
    VisitEntries(s, s', r, n, x);
    VisitCalls(s, s', r, n, x);
    WindowKept(s, s');
  }

  lemma OnSweep(s: State, s': State, r: nat)
    requires Inv(s) && Swept(s, s', r)
    ensures Inv(s')
  {
    SweepVisits(s, s', r);
    var n :| Visiting(s, s', r, n, s.table[r]);
    OnVisit(s, s', r, n, s.table[r]);
  }
}
