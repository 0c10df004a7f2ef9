/** Range goes on as long as f says so, and stops when f says so: over every run with the choices made. */
module PoolMapRange {
  import opened Wrappers
  import opened PoolMapMachine
  import opened PoolMapProof
  import opened PoolMapTheorems

  // ---- Runs with their steps ----

  datatype Act = Begins(t: Tid, op: Op) | Moves(t: Tid, ch: Choice)

  predicate Does(s: State, s': State, a: Act) {
    match a
    case Begins(t, op) => Begin(s, s', t, op)
    case Moves(t, ch) => Move(s, s', t, ch)
  }

  ghost predicate IsTrace(run: seq<State>, acts: seq<Act>) {
    && |run| == |acts| + 1 && run[0] == Initial()
    && forall i, j :: 0 <= i < |acts| && j == i + 1 ==> Does(run[i], run[j], acts[i])
  }

  lemma TraceIsRun(run: seq<State>, acts: seq<Act>)
    requires IsTrace(run, acts)
    ensures IsRun(run)
  {
    forall i | 0 <= i < |run| - 1 ensures Next(run[i], run[i + 1]) { assert Does(run[i], run[i + 1], acts[i]); }
  }

  lemma {:induction false} RunHasTrace(run: seq<State>) returns (acts: seq<Act>)
    requires IsRun(run)
    ensures IsTrace(run, acts)
  {
    acts := [];
    while |acts| < |run| - 1
      invariant |acts| < |run|
      invariant forall i, j :: 0 <= i < |acts| && j == i + 1 ==> Does(run[i], run[j], acts[i])
    {
      assert Next(run[|acts|], run[|acts| + 1]);
      var a := ActOf(run[|acts|], run[|acts| + 1]);
      acts := acts + [a];
    }
  }

  lemma ActOf(s: State, s': State) returns (a: Act)
    requires Next(s, s')
    ensures Does(s, s', a)
  {
    if t, op :| Begin(s, s', t, op) {
      a := Begins(t, op);
    } else {
      var t, ch :| Move(s, s', t, ch);
      a := Moves(t, ch);
    }
  }

  // ---- One visit ----

  /** What the entry that c's snapshot has for k holds. */
  function Holds(sh: Shared, m: MapId, k: Key): Option<PoolId> {
    if k in MapAt(sh, m) then Ans(PtrAt(sh, MapAt(sh, m)[k])) else None
  }

  /** While keys are left one of them is visited: f is called with it if its entry holds a pool, and the
      iteration goes on with the others unless f was called and said no.  When none are left, it ends. */
  lemma RangeGoesOn(run: seq<State>, i: nat, t: Tid, ch: Choice)
    requires IsRun(run) && i < |run| - 1 && Move(run[i], run[i + 1], t, ch) && run[i].calls[t].pc.Iterate?
    ensures var pc, pc' := run[i].calls[t].pc, run[i + 1].calls[t].pc;
            var v := Holds(run[i].sh, pc.m, ch.key);
            var pairs := if v.Some? then pc.pairs[ch.key := v.value] else pc.pairs;
            if pc.todo == {} then pc' == Done(Visited(pc.pairs, true))
            else
              && ch.key in pc.todo
              && pc' == if v.Some? && !ch.more then Done(Visited(pairs, false))
                        else Iterate(pc.m, pc.todo - {ch.key}, pairs)
  {
    RunInv(run, i);
    assert CallOk(run[i].sh, run[i].calls[t]);
  }

  // ---- A whole call ----

  /** f is called and says no. */
  predicate SaysNo(sh: Shared, c: Call, ch: Choice) {
    c.pc.Iterate? && ch.key in c.pc.todo && Holds(sh, c.pc.m, ch.key).Some? && !ch.more
  }

  /** It does so in step i, to the call id of thread t. */
  predicate SaidNo(run: seq<State>, acts: seq<Act>, i: nat, t: Tid, id: CallId) {
    && i < |acts| && i < |run| && acts[i].Moves? && acts[i].t == t && t in run[i].calls && run[i].calls[t].id == id
    && SaysNo(run[i].sh, run[i].calls[t], acts[i].ch)
  }

  predicate RangeOk(c: Call, said: bool) {
    c.op.Range? ==>
      match c.pc
      case Done(a) => a.Visited? && (a.complete <==> !said)
      case Clear(after) => after.Scan? && !said
      case Unlock(after) => after.Scan? && !said
      case _ => !said
  }

  lemma RangeOutside(sh: Shared, mu: Option<Tid>, t: Tid, c: Call, ch: Choice)
    requires RangeOk(c, false) && c.op.Range? && !Holding(c.pc) && StepOutside(sh, mu, t, c, ch).Stepped?
    ensures var d := StepOutside(sh, mu, t, c, ch).c; d.op.Range? && RangeOk(d, SaysNo(sh, c, ch))
  {
  }

  lemma RangeInside(sh: Shared, mu: Option<Tid>, t: Tid, c: Call, ch: Choice)
    requires RangeOk(c, false) && c.op.Range? && Holding(c.pc) && PCOk(sh, c) && Step(sh, mu, t, c, ch).Stepped?
    ensures var d := Step(sh, mu, t, c, ch).c; d.op.Range? && RangeOk(d, false)
  {
  }

  lemma RangeMoves(s: State, s': State, t: Tid, ch: Choice, said: bool)
    requires Inv(s) && Move(s, s', t, ch) && s.calls[t].op.Range? && RangeOk(s.calls[t], said)
    ensures s'.calls[t].op.Range? && RangeOk(s'.calls[t], said || SaysNo(s.sh, s.calls[t], ch))
    ensures !said
  {
    var c := s.calls[t];
    assert CallOk(s.sh, c);
    assert !c.pc.Done?;
    if Holding(c.pc) { RangeInside(s.sh, s.mu, t, c, ch); } else { RangeOutside(s.sh, s.mu, t, c, ch); }
  }

  ghost predicate Said(run: seq<State>, acts: seq<Act>, j: nat, t: Tid, id: CallId) {
    exists i: nat :: i < j && SaidNo(run, acts, i, t, id)
  }

  lemma {:induction false} OlderIds(run: seq<State>, i: nat, j: nat, t: Tid)
    requires IsRun(run) && i <= j < |run| && t in run[i].calls
    ensures run[i].calls[t].id < run[j].nextCall
    decreases j
  {
    RunInv(run, i);
    if i < j {
      OlderIds(run, i, j - 1, t);
      RunNext(run, j);
    }
  }

  lemma SaidNext(run: seq<State>, acts: seq<Act>, i: nat, t: Tid, id: CallId)
    ensures Said(run, acts, i + 1, t, id) <==> Said(run, acts, i, t, id) || SaidNo(run, acts, i, t, id)
  {
  }

  lemma NothingSaid(run: seq<State>, acts: seq<Act>, i: nat, j: nat, t: Tid, op: Op)
    requires IsRun(run) && j == i + 1 < |run| && Begin(run[i], run[j], t, op)
    ensures !Said(run, acts, j, t, run[j].calls[t].id)
  {
    forall h: nat | h < j ensures !SaidNo(run, acts, h, t, run[j].calls[t].id) {
      if t in run[h].calls { OlderIds(run, h, i, t); }
    }
  }

  lemma SameCall(s: State, s': State, a: Act, t: Tid)
    requires Does(s, s', a) && !(a.Begins? && a.t == t) && t in s'.calls
    ensures t in s.calls && s'.calls[t].id == s.calls[t].id && s'.calls[t].op == s.calls[t].op
    ensures a.t != t ==> s'.calls[t] == s.calls[t]
  {
    if a.Moves? && a.t == t { StepKeepsId(s.sh, s.mu, t, s.calls[t], a.ch); }
  }

  predicate Same(c: Call, d: Call) { d.id == c.id && d.op == c.op }

  lemma OutsideKeepsId(sh: Shared, mu: Option<Tid>, t: Tid, c: Call, ch: Choice)
    requires StepOutside(sh, mu, t, c, ch).Stepped?
    ensures Same(c, StepOutside(sh, mu, t, c, ch).c)
  {
  }

  lemma LookingKeepsId(sh: Shared, mu: Option<Tid>, c: Call)
    requires StepLooking(sh, mu, c).Stepped?
    ensures Same(c, StepLooking(sh, mu, c).c)
  {
  }

  lemma GrowingKeepsId(sh: Shared, mu: Option<Tid>, c: Call)
    requires StepGrowing(sh, mu, c).Stepped?
    ensures Same(c, StepGrowing(sh, mu, c).c)
  {
  }

  lemma CopyingKeepsId(sh: Shared, mu: Option<Tid>, c: Call, ch: Choice)
    requires StepCopying(sh, mu, c, ch).Stepped?
    ensures Same(c, StepCopying(sh, mu, c, ch).c)
  {
  }

  lemma LeavingKeepsId(sh: Shared, mu: Option<Tid>, c: Call)
    requires StepLeaving(sh, mu, c).Stepped?
    ensures Same(c, StepLeaving(sh, mu, c).c)
  {
  }

  lemma StepKeepsId(sh: Shared, mu: Option<Tid>, t: Tid, c: Call, ch: Choice)
    requires Step(sh, mu, t, c, ch).Stepped?
    ensures Same(c, Step(sh, mu, t, c, ch).c)
  {
    if Looking?(c.pc) {
      LookingKeepsId(sh, mu, c);
    } else if Growing?(c.pc) {
      GrowingKeepsId(sh, mu, c);
    } else if Copying?(c.pc) {
      CopyingKeepsId(sh, mu, c, ch);
    } else if Leaving?(c.pc) {
      LeavingKeepsId(sh, mu, c);
    } else {
      OutsideKeepsId(sh, mu, t, c, ch);
    }
  }

  lemma {:induction false} RangeSoFar(run: seq<State>, acts: seq<Act>, j: nat, t: Tid)
    requires IsTrace(run, acts) && j < |run| && t in run[j].calls
    ensures RangeOk(run[j].calls[t], Said(run, acts, j, t, run[j].calls[t].id))
    decreases j
  {
    if j > 0 {
      TraceIsRun(run, acts);
      var i, id := j - 1, run[j].calls[t].id;
      assert Does(run[i], run[j], acts[i]);
      if acts[i].Begins? && acts[i].t == t {
        NothingSaid(run, acts, i, j, t, acts[i].op);
      } else {
        RangeSoFar(run, acts, i, t);
        RunInv(run, i);
        SaidNext(run, acts, i, t, id);
        SameCall(run[i], run[j], acts[i], t);
        if acts[i].t == t && run[i].calls[t].op.Range? {
          RangeMoves(run[i], run[j], t, acts[i].ch, Said(run, acts, i, t, id));
        }
      }
    }
  }

  /** A finished Range visited all keys of its snapshot exactly when f never said no. */
  lemma RangeStopsWhenTold(run: seq<State>, acts: seq<Act>, j: nat, t: Tid)
    requires IsTrace(run, acts) && j < |run| && t in run[j].calls
    requires run[j].calls[t].op.Range? && run[j].calls[t].pc.Done?
    ensures var a := run[j].calls[t].pc.answer;
            a.Visited? && (a.complete <==> forall i: nat :: i < j ==> !SaidNo(run, acts, i, t, run[j].calls[t].id))
  {
    RangeSoFar(run, acts, j, t);
  }
}
