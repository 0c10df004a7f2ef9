/** The status of a ClientConn through dialing, reading, timing out and redialing, and what its
    listener is told. */
module Status {
  import opened Wrappers

  datatype Status = Idle | Connecting | ReadTimeout | Active | TransientFailure | Shutdown

  datatype Notice = Notice(from: Status, to: Status)

  // ---- The connection as a machine ----

  /** How a connection is made; dialer says whether there is one to redial with. */
  datatype Start =
    | Given(dialer: bool)             // a connection that can be written to asynchronously
    | Unusable                        // a connection that cannot: NewClientConn fails
    | ToDial                          // no connection but a dialer
    | Undialable                      // neither: NewClientConn fails

  /** What the outside does next; closed: someone has called Close. */
  datatype Event =
    | FirstDial(ok: bool)
    | Started                         // the goroutine of doread begins
    | DeadlineSet                     // the decoder is about to read more bytes
    | Decoded
    | Deadline                        // Decode fails with a deadline error
    | Broke                           // Decode fails otherwise
    | Redial(closed: bool)
    | DialFailed(closed: bool)        // closed: seen before the next attempt
    | DialOk(wrapped: bool)

  /** Where polyfill and then doread are.  broken: the connection is the stand-in for a failed dial. */
  datatype PC = FirstDialing | Starting(broken: bool) | Reading(broken: bool) | Failing | Dialing | Ended

  datatype Conn = Conn(status: Status, log: seq<Notice>, dialer: bool, pc: PC)

  /** OnStatusChange. */
  function Change(c: Conn, to: Status): Conn {
    if c.status == to then c else c.(status := to, log := c.log + [Notice(c.status, to)])
  }

  function At(c: Conn, pc: PC): Conn { c.(pc := pc) }

  function Begin(start: Start): Conn {
    var c := Change(Conn(Idle, [], start.ToDial? || (start.Given? && start.dialer), Ended), Idle);
    match start
    case Given(_) => At(c, Starting(false))
    case Unusable => c
    case ToDial => At(Change(c, Connecting), FirstDialing)
    case Undialable => c
  }

  /** An event that cannot happen where the connection is leaves everything as it is. */
  function Next(c: Conn, e: Event): Conn {
    match c.pc
    case FirstDialing => if e.FirstDial? then At(c, Starting(!e.ok)) else c
    case Starting(broken) => if e.Started? then At(Change(c, Active), Reading(broken)) else c
    case Reading(broken) => NextRead(c, e, broken)
    case Failing =>
      if !e.Redial? then c
      else if e.closed || !c.dialer then At(Change(c, Shutdown), Ended)
      else At(Change(c, Connecting), Dialing)
    case Dialing => NextDial(c, e)
    case Ended => c
  }

  function NextRead(c: Conn, e: Event, broken: bool): Conn {
    match e
    case DeadlineSet => Change(c, Active)
    case Deadline => if broken then At(Change(c, TransientFailure), Failing) else Change(c, ReadTimeout)
    case Broke => At(Change(c, TransientFailure), Failing)
    case _ => c
  }

  function NextDial(c: Conn, e: Event): Conn {
    match e
    case DialFailed(closed) => if closed then At(Change(c, Shutdown), Ended) else c
    case DialOk(wrapped) => if wrapped then At(Change(c, Active), Reading(false)) else At(Change(c, Shutdown), Ended)
    case _ => c
  }

  function After(c: Conn, events: seq<Event>): Conn {
    if events == [] then c else Next(After(c, events[..|events| - 1]), events[|events| - 1])
  }

  function Run(start: Start, events: seq<Event>): Conn {
    After(Begin(start), events)
  }

  // ---- What listeners see ----

  predicate Edge(n: Notice) {
    match n.from
    case Idle => n.to == Connecting || n.to == Active
    case Connecting => n.to == Active || n.to == Shutdown
    case Active => n.to == ReadTimeout || n.to == TransientFailure
    case ReadTimeout => n.to == Active || n.to == TransientFailure
    case TransientFailure => n.to == Connecting || n.to == Shutdown
    case Shutdown => false
  }

  /** The status after a log. */
  function Last(log: seq<Notice>): Status {
    if log == [] then Idle else log[|log| - 1].to
  }

  /** A path from Idle over the ten edges; the first dial is never given up. */
  predicate Allowed(log: seq<Notice>) {
    log == [] ||
    (&& Allowed(log[..|log| - 1]) && log[|log| - 1].from == Last(log[..|log| - 1]) && Edge(log[|log| - 1])
     && !(|log| == 2 && log[1] == Notice(Connecting, Shutdown)))
  }

  predicate IsPath(log: seq<Notice>) {
    forall i :: 0 <= i < |log| ==> log[i].from == Last(log[..i]) && Edge(log[i])
  }

  lemma {:induction false} AllowedIsPath(log: seq<Notice>)
    ensures Allowed(log) <==> IsPath(log) && !(|log| >= 2 && log[1] == Notice(Connecting, Shutdown))
  {
    if log != [] {
      AllowedIsPath(log[..|log| - 1]);
      PathExtends(log);
    }
  }

  lemma PathExtends(log: seq<Notice>)
    requires log != []
    ensures var n := |log| - 1;
            IsPath(log) <==> IsPath(log[..n]) && log[n].from == Last(log[..n]) && Edge(log[n])
  {
    var n := |log| - 1;
    if IsPath(log) { PathFront(log); }
    if IsPath(log[..n]) && log[n].from == Last(log[..n]) && Edge(log[n]) {
      forall i | 0 <= i < |log| ensures log[i].from == Last(log[..i]) && Edge(log[i]) { FrontAt(log, i); }
    }
  }

  lemma FrontAt(log: seq<Notice>, i: nat)
    requires i < |log|
    ensures var front := log[..|log| - 1]; i < |front| ==> front[i] == log[i] && front[..i] == log[..i]
  {
  }

  lemma PathFront(log: seq<Notice>)
    requires log != [] && IsPath(log)
    ensures IsPath(log[..|log| - 1])
  {
    var front := log[..|log| - 1];
    forall i | 0 <= i < |front| ensures front[i].from == Last(front[..i]) && Edge(front[i]) {
      FrontAt(log, i);
      assert log[i].from == Last(log[..i]);
    }
  }

  ghost predicate Agrees(c: Conn) {
    && c.status == Last(c.log) && Allowed(c.log)
    && match c.pc
       case FirstDialing => c.status == Connecting && |c.log| == 1 && c.dialer
       case Starting(_) => (c.status == Idle && c.log == []) || (c.status == Connecting && |c.log| == 1)
       case Reading(_) => c.status == Active || c.status == ReadTimeout
       case Failing => c.status == TransientFailure
       case Dialing => c.status == Connecting && |c.log| >= 2 && c.dialer
       case Ended => c.status == Shutdown || (c.status == Idle && c.log == [])
  }

  lemma ChangeExtends(c: Conn, to: Status)
    requires c.status == Last(c.log) && Allowed(c.log) && (c.status == to || Edge(Notice(c.status, to)))
    requires !(|c.log| == 1 && c.status == Connecting && to == Shutdown)
    ensures var d := Change(c, to); d.status == Last(d.log) && Allowed(d.log)
  {
    var log := c.log + [Notice(c.status, to)];
    assert log[..|log| - 1] == c.log;
  }

  lemma ReadAgrees(c: Conn, e: Event, broken: bool)
    requires Agrees(c) && c.pc == Reading(broken)
    ensures Agrees(NextRead(c, e, broken))
  {
    if e == DeadlineSet || (e == Deadline && !broken) {
      ReadingAgrees(c, broken);
    } else if e == Deadline || e == Broke {
      LosingAgrees(c, broken);
    }
  }

  lemma ReadingAgrees(c: Conn, broken: bool)
    requires Agrees(c) && c.pc == Reading(broken)
    ensures Agrees(Change(c, Active)) && Agrees(Change(c, ReadTimeout))
  {
    ChangeExtends(c, Active);
    ChangeExtends(c, ReadTimeout);
  }

  lemma LosingAgrees(c: Conn, broken: bool)
    requires Agrees(c) && c.pc == Reading(broken)
    ensures Agrees(At(Change(c, TransientFailure), Failing))
  {
    ChangeExtends(c, TransientFailure);
  }

  lemma DialAgrees(c: Conn, e: Event)
    requires Agrees(c) && c.pc.Dialing?
    ensures Agrees(NextDial(c, e))
  {
    ChangeExtends(c, Shutdown);
    ChangeExtends(c, Active);
  }

  lemma StartingAgrees(c: Conn, broken: bool)
    requires Agrees(c) && c.pc == Starting(broken)
    ensures Agrees(At(Change(c, Active), Reading(broken)))
  {
    ChangeExtends(c, Active);
  }

  lemma FailingAgrees(c: Conn)
    requires Agrees(c) && c.pc.Failing?
    ensures Agrees(At(Change(c, Shutdown), Ended))
    ensures c.dialer ==> Agrees(At(Change(c, Connecting), Dialing))
  {
    ChangeExtends(c, Shutdown);
    ChangeExtends(c, Connecting);
  }

  lemma NextAgrees(c: Conn, e: Event)
    requires Agrees(c)
    ensures Agrees(Next(c, e))
  {
    match c.pc
    case FirstDialing =>
    case Starting(broken) => StartingAgrees(c, broken);
    case Reading(broken) => ReadAgrees(c, e, broken);
    case Failing => FailingAgrees(c);
    case Dialing => DialAgrees(c, e);
    case Ended =>
  }

  lemma {:induction false} RunAgrees(start: Start, events: seq<Event>)
    ensures Agrees(Run(start, events))
  {
    if events == [] {
      ChangeExtends(Conn(Idle, [], true, Ended), Connecting);
    } else {
      RunAgrees(start, events[..|events| - 1]);
      NextAgrees(Run(start, events[..|events| - 1]), events[|events| - 1]);
    }
  }

  // ---- Every allowed log happens ----

  /** A run with a dialer, on connections that can be read, that is not about to start. */
  ghost predicate Reaches(start: Start, events: seq<Event>, log: seq<Notice>) {
    var c := Run(start, events);
    c.log == log && c.dialer && !c.pc.Starting? && c.pc != Reading(true)
  }

  lemma RunNext(start: Start, events: seq<Event>, e: Event)
    ensures Run(start, events + [e]) == Next(Run(start, events), e)
  {
    assert (events + [e])[..|events|] == events;
  }

  lemma FirstNotice(log: seq<Notice>)
    requires Allowed(log) && |log| == 1
    ensures exists start, events :: Reaches(start, events, log)
  {
    assert log[..0] == [] && log[0].from == Idle && Edge(log[0]);
    if log[0].to == Active { FirstActive(log); } else { FirstConnecting(log); }
  }

  lemma FirstActive(log: seq<Notice>)
    requires log == [Notice(Idle, Active)]
    ensures exists start, events :: Reaches(start, events, log)
  {
    RunNext(Given(true), [], Started);
    assert Run(Given(true), []) == Begin(Given(true));
    assert Reaches(Given(true), [] + [Started], log);
  }

  lemma FirstConnecting(log: seq<Notice>)
    requires log == [Notice(Idle, Connecting)]
    ensures exists start, events :: Reaches(start, events, log)
  {
    assert Run(ToDial, []) == Begin(ToDial);
    assert Reaches(ToDial, [], log);
  }

  /** The event that makes the next notice, where the last one left the connection. */
  function Cause(n: Notice): Event {
    match n.to
    case Active => if n.from == Connecting then DialOk(true) else DeadlineSet
    case ReadTimeout => Deadline
    case TransientFailure => Broke
    case Connecting => Redial(false)
    case _ => if n.from == Connecting then DialOk(false) else Redial(true)
  }

  predicate Able(c: Conn) { c.dialer && !c.pc.Starting? && c.pc != Reading(true) }

  lemma CauseWorks(c: Conn, n: Notice)
    requires c.status == n.from == Last(c.log) && c.log != [] && Edge(n) && Able(c) && !c.pc.FirstDialing?
    requires match c.pc
             case Reading(_) => c.status == Active || c.status == ReadTimeout
             case Failing => c.status == TransientFailure
             case Dialing => c.status == Connecting
             case _ => c.status == Shutdown
    ensures Able(Next(c, Cause(n))) && Next(c, Cause(n)).log == c.log + [n]
  {
  }

  lemma NextNotice(start: Start, events: seq<Event>, log: seq<Notice>, n: Notice)
    requires Reaches(start, events, log) && |log| >= 1 && Allowed(log + [n])
    ensures exists more :: Reaches(start, more, log + [n])
  {
    RunAgrees(start, events);
    var c := Run(start, events);
    assert (log + [n])[..|log|] == log;
    assert n.from == Last(log) && Edge(n);
    if c.pc.FirstDialing? {
      FirstDialWorks(start, events, log, n);
    } else {
      RunNext(start, events, Cause(n));
      CauseWorks(c, n);
      assert Reaches(start, events + [Cause(n)], log + [n]);
    }
  }

  lemma FirstDialWorks(start: Start, events: seq<Event>, log: seq<Notice>, n: Notice)
    requires Reaches(start, events, log) && |log| == 1 && n.from == Connecting && Edge(n)
    requires n != Notice(Connecting, Shutdown) && Run(start, events).pc.FirstDialing?
             && Run(start, events).status == Connecting
    ensures exists more :: Reaches(start, more, log + [n])
  {
    var once := events + [FirstDial(true)];
    RunNext(start, events, FirstDial(true));
    RunNext(start, once, Started);
    assert Reaches(start, once + [Started], log + [n]);
  }

  lemma {:induction false} AllowedHappens(log: seq<Notice>)
    requires Allowed(log) && log != []
    ensures exists start, events :: Reaches(start, events, log)
  {
    if |log| == 1 {
      FirstNotice(log);
    } else {
      var n := |log| - 1;
      AllowedHappens(log[..n]);
      var start, events :| Reaches(start, events, log[..n]);
      assert log == log[..n] + [log[n]];
      NextNotice(start, events, log[..n], log[n]);
    }
  }

  /** The notices that any run can give are exactly the paths from Idle over ten edges on which the
      first dial is not followed by Shutdown. */
  lemma NoticesAreExactly(log: seq<Notice>)
    ensures (exists start, events :: Run(start, events).log == log) <==>
            IsPath(log) && !(|log| >= 2 && log[1] == Notice(Connecting, Shutdown))
  {
    AllowedIsPath(log);
    if start, events :| Run(start, events).log == log {
      RunAgrees(start, events);
    }
    if Allowed(log) {
      if log == [] {
        assert Run(Given(true), []).log == log;
      } else {
        AllowedHappens(log);
        var start, events :| Reaches(start, events, log);
        assert Run(start, events).log == log;
      }
    }
  }

  /** Nothing follows Shutdown, and Shutdown is where an ended reader is. */
  lemma {:induction false} ShutdownIsLast(start: Start, events: seq<Event>, more: seq<Event>)
    requires Run(start, events).status == Shutdown
    ensures Run(start, events + more) == Run(start, events) && Run(start, events).pc == Ended
  {
    RunAgrees(start, events);
    if more == [] {
      assert events + more == events;
    } else {
      var n := |more| - 1;
      ShutdownIsLast(start, events, more[..n]);
      RunNext(start, events + more[..n], more[n]);
      assert events + more == events + more[..n] + [more[n]];
    }
  }

  // ---- What each event does ----

  lemma AfterPush(c: Conn, events: seq<Event>, e: Event)
    ensures After(c, events + [e]) == Next(After(c, events), e)
  {
    assert (events + [e])[..|events|] == events;
  }

  /** An error that ends the reading: on the stand-in for a failed dial, a deadline as well. */
  predicate Fatal(e: Event, standIn: bool) { e == Broke || (standIn && e == Deadline) }

  /** The status of a reader: the last of deadlines set and passed decides. */
  function Reader(before: Status, events: seq<Event>): Status {
    if events == [] then before
    else
      match events[|events| - 1]
      case Deadline => ReadTimeout
      case DeadlineSet => Active
      case _ => Reader(before, events[..|events| - 1])
  }

  /** Reading goes on until the first fatal error, whatever else happens. */
  lemma {:induction false} ReadsUntilFatal(c: Conn, events: seq<Event>, standIn: bool)
    requires c.pc == Reading(standIn) && forall i :: 0 <= i < |events| ==> !Fatal(events[i], standIn)
    ensures After(c, events).pc == Reading(standIn) && After(c, events).status == Reader(c.status, events)
  {
    if events != [] { ReadsUntilFatal(c, events[..|events| - 1], standIn); }
  }

  /** Then the connection looks for a new one. */
  lemma FatalEnds(c: Conn, events: seq<Event>, e: Event, standIn: bool)
    requires c.pc == Reading(standIn) && Fatal(e, standIn)
    requires forall i :: 0 <= i < |events| ==> !Fatal(events[i], standIn)
    ensures After(c, events + [e]).pc == Failing && After(c, events + [e]).status == TransientFailure
  {
    ReadsUntilFatal(c, events, standIn);
    AfterPush(c, events, e);
  }

  /** What decides a redial. */
  predicate Decides(e: Event) { e.DialOk? || (e.DialFailed? && e.closed) }

  /** Failed attempts are repeated. */
  lemma {:induction false} DialsUntilDecided(c: Conn, events: seq<Event>)
    requires c.pc == Dialing && forall i :: 0 <= i < |events| ==> !Decides(events[i])
    ensures After(c, events) == c
  {
    if events != [] { DialsUntilDecided(c, events[..|events| - 1]); }
  }

  /** A new connection is read, and is no stand-in; one that cannot be wrapped, or a Close, ends it all. */
  lemma DecisionCounts(c: Conn, events: seq<Event>, e: Event)
    requires c.pc == Dialing && Decides(e) && forall i :: 0 <= i < |events| ==> !Decides(events[i])
    ensures var d := After(c, events + [e]);
            if e == DialOk(true) then d.pc == Reading(false) && d.status == Active
            else d.pc == Ended && d.status == Shutdown
  {
    DialsUntilDecided(c, events);
    AfterPush(c, events, e);
    DialingNext(c, e);
  }

  /** A lost connection is redialled exactly when there is a dialer and no one has closed it. */
  lemma {:induction false} RedialsExactly(c: Conn, events: seq<Event>, e: Event)
    requires c.pc == Failing && e.Redial? && forall i :: 0 <= i < |events| ==> !events[i].Redial?
    ensures After(c, events) == c
    ensures var d := After(c, events + [e]);
            if c.dialer && !e.closed then d.pc == Dialing && d.status == Connecting
            else d.pc == Ended && d.status == Shutdown
  {
    if events != [] { RedialsExactly(c, events[..|events| - 1], e); }
    AfterPush(c, events, e);
  }

  /** How it begins: without a usable connection or a dialer not at all; after a failed first dial with a
      stand-in, which is redialled once its deadline has passed. */
  lemma StartsReading(start: Start, ok: bool)
    ensures start.Unusable? || start.Undialable? ==> Run(start, []).pc == Ended && Run(start, []).log == []
    ensures start.Given? ==> Run(start, [Started]).pc == Reading(false) && Run(start, [Started]).dialer == start.dialer
    ensures start.ToDial? ==>
              Run(start, [FirstDial(ok), Started]).pc == Reading(!ok) && Run(start, [FirstDial(ok), Started]).dialer
  {
    AfterPush(Begin(start), [], Started);
    AfterPush(Begin(start), [], FirstDial(ok));
    AfterPush(Begin(start), [FirstDial(ok)], Started);
    assert [] + [Started] == [Started] && [] + [FirstDial(ok)] == [FirstDial(ok)];
    assert [FirstDial(ok)] + [Started] == [FirstDial(ok), Started];
  }

  // ---- The connection ----

  lemma AfterNext(c: Conn, events: seq<Event>, i: nat)
    requires i < |events|
    ensures After(c, events[..i + 1]) == Next(After(c, events[..i]), events[i])
  {
    assert events[..i + 1][..i] == events[..i];
  }

  /** Where mayRedial ended: the events ran out, no new connection, or a new one. */
  datatype Outcome = Out(pc: PC) | Lost | Made

  /** The events are what happens outside; the methods stop where they would wait for more. */
  class ClientConn {
    var status: Status
    var log: seq<Notice>
    const dialer: bool

    constructor (dialer: bool)
      ensures Now(Ended) == Conn(Idle, [], dialer, Ended) && this.dialer == dialer
    {
      this.dialer, status, log := dialer, Idle, [];
    }

    function Now(pc: PC): Conn reads this { Conn(status, log, dialer, pc) }

    method OnStatusChange(to: Status)
      modifies this
      ensures forall pc :: Now(pc) == Change(old(Now(pc)), to)
    {
      var from := status;
      if from == to { return; }
      status := to;
      log := log + [Notice(from, to)];
    }

    method DoRead(broken: bool, env: seq<Event>) returns (pc: PC)
      modifies this
      ensures Now(pc) == After(old(Now(Starting(broken))), env)
    {
      ghost var c := Now(Starting(broken));
      var i := 0;
      while i < |env| && !env[i].Started?
        invariant 0 <= i <= |env| && Now(Starting(broken)) == c == After(c, env[..i])
        modifies {}
      {
        AfterNext(c, env, i);
        i := i + 1;
      }
      assert env[..|env|] == env;
      if i == |env| { return Starting(broken); }
      AfterNext(c, env, i);
      OnStatusChange(Active);
      i := i + 1;
      var standIn := broken;
      while true
        invariant 0 <= i <= |env| && Now(Reading(standIn)) == After(c, env[..i])
        decreases |env| - i
      {
        var lost;
        i, lost := ReadLoop(standIn, env, i, c);
        if !lost { return Reading(standIn); }
        var outcome;
        i, outcome := MayRedial(env, i, c);
        match outcome
        case Out(at) => return at;
        case Lost =>
          OnStatusChange(Shutdown);
          EndStays(c, env, i);
          return Ended;
        case Made =>
          OnStatusChange(Active);
          standIn := false;
      }
    }

    /** Reads until Decode fails for good. */
    method ReadLoop(broken: bool, env: seq<Event>, from: nat, ghost c: Conn) returns (i: nat, lost: bool)
      requires from <= |env| && Now(Reading(broken)) == After(c, env[..from])
      modifies this
      ensures from <= i <= |env|
      ensures !lost ==> i == |env| && Now(Reading(broken)) == After(c, env)
      ensures lost ==> i > from && Now(Failing) == After(c, env[..i])
    {
      i := from;
      while i < |env|
        invariant from <= i <= |env| && Now(Reading(broken)) == After(c, env[..i])
      {
        AfterNext(c, env, i);
        i := i + 1;
        match env[i - 1]
        case DeadlineSet => OnStatusChange(Active);
        case Decoded =>
        case Deadline =>
          if broken {
            OnStatusChange(TransientFailure);
            return i, true;
          }
          OnStatusChange(ReadTimeout);
        case Broke =>
          OnStatusChange(TransientFailure);
          return i, true;
        case _ =>
      }
      assert env[..i] == env;
      return i, false;
    }

    method MayRedial(env: seq<Event>, from: nat, ghost c: Conn) returns (i: nat, outcome: Outcome)
      requires from <= |env| && Now(Failing) == After(c, env[..from])
      modifies this
      ensures from <= i <= |env|
      ensures outcome.Out? ==> i == |env| && Now(outcome.pc) == After(c, env)
      ensures outcome.Lost? ==> i > from && At(Change(Now(Ended), Shutdown), Ended) == After(c, env[..i])
      ensures outcome.Made? ==> i > from && At(Change(Now(Ended), Active), Reading(false)) == After(c, env[..i])
    {
      i := from;
      while i < |env| && !env[i].Redial?
        invariant from <= i <= |env| && Now(Failing) == After(c, env[..i])
        modifies {}
      {
        AfterNext(c, env, i);
        i := i + 1;
      }
      assert env[..|env|] == env;
      if i == |env| { return i, Out(Failing); }
      AfterNext(c, env, i);
      i := i + 1;
      if env[i - 1].closed || !dialer { return i, Lost; }
      i, outcome := Redial(env, i, c);
    }

    /** Dials until it succeeds or the connection is closed. */
    method Redial(env: seq<Event>, from: nat, ghost c: Conn) returns (i: nat, outcome: Outcome)
      requires from <= |env| && At(Change(Now(Ended), Connecting), Dialing) == After(c, env[..from])
      modifies this
      ensures from <= i <= |env|
      ensures outcome.Out? ==> i == |env| && Now(outcome.pc) == After(c, env)
      ensures outcome.Lost? ==> i > from && At(Change(Now(Ended), Shutdown), Ended) == After(c, env[..i])
      ensures outcome.Made? ==> i > from && At(Change(Now(Ended), Active), Reading(false)) == After(c, env[..i])
    {
      OnStatusChange(Connecting);
      i := from;
      assert Now(Dialing) == After(c, env[..i]) && status == Connecting;
      while i < |env|
        invariant from <= i <= |env| && status == Connecting && Now(Dialing) == After(c, env[..i])
        modifies {}
      {
        DialingNext(Now(Dialing), env[i]);
        AfterNext(c, env, i);
        i := i + 1;
        match env[i - 1]
        case DialFailed(closed) => if closed { return i, Lost; }
        case DialOk(wrapped) => return i, if wrapped then Made else Lost;
        case _ =>
      }
      assert env[..i] == env;
      return i, Out(Dialing);
    }
  }

  lemma DialingNext(c: Conn, e: Event)
    requires c.pc.Dialing?
    ensures Next(c, e) ==
            if (e.DialFailed? && e.closed) || (e.DialOk? && !e.wrapped) then At(Change(c, Shutdown), Ended)
            else if e.DialOk? then At(Change(c, Active), Reading(false))
            else c
  {
  }

  lemma {:induction false} EndStays(c: Conn, events: seq<Event>, i: nat)
    requires i <= |events| && After(c, events[..i]).pc == Ended
    ensures After(c, events) == After(c, events[..i])
    decreases |events|
  {
    if i < |events| {
      var n := |events| - 1;
      assert events[..n][..i] == events[..i];
      EndStays(c, events[..n], i);
    } else {
      assert events[..i] == events;
    }
  }
}
