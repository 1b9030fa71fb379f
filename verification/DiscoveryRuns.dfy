// Discovery in every run of a session: what each change does to the request
// queue, and when the callback of an avdtp_discover call fires (avdtp.c).
module DiscoveryRuns {
  import opened Options
  import opened Bytes
  import opened RequestQueue
  import opened AvdtpMessages
  import opened Capabilities
  import opened Discovery
  import opened SessionState
  import opened SessionCommands
  import opened SessionRuns
  import DQ = DiscoveryQueue

  type QueueEvent = DQ.Event<Stream>

  // cancel_request gives the session up.
  predicate CancelFails(v: Shot, ok: bool)
    requires v.q.outstanding.Some?
  {
    var r := v.q.outstanding.value;
    EndsSession(r.signal) || Target(v, r).None? || !ok
  }

  // avdtp_abort cancels the outstanding request.
  ghost predicate Cancels(v: Shot, s: Stream)
    requires Good(v)
  {
    && s in v.streams && v.places[s.lsep].state != Aborting
    && v.q.outstanding.Some? && v.armed && v.q.outstanding.value.stream == Some(s)
  }

  ghost predicate CancelLoses(v: Shot, s: Stream, ok: bool)
    requires Good(v)
  {
    Cancels(v, s) && (DQ.IsAsk(v.q.outstanding) || CancelFails(v, ok))
  }

  // The change gives the session up, or ends a capability request that was not
  // accepted, or cannot send one whose turn it is.
  ghost predicate Loses(v: Shot, c: Change) {
    && Possible(v, c)
    && match c
       case Commanded(effect, marked, alive, next) => !alive || (marked && !next && MoreToCome(Effected(v, effect).q))
       case Settles(outcome, next) =>
         UnarmedGood(v);
         || ((outcome.Declines? || outcome.Disregarded?) && DQ.IsAsk(v.q.outstanding))
         || (!next && MoreToCome(OutcomeOf(Unarmed(v), outcome).q))
       case AnswerFails => true
       case ChannelFails => true
       case TimesOut(ok) => DQ.IsAsk(v.q.outstanding) || CancelFails(v, ok)
       case NeverOpens(s, ok) => CancelLoses(v, s, ok)
       case Aborts(s, ok) => CancelLoses(v, s, ok)
       case _ => false
  }

  // An answer that discovery goes on with.
  predicate Finding(c: Change) { c.Settles? && c.outcome.Finds? }

  predicate Describing(c: Change) { c.Settles? && c.outcome.Describes? }

  // ------------------------------------------------ the queue in a session

  lemma One(q: Pending<Req>, e: QueueEvent)
    ensures DQ.Run(q, [e]) == DQ.Step(q, e)
    ensures DQ.Proper(q, e) ==> DQ.AllProper(q, [e])
    ensures DQ.Proper(q, e) && DQ.Keeps(q, e) && !e.Found? && !e.Answered? ==> DQ.AllKeep(q, [e])
  {
    assert [e][1..] == [];
  }

  lemma Two(q: Pending<Req>, d: QueueEvent, e: QueueEvent)
    ensures DQ.Run(q, [d, e]) == DQ.Step(DQ.Step(q, d), e)
    ensures DQ.Proper(q, d) && DQ.Proper(DQ.Step(q, d), e) ==> DQ.AllProper(q, [d, e])
    ensures DQ.Proper(q, d) && DQ.Keeps(q, d) && !d.Found? && !d.Answered?
         && DQ.Proper(DQ.Step(q, d), e) && DQ.Keeps(DQ.Step(q, d), e) && !e.Found? && !e.Answered?
         ==> DQ.AllKeep(q, [d, e])
  {
    assert [d, e][1..] == [e];
    One(DQ.Step(q, d), e);
    hide DQ.Step, DQ.Keeps, DQ.Proper;
  }

  lemma IdleEvent(v: Shot, p: LocalSep) returns (es: seq<QueueEvent>)
    requires p in v.places
    ensures WentIdle(v, p).q == DQ.Run(v.q, es) && DQ.AllProper(v.q, es) && DQ.AllKeep(v.q, es)
  {
    es := [];
    if v.places[p].stream.Some? {
      var s := v.places[p].stream.value;
      var e := DQ.Gone(s, Orphaned(v.q.outstanding, v.armed, s));
      One(v.q, e);
      es := [e];
    }
  }

  lemma {:induction false} ReleasedEvents(v: Shot, streams: seq<Stream>) returns (es: seq<QueueEvent>)
    requires forall s :: s in streams ==> s.lsep in v.places
    ensures Released(v, streams).q == DQ.Run(v.q, es) && DQ.AllProper(v.q, es)
    decreases |streams|
  {
    es := [];
    if streams != [] {
      var w := WentIdle(v, streams[0].lsep);
      assert w.places.Keys == v.places.Keys;
      var first := IdleEvent(v, streams[0].lsep);
      var more := ReleasedEvents(w, streams[1..]);
      DQ.RunJoin(v.q, first, more);
      es := first + more;
    }
  }

  lemma LostEvents(v: Shot) returns (es: seq<QueueEvent>)
    requires Good(v)
    ensures forall s :: s in v.streams ==> s.lsep in v.places
    ensures Lost(v).q == DQ.Run(v.q, es) && DQ.AllProper(v.q, es)
  {
    SessionRuns.Listed(v);
    es := ReleasedEvents(v, v.streams);
    hide Released, Good;
  }

  lemma BrokenEvents(v: Shot) returns (es: seq<QueueEvent>)
    requires Good(v)
    ensures Broken(v).q == DQ.Run(v.q, es) && DQ.AllProper(v.q, es)
  {
    es := LostEvents(v);
    hide Good, Lost;
  }

  lemma CancelledEvents(v: Shot, ok: bool) returns (es: seq<QueueEvent>)
    requires Good(v) && v.q.outstanding.Some?
    ensures forall s :: s in v.streams ==> s.lsep in v.places
    ensures Cancelled(v, ok).q == DQ.Run(v.q, es) && DQ.AllProper(v.q, es)
    ensures !DQ.IsAsk(v.q.outstanding) && !CancelFails(v, ok) ==> DQ.AllKeep(v.q, es)
  {
    SessionRuns.Listed(v);
    NoneOutstandingGood(v);
    One(v.q, DQ.GivenUp);
    if CancelFails(v, ok) {
      var more := LostEvents(NoneOutstanding(v));
      DQ.RunJoin(v.q, [DQ.GivenUp], more);
      es := [DQ.GivenUp] + more;
    } else {
      var r := v.q.outstanding.value;
      var e := DQ.Submitted(true, PendingReq(Abort, r.seid, Target(v, r)), true);
      Two(v.q, DQ.GivenUp, e);
      es := [DQ.GivenUp, e];
    }
    hide Good, Lost;
  }

  lemma AbortAskedEvents(v: Shot, s: Stream, ok: bool) returns (es: seq<QueueEvent>)
    requires Good(v)
    ensures AbortAsked(v, s, ok).q == DQ.Run(v.q, es) && DQ.AllProper(v.q, es)
    ensures !CancelLoses(v, s, ok) ==> DQ.AllKeep(v.q, es)
  {
    es := [];
    if Cancels(v, s) {
      es := CancelledEvents(v, ok);
    } else if AbortAsked(v, s, ok) != v {
      var e := DQ.Submitted(true, PendingReq(Abort, s.rseid, Some(s)), ok);
      One(v.q, e);
      es := [e];
    }
    hide Good, Cancelled;
  }

  // A request that has nothing to do with discovery is submitted, perhaps.
  lemma SubmitEvent(q: Pending<Req>, priority: bool, r: Req, ok: bool)
    requires !ForDiscovery(r.signal)
    ensures var es := [DQ.Submitted(priority, r, ok)];
      SendReq(q, priority, r, ok) == DQ.Run(q, es) && DQ.AllProper(q, es) && DQ.AllKeep(q, es)
  {
    One(q, DQ.Submitted(priority, r, ok));
  }

  lemma MovedEvents(v: Shot, p: LocalSep, state: State, report: Option<bool>) returns (es: seq<QueueEvent>)
    requires p in v.places
    ensures MovedTo(v, p, state, report).q == DQ.Run(v.q, es) && DQ.AllProper(v.q, es) && DQ.AllKeep(v.q, es)
    ensures |es| <= 1 && (es != [] ==> es[0].Submitted?)
  {
    es := [];
    if state == Configured && report.Some? && v.places[p].stream.Some? {
      var s := v.places[p].stream.value;
      SubmitEvent(v.q, true, PendingReq(Signal.DelayReport, s.rseid, Some(s)), report.value);
      es := [DQ.Submitted(true, PendingReq(Signal.DelayReport, s.rseid, Some(s)), report.value)];
    }
  }

  lemma EffectedEvents(v: Shot, e: Effect) returns (es: seq<QueueEvent>)
    requires EffectReady(v, e)
    ensures Effected(v, e).q == DQ.Run(v.q, es) && DQ.AllProper(v.q, es) && DQ.AllKeep(v.q, es)
    ensures |es| <= 1 && (es != [] ==> es[0].Submitted?)
    ensures v.q.outstanding.Some? ==> Effected(v, e).q.outstanding == v.q.outstanding
  {
    hide MovedTo, Walked, Forget;
    es := [];
    if e.Attaches? {
      TakenPlace(v, e.p, e.s);
      es := MovedEvents(Taken(v, e.p, e.s), e.p, Configured, e.report);
      if es != [] { One(v.q, es[0]); assert es == [es[0]]; }
    }
    hide DQ.AllProper, DQ.AllKeep;
  }

  lemma AfterEvents(v: Shot, marked: bool, alive: bool, next: bool) returns (es: seq<QueueEvent>)
    requires Good(v) && (marked ==> v.q.outstanding.Some? && !DQ.IsAsk(v.q.outstanding))
    ensures AfterCommand(v, marked, alive, next).q == DQ.Run(v.q, es) && DQ.AllProper(v.q, es)
    ensures alive && !(marked && !next && MoreToCome(v.q)) ==> DQ.AllKeep(v.q, es)
  {
    hide Broken, Good;
    es := [];
    if !alive {
      es := BrokenEvents(v);
    } else if marked {
      One(v.q, DQ.Replied(next));
      es := [DQ.Replied(next)];
    }
  }

  lemma CommandedEvents(v: Shot, e: Effect, marked: bool, alive: bool, next: bool) returns (es: seq<QueueEvent>)
    requires Possible(v, Commanded(e, marked, alive, next))
    ensures Changed(v, Commanded(e, marked, alive, next)).q == DQ.Run(v.q, es) && DQ.AllProper(v.q, es)
    ensures !Loses(v, Commanded(e, marked, alive, next)) ==> DQ.AllKeep(v.q, es)
  {
    WhenCommanded(v, e, marked, alive, next);
    var first := EffectedEvents(v, e);
    var more := AfterEvents(Effected(v, e), marked, alive, next);
    DQ.RunJoin(v.q, first, more);
    KeepJoin(v.q, first, more);
    es := first + more;
    hide Good, Effected, EffectReady, AfterCommand, Changed;
  }

  lemma {:induction false} KeepJoin(q: Pending<Req>, a: seq<QueueEvent>, b: seq<QueueEvent>)
    ensures DQ.AllKeep(q, a) && DQ.AllKeep(DQ.Run(q, a), b) ==> DQ.AllKeep(q, a + b)
    decreases |a|
  {
    if a == [] {
      assert a + b == b;
    } else {
      KeepJoin(DQ.Step(q, a[0]), a[1..], b);
      assert (a + b)[1..] == a[1..] + b;
    }
  }

  // What an answer does to the queue before the next request goes.
  lemma AcceptingEvents(v: Shot, signal: Signal, s: Stream, report: Option<bool>) returns (es: seq<QueueEvent>)
    requires s.lsep in v.places && !v.armed
    ensures Accepting(v, signal, s, report).q == DQ.Run(v.q, es) && DQ.AllProper(v.q, es) && DQ.AllKeep(v.q, es)
    ensures v.q.outstanding.Some? ==> Accepting(v, signal, s, report).q.outstanding == v.q.outstanding
  {
    hide WentIdle, MovedTo, Moved;
    es := [];
    if signal.SetConfiguration? {
      es := MovedEvents(v, s.lsep, Configured, report);
      MovedOutstanding(v, s.lsep, Configured, report);
    } else if signal.Abort? {
      MovedCalls(v, s.lsep, Aborting);
      es := IdleEvent(Moved(v, s.lsep, Aborting), s.lsep);
      UnarmedIdle(Moved(v, s.lsep, Aborting), s.lsep);
    } else {
      MovedCalls(v, s.lsep, Streaming);
      MovedCalls(v, s.lsep, Opened);
      MovedCalls(v, s.lsep, Closing);
    }
    hide DQ.Run, DQ.AllProper, DQ.AllKeep;
  }

  lemma MovedOutstanding(v: Shot, p: LocalSep, state: State, report: Option<bool>)
    requires p in v.places
    ensures v.q.outstanding.Some? ==> MovedTo(v, p, state, report).q.outstanding == v.q.outstanding
  {}

  lemma UnarmedIdle(v: Shot, p: LocalSep)
    requires p in v.places && !v.armed
    ensures WentIdle(v, p).q.outstanding == v.q.outstanding
  {}

  lemma SettledEvents(v: Shot, o: Outcome, next: bool) returns (es: seq<QueueEvent>)
    requires Possible(v, Settles(o, next)) && !o.Finds? && !o.Describes?
    ensures Changed(v, Settles(o, next)).q == DQ.Run(v.q, es) && DQ.AllProper(v.q, es)
    ensures !Loses(v, Settles(o, next)) ==> DQ.AllKeep(v.q, es)
  {
    WhenSettled(v, o, next);
    var u := Unarmed(v);
    var first: seq<QueueEvent> := [];
    if o.OnStream? {
      SessionRuns.Listed(u);
      first := AcceptingEvents(u, o.signal, o.s, o.report);
    }
    var w := OutcomeOf(u, o);
    One(w.q, DQ.Replied(next));
    DQ.RunJoin(v.q, first, [DQ.Replied(next)]);
    KeepJoin(v.q, first, [DQ.Replied(next)]);
    es := first + [DQ.Replied(next)];
    hide Good, Changed, Accepting;
  }

  // A DISCOVER answer asks about its end points, and then the next request goes.
  lemma FoundEvent(v: Shot, queries: seq<byte>, cmd: Signal, next: bool)
    requires Possible(v, Settles(Finds(queries, cmd), next))
    ensures var c, e := Settles(Finds(queries, cmd), next), DQ.Found(queries, cmd, next);
      Changed(v, c).q == DQ.Step(v.q, e) && DQ.Proper(v.q, e) && (!Loses(v, c) ==> DQ.Keeps(v.q, e))
  {
    var u := Unarmed(v);
    UnarmedGood(v);
    DiscoveringTalk(u, queries, cmd);
    NothingKnown(TalkOf(u), cmd);
    assert OutcomeOf(u, Finds(queries, cmd)).q == v.q.(prio := v.q.prio + Asks(queries, cmd));
    WhenSettled(v, Finds(queries, cmd), next);
    hide Good, Changed, Discovering;
  }

  lemma AnsweredEvent(v: Shot, id: byte, caps: seq<Cap>, reports: bool, next: bool)
    requires Possible(v, Settles(Describes(id, caps, reports), next))
    ensures var c: Change, e: QueueEvent := Settles(Describes(id, caps, reports), next), DQ.Answered(next);
      Changed(v, c).q == DQ.Step(v.q, e) && DQ.Proper(v.q, e) && (!Loses(v, c) ==> DQ.Keeps(v.q, e))
  {
    UnarmedGood(v);
    WhenSettled(v, Describes(id, caps, reports), next);
    hide Good, Changed;
  }

  lemma DiscoverEvents(v: Shot, ok: bool) returns (es: seq<QueueEvent>)
    requires Good(v)
    ensures DiscoverCalled(v, ok).q == DQ.Run(v.q, es) && DQ.AllProper(v.q, es) && DQ.AllKeep(v.q, es)
  {
    es := [];
    if v.seps == map[] {
      assert DQ.NoneAsks(v.q.prio) by {
        forall i | 0 <= i < |v.q.prio| ensures !AsksCapabilities(v.q.prio[i].signal) {
          assert NamesOnly(v.q.prio[i], v.streams, v.seps);
        }
      }
      var e := DQ.Submitted(false, PendingReq(Signal.Discover, 0, None), ok);
      One(v.q, e);
      es := [e];
    }
  }

  lemma OtherEvents(v: Shot, c: Change) returns (es: seq<QueueEvent>)
    requires Possible(v, c) && !c.Commanded? && !c.Settles?
    ensures Changed(v, c).q == DQ.Run(v.q, es) && DQ.AllProper(v.q, es)
    ensures !Loses(v, c) ==> DQ.AllKeep(v.q, es)
  {
    hide Good, Broken, Cancelled, AbortAsked, WentIdle, MovedTo, Forget, DQ.Proper, DQ.Keeps, DQ.Step, DiscoverCalled;
    es := [];
    match c
    case AnswerFails =>
      UnarmedGood(v);
      es := BrokenEvents(Unarmed(v));
    case ChannelFails => es := BrokenEvents(v);
    case TimesOut(ok) => es := CancelledEvents(v, ok);
    case NeverOpens(s, ok) =>
      NonePendingGood(v);
      es := AbortAskedEvents(v.(pendingOpen := None), s, ok);
    case Aborts(s, ok) => es := AbortAskedEvents(v, s, ok);
    case Requests(priority, r, ok) =>
      SubmitEvent(v.q, priority, r, ok);
      es := [DQ.Submitted(priority, r, ok)];
    case Configures(p, s, ok) => es := ConfiguringEvents(v, p, s, ok);
    case AnswersLate(p, s, sent, report) => es := LateEvents(v, p, s, sent, report);
    case GoesIdle(p) => es := IdleEvent(v, p);
    case Discovers(ok) => es := DiscoverEvents(v, ok);
    case _ =>
  }

  lemma ConfiguringEvents(v: Shot, p: LocalSep, s: Stream, ok: bool) returns (es: seq<QueueEvent>)
    requires p in v.places && s.rseid in v.seps
    ensures Configuring(v, p, s, ok).q == DQ.Run(v.q, es) && DQ.AllProper(v.q, es) && DQ.AllKeep(v.q, es)
  {
    es := [];
    if v.q.outstanding.Some? || ok {
      SubmitEvent(v.q, false, PendingReq(SetConfiguration, s.rseid, Some(s)), ok);
      es := [DQ.Submitted(false, PendingReq(SetConfiguration, s.rseid, Some(s)), ok)];
    }
  }

  lemma LateEvents(v: Shot, p: LocalSep, s: Stream, sent: bool, report: Option<bool>) returns (es: seq<QueueEvent>)
    requires p in v.places
    ensures SettledLate(v, p, s, sent, report).q == DQ.Run(v.q, es) && DQ.AllProper(v.q, es) && DQ.AllKeep(v.q, es)
  {
    hide MovedTo;
    es := [];
    if sent {
      TakenPlace(v, p, s);
      es := MovedEvents(Taken(v, p, s), p, Configured, report);
    }
  }

  // Everything a session does to its queue is one of the events of module
  // DiscoveryQueue, and what loses no capability request keeps them.
  lemma ChangeEvents(v: Shot, c: Change) returns (es: seq<QueueEvent>)
    requires Possible(v, c)
    ensures Changed(v, c).q == DQ.Run(v.q, es) && DQ.AllProper(v.q, es)
    ensures !Loses(v, c) && !Finding(c) && !Describing(c) ==> DQ.AllKeep(v.q, es)
  {
    match c
    case Commanded(effect, marked, alive, next) => es := CommandedEvents(v, effect, marked, alive, next);
    case Settles(outcome, next) =>
      if outcome.Finds? {
        FoundEvent(v, outcome.queries, outcome.cmd, next);
        One(v.q, DQ.Found(outcome.queries, outcome.cmd, next));
        es := [DQ.Found(outcome.queries, outcome.cmd, next)];
      } else if outcome.Describes? {
        AnsweredEvent(v, outcome.id, outcome.caps, outcome.reports, next);
        One(v.q, DQ.Answered(next));
        es := [DQ.Answered(next)];
      } else {
        es := SettledEvents(v, outcome, next);
      }
    case _ => es := OtherEvents(v, c);
    hide Good, Ready, Changed, Loses, DQ.AllProper, DQ.AllKeep, DQ.Proper, DQ.Step, DQ.Run;
  }

  lemma ChangedOrdered(v: Shot, c: Change)
    requires Possible(v, c) && DQ.Ordered(v.q)
    ensures DQ.Ordered(Changed(v, c).q)
  {
    var es := ChangeEvents(v, c);
    DQ.RunOrdered(v.q, es);
    hide Good, Ready, Changed, DQ.Ordered, DQ.AllProper, DQ.AllKeep, DQ.Run;
  }

  // ------------------------------------------------ the discovery meanwhile

  lemma CommandedSame(v: Shot, e: Effect, marked: bool, next: bool)
    requires Possible(v, Commanded(e, marked, true, next))
    ensures CallsSame(v, Changed(v, Commanded(e, marked, true, next)))
  {
    WhenCommanded(v, e, marked, true, next);
    EffectedCalls(v, e);
    hide Good, Effected, EffectReady, Changed, RequestQueue.ProcessQueue;
  }

  lemma SettledSame(v: Shot, o: Outcome, next: bool)
    requires Possible(v, Settles(o, next)) && (o.OnStream? || o.Disregarded?)
    ensures CallsSame(v, Changed(v, Settles(o, next)))
  {
    WhenSettled(v, o, next);
    if o.OnStream? {
      SessionRuns.Listed(Unarmed(v));
      AcceptingCalls(Unarmed(v), o.signal, o.s, o.report);
    }
    hide Good, Changed, Accepting, RequestQueue.ProcessQueue;
  }

  lemma AbortedSame(v: Shot, s: Stream, ok: bool)
    requires Good(v) && !CancelLoses(v, s, ok)
    ensures CallsSame(v, AbortAsked(v, s, ok))
  {
    hide Good;
  }

  // What loses nothing and has nothing to do with discovery leaves it alone.
  lemma DiscoverSame(v: Shot, c: Change)
    requires Possible(v, c) && !Loses(v, c)
    requires !Finding(c) && !Describing(c) && !Refusing(c) && !c.Discovers? && !c.IdleRuns?
    ensures CallsSame(v, Changed(v, c))
  {
    hide Good, AbortAsked, WentIdle, MovedTo, Accepting, Forget, Effected, EffectReady;
    match c
    case Commanded(effect, marked, alive, next) => CommandedSame(v, effect, marked, next);
    case Settles(outcome, next) => SettledSame(v, outcome, next);
    case NeverOpens(s, ok) =>
      NonePendingGood(v);
      AbortedSame(v.(pendingOpen := None), s, ok);
    case Aborts(s, ok) => AbortedSame(v, s, ok);
    case GoesIdle(p) => IdleCalls(v, p);
    case AnswersLate(p, s, sent, report) => LateCalls(v, p, s, sent, report);
    case _ =>
  }

  // An answer about capabilities ends the discovery if no more are to come.
  lemma DescribedCalls(v: Shot, id: byte, caps: seq<Cap>, reports: bool, next: bool)
    requires Possible(v, Settles(Describes(id, caps, reports), next))
    ensures var w := Changed(v, Settles(Describes(id, caps, reports), next));
      && (MoreToCome(v.q) ==> CallsSame(v, w))
      && (!MoreToCome(v.q) ==> w.ended == Fired(v))
  {
    WhenSettled(v, Describes(id, caps, reports), next);
    FiledCalls(Unarmed(v), id, caps, reports);
    hide Good, Changed, RequestQueue.ProcessQueue;
  }

  lemma FoundCalls(v: Shot, queries: seq<byte>, cmd: Signal, next: bool)
    requires Possible(v, Settles(Finds(queries, cmd), next))
    ensures var w := Changed(v, Settles(Finds(queries, cmd), next));
      if queries == [] then w.ended == Fired(v) else CallsSame(v, w)
  {
    WhenSettled(v, Finds(queries, cmd), next);
    NotedAllCalls(Unarmed(v), queries, cmd);
    hide Good, Changed, RequestQueue.ProcessQueue;
  }

  // What has fired has fired.
  lemma StaysEnded(v: Shot, c: Change, n: nat)
    requires Possible(v, c) && n in v.ended
    ensures n in Changed(v, c).ended
  {
    ChangedCalls(v, c);
    IdleUse(v, c);
    hide Good, Changed;
  }

  // -------------------------------------------------------- one step on

  // The capability requests of the call still wait, and it has not ended.
  ghost predicate Going(v: Shot, call: Call, idles: nat, rest: seq<byte>, cmd: Signal) {
    && v.discover == Some(call) && call.cb && call.number !in v.ended && v.idles == idles
    && rest != [] && DQ.OnCourse(v.q, rest, cmd)
  }

  // While capability requests wait, no answer to a DISCOVER comes, and those
  // about capabilities come in order.
  lemma StaysOnCourse(v: Shot, c: Change, rest: seq<byte>, cmd: Signal)
    requires Possible(v, c) && !Loses(v, c) && DQ.Ordered(v.q)
    requires DQ.OnCourse(v.q, rest, cmd) && rest != [] && AsksCapabilities(cmd)
    ensures !Finding(c) && !Refusing(c)
    ensures Describing(c) ==> c.outcome.id == rest[0] && (MoreToCome(v.q) <==> rest[1..] != [])
    ensures DQ.OnCourse(Changed(v, c).q, if Describing(c) then rest[1..] else rest, cmd)
  {
    DQ.NoDiscoverOnCourse(v.q, rest, cmd);
    var es := ChangeEvents(v, c);
    if Describing(c) {
      var o := c.outcome;
      AnsweredEvent(v, o.id, o.caps, o.reports, c.next);
      DQ.AnsweredOnCourse(v.q, rest, cmd, c.next);
    } else if !Finding(c) {
      DQ.RunOnCourse(v.q, es, rest, cmd);
    }
    hide Good, Changed, DQ.OnCourse, DQ.Ordered, DQ.AllProper, DQ.AllKeep, DQ.Run, DQ.Step;
  }

  lemma GoesOn(v: Shot, c: Change, call: Call, idles: nat, rest: seq<byte>, cmd: Signal)
    requires Possible(v, c) && !Loses(v, c) && DQ.Ordered(v.q) && Going(v, call, idles, rest, cmd)
    requires AsksCapabilities(cmd)
    ensures var w := Changed(v, c);
      if c.IdleRuns? then idles > 0 && call.number in w.ended
      else if Describing(c) && rest[1..] == [] then call.number in w.ended
      else Going(w, call, idles, if Describing(c) then rest[1..] else rest, cmd)
  {
    StaysOnCourse(v, c, rest, cmd);
    if c.IdleRuns? {
      IdleUse(v, c);
    } else if Describing(c) {
      var o := c.outcome;
      DescribedCalls(v, o.id, o.caps, o.reports, c.next);
    } else {
      assert !c.Discovers?;
      DiscoverSame(v, c);
    }
    hide Good, Changed, Loses, DQ.OnCourse, DQ.Ordered;
  }

  // ------------------------------------------------------------ whole runs

  ghost predicate Impossible(v: Shot, c: Change) { !Possible(v, c) }

  // Each change of the run can be made where it comes.
  ghost predicate Runs(v: Shot, changes: seq<Change>) { Never(v, changes, Impossible) }

  // The accepted capability requests of a run, with what was answered.
  function Answers(changes: seq<Change>): seq<(byte, seq<Cap>)> {
    if changes == [] then []
    else
      var c := changes[|changes| - 1];
      Answers(changes[..|changes| - 1]) + if Describing(c) then [(c.outcome.id, c.outcome.caps)] else []
  }

  lemma {:induction false} RanOrdered(v: Shot, changes: seq<Change>)
    requires DQ.Ordered(v.q) && Runs(v, changes)
    ensures DQ.Ordered(Ran(v, changes).q)
  {
    hide Possible, Changed, Never, DQ.Ordered;
    if changes != [] {
      var before, c := changes[..|changes| - 1], changes[|changes| - 1];
      NeverEarlier(v, changes, Impossible);
      RanOrdered(v, before);
      ChangedOrdered(Ran(v, before), c);
    }
  }

  predicate SourceRan(changes: seq<Change>) { exists i :: 0 <= i < |changes| && changes[i].IdleRuns? }

  lemma SourceRanMore(changes: seq<Change>, c: Change)
    ensures SourceRan(changes + [c]) <==> SourceRan(changes) || c.IdleRuns?
  {
    var more := changes + [c];
    assert more[|changes|] == c;
    if SourceRan(changes) {
      var i :| 0 <= i < |changes| && changes[i].IdleRuns?;
      assert more[i].IdleRuns?;
    }
  }

  // Where a discovery stands after any run that loses nothing: either its
  // requests wait, or it has ended, with the last answer or its idle source.
  lemma {:induction false} CourseRan(u: Shot, call: Call, queries: seq<byte>, cmd: Signal, changes: seq<Change>)
    requires Going(u, call, u.idles, queries, cmd) && DQ.Ordered(u.q) && AsksCapabilities(cmd)
    requires Runs(u, changes) && Never(u, changes, Loses)
    ensures var w, k := Ran(u, changes), |Answers(changes)|;
      && (forall i :: 0 <= i < k && i < |queries| ==> Answers(changes)[i].0 == queries[i])
      && (k < |queries| ==> DQ.OnCourse(w.q, queries[k..], cmd))
      && if k < |queries| && !SourceRan(changes) then Going(w, call, u.idles, queries[k..], cmd)
         else if k < |queries| then u.idles > 0 && call.number in w.ended
         else call.number in w.ended
  {
    hide Possible, Changed, Never, Loses, DQ.Ordered, DQ.OnCourse;
    assert queries[0..] == queries;
    if changes != [] {
      var before, c := changes[..|changes| - 1], changes[|changes| - 1];
      NeverEarlier(u, changes, Impossible);
      NeverEarlier(u, changes, Loses);
      CourseRan(u, call, queries, cmd, before);
      RanOrdered(u, before);
      SourceRanMore(before, c);
      assert changes == before + [c];
      var v, k := Ran(u, before), |Answers(before)|;
      if k < |queries| {
        StaysOnCourse(v, c, queries[k..], cmd);
        assert queries[k..][1..] == queries[k + 1..];
        if !SourceRan(before) { GoesOn(v, c, call, u.idles, queries[k..], cmd); }
      }
      if call.number in v.ended { StaysEnded(v, c, call.number); }
    }
    hide Going;
  }

  // A DISCOVER answer comes during a discovery with a callback, in any session
  // and after any run, and n end points are asked about. As long as nothing is
  // lost their capabilities come in that order, and the callback has fired
  // exactly if all n have, at once for n = 0, or if the discovery waited in an
  // idle source and that ran first. It never fires twice.
  lemma DiscoveryCompletes(v0: Shot, before: seq<Change>, queries: seq<byte>, cmd: Signal, next: bool,
                           after: seq<Change>)
    requires JustMade(v0) && Runs(v0, before)
    requires var v, c := Ran(v0, before), Settles(Finds(queries, cmd), next);
      && Possible(v, c) && !Loses(v, c) && v.discover.Some? && v.discover.value.cb
      && Runs(Changed(v, c), after) && Never(Changed(v, c), after, Loses)
    ensures var v, answers := Ran(v0, before), Answers(after);
      var w := Ran(Changed(v, Settles(Finds(queries, cmd), next)), after);
      && v.discover.value.number !in v.ended
      && (v.discover.value.number in w.ended <==> |answers| >= |queries| || (v.idles > 0 && SourceRan(after)))
      && (forall i :: 0 <= i < |answers| && i < |queries| ==> answers[i].0 == queries[i])
  {
    var v, c := Ran(v0, before), Settles(Finds(queries, cmd), next);
    var u, call := Changed(v, c), v.discover.value;
    assert DQ.Ordered(v0.q);
    RanOrdered(v0, before);
    ChangedOrdered(v, c);
    FoundEvent(v, queries, cmd, next);
    FoundCalls(v, queries, cmd, next);
    DQ.FoundOnCourse(v.q, queries, cmd, next);
    if queries == [] {
      RanEnded(u, after, call.number);
    } else {
      CourseRan(u, call, queries, cmd, after);
    }
    hide Good, Changed, Loses, Never, Ran, DQ.OnCourse, DQ.Ordered, DQ.Step, DQ.Proper, DQ.Keeps;
  }

  lemma {:induction false} RanEnded(v: Shot, changes: seq<Change>, n: nat)
    requires Runs(v, changes) && n in v.ended
    ensures n in Ran(v, changes).ended
  {
    hide Possible, Changed, Never;
    if changes != [] {
      var before, c := changes[..|changes| - 1], changes[|changes| - 1];
      NeverEarlier(v, changes, Impossible);
      RanEnded(v, before, n);
      StaysEnded(Ran(v, before), c, n);
    }
  }

  // Where the main loop lets a source run before anything more comes through
  // the channel, a discovery that meets a DISCOVER answer waits in none: the
  // callback fires with the n-th answer and not before.
  lemma CompletesInOrder(v0: Shot, before: seq<Change>, queries: seq<byte>, cmd: Signal, next: bool, after: seq<Change>)
    requires JustMade(v0) && Runs(v0, before) && Never(v0, before, ChannelFirst)
    requires var v, c := Ran(v0, before), Settles(Finds(queries, cmd), next);
      && Possible(v, c) && !Loses(v, c) && !ChannelFirst(v, c) && v.discover.Some? && v.discover.value.cb
      && Runs(Changed(v, c), after) && Never(Changed(v, c), after, Loses)
    ensures var v := Ran(v0, before);
      var w := Ran(Changed(v, Settles(Finds(queries, cmd), next)), after);
      && !v.discover.value.idle
      && (v.discover.value.number in w.ended <==> |Answers(after)| >= |queries|)
  {
    JustMadeGood(v0);
    RanInOrder(v0, before);
    DiscoveryCompletes(v0, before, queries, cmd, next, after);
    hide Good, Changed, Loses, Never, Ran, Possible;
  }

  // ------------------------------------------------------ what is stored

  // Known end points stay known, with their capabilities.
  ghost predicate StillKnown(a: map<byte, RemoteSep>, b: map<byte, RemoteSep>) {
    forall id :: id in a ==> id in b && b[id].caps == a[id].caps
  }

  lemma ForgetKnown(seps: map<byte, RemoteSep>, rseid: byte)
    ensures StillKnown(seps, Forget(seps, rseid))
  {}

  lemma StillStill(a: map<byte, RemoteSep>, b: map<byte, RemoteSep>, c: map<byte, RemoteSep>)
    requires StillKnown(a, b) && StillKnown(b, c)
    ensures StillKnown(a, c)
  {}

  lemma IdleKnown(v: Shot, p: LocalSep)
    requires p in v.places
    ensures StillKnown(v.seps, WentIdle(v, p).seps)
  {
    if v.places[p].stream.Some? { ForgetKnown(v.seps, v.places[p].stream.value.rseid); }
  }

  lemma {:induction false} ReleasedKnown(v: Shot, streams: seq<Stream>)
    requires forall s :: s in streams ==> s.lsep in v.places
    ensures StillKnown(v.seps, Released(v, streams).seps)
    decreases |streams|
  {
    if streams != [] {
      var w := WentIdle(v, streams[0].lsep);
      assert w.places.Keys == v.places.Keys;
      IdleKnown(v, streams[0].lsep);
      ReleasedKnown(w, streams[1..]);
      hide WentIdle, StillKnown;
      StillStill(v.seps, w.seps, Released(w, streams[1..]).seps);
    }
  }

  lemma LostKnown(v: Shot)
    requires Good(v)
    ensures forall s :: s in v.streams ==> s.lsep in v.places
    ensures StillKnown(v.seps, Lost(v).seps)
  {
    SessionRuns.Listed(v);
    ReleasedKnown(v, v.streams);
    hide Released, Good;
  }

  lemma {:induction false} NotedKnown(v: Shot, queries: seq<byte>, cmd: Signal)
    ensures StillKnown(v.seps, NotedAll(v, queries, cmd).seps)
  {
    if queries != [] {
      var front := queries[..|queries| - 1];
      NotedKnown(v, front, cmd);
      var u := NotedAll(v, front, cmd);
      assert StillKnown(u.seps, Noted(u, queries[|queries| - 1], cmd).seps);
      StillStill(v.seps, u.seps, NotedAll(v, queries, cmd).seps);
    }
  }

  lemma OutcomeKnown(v: Shot, o: Outcome)
    requires Good(v) && OutcomeReady(v, o)
    ensures !o.Describes? ==> StillKnown(v.seps, OutcomeOf(v, o).seps)
    ensures o.Describes? ==>
      o.id in OutcomeOf(v, o).seps && OutcomeOf(v, o).seps[o.id].caps == o.caps
      && forall id :: id in v.seps && id != o.id ==>
        id in OutcomeOf(v, o).seps && OutcomeOf(v, o).seps[id].caps == v.seps[id].caps
  {
    hide Good, Noted, WentIdle, Moved;
    match o
    case Finds(queries, cmd) => NotedKnown(v, queries, cmd);
    case OnStream(signal, s, report) =>
      SessionRuns.Listed(v);
      SameSeps(v, s.lsep);
      IdleKnown(Moved(v, s.lsep, Aborting), s.lsep);
    case _ =>
  }

  lemma SameSeps(v: Shot, p: LocalSep)
    requires p in v.places
    ensures forall state :: Moved(v, p, state).seps == v.seps && p in Moved(v, p, state).places
  {}

  lemma EffectedKnown(v: Shot, e: Effect)
    requires EffectReady(v, e)
    ensures StillKnown(v.seps, Effected(v, e).seps)
  {
    hide Walked;
    if e.Forgets? { ForgetKnown(v.seps, e.rseid); }
  }

  lemma AbortKnown(v: Shot, s: Stream, ok: bool)
    requires Good(v)
    ensures StillKnown(v.seps, AbortAsked(v, s, ok).seps)
  {
    if v.q.outstanding.Some? { CancelKnown(v, ok); }
    hide Good, Cancelled;
  }

  lemma CancelKnown(v: Shot, ok: bool)
    requires Good(v) && v.q.outstanding.Some?
    ensures forall s :: s in v.streams ==> s.lsep in v.places
    ensures StillKnown(v.seps, Cancelled(v, ok).seps)
  {
    SessionRuns.Listed(v);
    NoneOutstandingGood(v);
    LostKnown(NoneOutstanding(v));
    hide Good, Lost;
  }

  lemma CommandedKnown(v: Shot, e: Effect, marked: bool, alive: bool, next: bool)
    requires Possible(v, Commanded(e, marked, alive, next))
    ensures StillKnown(v.seps, Changed(v, Commanded(e, marked, alive, next)).seps)
  {
    WhenCommanded(v, e, marked, alive, next);
    EffectedKnown(v, e);
    LostKnown(Effected(v, e));
    hide Good, Effected, EffectReady, Lost, Changed, Possible;
  }

  // The end point is known, with these capabilities, and the others as before.
  ghost predicate NowKnown(a: map<byte, RemoteSep>, b: map<byte, RemoteSep>, id: byte, caps: seq<Cap>) {
    && id in b && b[id].caps == caps
    && forall other :: other in a && other != id ==> other in b && b[other].caps == a[other].caps
  }

  lemma SettledKnown(v: Shot, o: Outcome, next: bool)
    requires Possible(v, Settles(o, next))
    ensures var w := Changed(v, Settles(o, next));
      if o.Describes? then NowKnown(v.seps, w.seps, o.id, o.caps) else StillKnown(v.seps, w.seps)
  {
    WhenSettled(v, o, next);
    OutcomeKnown(Unarmed(v), o);
    hide Good, OutcomeOf, Changed, OutcomeReady;
  }

  lemma OtherKnown(v: Shot, c: Change)
    requires Possible(v, c) && !c.Commanded? && !c.Settles?
    ensures StillKnown(v.seps, Changed(v, c).seps)
  {
    hide Good, Lost, Cancelled, AbortAsked, WentIdle, MovedTo;
    match c
    case AnswersLate(p, s, sent, report) => LateKnown(v, p, s, sent, report);
    case AnswerFails =>
      WhenFailed(v);
      LostKnown(Unarmed(v));
    case ChannelFails => LostKnown(v);
    case TimesOut(ok) => CancelKnown(v, ok);
    case NeverOpens(s, ok) =>
      NonePendingGood(v);
      AbortKnown(v.(pendingOpen := None), s, ok);
    case Aborts(s, ok) => AbortKnown(v, s, ok);
    case GoesIdle(p) => IdleKnown(v, p);
    case _ =>
  }

  lemma LateKnown(v: Shot, p: LocalSep, s: Stream, sent: bool, report: Option<bool>)
    requires p in v.places
    ensures StillKnown(v.seps, SettledLate(v, p, s, sent, report).seps)
  {
    ForgetKnown(v.seps, s.rseid);
  }

  // Only an answer about an end point changes its capabilities.
  lemma ChangedKnown(v: Shot, c: Change)
    requires Possible(v, c)
    ensures if Describing(c) then NowKnown(v.seps, Changed(v, c).seps, c.outcome.id, c.outcome.caps)
      else StillKnown(v.seps, Changed(v, c).seps)
  {
    if c.Commanded? {
      CommandedKnown(v, c.effect, c.marked, c.alive, c.next);
    } else if c.Settles? {
      SettledKnown(v, c.outcome, c.next);
    } else {
      OtherKnown(v, c);
    }
    hide Good, Ready, Changed, StillKnown, NowKnown;
  }

  // The last answer about an end point, if there was one.
  function LastAnswer(answers: seq<(byte, seq<Cap>)>, id: byte): Option<seq<Cap>> {
    if answers == [] then None
    else if answers[|answers| - 1].0 == id then Some(answers[|answers| - 1].1)
    else LastAnswer(answers[..|answers| - 1], id)
  }

  ghost predicate Stored(v: Shot, answers: seq<(byte, seq<Cap>)>) {
    forall id :: LastAnswer(answers, id).Some? ==> id in v.seps && v.seps[id].caps == LastAnswer(answers, id).value
  }

  // In every run, whatever is lost: each end point that was answered for has
  // the capabilities of its last answer.
  lemma {:induction false} AnswersStored(v: Shot, changes: seq<Change>)
    requires Runs(v, changes)
    ensures Stored(Ran(v, changes), Answers(changes))
  {
    hide Possible, Changed, Never;
    if changes != [] {
      var before, c := changes[..|changes| - 1], changes[|changes| - 1];
      NeverEarlier(v, changes, Impossible);
      AnswersStored(v, before);
      ChangedKnown(Ran(v, before), c);
      StoredMore(Ran(v, before), Ran(v, changes), Answers(before), c);
    }
    hide Stored, StillKnown, NowKnown;
  }

  lemma StoredMore(v: Shot, w: Shot, answers: seq<(byte, seq<Cap>)>, c: Change)
    requires Stored(v, answers)
    requires if Describing(c) then NowKnown(v.seps, w.seps, c.outcome.id, c.outcome.caps)
      else StillKnown(v.seps, w.seps)
    ensures Stored(w, answers + if Describing(c) then [(c.outcome.id, c.outcome.caps)] else [])
  {
    if Describing(c) {
      var more := answers + [(c.outcome.id, c.outcome.caps)];
      assert more[..|answers|] == answers;
    } else {
      assert answers + [] == answers;
    }
  }
}
