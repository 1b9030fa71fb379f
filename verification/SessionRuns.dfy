// Every run of an AVDTP session, as the sequence of what its handlers do to it:
// one change for each command or answer received, timer fired or local call.
module SessionRuns {
  import opened Options
  import opened Bytes
  import opened Lists
  import opened RequestQueue
  import opened AvdtpMessages
  import opened Capabilities
  import opened Discovery
  import opened SessionState
  import opened SessionCommands

  // What an answer that fits the outstanding request comes to.
  datatype Outcome =
    | Finds(queries: seq<byte>, cmd: Signal)                    // DISCOVER accepted
    | Describes(id: byte, caps: seq<Cap>, reports: bool)        // capabilities accepted
    | OnStream(signal: Signal, s: Stream, report: Option<bool>) // accepted for a stream
    | Declines                                                   // a discovery request rejected
    | Disregarded                                               // nothing more to do

  datatype Change =
    | Same
    | Commanded(effect: Effect, marked: bool, alive: bool, next: bool)
    | Settles(outcome: Outcome, next: bool)
    | AnswerFails
    | ChannelFails
    | StopsListening
    | TimesOut(ok: bool)
    | NeverOpens(s: Stream, ok: bool)
    | Aborts(s: Stream, ok: bool)
    | Requests(priority: bool, r: Req, ok: bool)
    | Configures(p: LocalSep, s: Stream, ok: bool)
    | AnswersLate(p: LocalSep, s: Stream, sent: bool, report: Option<bool>)
    | Connects(s: Stream)
    | GoesIdle(p: LocalSep)
    | Discovers(ok: bool)
    | IdleRuns

  // What holds when a handler is called, and what it looks at itself.
  ghost predicate Ready(v: Shot, c: Change) {
    match c
    case Commanded(effect, marked, _, _) =>
      v.watched && EffectReady(v, effect) && (marked ==> v.q.outstanding.Some? && MayLose(v.q.outstanding.value.signal))
    case Settles(outcome, _) => v.watched && v.armed && OutcomeReady(v, outcome)
    case AnswerFails => v.watched && v.q.outstanding.Some? && v.armed
    case ChannelFails | StopsListening => v.watched
    case TimesOut(_) => v.q.outstanding.Some?
    case Requests(_, r, _) => r.stream.Some? && r.stream.value in v.streams && !ForDiscovery(r.signal)
    case Configures(p, s, _) => p in v.places && s !in v.streams && s.lsep == p && s.rseid in v.seps
    case AnswersLate(p, s, _, _) => p in v.places && s !in v.streams && s.lsep == p
    case Connects(s) => v.pendingOpen == Some(s)
    case GoesIdle(p) => p in v.places
    case Discovers(_) => v.discover.None?
    case IdleRuns => v.idles > 0
    case _ => true
  }

  // The outcome is one the outstanding request can have.
  ghost predicate OutcomeReady(v: Shot, o: Outcome) {
    && v.q.outstanding.Some?
    && var r := v.q.outstanding.value;
       match o
       case Finds(_, cmd) => r.signal.Discover? && AsksCapabilities(cmd)
       case Describes(id, _, _) => AsksCapabilities(r.signal) && id == r.seid && id in v.seps
       case OnStream(signal, s, _) =>
         signal == r.signal && !ForDiscovery(signal) && r.stream == Some(s) && s in v.streams
       case Declines => ForDiscovery(r.signal)
       case Disregarded => true
  }

  predicate ForDiscovery(signal: Signal) { signal.Discover? || AsksCapabilities(signal) }

  ghost predicate Possible(v: Shot, c: Change) { Good(v) && Ready(v, c) }

  lemma Listed(v: Shot)
    requires Good(v)
    ensures forall s :: s in v.streams ==> s.lsep in v.places
  {}

  ghost function OutcomeOf(v: Shot, o: Outcome): Shot
    requires Good(v) && OutcomeReady(v, o)
  {
    Listed(v);
    match o
    case Finds(queries, cmd) => Discovering(v, queries, cmd)
    case Describes(id, caps, reports) => Describing(v, id, caps, reports)
    case OnStream(signal, s, report) => Accepting(v, signal, s, report)
    case Declines => RejectedEnd(v)
    case Disregarded => v
  }

  // connection_lost at the end of session_cb: the channel is not watched any more.
  ghost function Broken(v: Shot): Shot
    requires Good(v)
  {
    Listed(v);
    Lost(v).(watched := false)
  }

  // What is done after a command: give up, or answer the request that lost to it.
  ghost function AfterCommand(v: Shot, marked: bool, alive: bool, next: bool): Shot
    requires Good(v)
  {
    if !alive then Broken(v)
    else if v.q.outstanding.Some? && marked then Processed(NoneOutstanding(v), next)
    else v
  }

  // avdtp_discover, when no discovery is in progress.
  function DiscoverCalled(v: Shot, ok: bool): Shot {
    if v.seps != map[] then Called(v, true, true)
    else Called(Requested(v, false, PendingReq(Signal.Discover, 0, None), ok), Accepts(v.q, ok), false)
  }

  function SettledLate(v: Shot, p: LocalSep, s: Stream, sent: bool, report: Option<bool>): Shot
    requires p in v.places
  {
    if !sent then Detached(v, p, s)
    else
      TakenPlace(v, p, s);
      MovedTo(Taken(v, p, s), p, Configured, report)
  }

  // A change that cannot be made leaves the session alone.
  ghost function Changed(v: Shot, c: Change): Shot {
    if !Possible(v, c) then v
    else
      Listed(v);
      match c
      case Same => v
      case Commanded(effect, marked, alive, next) =>
        EffectedGood(v, effect);
        AfterCommand(Effected(v, effect), marked, alive, next)
      case Settles(outcome, next) =>
        UnarmedGood(v);
        Processed(NoneOutstanding(OutcomeOf(Unarmed(v), outcome)), next)
      case AnswerFails =>
        UnarmedGood(v);
        Broken(Unarmed(v))
      case ChannelFails => Broken(v)
      case StopsListening => v.(watched := false)
      case TimesOut(ok) => Cancelled(v, ok)
      case NeverOpens(s, ok) =>
        NonePendingGood(v);
        AbortAsked(v.(pendingOpen := None), s, ok)
      case Aborts(s, ok) => AbortAsked(v, s, ok)
      case Requests(priority, r, ok) => Requested(v, priority, r, ok)
      case Configures(p, s, ok) => Configuring(v, p, s, ok)
      case AnswersLate(p, s, sent, report) => SettledLate(v, p, s, sent, report)
      case Connects(s) =>
        assert s in v.streams;
        Moved(v.(pendingOpen := None), s.lsep, Opened)
      case GoesIdle(p) => WentIdle(v, p)
      case Discovers(ok) => DiscoverCalled(v, ok)
      case IdleRuns => IdleRan(v)
  }

  // ------------------------------------------------ one change at a time

  // The two ways a stream gets an end point nobody looked at.
  ghost predicate Clashes(v: Shot, c: Change) {
    (c.Configures? || c.AnswersLate?) && c.p in v.places && v.places[c.p].stream.Some?
  }

  lemma OutcomeGood(v: Shot, o: Outcome)
    requires Good(v) && OutcomeReady(v, o)
    ensures Good(OutcomeOf(v, o))
  {
    hide Good, Discovering, Describing, Accepting, RejectedEnd;
    match o
    case Finds(queries, cmd) => DiscoveringGood(v, queries, cmd);
    case Describes(id, caps, reports) => DescribingGood(v, id, caps, reports);
    case OnStream(signal, s, report) => AcceptingGood(v, signal, s, report);
    case Declines => RejectedEndGood(v);
    case Disregarded =>
  }

  lemma BrokenGood(v: Shot)
    requires Good(v)
    ensures Good(Broken(v)) && Broken(v).streams == [] && Broken(v).discover.None?
  {
    LostGood(v);
    hide Lost, Attached, QueueOk, PeersKnow, OnceEach;
  }

  lemma AfterCommandGood(v: Shot, marked: bool, alive: bool, next: bool)
    requires Good(v)
    ensures Good(AfterCommand(v, marked, alive, next))
  {
    hide Good, Broken, Processed;
    BrokenGood(v);
    NoneOutstandingGood(v);
    ProcessedGood(NoneOutstanding(v), next);
  }

  lemma DiscoverCalledGood(v: Shot, ok: bool)
    requires Good(v)
    ensures Good(DiscoverCalled(v, ok))
  {
    hide Good, Requested, Called;
    var r: Req := PendingReq(Signal.Discover, 0, None);
    RequestedGood(v, false, r, ok);
    CalledGood(v, true, true);
    CalledGood(Requested(v, false, r, ok), Accepts(v.q, ok), false);
  }

  // Every change keeps the session in order, except one that puts a stream on
  // an end point that has one: that breaks it, always.
  lemma ChangedGood(v: Shot, c: Change)
    requires Possible(v, c)
    ensures Good(Changed(v, c)) <==> !Clashes(v, c)
  {
    hide Good, Cancelled, AbortAsked, Configuring, Processed, OutcomeOf, Broken, AfterCommand, DiscoverCalled;
    hide MovedTo, Taken, Detached, WentIdle, IdleRan, Effected, Requested, EffectReady;
    match c
    case Same =>
    case Commanded(effect, marked, alive, next) =>
      EffectedGood(v, effect);
      AfterCommandGood(Effected(v, effect), marked, alive, next);
    case Settles(outcome, next) =>
      UnarmedGood(v);
      OutcomeGood(Unarmed(v), outcome);
      NoneOutstandingGood(OutcomeOf(Unarmed(v), outcome));
      ProcessedGood(NoneOutstanding(OutcomeOf(Unarmed(v), outcome)), next);
    case AnswerFails =>
      UnarmedGood(v);
      BrokenGood(Unarmed(v));
    case ChannelFails => BrokenGood(v);
    case TimesOut(ok) => CancelledGood(v, ok);
    case NeverOpens(s, ok) =>
      NonePendingGood(v);
      AbortAskedGood(v.(pendingOpen := None), s, ok);
    case Aborts(s, ok) => AbortAskedGood(v, s, ok);
    case StopsListening => DeafGood(v);
    case Requests(priority, r, ok) =>
      NamesIt(r, v.streams, v.seps);
      RequestedGood(v, priority, r, ok);
    case Configures(p, s, ok) => ConfiguringNeedsAFreeEndPoint(v, p, s, ok);
    case AnswersLate(p, s, _, report) =>
      DetachedGood(v, p, s);
      TakenExactlyWhenFree(v, p, s, report);
    case Connects(s) =>
      NonePendingGood(v);
      AwaitedListed(v);
      Listed(v);
      MovedGood(v.(pendingOpen := None), s.lsep, Opened);
    case GoesIdle(p) => IdleGood(v, p);
    case Discovers(ok) => DiscoverCalledGood(v, ok);
    case IdleRuns => IdleRanGood(v);
  }

  lemma DeafGood(v: Shot)
    requires Good(v)
    ensures Good(v.(watched := false))
  {}

  lemma AwaitedListed(v: Shot)
    requires Good(v) && v.pendingOpen.Some?
    ensures v.pendingOpen.value in v.streams
  {}

  // ------------------------------- discoveries, their callbacks and sources

  predicate Refusing(c: Change) { c.Settles? && c.outcome.Declines? }

  // Discovery goes on as it was, or has been finalized.
  ghost predicate CallsKept(v: Shot, w: Shot) {
    && w.nullCalls == v.nullCalls && w.calls == v.calls
    && ((w.discover == v.discover && w.idles == v.idles && w.ended == v.ended)
        || (w.discover == None && w.idles == Finished(v).idles && w.ended == Fired(v)))
  }

  ghost predicate CallsSame(v: Shot, w: Shot) {
    && w.nullCalls == v.nullCalls && w.calls == v.calls
    && w.discover == v.discover && w.idles == v.idles && w.ended == v.ended
  }

  lemma {:induction false} ReleasedCalls(v: Shot, streams: seq<Stream>)
    requires forall s :: s in streams ==> s.lsep in v.places
    ensures CallsSame(v, Released(v, streams)) && Released(v, streams).watched == v.watched
    ensures Released(v, streams).armed == v.armed
    ensures Released(v, streams).q.outstanding.Some? ==> v.q.outstanding.Some?
    decreases |streams|
  {
    if streams != [] {
      var w := WentIdle(v, streams[0].lsep);
      assert w.places.Keys == v.places.Keys;
      ReleasedCalls(w, streams[1..]);
    }
  }

  lemma IdleCalls(v: Shot, p: LocalSep)
    requires p in v.places
    ensures var w := WentIdle(v, p); CallsSame(v, w) && w.watched == v.watched && w.armed == v.armed
    ensures WentIdle(v, p).q.outstanding.Some? ==> v.q.outstanding.Some?
  {}

  lemma LostCalls(v: Shot)
    requires Good(v)
    ensures forall s :: s in v.streams ==> s.lsep in v.places
    ensures CallsKept(v, Lost(v)) && Lost(v).watched == v.watched && Lost(v).armed == v.armed
    ensures Lost(v).q.outstanding.Some? ==> v.q.outstanding.Some?
  {
    Listed(v);
    ReleasedCalls(v, v.streams);
    hide Released, Good;
  }

  lemma {:induction false} NotedAllCalls(v: Shot, queries: seq<byte>, cmd: Signal)
    ensures CallsSame(v, NotedAll(v, queries, cmd)) && NotedAll(v, queries, cmd).watched == v.watched
  {
    if queries != [] { NotedAllCalls(v, queries[..|queries| - 1], cmd); }
  }

  lemma OutcomeCalls(v: Shot, o: Outcome)
    requires Good(v) && OutcomeReady(v, o)
    ensures !o.Declines? ==> CallsKept(v, OutcomeOf(v, o))
    ensures OutcomeOf(v, o).watched == v.watched
  {
    hide Good, Noted, Accepting, Filed;
    match o
    case Finds(queries, cmd) => NotedAllCalls(v, queries, cmd);
    case Describes(id, caps, reports) => FiledCalls(v, id, caps, reports);
    case OnStream(signal, s, report) =>
      Listed(v);
      AcceptingCalls(v, signal, s, report);
    case _ =>
  }

  lemma FiledCalls(v: Shot, id: byte, caps: seq<Cap>, reports: bool)
    requires id in v.seps
    ensures var w := Filed(v, id, caps, reports); CallsSame(v, w) && w.watched == v.watched
  {}

  lemma AcceptingCalls(v: Shot, signal: Signal, s: Stream, report: Option<bool>)
    requires s.lsep in v.places
    ensures var w := Accepting(v, signal, s, report); CallsSame(v, w) && w.watched == v.watched
  {
    hide WentIdle, Moved, RequestQueue.SendReq;
    MovedCalls(v, s.lsep, Aborting);
    MovedCalls(v, s.lsep, Configured);
    MovedCalls(v, s.lsep, Streaming);
    MovedCalls(v, s.lsep, Opened);
    MovedCalls(v, s.lsep, Closing);
    IdleCalls(Moved(v, s.lsep, Aborting), s.lsep);
  }

  lemma MovedCalls(v: Shot, p: LocalSep, state: State)
    requires p in v.places
    ensures var w := Moved(v, p, state);
      CallsSame(v, w) && w.watched == v.watched && w.armed == v.armed && w.q == v.q && p in w.places
  {}

  lemma SameThenKept(v: Shot, u: Shot, w: Shot)
    requires CallsSame(v, u) && CallsKept(u, w)
    ensures CallsKept(v, w)
  {}

  lemma BrokenCalls(v: Shot)
    requires Good(v)
    ensures CallsKept(v, Broken(v)) && !Broken(v).watched
  {
    hide Good, Lost;
    LostCalls(v);
  }

  lemma EffectedCalls(v: Shot, e: Effect)
    requires Good(v) && EffectReady(v, e)
    ensures CallsSame(v, Effected(v, e)) && Effected(v, e).watched == v.watched
    ensures Listening(v) ==> Listening(Effected(v, e))
  {
    hide Good, Walked, Forget, RequestQueue.ProcessQueue;
  }

  lemma CommandCalls(v: Shot, e: Effect, marked: bool, alive: bool, next: bool)
    requires Good(v) && EffectReady(v, e) && Good(Effected(v, e))
    ensures CallsKept(v, AfterCommand(Effected(v, e), marked, alive, next))
  {
    hide Good, Effected, EffectReady, Broken;
    var u := Effected(v, e);
    EffectedCalls(v, e);
    BrokenCalls(u);
    SameThenKept(v, u, AfterCommand(u, marked, alive, next));
  }

  lemma AnsweredCalls(v: Shot, o: Outcome, next: bool)
    requires Good(Unarmed(v)) && OutcomeReady(Unarmed(v), o)
    ensures var w := Processed(NoneOutstanding(OutcomeOf(Unarmed(v), o)), next);
      && (!o.Declines? ==> CallsKept(v, w))
      && (o.Declines? ==> w.discover == None && w.idles == v.idles && w.calls == v.calls && w.ended == Fired(v))
      && w.nullCalls == v.nullCalls
           + (if o.Declines? && v.discover.Some? && !v.discover.value.cb then 1 else 0)
  {
    hide Good, OutcomeReady, RequestQueue.ProcessQueue;
    OutcomeCalls(Unarmed(v), o);
    if o.Declines? {
      assert OutcomeOf(Unarmed(v), o) == RejectedEnd(Unarmed(v));
    }
    hide OutcomeOf;
  }

  lemma CancelledCalls(v: Shot, ok: bool)
    requires Good(v) && v.q.outstanding.Some?
    ensures forall s :: s in v.streams ==> s.lsep in v.places
    ensures CallsKept(v, Cancelled(v, ok)) && Cancelled(v, ok).watched == v.watched
    ensures Cancelled(v, ok).q.outstanding.Some? ==> Cancelled(v, ok).armed
  {
    hide Good, Lost;
    Listed(v);
    NoneOutstandingGood(v);
    LostCalls(NoneOutstanding(v));
    SameThenKept(v, NoneOutstanding(v), Lost(NoneOutstanding(v)));
  }

  lemma AbortAskedCalls(v: Shot, s: Stream, ok: bool)
    requires Good(v)
    ensures CallsKept(v, AbortAsked(v, s, ok)) && AbortAsked(v, s, ok).watched == v.watched
    ensures Listening(v) ==> Listening(AbortAsked(v, s, ok))
  {
    if s in v.streams { StreamPlaced(v, s); }
    if v.q.outstanding.Some? { CancelledCalls(v, ok); }
    hide Good, Cancelled;
  }

  lemma OtherCalls(v: Shot, c: Change)
    requires Possible(v, c) && !c.Commanded? && !c.Settles? && !c.AnswerFails? && !c.ChannelFails?
    ensures !c.Discovers? && !c.IdleRuns? ==> CallsKept(v, Changed(v, c))
    ensures Changed(v, c).nullCalls == v.nullCalls
    ensures Changed(v, c).watched == (v.watched && !c.StopsListening?)
    ensures Listening(v) ==> Listening(Changed(v, c))
  {
    hide Cancelled, AbortAsked, Good, WentIdle, MovedTo, Forget;
    match c
    case TimesOut(ok) => CancelledCalls(v, ok);
    case NeverOpens(s, ok) =>
      NonePendingGood(v);
      AbortAskedCalls(v.(pendingOpen := None), s, ok);
      SameThenKept(v, v.(pendingOpen := None), AbortAsked(v.(pendingOpen := None), s, ok));
    case Aborts(s, ok) => AbortAskedCalls(v, s, ok);
    case GoesIdle(p) => IdleCalls(v, p);
    case AnswersLate(p, s, sent, report) => LateCalls(v, p, s, sent, report);
    case _ =>
  }

  lemma LateCalls(v: Shot, p: LocalSep, s: Stream, sent: bool, report: Option<bool>)
    requires p in v.places
    ensures var w := SettledLate(v, p, s, sent, report);
      CallsSame(v, w) && w.watched == v.watched && (Listening(v) ==> Listening(w))
  {}

  // While the channel is watched the outstanding request has its timeout.
  ghost predicate Listening(v: Shot) { v.watched && v.q.outstanding.Some? ==> v.armed }

  // What each change does to the discovery in progress.
  lemma ChangedCalls(v: Shot, c: Change)
    requires Possible(v, c)
    ensures var w := Changed(v, c);
      && (!Refusing(c) && !c.Discovers? && !c.IdleRuns? ==> CallsKept(v, w))
      && (Refusing(c) ==> w.discover == None && w.idles == v.idles && w.calls == v.calls && w.ended == Fired(v))
      && w.nullCalls == v.nullCalls
           + if Refusing(c) && v.discover.Some? && !v.discover.value.cb then 1 else 0
  {
    hide Good, OutcomeOf, AfterCommand, Effected, Broken, EffectReady;
    match c
    case Commanded(effect, marked, alive, next) =>
      EffectedGood(v, effect);
      CommandCalls(v, effect, marked, alive, next);
    case Settles(outcome, next) =>
      UnarmedGood(v);
      OutcomeCalls(Unarmed(v), outcome);
      AnsweredCalls(v, outcome, next);
    case AnswerFails =>
      UnarmedGood(v);
      BrokenCalls(Unarmed(v));
      SameThenKept(v, Unarmed(v), Broken(Unarmed(v)));
    case ChannelFails => BrokenCalls(v);
    case _ => OtherCalls(v, c);
  }

  // An idle source waits exactly while a discovery is in it.
  ghost predicate Tied(v: Shot) {
    v.idles == if v.discover.Some? && v.discover.value.idle then 1 else 0
  }

  // A discovery request is rejected while a later discovery waits in its source.
  ghost predicate RejectsIdle(v: Shot, c: Change) {
    Refusing(c) && v.discover.Some? && v.discover.value.idle
  }

  // That, and nothing else, leaves a source behind without its discovery.
  lemma ChangedTied(v: Shot, c: Change)
    requires Possible(v, c) && Tied(v)
    ensures Tied(Changed(v, c)) <==> !RejectsIdle(v, c)
  {
    ChangedCalls(v, c);
    IdleUse(v, c);
    hide Good, Changed;
  }

  lemma IdleUse(v: Shot, c: Change)
    requires Possible(v, c)
    ensures c.IdleRuns? ==>
      Changed(v, c).discover == None && Changed(v, c).idles == v.idles - 1 && Changed(v, c).ended == Fired(v)
    ensures c.Discovers? ==>
      && v.discover.None? && Changed(v, c).discover.Some? && Changed(v, c).ended == v.ended
      && Changed(v, c).idles == v.idles + if Changed(v, c).discover.value.idle then 1 else 0
  {
    hide Good;
    if c.Discovers? { assert Changed(v, c) == DiscoverCalled(v, c.ok); }
  }

  // Something comes through the channel while a source waits. The main loop
  // does not do this: the channel is watched with a lower priority.
  ghost predicate ChannelFirst(v: Shot, c: Change) {
    v.idles > 0 && (c.Commanded? || c.Settles? || c.AnswerFails? || c.ChannelFails?)
  }

  lemma RejectionComesFirst(v: Shot, c: Change)
    requires Tied(v) && RejectsIdle(v, c)
    ensures ChannelFirst(v, c)
  {}

  // A callback is called though none is set exactly when a discovery request is
  // rejected during a discovery that could not be asked for.
  lemma ChangedNullCalls(v: Shot, c: Change)
    requires Possible(v, c)
    ensures Changed(v, c).nullCalls > v.nullCalls <==> Refusing(c) && v.discover.Some? && !v.discover.value.cb
    ensures Changed(v, c).nullCalls >= v.nullCalls
  {
    ChangedCalls(v, c);
    hide Good, Changed;
  }

  // A discovery in progress has its callback, unless it could not be asked for.
  lemma ChangedCallback(v: Shot, c: Change)
    requires Possible(v, c) && (v.discover.Some? ==> v.discover.value.cb)
    requires c.Discovers? ==> v.seps != map[] || Accepts(v.q, c.ok)
    ensures Changed(v, c).discover.Some? ==> Changed(v, c).discover.value.cb
  {
    hide Good;
    ChangedCalls(v, c);
    if c.Discovers? {
      assert Changed(v, c) == DiscoverCalled(v, c.ok);
    } else if c.IdleRuns? {
      IdleUse(v, c);
    }
    hide Changed;
  }

  lemma ChangedListens(v: Shot, c: Change)
    requires Possible(v, c) && Listening(v)
    ensures Listening(Changed(v, c))
  {
    hide Good, OutcomeOf, Effected, Broken, EffectReady, Processed;
    match c
    case Commanded(effect, marked, alive, next) =>
      EffectedGood(v, effect);
      EffectedCalls(v, effect);
      CommandListens(Effected(v, effect), marked, alive, next);
    case Settles(outcome, next) =>
      UnarmedGood(v);
      NextListens(OutcomeOf(Unarmed(v), outcome), next);
    case AnswerFails =>
      UnarmedGood(v);
      BrokenCalls(Unarmed(v));
    case ChannelFails => BrokenCalls(v);
    case _ => OtherCalls(v, c);
  }

  lemma NextListens(v: Shot, next: bool)
    ensures Listening(Processed(NoneOutstanding(v), next))
  {}

  lemma CommandListens(v: Shot, marked: bool, alive: bool, next: bool)
    requires Good(v) && Listening(v)
    ensures Listening(AfterCommand(v, marked, alive, next))
  {
    hide Good, Broken, Processed;
    BrokenCalls(v);
    NextListens(v, next);
  }

  // -------------------------------- each change on its own, for the handlers

  // A request about an attached stream.
  function Asking(priority: bool, signal: Signal, s: Stream, ok: bool): Change {
    Requests(priority, PendingReq(signal, s.rseid, Some(s)), ok)
  }

  lemma WhenSame(v: Shot)
    ensures Changed(v, Same) == v && (Good(v) ==> Possible(v, Same))
  {}

  lemma WhenAsking(v: Shot, priority: bool, signal: Signal, s: Stream, ok: bool)
    requires Good(v) && s in v.streams && !ForDiscovery(signal)
    ensures Possible(v, Asking(priority, signal, s, ok))
    ensures Changed(v, Asking(priority, signal, s, ok))
      == Requested(v, priority, PendingReq(signal, s.rseid, Some(s)), ok)
    ensures Good(Requested(v, priority, PendingReq(signal, s.rseid, Some(s)), ok))
  {
    hide Good;
    NamesIt(PendingReq(signal, s.rseid, Some(s)), v.streams, v.seps);
    RequestedGood(v, priority, PendingReq(signal, s.rseid, Some(s)), ok);
  }

  lemma WhenConfiguring(v: Shot, p: LocalSep, s: Stream, ok: bool)
    requires Good(v) && p in v.places && s !in v.streams && s.lsep == p && s.rseid in v.seps
    ensures Possible(v, Configures(p, s, ok)) && Changed(v, Configures(p, s, ok)) == Configuring(v, p, s, ok)
    ensures Good(Configuring(v, p, s, ok)) <==> v.places[p].stream.None?
  {
    ConfiguringNeedsAFreeEndPoint(v, p, s, ok);
    hide Good, Configuring;
  }

  lemma WhenLate(v: Shot, p: LocalSep, s: Stream, sent: bool, report: Option<bool>)
    requires Good(v) && p in v.places && s !in v.streams && s.lsep == p
    ensures Possible(v, AnswersLate(p, s, sent, report))
    ensures Changed(v, AnswersLate(p, s, sent, report)) == SettledLate(v, p, s, sent, report)
    ensures Good(SettledLate(v, p, s, sent, report)) <==> v.places[p].stream.None?
    ensures forall u :: u in SettledLate(v, p, s, sent, report).streams ==> u in v.streams || u == s
  {
    ChangedGood(v, AnswersLate(p, s, sent, report));
    hide Good;
  }

  lemma WhenTimedOut(v: Shot, ok: bool)
    requires Good(v) && v.q.outstanding.Some?
    ensures forall s :: s in v.streams ==> s.lsep in v.places
    ensures Possible(v, TimesOut(ok)) && Changed(v, TimesOut(ok)) == Cancelled(v, ok)
  {
    Listed(v);
    hide Good, Cancelled;
  }

  lemma WhenAborting(v: Shot, s: Stream, ok: bool)
    requires Good(v)
    ensures Possible(v, Aborts(s, ok)) && Changed(v, Aborts(s, ok)) == AbortAsked(v, s, ok)
    ensures Good(AbortAsked(v, s, ok))
  {
    AbortAskedGood(v, s, ok);
    hide Good, AbortAsked;
  }

  lemma WhenNeverOpened(v: Shot, s: Stream, ok: bool)
    requires Good(v)
    ensures Good(v.(pendingOpen := None)) && Possible(v, NeverOpens(s, ok))
    ensures Changed(v, NeverOpens(s, ok)) == AbortAsked(v.(pendingOpen := None), s, ok)
  {
    NonePendingGood(v);
    hide Good, AbortAsked;
  }

  lemma WhenConnected(v: Shot, s: Stream)
    requires Good(v) && v.pendingOpen == Some(s)
    ensures s.lsep in v.places && Possible(v, Connects(s))
    ensures Changed(v, Connects(s)) == Moved(v.(pendingOpen := None), s.lsep, Opened)
    ensures Good(Changed(v, Connects(s)))
  {
    AwaitedListed(v);
    Listed(v);
    ChangedGood(v, Connects(s));
    hide Good, Moved;
  }

  lemma WhenIdle(v: Shot, p: LocalSep)
    requires Good(v) && p in v.places
    ensures Possible(v, GoesIdle(p)) && Changed(v, GoesIdle(p)) == WentIdle(v, p)
  {
    hide Good, WentIdle;
  }

  lemma WhenDiscovering(v: Shot, ok: bool)
    requires Good(v) && v.discover.None?
    ensures Possible(v, Discovers(ok)) && Changed(v, Discovers(ok)) == DiscoverCalled(v, ok)
    ensures Good(DiscoverCalled(v, ok))
  {
    DiscoverCalledGood(v, ok);
    hide Good, DiscoverCalled;
  }

  lemma WhenIdleRuns(v: Shot)
    requires Good(v) && v.idles > 0
    ensures Possible(v, IdleRuns) && Changed(v, IdleRuns) == IdleRan(v) && Good(IdleRan(v))
    ensures Tied(v) ==> v.discover.Some?
  {
    IdleRanGood(v);
    hide Good, IdleRan;
  }

  lemma WhenCommanded(v: Shot, e: Effect, marked: bool, alive: bool, next: bool)
    requires Good(v) && v.watched && EffectReady(v, e)
    requires marked ==> v.q.outstanding.Some? && MayLose(v.q.outstanding.value.signal)
    ensures Possible(v, Commanded(e, marked, alive, next)) && Good(Effected(v, e))
    ensures Changed(v, Commanded(e, marked, alive, next)) == AfterCommand(Effected(v, e), marked, alive, next)
  {
    EffectedGood(v, e);
    hide Good, Effected, AfterCommand, EffectReady;
  }

  lemma SameAfter(v: Shot, collided: bool, marked: bool, alive: bool, next: bool)
    requires Good(v) && (v.q.outstanding.Some? ==> collided == marked)
    ensures AfterCommand(v, collided, alive, next) == AfterCommand(v, marked, alive, next)
  {
    hide Good, Broken;
  }

  lemma WhenSettled(v: Shot, o: Outcome, next: bool)
    requires Good(v) && v.watched && v.armed && OutcomeReady(v, o)
    ensures Good(Unarmed(v)) && OutcomeReady(Unarmed(v), o) && Possible(v, Settles(o, next))
    ensures Good(OutcomeOf(Unarmed(v), o))
    ensures Changed(v, Settles(o, next)) == Processed(NoneOutstanding(OutcomeOf(Unarmed(v), o)), next)
  {
    UnarmedGood(v);
    OutcomeGood(Unarmed(v), o);
    hide Good, OutcomeOf, Processed;
  }

  lemma WhenDeaf(v: Shot)
    requires Good(v) && v.watched
    ensures Possible(v, StopsListening) && Changed(v, StopsListening) == v.(watched := false)
    ensures Good(v.(watched := false))
  {
    DeafGood(v);
    hide Good;
  }

  lemma WhenBroken(v: Shot)
    requires Good(v) && v.watched
    ensures Possible(v, ChannelFails) && Changed(v, ChannelFails) == Broken(v)
  {
    hide Good, Broken;
  }

  lemma WhenFailed(v: Shot)
    requires Good(v) && v.watched && v.q.outstanding.Some? && v.armed
    ensures Good(Unarmed(v)) && Possible(v, AnswerFails) && Changed(v, AnswerFails) == Broken(Unarmed(v))
  {
    UnarmedGood(v);
    hide Good, Broken;
  }

  // SET_CONFIGURATION for a free end point: turned down at once, or answered
  // as setconf_cb answers, now or later.
  lemma ConfTurnedDown(v: Shot, lseps: seq<LocalSep>, payload: seq<byte>, answer: ConfAnswer, p: LocalSep, sent: bool,
                       report: Option<bool>)
    requires |payload| >= 2 && EndAt(lseps, payload[0]) == Some(p) && p in v.places && v.places[p].stream.None?
    requires BadTransport(ReadAll(payload[2..]).0) || answer.Refuses?
    ensures ConfError(v.places, Some(p), ReadAll(payload[2..]).0, answer)
      == Some(if BadTransport(ReadAll(payload[2..]).0) then BAD_MEDIA_TRANSPORT else UNSUPPORTED_CONFIGURATION)
    ensures var effect := ConfEffect(v, lseps, payload, answer, sent, None, report);
      EffectReady(v, effect) && Effected(v, effect) == v.(seps := Forget(v.seps, payload[1] / 4))
    ensures ConfLives(v, lseps, payload, answer, sent) == sent
  {
    hide ReadAll, BadTransport;
  }

  lemma ConfAnswered(v: Shot, lseps: seq<LocalSep>, payload: seq<byte>, answer: ConfAnswer, p: LocalSep, sent: bool,
                     s: Stream, report: Option<bool>)
    requires |payload| >= 2 && EndAt(lseps, payload[0]) == Some(p) && p in v.places && v.places[p].stream.None?
    requires Good(v) && s !in v.streams && s.lsep == p && s.rseid == payload[1] / 4
    requires !BadTransport(ReadAll(payload[2..]).0) && !answer.Refuses?
    ensures var refused := answer.Answers? && answer.err.Some?;
      && ConfError(v.places, Some(p), ReadAll(payload[2..]).0, answer)
        == (if refused then Some(UNSUPPORTED_CONFIGURATION) else None)
      && ConfLives(v, lseps, payload, answer, sent) == (sent || !answer.NoHandler?)
      && var effect := ConfEffect(v, lseps, payload, answer, sent, if refused then None else Some(s), report);
         && EffectReady(v, effect)
         && Effected(v, effect) == if refused || answer.Later? then v else SettledLate(v, p, s, sent, report)
  {
    hide ReadAll, BadTransport, Good;
    DetachedFree(v, p, s);
    hide Detached, MovedTo, Taken;
  }

  // What answers do to a discovery is what module Discovery says they do.
  ghost function Followed(t: Talk<Stream>, ok: bool): Talk<Stream> { t.(q := Answer(t.q, ok)) }

  lemma FindsTalk(v: Shot, queries: seq<byte>, cmd: Signal, next: bool)
    requires Possible(v, Settles(Finds(queries, cmd), next))
    ensures TalkOf(Changed(v, Settles(Finds(queries, cmd), next)))
      == Followed(Discovered(TalkOf(v), queries, cmd), next)
  {
    hide Good, Discovering, Discovered, Processed, TalkOf, Answer;
    WhenSettled(v, Finds(queries, cmd), next);
    UnarmedTalk(v);
    DiscoveringTalk(Unarmed(v), queries, cmd);
    NextTalk(Discovering(Unarmed(v), queries, cmd), next);
  }

  lemma DescribesTalk(v: Shot, id: byte, bytes: seq<byte>, reports: bool, next: bool)
    requires Possible(v, Settles(Describes(id, ReadAll(bytes).0, reports), next))
    ensures TalkOf(Changed(v, Settles(Describes(id, ReadAll(bytes).0, reports), next)))
      == Followed(Described(TalkOf(v), id, bytes), next)
  {
    hide Good, Describing, Described, Processed, TalkOf, Answer, ReadAll;
    var o := Describes(id, ReadAll(bytes).0, reports);
    WhenSettled(v, o, next);
    UnarmedTalk(v);
    DescribingTalk(Unarmed(v), id, bytes, reports);
    NextTalk(Describing(Unarmed(v), id, ReadAll(bytes).0, reports), next);
  }

  // ------------------------------------------------------------ whole runs

  ghost function Ran(v: Shot, changes: seq<Change>): Shot {
    if changes == [] then v
    else Changed(Ran(v, changes[..|changes| - 1]), changes[|changes| - 1])
  }

  // No change of the run is of this kind when it comes.
  ghost predicate Never(v: Shot, changes: seq<Change>, bad: (Shot, Change) -> bool) {
    forall k :: 0 <= k < |changes| ==> !bad(Ran(v, changes[..k]), changes[k])
  }

  lemma NeverEarlier(v: Shot, changes: seq<Change>, bad: (Shot, Change) -> bool)
    requires changes != [] && Never(v, changes, bad)
    ensures var before := changes[..|changes| - 1];
      Never(v, before, bad) && !bad(Ran(v, before), changes[|changes| - 1])
  {
    var before := changes[..|changes| - 1];
    forall k | 0 <= k < |before| ensures !bad(Ran(v, before[..k]), before[k]) {
      assert before[..k] == changes[..k];
      assert !bad(Ran(v, changes[..k]), changes[k]);
    }
    assert !bad(Ran(v, changes[..|changes| - 1]), changes[|changes| - 1]);
  }

  // Over every run in which no stream is put on a taken end point the session
  // stays in order.
  lemma {:induction false} RanGood(v: Shot, changes: seq<Change>)
    requires Good(v) && Never(v, changes, Clashes)
    ensures Good(Ran(v, changes))
  {
    hide Good, Changed, Clashes, Never;
    if changes != [] {
      var before := changes[..|changes| - 1];
      NeverEarlier(v, changes, Clashes);
      RanGood(v, before);
      StepGood(Ran(v, before), changes[|changes| - 1]);
    }
  }

  lemma StepGood(v: Shot, c: Change)
    requires Good(v) && !Clashes(v, c)
    ensures Good(Changed(v, c))
  {
    hide Good, Clashes;
    if Possible(v, c) { ChangedGood(v, c); }
  }

  // Over every run, up to a clash, in which no discovery request is rejected
  // during a later discovery that waits in its source, every source finds its
  // discovery.
  lemma {:induction false} RanTied(v: Shot, changes: seq<Change>)
    requires Tied(v) && Never(v, changes, RejectsIdle)
    ensures Tied(Ran(v, changes))
    ensures Ran(v, changes).idles > 0 ==> Ran(v, changes).discover.Some?
  {
    hide Possible, Changed, RejectsIdle, Never;
    if changes != [] {
      var before, c := changes[..|changes| - 1], changes[|changes| - 1];
      NeverEarlier(v, changes, RejectsIdle);
      RanTied(v, before);
      StepTied(Ran(v, before), c);
    }
  }

  // That is so of every run in the order of the main loop, which lets a source
  // run before anything more comes through the channel.
  lemma {:induction false} RanInOrder(v: Shot, changes: seq<Change>)
    requires Tied(v) && Never(v, changes, ChannelFirst)
    ensures Tied(Ran(v, changes)) && Never(v, changes, RejectsIdle)
  {
    hide Possible, Changed, Never;
    if changes != [] {
      var before, c := changes[..|changes| - 1], changes[|changes| - 1];
      NeverEarlier(v, changes, ChannelFirst);
      RanInOrder(v, before);
      if RejectsIdle(Ran(v, before), c) { RejectionComesFirst(Ran(v, before), c); }
      NeverMore(v, changes, RejectsIdle);
      StepTied(Ran(v, before), c);
    }
    NeverNothing(v, RejectsIdle);
  }

  lemma NeverNothing(v: Shot, bad: (Shot, Change) -> bool)
    ensures Never(v, [], bad)
  {}

  lemma NeverMore(v: Shot, changes: seq<Change>, bad: (Shot, Change) -> bool)
    requires changes != []
    requires var before := changes[..|changes| - 1];
      Never(v, before, bad) && !bad(Ran(v, before), changes[|changes| - 1])
    ensures Never(v, changes, bad)
  {
    var before := changes[..|changes| - 1];
    forall k | 0 <= k < |changes| ensures !bad(Ran(v, changes[..k]), changes[k]) {
      if k < |before| {
        assert before[..k] == changes[..k];
        assert !bad(Ran(v, before[..k]), before[k]);
      }
    }
  }

  lemma StepTied(v: Shot, c: Change)
    requires Tied(v) && !RejectsIdle(v, c)
    ensures Tied(Changed(v, c))
  {
    hide Good, Tied, RejectsIdle;
    if Possible(v, c) { ChangedTied(v, c); }
  }

  // A discovery that could not be asked for.
  ghost predicate AskFails(v: Shot, c: Change) { c.Discovers? && v.seps == map[] && !Accepts(v.q, c.ok) }

  // Over every run, up to a clash, in which each discovery could be asked for,
  // no callback is called that was not set.
  lemma {:induction false} RanCallbacks(v: Shot, changes: seq<Change>)
    requires (v.discover.Some? ==> v.discover.value.cb) && Never(v, changes, AskFails)
    ensures Ran(v, changes).nullCalls == v.nullCalls
    ensures Ran(v, changes).discover.Some? ==> Ran(v, changes).discover.value.cb
  {
    hide Possible, Changed, AskFails, Never;
    if changes != [] {
      var before, c := changes[..|changes| - 1], changes[|changes| - 1];
      NeverEarlier(v, changes, AskFails);
      RanCallbacks(v, before);
      StepCallbacks(Ran(v, before), c);
    }
  }

  lemma StepCallbacks(v: Shot, c: Change)
    requires (v.discover.Some? ==> v.discover.value.cb) && !AskFails(v, c)
    ensures Changed(v, c).nullCalls == v.nullCalls
    ensures Changed(v, c).discover.Some? ==> Changed(v, c).discover.value.cb
  {
    hide Good;
    if Possible(v, c) {
      ChangedNullCalls(v, c);
      ChangedCallback(v, c);
    }
    hide Changed;
  }

  // In every run, up to a clash, while the channel is watched, the outstanding
  // request has its timeout: what session_cb takes for granted of an answer.
  lemma {:induction false} RanListens(v: Shot, changes: seq<Change>)
    requires Listening(v)
    ensures Listening(Ran(v, changes))
  {
    hide Changed, Good;
    if changes != [] {
      var before, c := changes[..|changes| - 1], changes[|changes| - 1];
      RanListens(v, before);
      StepListens(Ran(v, before), c);
    }
  }

  lemma StepListens(v: Shot, c: Change)
    requires Listening(v)
    ensures Listening(Changed(v, c))
  {
    hide Good, Listening;
    if Possible(v, c) { ChangedListens(v, c); }
  }

  // A session as avdtp_new leaves it.
  ghost predicate JustMade(v: Shot) {
    && (forall p :: p in v.places ==> v.places[p] == Place(Idle, false, None))
    && v.streams == [] && v.pendingOpen.None? && v.q == Pending(None, [], []) && v.seps == map[]
    && v.discover.None? && v.calls == 0 && v.ended == [] && v.idles == 0 && v.nullCalls == 0
  }

  lemma JustMadeGood(v: Shot)
    requires JustMade(v)
    ensures Good(v) && Tied(v) && Listening(v)
  {}

  // In every state a session can reach by handlers that put no stream on a
  // taken end point: the streams are, once each, those attached to its end
  // points; inuse marks exactly the end points with a stream and the others are
  // idle; a transport is awaited, and requests wait, only for attached streams;
  // no avdtp_discover callback has fired twice.
  lemma EveryReachableState(v: Shot, changes: seq<Change>)
    requires JustMade(v) && Never(v, changes, Clashes)
    ensures var w := Ran(v, changes);
      && (forall s :: s in w.streams <==> exists p :: p in w.places && w.places[p].stream == Some(s))
      && Distinct(w.streams)
      && (forall p :: p in w.places ==> (w.places[p].inuse <==> w.places[p].stream.Some?))
      && (forall p :: p in w.places && w.places[p].state != Idle ==> w.places[p].stream.Some?)
      && (w.pendingOpen.Some? ==> w.pendingOpen.value in w.streams)
      && (forall r :: (r in w.q.prio || r in w.q.normal) && r.stream.Some? ==> r.stream.value in w.streams)
      && (forall id :: id in w.seps && w.seps[id].stream.Some? ==> w.seps[id].stream.value in w.streams)
      && (w.watched && w.q.outstanding.Some? && w.q.outstanding.value.stream.Some? ==>
           w.q.outstanding.value.stream.value in w.streams)
      && Distinct(w.ended)
  {
    JustMadeGood(v);
    RanGood(v, changes);
    RanListens(v, changes);
    var w := Ran(v, changes);
    forall s | s in w.streams ensures exists p :: p in w.places && w.places[p].stream == Some(s) {
      StreamPlaced(w, s);
    }
    forall r | (r in w.q.prio || r in w.q.normal) && r.stream.Some? ensures r.stream.value in w.streams {
      assert NamesOnly(r, w.streams, w.seps);
    }
    hide Ran, Never;
  }
}
