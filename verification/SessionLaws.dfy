// The life of an end point: what each change makes of it, in plain terms, and
// what alone takes it from one state to another (avdtp.c).
module SessionLaws {
  import opened Options
  import opened Bytes
  import opened Lists
  import opened AvdtpMessages
  import opened Discovery
  import opened SessionState
  import opened SessionCommands
  import opened SessionRuns
  import opened ChangeLaws

  // ------------------------------------------------------ accepted answers

  // Only this end point changes, and it keeps its stream.
  ghost predicate OnlyMoves(v: Shot, w: Shot, s: Stream, state: State) {
    && w.places == v.places[s.lsep := Place(state, true, Some(s))]
    && w.streams == v.streams && w.pendingOpen == v.pendingOpen
  }

  // The stream leaves: its end point is idle and free, nothing awaits it, and
  // the other end points and streams stay as they are.
  ghost predicate Leaves(v: Shot, w: Shot, s: Stream) {
    && w.places == v.places[s.lsep := Place(Idle, false, None)]
    && w.streams == Without(v.streams, s) && s !in w.streams
    && w.pendingOpen == (if v.pendingOpen == Some(s) then None else v.pendingOpen)
  }

  // What an accepted request for a stream makes of the session.
  lemma AcceptedAnswer(v: Shot, signal: Signal, s: Stream, report: Option<bool>, next: bool)
    requires Possible(v, Settles(OnStream(signal, s, report), next))
    ensures v.q.outstanding.Some? && v.q.outstanding.value.signal == signal
    ensures v.q.outstanding.value.stream == Some(s) && s.lsep in v.places
    ensures var w := Changed(v, Settles(OnStream(signal, s, report), next));
      match signal
      case SetConfiguration => OnlyMoves(v, w, s, Configured)
      case Open => w.places == v.places && w.streams == v.streams && w.pendingOpen == Some(s)
      case Start => OnlyMoves(v, w, s, Streaming)
      case Suspend => OnlyMoves(v, w, s, Opened)
      case Close => OnlyMoves(v, w, s, Closing)
      case Abort => Leaves(v, w, s)
      case _ => w.places == v.places && w.streams == v.streams && w.pendingOpen == v.pendingOpen
  {
    WhenSettled(v, OnStream(signal, s, report), next);
    StreamPlaced(v, s);
    assert v.places[s.lsep].inuse;
    if signal.Abort? { AbortLeaves(Unarmed(v), s); }
    hide Good, Changed, Possible, WentIdle;
  }

  lemma AbortLeaves(v: Shot, s: Stream)
    requires Good(v) && s in v.streams && s.lsep in v.places && v.places[s.lsep].stream == Some(s)
    ensures Leaves(v, WentIdle(Moved(v, s.lsep, Aborting), s.lsep), s)
  {
    WithoutDistinct(v.streams, s);
  }

  // ---------------------------------------------- the life of an end point

  // The peer accepted this request for the stream of the end point.
  ghost predicate Answered(c: Change, signal: Signal, p: LocalSep) {
    c.Settles? && c.outcome.OnStream? && c.outcome.signal == signal && c.outcome.s.lsep == p
  }

  // The peer configured it, and the answer went out, at once or later.
  ghost predicate Attached(c: Change, p: LocalSep) {
    || (c.Commanded? && c.effect.Attaches? && c.effect.p == p)
    || (c.AnswersLate? && c.sent && c.p == p)
  }

  // The peer's START or SUSPEND names it.
  ghost predicate Named(c: Change, state: State, p: LocalSep) {
    c.Commanded? && c.effect.Walks? && c.effect.to == state && Names(c.effect.lseps, c.effect.ids, p)
  }

  // The peer's CLOSE or ABORT names it.
  ghost predicate Sent(c: Change, state: State, p: LocalSep) {
    c.Commanded? && c.effect == Moves(p, state)
  }

  // The session is given up, or a request cancelled, which may come to that.
  ghost predicate GivesUp(c: Change) {
    (c.Commanded? && !c.alive) || c.AnswerFails? || c.ChannelFails? || c.TimesOut? || c.NeverOpens? || c.Aborts?
  }

  // What alone takes an end point to a state it is not in.
  ghost predicate Way(c: Change, p: LocalSep, state: State) {
    match state
    case Idle => Answered(c, Abort, p) || (c.GoesIdle? && c.p == p) || GivesUp(c)
    case Configured => Answered(c, SetConfiguration, p) || Attached(c, p)
    case Opened => Answered(c, Suspend, p) || (c.Connects? && c.s.lsep == p) || Named(c, Opened, p)
    case Streaming => Answered(c, Start, p) || Named(c, Streaming, p)
    case Closing => Answered(c, Close, p) || Sent(c, Closing, p)
    case Aborting => Sent(c, Aborting, p)
  }

  lemma {:induction false} WalkedFrame(places: map<LocalSep, Place>, lseps: seq<LocalSep>, ids: seq<byte>, from: State,
                                       to: State, app: nat -> Option<byte>, i: nat, p: LocalSep)
    requires p in places
    ensures var w := Walked(places, lseps, ids, from, to, app, i).0;
      p in w && (w[p] == places[p] || (w[p] == places[p].(state := to) && Names(lseps, ids, p)))
    decreases |ids|
  {
    if ids != [] {
      NamesFirst(lseps, ids, p);
      if Refusal(places, lseps, ids[0], from, app(i)).None? {
        GoesFrom(places, lseps, ids[0], from, app(i));
        var q := EndAt(lseps, ids[0]).value;
        WalkedFrame(places[q := places[q].(state := to)], lseps, ids[1..], from, to, app, i + 1, p);
      }
    }
    hide Refusal, Names, EndAt;
  }

  lemma CommandedWay(v: Shot, e: Effect, p: LocalSep)
    requires Good(v) && EffectReady(v, e) && p in v.places
    ensures var w := Effected(v, e);
      && p in w.places
      && (w.places[p].state != v.places[p].state ==>
           (e.Attaches? && e.p == p && w.places[p].state == Configured)
           || (e == Moves(p, w.places[p].state) && w.places[p].state in {Closing, Aborting})
           || (e.Walks? && e.to == w.places[p].state && e.to in {Opened, Streaming} && Names(e.lseps, e.ids, p)))
  {
    hide Good, Walked, Forget;
    if e.Walks? { WalkedFrame(v.places, e.lseps, e.ids, e.from, e.to, e.app, 0, p); }
  }

  lemma BrokenIdle(v: Shot)
    requires Good(v)
    ensures Broken(v).places.Keys == v.places.Keys
    ensures forall p :: p in v.places ==> Broken(v).places[p].state == Idle
  {
    LostGood(v);
    NothingAttached(Lost(v));
    hide Good, Lost;
  }

  lemma CancelledIdle(v: Shot, ok: bool)
    requires Good(v) && v.q.outstanding.Some?
    ensures forall s :: s in v.streams ==> s.lsep in v.places
    ensures Cancelled(v, ok).places.Keys == v.places.Keys
    ensures var w := Cancelled(v, ok);
      w.places == v.places || forall p :: p in v.places ==> w.places[p].state == Idle
  {
    NoneOutstandingGood(v);
    LostGood(NoneOutstanding(v));
    NothingAttached(Lost(NoneOutstanding(v)));
    hide Good, Lost;
  }

  lemma AbortAskedIdle(v: Shot, s: Stream, ok: bool)
    requires Good(v)
    ensures var w := AbortAsked(v, s, ok);
      && w.places.Keys == v.places.Keys
      && (w.places == v.places || forall p :: p in v.places ==> w.places[p].state == Idle)
  {
    if s in v.streams { StreamPlaced(v, s); }
    if v.q.outstanding.Some? { CancelledIdle(v, ok); }
    hide Good, Cancelled;
  }

  lemma CommandWay(v: Shot, c: Change, p: LocalSep)
    requires Possible(v, c) && c.Commanded? && p in v.places
    ensures var w := Changed(v, c);
      p in w.places && (w.places[p].state != v.places[p].state ==> Way(c, p, w.places[p].state))
  {
    hide Good, Effected, EffectReady, Changed, Broken, Names, Possible;
    ReadyToObey(v, c.effect, c.marked, c.alive, c.next);
    WhenCommanded(v, c.effect, c.marked, c.alive, c.next);
    CommandedWay(v, c.effect, p);
    BrokenIdle(Effected(v, c.effect));
  }

  lemma ReadyToObey(v: Shot, e: Effect, marked: bool, alive: bool, next: bool)
    requires Possible(v, Commanded(e, marked, alive, next))
    ensures Good(v) && v.watched && EffectReady(v, e)
    ensures marked ==> v.q.outstanding.Some? && MayLose(v.q.outstanding.value.signal)
  {
    hide Good;
  }

  lemma AnswerWay(v: Shot, c: Change, p: LocalSep)
    requires Possible(v, c) && c.Settles? && p in v.places
    ensures var w := Changed(v, c);
      p in w.places && (w.places[p].state != v.places[p].state ==> Way(c, p, w.places[p].state))
  {
    if c.outcome.OnStream? {
      var o := c.outcome;
      AcceptedAnswer(v, o.signal, o.s, o.report, c.next);
    } else {
      OtherAnswers(v, c.outcome, c.next);
    }
    hide Good, Changed, Possible;
  }

  lemma OtherAnswers(v: Shot, o: Outcome, next: bool)
    requires Possible(v, Settles(o, next)) && !o.OnStream?
    ensures Changed(v, Settles(o, next)).places == v.places
  {
    hide Good, Changed, NextLeaves, Noticed, DiscoveryEnds;
    match o
    case Finds(queries, cmd) => EndPointsFound(v, queries, cmd, next);
    case Describes(id, caps, reports) => CapabilitiesFiled(v, id, caps, reports, next);
    case _ => NextAfterAnswer(v, o, next);
  }

  lemma OtherWay(v: Shot, c: Change, p: LocalSep)
    requires Possible(v, c) && p in v.places
    requires !c.Commanded? && !c.Settles? && !c.AnswerFails? && !c.ChannelFails? && !c.TimesOut? && !c.NeverOpens?
      && !c.Aborts?
    ensures var w := Changed(v, c);
      p in w.places && (w.places[p].state != v.places[p].state ==> Way(c, p, w.places[p].state))
  {
    hide Good, Changed, DiscoveryStays, Submits;
    match c
    case Requests(priority, r, ok) => RequestMade(v, priority, r, ok);
    case Configures(q, s, ok) =>
      WhenConfiguring(v, q, s, ok);
      ConfiguringKeeps(v, q, s, ok, p);
    case AnswersLate(q, s, sent, report) =>
      WhenLate(v, q, s, sent, report);
      LateKeeps(v, q, s, sent, report, p);
    case Connects(s) => ConnectsPlainly(v, s);
    case GoesIdle(q) => IdlePlainly(v, q);
    case Discovers(ok) => DiscoversPlainly(v, ok);
    case IdleRuns => SourceRuns(v);
    case StopsListening => WhenDeaf(v);
    case Same => WhenSame(v);
    hide Configuring, SettledLate;
  }

  lemma ConfiguringKeeps(v: Shot, q: LocalSep, s: Stream, ok: bool, p: LocalSep)
    requires q in v.places && s.rseid in v.seps && p in v.places
    ensures var w := Configuring(v, q, s, ok); p in w.places && w.places[p].state == v.places[p].state
  {}

  lemma LateKeeps(v: Shot, q: LocalSep, s: Stream, sent: bool, report: Option<bool>, p: LocalSep)
    requires q in v.places && p in v.places
    ensures var w := SettledLate(v, q, s, sent, report);
      && p in w.places
      && w.places[p].state == if sent && p == q then Configured else v.places[p].state
  {}

  // An end point changes its state in these ways only.
  lemma EntersOnly(v: Shot, c: Change, p: LocalSep)
    requires Possible(v, c) && p in v.places
    ensures var w := Changed(v, c);
      p in w.places && (w.places[p].state != v.places[p].state ==> Way(c, p, w.places[p].state))
  {
    hide Good, Broken, Cancelled, AbortAsked, Forget, NotNaming, Effected, OutcomeOf, EffectReady;
    hide WentIdle, Moved, MovedTo, Configuring, SettledLate, DiscoverCalled, Requested, Processed, AfterCommand;
    match c
    case Commanded(_, _, _, _) => CommandWay(v, c, p);
    case Settles(_, _) => AnswerWay(v, c, p);
    case AnswerFails =>
      WhenFailed(v);
      BrokenIdle(Unarmed(v));
    case ChannelFails => BrokenIdle(v);
    case TimesOut(ok) => CancelledIdle(v, ok);
    case NeverOpens(s, ok) =>
      NonePendingGood(v);
      AbortAskedIdle(v.(pendingOpen := None), s, ok);
    case Aborts(s, ok) => AbortAskedIdle(v, s, ok);
    case _ => OtherWay(v, c, p);
  }
}
