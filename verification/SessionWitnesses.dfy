// Runs of a session that show where avdtp.c goes wrong.
module SessionWitnesses {
  import opened Options
  import opened Bytes
  import opened Lists
  import opened RequestQueue
  import opened AvdtpMessages
  import opened Capabilities
  import opened Discovery
  import opened SessionState
  import opened SessionCommands
  import opened SessionRuns
  import opened AvdtpSession

  // ------------------------------------------- two streams of one end point

  const NEVER: nat -> Option<byte> := n => None

  // A configuration the application will answer later changes nothing yet.
  lemma LaterChangesNothing(v: Shot, sep: LocalSep, sent: bool, s: Option<Stream>, report: Option<bool>)
    requires sep.seid == 1 && sep in v.places && v.places[sep].stream.None?
    ensures EndAt([sep], 4) == Some(sep) && ConfError(v.places, Some(sep), ReadAll([4, 4][2..]).0, Later).None?
    ensures CommandEffect(v, [sep], SetConfiguration, [4, 4], Later, NEVER, sent, s, report) == NoEffect
    ensures CommandLives(v, [sep], SetConfiguration, [4, 4], Later, sent)
  {
    assert [4, 4][2..] == [];
    assert ReadAll([]).0 == [];
  }

  method PutOff(session: Session, sep: LocalSep) returns (s: Stream)
    requires session.Valid() && session.watched && session.lseps == [sep] && sep.seid == 1 && sep.stream.None?
    requires session.req.None?
    modifies session, Ends(session.lseps), set u | u in session.streams
    ensures session.Valid() && session.View() == old(session.View())
    ensures fresh(s) && s.lsep == sep && s !in session.streams && sep.stream.None?
    ensures !sep.sink ==> |session.sent| == |old(session.sent)|
  {
    hide Good, Changed, Possible, CommandEffect, CommandLives, CommandMarks, ConfError, ReadAll, EndAt;
    ghost var v, n := session.View(), |session.sent|;
    session.PlaceOf(sep);
    ghost var l0, l1 := session.link(n), session.link(n + 1);
    var alive, made, change := session.ReceiveCommand(SetConfiguration, [4, 4], Later, NEVER);
    LaterChangesNothing(v, sep, l0, made, ReportOf(made, l1));
    MarksOutstanding(v, [sep], SetConfiguration, [4, 4], NEVER);
    WhenCommanded(v, NoEffect, false, alive, change.next);
    assert session.View() == v;
    session.PlaceOf(sep);
    s := made.value;
  }

  // Two streams wait for the application: it accepts both.
  method AcceptLate(session: Session, s: Stream)
    requires session.Valid() && s !in session.streams && s.lsep in session.lseps && session.link(|session.sent|)
    modifies session, s.lsep, s
    ensures session.Valid() <==> old(s.lsep.stream.None?)
    ensures s.lsep.stream == Some(s) && session.streams == old(session.streams) + [s]
    ensures !s.lsep.sink ==> |session.sent| == |old(session.sent)| + 1
  {
    hide Good, Changed, Possible, Places;
    session.PlaceOf(s.lsep);
    ghost var v, report := session.View(), session.LateReport(s);
    var _ := session.SetconfCb(s, None);
    LateAttaches(v, s.lsep, s, report);
    session.PlaceOf(s.lsep);
  }

  lemma LateAttaches(v: Shot, p: LocalSep, s: Stream, report: Option<bool>)
    requires p in v.places
    ensures var w := SettledLate(v, p, s, true, report);
      w.streams == v.streams + [s] && w.places.Keys == v.places.Keys && w.places[p].stream == Some(s)
  {}

  // Two configurations of one end point are accepted while the application
  // takes its time, and both are answered later: the session then has two
  // streams of one end point.
  method BothAnsweredLate() returns (session: Session, first: Stream, second: Stream)
    ensures !session.Valid() && session.streams == [first, second] && first != second && first.lsep == second.lsep
  {
    hide Good, Changed, Possible, Places, JustMade;
    var sep := new LocalSep(1, false, false);
    session := NewSession(sep, n => true);
    first := PutOff(session, sep);
    second := PutOff(session, sep);
    AcceptLate(session, first);
    AcceptLate(session, second);
  }

  // If the second acceptance cannot be sent, the end point loses the first stream.
  method SecondNotSent() returns (session: Session, first: Stream)
    ensures !session.Valid() && session.streams == [first] && first.lsep.stream == None
  {
    hide Good, Changed, Possible, Places, JustMade;
    var sep := new LocalSep(1, false, false);
    session := NewSession(sep, n => n == 0);
    first := PutOff(session, sep);
    var second := PutOff(session, sep);
    AcceptLate(session, first);
    session.PlaceOf(sep);
    ghost var v, report := session.View(), session.LateReport(second);
    var _ := session.SetconfCb(second, None);
    LateDetaches(v, sep, second, report);
    session.PlaceOf(sep);
  }

  lemma LateDetaches(v: Shot, p: LocalSep, s: Stream, report: Option<bool>)
    requires p in v.places
    ensures var w := SettledLate(v, p, s, false, report); w.streams == v.streams && w.places[p].stream == None
  {}

  method NewSession(sep: LocalSep, link: nat -> bool) returns (session: Session)
    requires sep.stream == None && !sep.inuse && sep.state == Idle
    ensures fresh(session) && session.Valid() && session.lseps == [sep] && session.link == link && session.sent == []
    ensures JustMade(session.View()) && session.watched && session.streams == [] && session.req == None
    ensures session.version == 0x0100
  {
    hide Good;
    session := new Session([sep], 0x0100, link);
  }

  // ---------------------------------- process_discover without a discovery

  function AskFor(id: byte): Req { PendingReq(GetCapabilities, id, None) }

  // The session while two end points are asked about; of the discovery and its
  // sources no more is said than what they are.
  ghost predicate Asks(v: Shot, q: Pending<Req>, discover: Option<Call>, idles: nat) {
    && Good(v) && v.watched && v.q == q && (q.outstanding.Some? ==> v.armed)
    && v.discover == discover && v.idles == idles && v.seps != map[] && v.streams == []
  }

  lemma TwoListed()
    ensures Queries(Infos([4, 0, 8, 0]), {}, {}) == [1, 2]
  {
    assert [4, 0, 8, 0][2..] == [8, 0] && [8, 0][2..] == [];
    assert Infos([8, 0]) == [Info(8)] && Infos([4, 0, 8, 0]) == [Info(4), Info(8)];
    assert [Info(4), Info(8)][1..] == [Info(8)] && [Info(8)][1..] == [];
    assert Queries([Info(8)], {1}, {}) == [2];
  }

  lemma TwoAsked(v: Shot)
    requires v.q == Pending(Some(PendingReq(Discover, 0, None)), [], [])
    ensures var w := Discovering(v, [1, 2], GetCapabilities);
      w == v.(q := v.q.(prio := [AskFor(1), AskFor(2)]), seps := w.seps) && w.seps != map[]
  {
    assert [1, 2][..1] == [1] && [1][..0] == [];
    assert NotedAll(v, [1], GetCapabilities) == Noted(v, 1, GetCapabilities);
    assert 2 in Noted(Noted(v, 1, GetCapabilities), 2, GetCapabilities).seps;
  }

  lemma TwoFound(v: Shot)
    requires Good(v) && v.watched && v.armed && v.streams == [] && v.seps == map[] && v.idles == 0
    requires v.q == Pending(Some(PendingReq(Discover, 0, None)), [], [])
    ensures Queries(Infos([4, 0, 8, 0]), v.seps.Keys, Rseids(v.streams)) == [1, 2]
    ensures Asks(Changed(v, Settles(Finds([1, 2], GetCapabilities), true)),
                 Pending(Some(AskFor(1)), [AskFor(2)], []), v.discover, 0)
  {
    hide Good, Changed, Possible, Queries, Infos, Discovering;
    assert v.seps.Keys == {} && Rseids(v.streams) == {};
    TwoListed();
    TwoAsked(Unarmed(v));
    WhenSettled(v, Finds([1, 2], GetCapabilities), true);
    ChangedGood(v, Settles(Finds([1, 2], GetCapabilities), true));
  }

  // The next one is rejected: the discovery ends, its source stays.
  lemma OneRejected(v: Shot, q: Pending<Req>, discover: Option<Call>, idles: nat)
    requires Asks(v, q, discover, idles) && q.outstanding.Some? && AsksCapabilities(q.outstanding.value.signal)
    ensures Asks(Changed(v, Settles(Declines, true)), Answer(q, true), None, idles)
  {
    hide Good, Changed, Possible;
    WhenSettled(v, Declines, true);
    ChangedGood(v, Settles(Declines, true));
  }

  lemma DiscoveredAgain(v: Shot, q: Pending<Req>)
    requires Asks(v, q, None, 0)
    ensures Asks(Changed(v, Discovers(true)), q, Some(Call(v.calls, true, true)), 1)
  {
    hide Good, Changed, Possible;
    WhenDiscovering(v, true);
  }

  method FindTwo(session: Session)
    requires session.Valid() && JustMade(session.View()) && session.watched && session.version == 0x0100
    requires session.sent == [] && forall n :: session.link(n)
    modifies session, Ends(session.lseps)
    ensures forall n :: session.link(n)
    ensures Asks(session.View(), Pending(Some(AskFor(1)), [AskFor(2)], []), Some(Call(0, true, false)), 0)
  {
    hide Good, Changed, Possible, Queries, Infos, Attached, Asks;
    ghost var v := session.View();
    WhenDiscovering(v, true);
    var _, _ := session.DiscoverRequest();
    ghost var w := session.View();
    TwoFound(w);
    var _, _, _ := session.ReceiveAnswer(Accepted, Discover, true, [4, 0, 8, 0], false);
  }

  method RejectOne(session: Session, ghost q: Pending<Req>, ghost discover: Option<Call>, ghost idles: nat)
    requires session.Valid() && Asks(session.View(), q, discover, idles) && (forall n :: session.link(n))
    requires q.outstanding.Some? && q.outstanding.value.signal == GetCapabilities
    modifies session, Ends(session.lseps)
    ensures session.Valid() && Asks(session.View(), Answer(q, true), None, idles)
  {
    hide Good, Changed, Possible, Answer;
    OneRejected(session.View(), q, discover, idles);
    var _, _, _ := session.ReceiveAnswer(Rejected, GetCapabilities, true, [0], false);
  }

  method DiscoverAgain(session: Session, ghost q: Pending<Req>)
    requires session.Valid() && Asks(session.View(), q, None, 0) && (forall n :: session.link(n))
    modifies session
    ensures session.Valid() && Asks(session.View(), q, Some(Call(old(session.calls), true, true)), 1)
  {
    hide Good, Changed, Possible;
    DiscoveredAgain(session.View(), q);
    var _, _ := session.DiscoverRequest();
  }

  // Two end points are found. The request about the first is rejected, which
  // ends the discovery; avdtp_discover is called again, and then the request
  // about the second is rejected too. The source of the second call runs
  // without a discovery.
  method SourceRunsAlone() returns (session: Session, sound: bool)
    ensures !sound
  {
    hide Good, Changed, Possible, Answer, JustMade;
    var sep := new LocalSep(1, false, false);
    session := NewSession(sep, n => true);
    FindTwo(session);
    RejectOne(session, Pending(Some(AskFor(1)), [AskFor(2)], []), Some(Call(0, true, false)), 0);
    NextAsks();
    DiscoverAgain(session, Pending(Some(AskFor(2)), [], []));
    RejectOne(session, Pending(Some(AskFor(2)), [], []), session.discover, 1);
    var found, _ := session.ProcessDiscover();
    sound := found;
  }

  lemma NextAsks()
    ensures Answer(Pending(Some(AskFor(1)), [AskFor(2)], []), true) == Pending(Some(AskFor(2)), [], [])
  {}

  // ------------------------------------------- a callback that was never set

  const ASK: Req := PendingReq(Discover, 0, None)

  function ToAbort(s: Stream): Req { PendingReq(Abort, s.rseid, Some(s)) }

  // The session before it knows any end point of the peer; cb tells whether a
  // discovery is in progress, and whether its callback is set.
  ghost predicate Stage(v: Shot, streams: seq<Stream>, q: Pending<Req>, cb: Option<bool>, nullCalls: nat) {
    && Good(v) && v.watched && v.seps == map[] && v.streams == streams
    && v.q == q && (q.outstanding.Some? ==> v.armed)
    && (v.discover.Some? <==> cb.Some?) && (cb.Some? ==> v.discover.value.cb == cb.value && !v.discover.value.idle)
    && v.nullCalls == nullCalls
  }

  lemma Configures(v: Shot, sep: LocalSep, made: Option<Stream>)
    requires sep.seid == 1 && sep in v.places && v.places[sep].stream.None?
    ensures EndAt([sep], 4) == Some(sep)
    ensures ConfError(v.places, Some(sep), ReadAll([4, 4][2..]).0, NoHandler).None?
    ensures made.Some? ==>
      CommandEffect(v, [sep], SetConfiguration, [4, 4], NoHandler, NEVER, true, made, None)
        == Attaches(sep, made.value, None)
    ensures CommandLives(v, [sep], SetConfiguration, [4, 4], NoHandler, true)
  {
    assert [4, 4][2..] == [];
    assert ReadAll([]).0 == [];
  }

  lemma ConfiguredStage(v: Shot, q: Pending<Req>, cb: Option<bool>, sep: LocalSep, s: Stream, next: bool)
    requires Stage(v, [], q, cb, 0) && q.outstanding.None? && sep in v.places && s.lsep == sep
    ensures v.places[sep].stream.None?
    ensures var w := Changed(v, Commanded(Attaches(sep, s, None), false, true, next));
      && Stage(w, [s], q, cb, 0) && w.places.Keys == v.places.Keys
      && w.places[sep] == Place(State.Configured, true, Some(s))
  {
    NothingAttached(v);
    hide Good, Changed, Possible;
    WhenCommanded(v, Attaches(sep, s, None), false, true, next);
  }

  method Configure(session: Session, sep: LocalSep, ghost q: Pending<Req>, ghost cb: Option<bool>) returns (s: Stream)
    requires Stage(session.View(), [], q, cb, 0) && q.outstanding.None? && session.link(|session.sent|)
    requires session.lseps == [sep] && sep.seid == 1 && !sep.sink
    modifies session, sep
    ensures fresh(s) && s.lsep == sep && s.rseid == 1 && sep.state == State.Configured
    ensures Stage(session.View(), [s], q, cb, 0) && |session.sent| == |old(session.sent)| + 1
  {
    hide Good, Changed, Possible, CommandEffect, CommandLives, CommandMarks, ConfError, ReadAll, EndAt;
    ghost var v := session.View();
    session.PlaceOf(sep);
    NothingAttached(v);
    var alive, made, change := session.ReceiveCommand(SetConfiguration, [4, 4], NoHandler, NEVER);
    Configures(v, sep, made);
    s := made.value;
    MarksOutstanding(v, [sep], SetConfiguration, [4, 4], NEVER);
    ConfiguredStage(v, q, cb, sep, s, change.next);
    session.PlaceOf(sep);
  }

  // The stream is aborted, and while the ABORT is unanswered, avdtp_discover
  // called: its request waits.
  method AbortAndDiscover(session: Session, s: Stream)
    requires Stage(session.View(), [s], Pending(None, [], []), None, 0) && session.link(|session.sent|)
    requires s.lsep in session.lseps && s.lsep.state == State.Configured
    modifies session, Ends(session.lseps), s
    ensures Stage(session.View(), [s], Pending(Some(ToAbort(s)), [], [ASK]), Some(true), 0)
    ensures |session.sent| == |old(session.sent)| + 1
  {
    hide Good, Changed, Possible;
    AbortSent(session, s, Pending(None, [], []), None);
    ghost var v := session.View();
    WhenDiscovering(v, session.link(|session.sent|));
    var _, _ := session.DiscoverRequest();
  }

  method AbortSent(session: Session, s: Stream, ghost q: Pending<Req>, ghost cb: Option<bool>)
    requires Stage(session.View(), [s], q, cb, 0) && q.outstanding.None? && session.link(|session.sent|)
    requires s.lsep in session.lseps && s.lsep.state == State.Configured
    modifies session, Ends(session.lseps), s
    ensures Stage(session.View(), [s], q.(outstanding := Some(ToAbort(s))), cb, 0)
    ensures |session.sent| == |old(session.sent)| + 1
  {
    hide Good, Changed, Possible;
    ghost var v := session.View();
    session.PlaceOf(s.lsep);
    WhenAborting(v, s, true);
    var _, _ := session.AbortRequest(s, false);
  }

  // The ABORT is not answered in time: the session is given up, but the
  // DISCOVER still waits.
  lemma GivenUp(v: Shot, s: Stream, ok: bool)
    requires Stage(v, [s], Pending(Some(ToAbort(s)), [], [ASK]), Some(true), 0)
    ensures Possible(v, TimesOut(ok)) && Stage(Changed(v, TimesOut(ok)), [], Pending(None, [], [ASK]), None, 0)
  {
    WhenTimedOut(v, ok);
    ChangedGood(v, TimesOut(ok));
    FirstListed(v);
    var w := NoneOutstanding(v);
    assert Released(w, [s]) == Released(WentIdle(w, s.lsep), []) == WentIdle(w, s.lsep);
    assert NotNaming([ASK], s) == [ASK] && NotNaming<Stream>([], s) == [];
    hide Good;
  }

  method AbortTimesOut(session: Session, s: Stream)
    requires Stage(session.View(), [s], Pending(Some(ToAbort(s)), [], [ASK]), Some(true), 0)
    modifies session, Ends(session.lseps), s
    ensures Stage(session.View(), [], Pending(None, [], [ASK]), None, 0) && session.sent == old(session.sent)
  {
    hide Good, Changed, Possible, Target;
    ghost var v := session.View();
    GivenUp(v, s, session.link(|session.sent|));
    var _ := session.RequestTimeout(false);
  }

  // avdtp_discover is called again, and cannot ask.
  method AskInVain(session: Session, ghost q: Pending<Req>)
    requires Stage(session.View(), [], q, None, 0) && q.outstanding.None? && !session.link(|session.sent|)
    modifies session
    ensures Stage(session.View(), [], q, Some(false), 0) && |session.sent| == |old(session.sent)| + 1
  {
    hide Good, Changed, Possible;
    ghost var v := session.View();
    WhenDiscovering(v, false);
    var _, _ := session.DiscoverRequest();
  }

  // Another ABORT is accepted: what waits is sent at last.
  lemma AbortEnds(v: Shot, s: Stream, report: Option<bool>)
    requires Stage(v, [s], Pending(Some(ToAbort(s)), [], [ASK]), Some(false), 0)
    ensures var c := Settles(OnStream(Abort, s, report), true);
      Possible(v, c) && Stage(Changed(v, c), [], Pending(Some(ASK), [], []), Some(false), 0)
  {
    var o := OnStream(Abort, s, report);
    WhenSettled(v, o, true);
    ChangedGood(v, Settles(o, true));
    FirstListed(v);
    assert NotNaming([ASK], s) == [ASK] && NotNaming<Stream>([], s) == [];
    assert Without([s], s) == [];
    hide Good, Changed, Possible;
  }

  method AbortAccepted(session: Session, s: Stream)
    requires Stage(session.View(), [s], Pending(Some(ToAbort(s)), [], [ASK]), Some(false), 0)
    requires session.link(|session.sent|)
    modifies session, Ends(session.lseps), s
    ensures Stage(session.View(), [], Pending(Some(ASK), [], []), Some(false), 0)
  {
    hide Good, Changed, Possible;
    ghost var v := session.View();
    var _, report, _ := session.ReceiveAnswer(Accepted, Abort, true, [], false);
    AbortEnds(v, s, report);
  }

  lemma AskRejected(v: Shot, next: bool)
    requires Stage(v, [], Pending(Some(ASK), [], []), Some(false), 0)
    ensures var c := Settles(Declines, next); Possible(v, c) && Changed(v, c).nullCalls == 1
  {
    WhenSettled(v, Declines, next);
    ChangedNullCalls(v, Settles(Declines, next));
    ChangedCalls(v, Settles(Declines, next));
    hide Good, Changed, Possible;
  }

  method RejectAsk(session: Session)
    requires Stage(session.View(), [], Pending(Some(ASK), [], []), Some(false), 0)
    modifies session, Ends(session.lseps)
    ensures session.nullCalls == 1
  {
    hide Good, Changed, Possible;
    ghost var v := session.View();
    AskRejected(v, session.link(|session.sent|));
    var _, _, _ := session.ReceiveAnswer(Rejected, Discover, true, [0], false);
  }

  method LeaveAskBehind(sep: LocalSep, link: nat -> bool) returns (session: Session)
    requires sep.stream == None && !sep.inuse && sep.state == Idle && sep.seid == 1 && !sep.sink
    requires link(0) && link(1)
    modifies sep
    ensures fresh(session) && session.lseps == [sep] && Stage(session.View(), [], Pending(None, [], [ASK]), None, 0)
    ensures |session.sent| == 2 && session.link == link
  {
    hide Good, Changed, Possible, Stage, JustMade;
    session := NewSession(sep, link);
    AtFirst(session.View());
    var s := Configure(session, sep, Pending(None, [], []), None);
    AbortAndDiscover(session, s);
    AbortTimesOut(session, s);
  }

  // A DISCOVER outlives the discovery it was for, because it waited while the
  // session was given up. It is rejected during a later discovery that could
  // not be asked for: a callback is called that was never set.
  method UnsetCallbackCalled() returns (session: Session)
    ensures session.nullCalls == 1
  {
    hide Good, Changed, Possible, Stage;
    var sep := new LocalSep(1, false, false);
    session := LeaveAskBehind(sep, n => n != 2);
    AskInVain(session, Pending(None, [], [ASK]));
    var s := Configure(session, sep, Pending(None, [], [ASK]), Some(false));
    AbortSent(session, s, Pending(None, [], [ASK]), Some(false));
    AbortAccepted(session, s);
    RejectAsk(session);
  }

  lemma AtFirst(v: Shot)
    requires JustMade(v) && v.watched
    ensures Stage(v, [], Pending(None, [], []), None, 0)
  {
    JustMadeGood(v);
  }

  // ----------------------------------------------- a timer nobody removes

  // The peer opens twice before it connects, which OPEN allows.
  method OpenedTwice(session: Session, s: Stream)
    requires Stage(session.View(), [s], Pending(None, [], []), None, 0) && (forall n :: session.link(n))
    requires session.lseps == [s.lsep] && s.lsep.seid == 1 && s.lsep.state == State.Configured
    modifies session, s
    ensures Stage(session.View(), [s], Pending(None, [], []), None, 0) && s.lsep.state == State.Configured
    ensures session.pendingOpen == Some(s) && s.timer && s.stale > 0
  {
    hide Good;
    session.PlaceOf(s.lsep);
    FirstListed(session.View());
    assert EndAt([s.lsep], 4) == Some(s.lsep);
    var _ := session.OpenCmd([4], None);
    AwaitedStage(session.View(), s);
    session.PlaceOf(s.lsep);
    var _ := session.OpenCmd([4], None);
  }

  lemma AwaitedStage(v: Shot, s: Stream)
    requires Stage(v, [s], Pending(None, [], []), None, 0)
    ensures s in v.streams
  {}

  // Then it connects, and the first timer fires: the stream is aborted all the same.
  method FirstTimerFires() returns (session: Session, s: Stream)
    ensures s.lsep.state == State.Opened && session.req == Some(ToAbort(s))
  {
    hide Good, Changed, Possible, JustMade, Stage;
    var sep := new LocalSep(1, false, false);
    session := NewSession(sep, n => true);
    AtFirst(session.View());
    s := Configure(session, sep, Pending(None, [], []), None);
    OpenedTwice(session, s);
    ConnectAnyway(session, s);
    FireLate(session, s);
  }

  method ConnectAnyway(session: Session, s: Stream)
    requires Stage(session.View(), [s], Pending(None, [], []), None, 0) && session.pendingOpen == Some(s)
    requires s.lsep in session.lseps && s.stale > 0
    modifies session, Ends(session.lseps), s
    ensures Stage(session.View(), [s], Pending(None, [], []), None, 0)
    ensures s.io && s.lsep.state == State.Opened && s.stale > 0
  {
    hide Good, Changed, Possible;
    ghost var v := session.View();
    FirstListed(v);
    WhenConnected(v, s);
    var _, _ := session.SetTransport(s);
    session.PlaceOf(s.lsep);
  }

  method FireLate(session: Session, s: Stream)
    requires Stage(session.View(), [s], Pending(None, [], []), None, 0) && (forall n :: session.link(n))
    requires s.lsep in session.lseps && s.lsep.state == State.Opened && s.io && s.stale > 0
    modifies session, Ends(session.lseps), s
    ensures s.lsep.state == State.Opened && session.req == Some(ToAbort(s))
  {
    hide Good, Changed, Possible;
    ghost var v := session.View();
    session.PlaceOf(s.lsep);
    WhenNeverOpened(v, s, true);
    var _ := session.StreamOpenTimeout(s, true, false);
    session.PlaceOf(s.lsep);
  }

  // ------------------------------------ a callback before the answers are in

  ghost predicate Phase(v: Shot, q: Pending<Req>, discover: Option<Call>) {
    && Good(v) && v.watched && v.streams == [] && v.q == q && (q.outstanding.Some? ==> v.armed)
    && v.discover == discover
  }

  function Ask(cmd: Signal): Req { PendingReq(cmd, 1, None) }

  lemma OneListed(known: set<byte>)
    ensures Queries(Infos([4, 0]), known, Rseids([])) == [1]
  {
    assert [4, 0][2..] == [];
    assert Infos([4, 0]) == [Info(4)] && [Info(4)][1..] == [];
  }

  lemma OneFound(v: Shot, normal: seq<Req>, discover: Option<Call>, cmd: Signal)
    requires Phase(v, Pending(Some(ASK), [], normal), discover) && AsksCapabilities(cmd)
    ensures var c := Settles(Finds([1], cmd), true);
      && Possible(v, c) && Phase(Changed(v, c), Pending(Some(Ask(cmd)), [], normal), discover)
      && Changed(v, c).seps != map[]
  {
    hide Good, Changed, Possible;
    var u := Unarmed(v);
    WhenSettled(v, Finds([1], cmd), true);
    ChangedGood(v, Settles(Finds([1], cmd), true));
    assert [1][..0] == [] && NotedAll(u, [], cmd) == u;
    assert OutcomeOf(u, Finds([1], cmd)) == Noted(u, 1, cmd);
    assert 1 in Noted(u, 1, cmd).seps;
  }

  method AnswerDiscover(session: Session, ghost normal: seq<Req>, ghost discover: Option<Call>) returns (cmd: Signal)
    requires Phase(session.View(), Pending(Some(ASK), [], normal), discover) && (forall n :: session.link(n))
    modifies session, Ends(session.lseps)
    ensures AsksCapabilities(cmd) && Phase(session.View(), Pending(Some(Ask(cmd)), [], normal), discover)
    ensures session.seps != map[]
  {
    hide Good, Changed, Possible, Queries, Infos;
    cmd := CapsCommand(session.version);
    OneListed(session.seps.Keys);
    OneFound(session.View(), normal, discover, cmd);
    var _, _, _ := session.ReceiveAnswer(Accepted, Discover, true, [4, 0], false);
  }

  lemma OneDescribed(v: Shot, discover: Option<Call>, cmd: Signal, caps: seq<Cap>, reports: bool)
    requires Phase(v, Pending(Some(Ask(cmd)), [], [ASK]), discover) && AsksCapabilities(cmd)
    ensures var c := Settles(Describes(1, caps, reports), true);
      && Possible(v, c) && Phase(Changed(v, c), Pending(Some(ASK), [], []), None)
      && Changed(v, c).seps != map[]
  {
    AskedIsKnown(v);
    WhenSettled(v, Describes(1, caps, reports), true);
    ChangedGood(v, Settles(Describes(1, caps, reports), true));
    hide Good, Changed, Possible;
  }

  method AnswerCapabilities(session: Session, ghost discover: Option<Call>, cmd: Signal)
    requires Phase(session.View(), Pending(Some(Ask(cmd)), [], [ASK]), discover) && (forall n :: session.link(n))
    requires AsksCapabilities(cmd)
    modifies session, Ends(session.lseps)
    ensures Phase(session.View(), Pending(Some(ASK), [], []), None) && session.seps != map[]
  {
    hide Good, Changed, Possible, ReadAll, ListsDelay;
    var payload: seq<byte> := [0, 0, 0, 0, 0, 0];
    OneDescribed(session.View(), discover, cmd, ReadAll(payload).0, ListsDelay(ReadAll(payload).0));
    var _, _, _ := session.ReceiveAnswer(Accepted, cmd, true, payload, false);
  }

  method AskFirst(session: Session)
    requires Stage(session.View(), [], Pending(None, [], [ASK]), None, 0) && (forall n :: session.link(n))
    modifies session
    ensures Phase(session.View(), Pending(Some(ASK), [], [ASK]), Some(Call(old(session.calls), true, false)))
  {
    hide Good, Changed, Possible;
    WhenDiscovering(session.View(), true);
    var _, _ := session.DiscoverRequest();
  }

  method AskKnown(session: Session, ghost q: Pending<Req>)
    requires Phase(session.View(), q, None) && session.seps != map[]
    modifies session
    ensures Phase(session.View(), q, Some(Call(old(session.calls), true, true))) && session.idles > 0
  {
    hide Good, Changed, Possible;
    WhenDiscovering(session.View(), session.link(|session.sent|));
    var _, _ := session.DiscoverRequest();
  }

  // A left-over DISCOVER is answered while a later discovery waits in its
  // source. The source runs with a capability request still unanswered.
  method FiresEarly() returns (session: Session, call: nat)
    ensures call in session.ended && session.req.Some? && AsksCapabilities(session.req.value.signal)
  {
    hide Good, Changed, Possible, Stage, Phase;
    var sep := new LocalSep(1, false, false);
    session := LeaveAskBehind(sep, n => true);
    var first := Call(session.calls, true, false);
    AskFirst(session);
    var cmd := AnswerDiscover(session, [ASK], Some(first));
    AnswerCapabilities(session, Some(first), cmd);
    call := session.calls;
    AskKnown(session, Pending(Some(ASK), [], []));
    cmd := AnswerAgain(session, call);
    RunSource(session, call, cmd);
  }

  method AnswerAgain(session: Session, call: nat) returns (cmd: Signal)
    requires Phase(session.View(), Pending(Some(ASK), [], []), Some(Call(call, true, true)))
    requires forall n :: session.link(n)
    modifies session, Ends(session.lseps)
    ensures AsksCapabilities(cmd)
    ensures Phase(session.View(), Pending(Some(Ask(cmd)), [], []), Some(Call(call, true, true)))
  {
    hide Phase;
    cmd := AnswerDiscover(session, [], Some(Call(call, true, true)));
  }

  method RunSource(session: Session, call: nat, cmd: Signal)
    requires Phase(session.View(), Pending(Some(Ask(cmd)), [], []), Some(Call(call, true, true)))
    modifies session
    ensures call in session.ended && session.req == Some(Ask(cmd))
  {
    hide Good, Changed, Possible;
    ghost var v := session.View();
    SourceOfGood(v);
    WhenIdleRuns(v);
    var _, _ := session.ProcessDiscover();
  }
}
