// What each of the other changes makes of a session, field by field: requests
// and their answers, timeouts, streams made and streams lost, discovery (avdtp.c).
module ChangeLaws {
  import opened Options
  import opened Bytes
  import opened Lists
  import opened RequestQueue
  import opened AvdtpMessages
  import opened Capabilities
  import opened Discovery
  import opened SessionState
  import opened SessionCommands
  import opened SessionRuns

  // ---------------------------------------------------------------- requests

  // A request is outstanding at once, when none is and the channel takes it;
  // otherwise it waits, or is gone.
  ghost predicate Submits(v: Shot, w: Shot, priority: bool, r: Req, ok: bool) {
    match v.q.outstanding
    case Some(before) =>
      && w.armed == v.armed
      && w.q == if priority then Pending(Some(before), v.q.prio + [r], v.q.normal)
                else Pending(Some(before), v.q.prio, v.q.normal + [r])
    case None =>
      && w.q == Pending(if ok then Some(r) else None, v.q.prio, v.q.normal)
      && w.armed == (v.armed || ok)
  }

  lemma RequestMade(v: Shot, priority: bool, r: Req, ok: bool)
    requires Possible(v, Requests(priority, r, ok))
    ensures var w := Changed(v, Requests(priority, r, ok));
      Submits(v, w, priority, r, ok) && w == v.(q := w.q, armed := w.armed)
  {
    hide Good;
  }

  // With no request outstanding any more the next one leaves, of the priority
  // queue first; one the channel does not take is gone.
  ghost predicate NextLeaves(q: Pending<Req>, w: Shot, ok: bool) {
    if q.prio != [] then
      w.q == Pending(if ok then Some(q.prio[0]) else None, q.prio[1..], q.normal) && w.armed == ok
    else if q.normal != [] then
      w.q == Pending(if ok then Some(q.normal[0]) else None, [], q.normal[1..]) && w.armed == ok
    else w.q == Pending(None, [], []) && !w.armed
  }

  // After an answer, taken or not; a configured sink has submitted its report.
  lemma NextAfterAnswer(v: Shot, o: Outcome, next: bool)
    requires Possible(v, Settles(o, next)) && (o.OnStream? || o.Declines? || o.Disregarded?)
    requires o.OnStream? ==> !o.signal.Abort?
    ensures var w := Changed(v, Settles(o, next));
      && NextLeaves(if o.OnStream? && o.signal.SetConfiguration? && o.report.Some?
                    then v.q.(prio := v.q.prio + [PendingReq(Signal.DelayReport, o.s.rseid, Some(o.s))]) else v.q,
                    w, next)
      && w.seps == v.seps && w.calls == v.calls && w.idles == v.idles && w.watched == v.watched
      && (!o.Declines? ==> w.discover == v.discover && w.ended == v.ended && w.nullCalls == v.nullCalls)
      && (!o.OnStream? ==> w.places == v.places && w.streams == v.streams && w.pendingOpen == v.pendingOpen)
  {
    hide Good, Changed, OutcomeOf, NextLeaves, Processed;
    WhenSettled(v, o, next);
    AnswerLeaves(Unarmed(v), o);
    NextTaken(OutcomeOf(Unarmed(v), o), next);
  }

  lemma NextTaken(u: Shot, next: bool)
    requires !u.armed
    ensures var w := Processed(NoneOutstanding(u), next);
      NextLeaves(u.q, w, next) && w == u.(q := w.q, armed := w.armed)
  {}

  lemma AnswerLeaves(v: Shot, o: Outcome)
    requires Good(v) && OutcomeReady(v, o) && (o.OnStream? || o.Declines? || o.Disregarded?)
    requires o.OnStream? ==> !o.signal.Abort?
    ensures var u := OutcomeOf(v, o);
      && u.armed == v.armed && u.seps == v.seps && u.calls == v.calls && u.idles == v.idles && u.watched == v.watched
      && u.q == (if o.OnStream? && o.signal.SetConfiguration? && o.report.Some?
                 then v.q.(prio := v.q.prio + [PendingReq(Signal.DelayReport, o.s.rseid, Some(o.s))]) else v.q)
      && (!o.Declines? ==> u.discover == v.discover && u.ended == v.ended && u.nullCalls == v.nullCalls)
      && (!o.OnStream? ==> u.places == v.places && u.streams == v.streams && u.pendingOpen == v.pendingOpen)
  {
    hide Good;
    if o.OnStream? { StreamPlaced(v, o.s); }
  }

  // A rejected discovery request ends the discovery: its callback is called,
  // set or not, and an idle source stays behind.
  lemma DiscoveryDeclined(v: Shot, next: bool)
    requires Possible(v, Settles(Declines, next))
    ensures var w := Changed(v, Settles(Declines, next));
      w.discover == None
      && match v.discover
         case None => w.ended == v.ended && w.nullCalls == v.nullCalls
         case Some(call) =>
           if call.cb then w.ended == v.ended + [call.number] && w.nullCalls == v.nullCalls
           else w.ended == v.ended && w.nullCalls == v.nullCalls + 1
  {
    WhenSettled(v, Declines, next);
    hide Good, Changed, Possible;
  }

  // ------------------------------------------------------- giving up, timing out

  // A discovery in progress, if any, is over: its callback, if set, has fired,
  // and the source that stood for it, if any, is removed.
  ghost predicate DiscoveryEnds(v: Shot, w: Shot) {
    w.discover == None
    && match v.discover
       case None => w.ended == v.ended && w.idles == v.idles
       case Some(call) =>
         && w.ended == (if call.cb then v.ended + [call.number] else v.ended)
         && w.idles == if call.idle && v.idles > 0 then v.idles - 1 else v.idles
  }

  // No stream is left, every end point is idle and free, nothing that waits
  // names a stream, and the discovery is over.
  ghost predicate GivenUp(v: Shot, w: Shot) {
    && w.streams == [] && w.pendingOpen == None
    && w.places.Keys == v.places.Keys && (forall p :: p in w.places ==> w.places[p] == Place(Idle, false, None))
    && NamesNone(w.q.prio) && NamesNone(w.q.normal)
    && w.calls == v.calls && w.nullCalls == v.nullCalls && w.armed == v.armed && DiscoveryEnds(v, w)
  }

  predicate NamesNone(waiting: seq<Req>) { forall i :: 0 <= i < |waiting| ==> waiting[i].stream == None }

  lemma LostGivesUp(v: Shot)
    requires Good(v)
    ensures forall s :: s in v.streams ==> s.lsep in v.places
    ensures GivenUp(v, Lost(v)) && Lost(v).watched == v.watched
    ensures v.q.outstanding == None ==> Lost(v).q.outstanding == None
  {
    hide Good, Released;
    LostGood(v);
    NothingAttached(Lost(v));
    ReleasedCalls(v, v.streams);
    var w := Lost(v);
    assert NamesNone(w.q.prio) && NamesNone(w.q.normal);
    assert w.streams == [] && w.pendingOpen == None && w.places.Keys == v.places.Keys;
    assert w.calls == v.calls && w.nullCalls == v.nullCalls && w.armed == v.armed && w.discover == None;
    assert v.discover == None ==> w.ended == v.ended && w.idles == v.idles;
  }

  // A timeout ABORTs the first stream to the peer's end point the request names.
  // The session is given up instead when there is none, when the ABORT cannot be
  // sent, and for SET_CONFIGURATION, DISCOVER, GET_CAPABILITIES and ABORT.
  lemma TimedOut(v: Shot, ok: bool)
    requires Possible(v, TimesOut(ok))
    ensures v.q.outstanding.Some?
    ensures var r, w := v.q.outstanding.value, Changed(v, TimesOut(ok));
      var abortable := r.signal !in {SetConfiguration, Signal.Discover, GetCapabilities, Abort} && r.seid != 0 && ok;
      && (!abortable || (forall s :: s in v.streams ==> s.rseid != r.seid) ==>
           GivenUp(v, w) && w.q.outstanding == None && w.watched == v.watched)
      && (abortable ==>
           forall k: nat :: FirstFor(v.streams, r.seid, k) ==>
             w == v.(q := Pending(Some(PendingReq(Abort, r.seid, Some(v.streams[k]))), v.q.prio, v.q.normal),
                     armed := true))
  {
    hide Good, Lost, GivenUp;
    WhenTimedOut(v, ok);
    NoneOutstandingGood(v);
    LostGivesUp(NoneOutstanding(v));
    GivenUpApart(v, Lost(NoneOutstanding(v)));
    FirstTo(v.streams, v.q.outstanding.value.seid);
    hide Changed, Possible, FirstWithRseid;
  }

  lemma GivenUpApart(v: Shot, w: Shot)
    ensures GivenUp(NoneOutstanding(v), w) <==> GivenUp(v, w)
    ensures GivenUp(Unarmed(v), w) && v.armed ==> GivenUp(v, w.(armed := true))
    ensures GivenUp(v, w) <==> GivenUp(v, w.(watched := false))
  {}

  ghost predicate FirstFor(streams: seq<Stream>, rseid: byte, k: nat) {
    k < |streams| && streams[k].rseid == rseid && forall j :: 0 <= j < k ==> streams[j].rseid != rseid
  }

  lemma {:induction false} FirstTo(streams: seq<Stream>, rseid: byte)
    ensures forall k: nat :: FirstFor(streams, rseid, k) ==> FirstWithRseid(streams, rseid) == Some(streams[k])
    ensures (forall s :: s in streams ==> s.rseid != rseid) ==> FirstWithRseid(streams, rseid) == None
  {
    if streams != [] && streams[0].rseid != rseid {
      FirstTo(streams[1..], rseid);
      forall k: nat | FirstFor(streams, rseid, k) ensures FirstFor(streams[1..], rseid, k - 1) {}
    }
  }

  // A lost channel and an answer too short give the session up for good.
  lemma ChannelLost(v: Shot)
    requires Possible(v, ChannelFails)
    ensures var w := Changed(v, ChannelFails); GivenUp(v, w) && !w.watched
  {
    hide Good, Lost, GivenUp;
    WhenBroken(v);
    LostGivesUp(v);
    GivenUpApart(v, Lost(v));
    hide Changed, Possible;
  }

  lemma AnswerTooShort(v: Shot)
    requires Possible(v, AnswerFails)
    ensures var w := Changed(v, AnswerFails); GivenUp(Unarmed(v), w) && !w.watched
  {
    hide Good, Lost, GivenUp;
    WhenFailed(v);
    LostGivesUp(Unarmed(v));
    GivenUpApart(Unarmed(v), Lost(Unarmed(v)));
    hide Changed, Possible;
  }

  // So does a command the session does not survive, after its effect; after any
  // other an outstanding request that lost to it makes room for the next.
  lemma AfterCommandPlainly(v: Shot, e: Effect, marked: bool, alive: bool, next: bool)
    requires Possible(v, Commanded(e, marked, alive, next))
    ensures EffectReady(v, e)
    ensures var u, w := Effected(v, e), Changed(v, Commanded(e, marked, alive, next));
      && (!alive ==> GivenUp(u, w) && !w.watched)
      && (alive && !(marked && u.q.outstanding.Some?) ==> w == u)
      && (alive && marked && u.q.outstanding.Some? && !u.armed ==> NextLeaves(u.q, w, next))
      && (alive && marked && u.q.outstanding.Some? ==>
           w == u.(q := w.q, armed := w.armed) && w.q == Answer(u.q, next))
  {
    hide Good, Lost, GivenUp, EffectReady, Effected;
    WhenCommanded(v, e, marked, alive, next);
    LostGivesUp(Effected(v, e));
    GivenUpApart(Effected(v, e), Lost(Effected(v, e)));
    hide Changed, Possible;
  }

  // -------------------------------------------------------- aborting a stream

  // A request of that stream that waits for its answer is cancelled; otherwise
  // an ABORT is submitted, unless the stream is being aborted or unknown.
  lemma AbortPlainly(v: Shot, s: Stream, ok: bool)
    requires Possible(v, Aborts(s, ok))
    ensures s in v.streams ==> s.lsep in v.places
    ensures var w := Changed(v, Aborts(s, ok));
      if s !in v.streams || v.places[s.lsep].state == Aborting then w == v
      else if v.armed && v.q.outstanding.Some? && v.q.outstanding.value.stream == Some(s) then
        w == Changed(v, TimesOut(ok))
      else Submits(v, w, true, PendingReq(Abort, s.rseid, Some(s)), ok) && w == v.(q := w.q, armed := w.armed)
  {
    hide Good, Cancelled;
    WhenAborting(v, s, ok);
    if v.q.outstanding.Some? { WhenTimedOut(v, ok); }
    if s in v.streams { StreamPlaced(v, s); }
    hide Changed, Possible;
  }

  // A transport that never opens is no longer awaited, and its stream aborted.
  lemma NeverOpensPlainly(v: Shot, s: Stream, ok: bool)
    requires Possible(v, NeverOpens(s, ok))
    ensures Changed(v, NeverOpens(s, ok)) == Changed(v.(pendingOpen := None), Aborts(s, ok))
  {
    hide Good, AbortAsked;
    WhenNeverOpened(v, s, ok);
    WhenAborting(v.(pendingOpen := None), s, ok);
    hide Changed, Possible;
  }

  // ------------------------------------------------- streams that come and go

  // Nothing of the discovery and of the outstanding request's timeout changes.
  ghost predicate DiscoveryStays(v: Shot, w: Shot) {
    && w.discover == v.discover && w.calls == v.calls && w.ended == v.ended && w.idles == v.idles
    && w.nullCalls == v.nullCalls && w.watched == v.watched
  }

  // A stream that goes idle is detached, what waits for it is forgotten, and the
  // peer's end point has no stream any more. Its outstanding request, if its
  // answer is still awaited, is given up; an ABORT stays without its stream.
  lemma IdlePlainly(v: Shot, p: LocalSep)
    requires Possible(v, GoesIdle(p))
    ensures p in v.places && (v.places[p].stream == None ==> Changed(v, GoesIdle(p)) == v)
    ensures v.places[p].stream.Some? ==>
      var s, w := v.places[p].stream.value, Changed(v, GoesIdle(p));
      && w.places == v.places[p := Place(Idle, false, None)] && w.streams == Without(v.streams, s)
      && w.pendingOpen == (if v.pendingOpen == Some(s) then None else v.pendingOpen)
      && w.q.prio == NotNaming(v.q.prio, s) && w.q.normal == NotNaming(v.q.normal, s)
      && w.armed == v.armed && DiscoveryStays(v, w)
      && w.seps.Keys == v.seps.Keys
      && (forall id :: id in v.seps ==>
           w.seps[id] == if id == s.rseid then RemoteSep(None, v.seps[id].caps, v.seps[id].delayReporting)
                         else v.seps[id])
      && (v.armed && v.q.outstanding.Some? && v.q.outstanding.value.stream == Some(s) ==>
           w.q.outstanding ==
             (if v.q.outstanding.value.signal == Abort then Some(PendingReq(Abort, v.q.outstanding.value.seid, None))
              else None))
      && (!(v.armed && v.q.outstanding.Some? && v.q.outstanding.value.stream == Some(s)) ==>
           w.q.outstanding == v.q.outstanding)
  {
    hide Good;
    WhenIdle(v, p);
    hide Changed, Possible, Without, NotNaming;
  }

  // What a stream's requests leave behind: the others, in their order.
  lemma {:induction false} OthersStay(a: seq<Req>, r: Req, s: Stream)
    ensures NotNaming([], s) == []
    ensures NotNaming(a + [r], s) == NotNaming(a, s) + if r.stream == Some(s) then [] else [r]
  {
    if a != [] {
      OthersStay(a[1..], r, s);
      assert (a + [r])[1..] == a[1..] + [r];
    }
  }

  // avdtp_set_configuration on a free end point.
  lemma ConfiguresPlainly(v: Shot, p: LocalSep, s: Stream, ok: bool)
    requires Possible(v, Configures(p, s, ok)) && v.places[p].stream == None
    ensures p in v.places && s.rseid in v.seps
    ensures var w, peer := Changed(v, Configures(p, s, ok)), v.seps[s.rseid];
      && w.pendingOpen == v.pendingOpen && DiscoveryStays(v, w)
      && Submits(v, w, false, PendingReq(SetConfiguration, s.rseid, Some(s)), ok)
      && if v.q.outstanding == None && !ok then
           && w.places == v.places && w.streams == v.streams
           && w.seps == v.seps[s.rseid := RemoteSep(None, peer.caps, peer.delayReporting)]
         else
           && w.places == v.places[p := Place(Idle, true, Some(s))] && w.streams == v.streams + [s]
           && w.seps == v.seps[s.rseid := RemoteSep(Some(s), peer.caps, peer.delayReporting)]
  {
    WhenConfiguring(v, p, s, ok);
    DetachedFree(v, p, s);
    FreeIsIdle(v, p);
    hide Good, Changed, Possible;
  }

  lemma FreeIsIdle(v: Shot, p: LocalSep)
    requires Good(v) && p in v.places && v.places[p].stream == None
    ensures v.places[p] == Place(Idle, false, None)
  {}

  // A configuration answered late, on a free end point: accepted, unless the
  // answer cannot be sent.
  lemma LatePlainly(v: Shot, p: LocalSep, s: Stream, sent: bool, report: Option<bool>)
    requires Possible(v, AnswersLate(p, s, sent, report)) && v.places[p].stream == None
    ensures p in v.places
    ensures var w := Changed(v, AnswersLate(p, s, sent, report));
      && w.pendingOpen == v.pendingOpen && DiscoveryStays(v, w)
      && if !sent then w == v.(seps := Forget(v.seps, s.rseid))
         else
           && w.places == v.places[p := Place(Configured, true, Some(s))] && w.streams == v.streams + [s]
           && w.seps == v.seps
           && (report == None ==> w.q == v.q && w.armed == v.armed)
           && (report.Some? ==>
                Submits(v, w, true, PendingReq(Signal.DelayReport, s.rseid, Some(s)), report.value))
  {
    WhenLate(v, p, s, sent, report);
    DetachedFree(v, p, s);
    FreeIsIdle(v, p);
    hide Good, Changed, Possible, Forget;
  }

  // The awaited transport opens the stream.
  lemma ConnectsPlainly(v: Shot, s: Stream)
    requires Possible(v, Connects(s))
    ensures s.lsep in v.places
    ensures Changed(v, Connects(s))
      == v.(pendingOpen := None, places := v.places[s.lsep := Place(Opened, true, Some(s))])
  {
    WhenConnected(v, s);
    AwaitedListed(v);
    StreamPlaced(v, s);
    assert v.places[s.lsep].inuse;
    hide Good, Changed, Possible;
  }

  // ----------------------------------------------------------------- discovery

  // avdtp_discover: served by an idle source when some end point is known,
  // asked of the peer otherwise; its callback counts when that was accepted.
  lemma DiscoversPlainly(v: Shot, ok: bool)
    requires Possible(v, Discovers(ok))
    ensures var w := Changed(v, Discovers(ok));
      && w.calls == v.calls + 1
      && w == v.(q := w.q, armed := w.armed, discover := w.discover, calls := w.calls, idles := w.idles)
      && if v.seps != map[] then
           w.discover == Some(Call(v.calls, true, true)) && w.idles == v.idles + 1 && w.q == v.q && w.armed == v.armed
         else
           && w.discover == Some(Call(v.calls, v.q.outstanding != None || ok, false)) && w.idles == v.idles
           && Submits(v, w, false, PendingReq(Signal.Discover, 0, None), ok)
  {
    WhenDiscovering(v, ok);
    hide Good, Changed, Possible;
  }

  // An idle source ends whatever discovery is in progress.
  lemma SourceRuns(v: Shot)
    requires Possible(v, IdleRuns)
    ensures v.idles > 0
    ensures Changed(v, IdleRuns)
      == v.(idles := v.idles - 1, discover := None,
            ended := if v.discover.Some? && v.discover.value.cb then v.ended + [v.discover.value.number] else v.ended)
  {
    WhenIdleRuns(v);
    hide Good, Changed, Possible;
  }

  // Whether the request that leaves next asks for capabilities.
  predicate AsksNext(q: Pending<Req>) {
    var asks := {GetCapabilities, GetAllCapabilities};
    if q.prio != [] then q.prio[0].signal in asks else q.normal != [] && q.normal[0].signal in asks
  }

  // An accepted capability request: the end point keeps its stream and gets the
  // list; without another such request next in line the discovery is over.
  lemma CapabilitiesFiled(v: Shot, id: byte, caps: seq<Cap>, reports: bool, next: bool)
    requires Possible(v, Settles(Describes(id, caps, reports), next))
    ensures id in v.seps
    ensures var w := Changed(v, Settles(Describes(id, caps, reports), next));
      && w.seps == v.seps[id := RemoteSep(v.seps[id].stream, caps, reports)]
      && NextLeaves(v.q, w, next)
      && w.places == v.places && w.streams == v.streams && w.pendingOpen == v.pendingOpen
      && w.calls == v.calls && w.nullCalls == v.nullCalls && w.watched == v.watched
      && if AsksNext(v.q) then w.discover == v.discover && w.ended == v.ended && w.idles == v.idles
         else DiscoveryEnds(v, w)
  {
    hide Good, Changed, NextLeaves, Processed;
    WhenSettled(v, Describes(id, caps, reports), next);
    NextTaken(OutcomeOf(Unarmed(v), Describes(id, caps, reports)), next);
  }

  // An accepted DISCOVER: every end point asked about is known from now on, with
  // the first stream of ours to it, and one priority request for each is added;
  // with none to ask about the discovery is over.
  lemma EndPointsFound(v: Shot, queries: seq<byte>, cmd: Signal, next: bool)
    requires Possible(v, Settles(Finds(queries, cmd), next))
    ensures var w := Changed(v, Settles(Finds(queries, cmd), next));
      && Noticed(v.streams, v.seps, w.seps, queries)
      && NextLeaves(v.q.(prio := v.q.prio + Asks(queries, cmd)), w, next)
      && w.places == v.places && w.streams == v.streams && w.pendingOpen == v.pendingOpen
      && w.calls == v.calls && w.nullCalls == v.nullCalls && w.watched == v.watched
      && if queries != [] then w.discover == v.discover && w.ended == v.ended && w.idles == v.idles
         else DiscoveryEnds(v, w)
  {
    hide Good, Changed, NextLeaves, Processed, NotedAll, Noticed;
    WhenSettled(v, Finds(queries, cmd), next);
    NotedEach(Unarmed(v), queries, cmd);
    NextTaken(OutcomeOf(Unarmed(v), Finds(queries, cmd)), next);
    if queries == [] {
      NotedNothing(Unarmed(v), cmd);
      assert v.q.prio + Asks(queries, cmd) == v.q.prio;
    }
  }

  ghost predicate Noticed(streams: seq<Stream>, before: map<byte, RemoteSep>, seps: map<byte, RemoteSep>,
                          queries: seq<byte>)
  {
    && seps.Keys == before.Keys + (set id | id in queries)
    && (forall id :: id in before && id !in queries ==> seps[id] == before[id])
    && (forall id :: id in queries ==> NoticedAs(streams, before, id, seps[id]))
  }

  ghost predicate NoticedAs(streams: seq<Stream>, before: map<byte, RemoteSep>, id: byte, sep: RemoteSep) {
    && sep.caps == (if id in before then before[id].caps else [])
    && sep.delayReporting == (id in before && before[id].delayReporting)
    && IsFirst(streams, id, sep.stream)
  }

  ghost predicate IsFirst(streams: seq<Stream>, rseid: byte, s: Option<Stream>) {
    && (forall k: nat :: FirstFor(streams, rseid, k) ==> s == Some(streams[k]))
    && (s.Some? ==> s.value in streams && s.value.rseid == rseid)
  }

  lemma NoticedMore(streams: seq<Stream>, before: map<byte, RemoteSep>, seps: map<byte, RemoteSep>,
                    queries: seq<byte>, id: byte)
    requires Noticed(streams, before, seps, queries)
    ensures var known := if id in seps then seps[id] else RemoteSep(None, [], false);
      Noticed(streams, before, seps[id := known.(stream := FirstWithRseid(streams, id))], queries + [id])
  {
    hide NoticedAs, FirstWithRseid;
    NoticedOne(streams, before, seps, queries, id);
    var known := if id in seps then seps[id] else RemoteSep(None, [], false);
    var now, all := seps[id := known.(stream := FirstWithRseid(streams, id))], queries + [id];
    assert forall other :: other in all <==> other in queries || other == id;
    assert (set q | q in all) == (set q | q in queries) + {id};
    assert now.Keys == seps.Keys + {id};
  }

  lemma NoticedOne(streams: seq<Stream>, before: map<byte, RemoteSep>, seps: map<byte, RemoteSep>,
                   queries: seq<byte>, id: byte)
    requires Noticed(streams, before, seps, queries)
    ensures var known := if id in seps then seps[id] else RemoteSep(None, [], false);
      NoticedAs(streams, before, id, known.(stream := FirstWithRseid(streams, id)))
  {
    hide IsFirst, FirstWithRseid;
    FirstIs(streams, id);
  }

  lemma FirstIs(streams: seq<Stream>, rseid: byte)
    ensures IsFirst(streams, rseid, FirstWithRseid(streams, rseid))
  {
    FirstTo(streams, rseid);
  }

  lemma {:induction false} NotedEach(v: Shot, queries: seq<byte>, cmd: Signal)
    requires v.q.outstanding.Some?
    ensures var u := NotedAll(v, queries, cmd);
      && Noticed(v.streams, v.seps, u.seps, queries)
      && u == v.(q := v.q.(prio := v.q.prio + Asks(queries, cmd)), seps := u.seps)
  {
    if queries == [] {
      assert v.q.prio + Asks(queries, cmd) == v.q.prio;
    } else {
      var front, id := queries[..|queries| - 1], queries[|queries| - 1];
      NotedEach(v, front, cmd);
      NoticedMore(v.streams, v.seps, NotedAll(v, front, cmd).seps, front, id);
      AsksMore(front, id, cmd);
      assert front + [id] == queries;
      assert v.q.prio + Asks(front, cmd) + [PendingReq(cmd, id, None)] == v.q.prio + Asks(queries, cmd);
      hide Noticed, Asks;
    }
  }
}
