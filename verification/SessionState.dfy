// What an AVDTP session keeps about its end points, streams, requests and
// discovery, as one value, and what every step of the session must keep
// (avdtp.c). Module AvdtpSession changes the records themselves.
module SessionState {
  import opened Options
  import opened Bytes
  import opened Lists
  import opened RequestQueue
  import opened AvdtpMessages
  import opened Capabilities
  import opened Discovery

  datatype State = Idle | Configured | Opened | Streaming | Closing | Aborting

  // struct avdtp_local_sep
  class LocalSep {
    const seid: byte
    const sink: bool
    const delayReporting: bool
    var state: State
    var inuse: bool
    var stream: Option<Stream>

    constructor (seid: byte, sink: bool, delayReporting: bool)
      ensures this.seid == seid && this.sink == sink && this.delayReporting == delayReporting
      ensures state == Idle && !inuse && stream == None
    {
      this.seid, this.sink, this.delayReporting := seid, sink, delayReporting;
      state, inuse, stream := Idle, false, None;
    }
  }

  // struct avdtp_stream
  class Stream {
    const lsep: LocalSep
    const rseid: byte
    const caps: seq<Cap>
    const delayReporting: bool
    var io: bool          // the transport channel
    var watched: bool     // a watch on it
    var timer: bool       // waiting for the peer to open or close the transport
    var stale: nat        // such timers still running, whose number was overwritten
    var startTimer: bool  // waiting for the peer's START
    var openAcp: bool
    var closeInt: bool
    var abortInt: bool
    var starting: bool
    var delay: nat

    constructor (lsep: LocalSep, rseid: byte, caps: seq<Cap>, delayReporting: bool)
      ensures this.lsep == lsep && this.rseid == rseid && this.caps == caps && this.delayReporting == delayReporting
      ensures !io && !watched && !timer && !startTimer && !openAcp && !closeInt && !abortInt && !starting
      ensures delay == 0 && stale == 0
    {
      this.lsep, this.rseid, this.caps, this.delayReporting := lsep, rseid, caps, delayReporting;
      io, watched, timer, startTimer := false, false, false, false;
      openAcp, closeInt, abortInt, starting, delay, stale := false, false, false, false, 0, 0;
    }
  }

  type Req = PendingReq<Stream>

  // struct avdtp_remote_sep
  datatype RemoteSep = RemoteSep(stream: Option<Stream>, caps: seq<Cap>, delayReporting: bool)

  // struct discover_callback: which avdtp_discover call, whether its callback
  // is set, whether it waits in an idle source.
  datatype Call = Call(number: nat, cb: bool, idle: bool)

  // ------------------------------------------------------- what always holds

  ghost predicate NamesOnly(r: Req, streams: seq<Stream>, seps: map<byte, RemoteSep>) {
    (r.stream.Some? ==> r.stream.value in streams) && (AsksCapabilities(r.signal) ==> r.seid in seps)
  }

  ghost predicate AllNameOnly(queue: seq<Req>, streams: seq<Stream>, seps: map<byte, RemoteSep>) {
    forall r :: r in queue ==> NamesOnly(r, streams, seps)
  }

  // Everything waiting names an attached stream, and so does the outstanding
  // request until its answer is being handled.
  ghost predicate QueueOk(q: Pending<Req>, armed: bool, streams: seq<Stream>, seps: map<byte, RemoteSep>) {
    && AllNameOnly(q.prio, streams, seps) && AllNameOnly(q.normal, streams, seps)
    && (q.outstanding.Some? && AsksCapabilities(q.outstanding.value.signal) ==> q.outstanding.value.seid in seps)
    && (q.outstanding.Some? && armed ==> NamesOnly(q.outstanding.value, streams, seps))
  }

  lemma SendKeeps(q: Pending<Req>, armed: bool, streams: seq<Stream>, seps: map<byte, RemoteSep>,
                  priority: bool, r: Req, ok: bool, next: Pending<Req>, rearmed: bool)
    requires QueueOk(q, armed, streams, seps) && NamesOnly(r, streams, seps)
    requires next == RequestQueue.SendReq(q, priority, r, ok) && rearmed == (armed || (q.outstanding.None? && ok))
    ensures QueueOk(next, rearmed, streams, seps)
  {}

  lemma ProcessKeeps(q: Pending<Req>, armed: bool, streams: seq<Stream>, seps: map<byte, RemoteSep>, ok: bool,
                     next: Pending<Req>, rearmed: bool)
    requires QueueOk(q, armed, streams, seps)
    requires next == RequestQueue.ProcessQueue(q, ok)
    requires rearmed == (armed || (q.outstanding.None? && (q.prio != [] || q.normal != []) && ok))
    ensures QueueOk(next, rearmed, streams, seps)
  {
    if q.outstanding.None? {
      if q.prio != [] {
        SendKeeps(q.(prio := q.prio[1..]), armed, streams, seps, false, q.prio[0], ok, next, rearmed);
      } else if q.normal != [] {
        SendKeeps(q.(normal := q.normal[1..]), armed, streams, seps, false, q.normal[0], ok, next, rearmed);
      }
    }
  }

  ghost predicate PeersKnow(seps: map<byte, RemoteSep>, streams: seq<Stream>) {
    forall id :: id in seps && seps[id].stream.Some? ==>
      seps[id].stream.value in streams && seps[id].stream.value.rseid == id
  }

  // The callback of each avdtp_discover call fires at most once.
  ghost predicate OnceEach(discover: Option<Call>, ended: seq<nat>, calls: nat) {
    && Distinct(ended) && (forall c :: c in ended ==> c < calls)
    && (discover.Some? ==> discover.value.number < calls && discover.value.number !in ended)
  }

  ghost function Ends(lseps: seq<LocalSep>): set<LocalSep> { set p | p in lseps }

  // What the local end points hold.
  datatype Place = Place(state: State, inuse: bool, stream: Option<Stream>)

  ghost function Places(lseps: seq<LocalSep>): map<LocalSep, Place>
    reads Ends(lseps)
  {
    map p | p in Ends(lseps) :: Place(p.state, p.inuse, p.stream)
  }

  // The streams are exactly those attached to local end points, inuse holds
  // for exactly these end points, and the others are idle.
  ghost predicate Attached(places: map<LocalSep, Place>, streams: seq<Stream>) {
    && Distinct(streams)
    && (forall s :: s in streams ==> s.lsep in places && places[s.lsep].stream == Some(s))
    && (forall p :: p in places && places[p].stream.Some? ==>
         places[p].stream.value in streams && places[p].stream.value.lsep == p)
    && (forall p :: p in places ==> (places[p].inuse <==> places[p].stream.Some?))
    && (forall p :: p in places && places[p].stream.None? ==> places[p].state == Idle)
  }

  // cleanup_queue on one queue.
  lemma {:induction false} NotNamingKeeps(queue: seq<Req>, s: Stream)
    ensures forall r :: r in NotNaming(queue, s) <==> r in queue && r.stream != Some(s)
  {
    if queue != [] { NotNamingKeeps(queue[1..], s); }
  }

  lemma {:induction false} NotNamingDrop(queue: seq<Req>, i: nat, s: Stream)
    requires i < |queue| && queue[i].stream == Some(s)
    ensures NotNaming(queue[..i] + queue[i + 1..], s) == NotNaming(queue, s)
  {
    if i > 0 {
      NotNamingDrop(queue[1..], i - 1, s);
      assert (queue[..i] + queue[i + 1..])[1..] == queue[1..][..i - 1] + queue[1..][i..];
    } else {
      assert queue[..0] + queue[1..] == queue[1..];
    }
  }

  lemma {:induction false} NotNamingAll(queue: seq<Req>, s: Stream)
    requires forall j :: 0 <= j < |queue| ==> queue[j].stream != Some(s)
    ensures NotNaming(queue, s) == queue
  {
    if queue != [] { NotNamingAll(queue[1..], s); }
  }

  // stream_free makes the peer's end point forget the stream.
  function Forget(seps: map<byte, RemoteSep>, rseid: byte): map<byte, RemoteSep> {
    if rseid in seps then seps[rseid := seps[rseid].(stream := None)] else seps
  }

  // What becomes of the outstanding request when its stream goes away: one
  // being answered stays, an ABORT loses its stream, any other is given up.
  function Orphaned(req: Option<Req>, armed: bool, s: Stream): Option<Req> {
    if req.None? || req.value.stream != Some(s) || !armed then req
    else if req.value.signal.Abort? then Some(req.value.(stream := None))
    else None
  }

  // Everything a step may change, apart from the timers and marks of a stream.
  datatype Shot = Shot(
    places: map<LocalSep, Place>, streams: seq<Stream>, pendingOpen: Option<Stream>,
    q: Pending<Req>, armed: bool, seps: map<byte, RemoteSep>,
    discover: Option<Call>, calls: nat, ended: seq<nat>,
    idles: nat,      // process_discover sources waiting to run
    nullCalls: nat,  // callbacks called though none was set
    watched: bool)   // the signalling channel is still listened to

  // A discovery that waits in an idle source has one.
  ghost predicate HasSource(discover: Option<Call>, idles: nat) {
    discover.Some? && discover.value.idle ==> idles > 0
  }

  ghost predicate Good(v: Shot) {
    && Attached(v.places, v.streams)
    && (v.pendingOpen.Some? ==> v.pendingOpen.value in v.streams)
    && QueueOk(v.q, v.armed, v.streams, v.seps)
    && PeersKnow(v.seps, v.streams)
    && OnceEach(v.discover, v.ended, v.calls)
    && HasSource(v.discover, v.idles)
  }

  // avdtp_sep_set_state to IDLE: the stream is detached and forgotten everywhere.
  function WentIdle(v: Shot, p: LocalSep): Shot
    requires p in v.places
  {
    if v.places[p].stream.None? then v
    else
      var s := v.places[p].stream.value;
      v.(places := v.places[p := Place(Idle, false, None)],
         streams := Without(v.streams, s),
         pendingOpen := if v.pendingOpen == Some(s) then None else v.pendingOpen,
         q := Pending(Orphaned(v.q.outstanding, v.armed, s), NotNaming(v.q.prio, s), NotNaming(v.q.normal, s)),
         seps := Forget(v.seps, s.rseid))
  }

  lemma IdleAttached(places: map<LocalSep, Place>, streams: seq<Stream>, p: LocalSep, s: Stream)
    requires Attached(places, streams) && p in places && places[p].stream == Some(s)
    ensures Attached(places[p := Place(Idle, false, None)], Without(streams, s))
    ensures forall t :: t in Without(streams, s) <==> t in streams && t != s
  {
    WithoutDistinct(streams, s);
    assert s in streams && s.lsep == p;
    var next := places[p := Place(Idle, false, None)];
    forall t | t in Without(streams, s) ensures t.lsep in next && next[t.lsep].stream == Some(t) {
      WithoutHas(streams, s, t);
      assert places[t.lsep].stream == Some(t);
    }
    forall q | q in next && next[q].stream.Some?
      ensures next[q].stream.value in Without(streams, s) && next[q].stream.value.lsep == q
    {
      assert q != p && places[q].stream.Some?;
    }
  }

  lemma ForgetKeeps(seps: map<byte, RemoteSep>, streams: seq<Stream>, rest: seq<Stream>, s: Stream)
    requires PeersKnow(seps, streams) && forall t :: t in streams && t != s ==> t in rest
    ensures PeersKnow(Forget(seps, s.rseid), rest) && Forget(seps, s.rseid).Keys == seps.Keys
  {}

  lemma IdleQueueOk(q: Pending<Req>, armed: bool, streams: seq<Stream>, seps: map<byte, RemoteSep>, s: Stream,
                    rest: seq<Stream>, peers: map<byte, RemoteSep>)
    requires QueueOk(q, armed, streams, seps) && peers.Keys == seps.Keys
    requires forall t :: t in streams && t != s ==> t in rest
    ensures QueueOk(Pending(Orphaned(q.outstanding, armed, s), NotNaming(q.prio, s), NotNaming(q.normal, s)), armed,
                    rest, peers)
  {
    hide NotNaming;
    NotNamingKeeps(q.prio, s);
    NotNamingKeeps(q.normal, s);
    assert forall id :: id in seps ==> id in peers.Keys;
    forall r | r in NotNaming(q.prio, s) ensures NamesOnly(r, rest, peers) {
      assert NamesOnly(r, streams, seps);
    }
    forall r | r in NotNaming(q.normal, s) ensures NamesOnly(r, rest, peers) {
      assert NamesOnly(r, streams, seps);
    }
  }

  // After a stream went idle no waiting request names it, it is attached
  // nowhere, and everything else still holds.
  lemma IdleGood(v: Shot, p: LocalSep)
    requires Good(v) && p in v.places
    ensures Good(WentIdle(v, p))
    ensures v.places[p].stream.Some? ==>
      var s, w := v.places[p].stream.value, WentIdle(v, p);
      && s !in w.streams && w.pendingOpen != Some(s)
      && (forall r :: r in w.q.prio || r in w.q.normal ==> r.stream != Some(s))
      && (w.q.outstanding.Some? && w.q.outstanding.value.stream == Some(s) ==> !v.armed)
  {
    hide Attached, QueueOk, PeersKnow, OnceEach, Orphaned, Forget;
    if v.places[p].stream.Some? {
      var s := v.places[p].stream.value;
      IdleAttached(v.places, v.streams, p, s);
      ForgetKeeps(v.seps, v.streams, Without(v.streams, s), s);
      IdleQueueOk(v.q, v.armed, v.streams, v.seps, s, Without(v.streams, s), Forget(v.seps, s.rseid));
      NotNamingKeeps(v.q.prio, s);
      NotNamingKeeps(v.q.normal, s);
      OrphanedNames(v.q.outstanding, v.armed, s);
    }
  }

  lemma OrphanedNames(req: Option<Req>, armed: bool, s: Stream)
    ensures Orphaned(req, armed, s).Some? && Orphaned(req, armed, s).value.stream == Some(s) ==> !armed
  {}

  // A new stream takes a free end point.
  function Taken(v: Shot, p: LocalSep, s: Stream): Shot
    requires p in v.places
  {
    v.(places := v.places[p := v.places[p].(inuse := true, stream := Some(s))], streams := v.streams + [s])
  }

  lemma TakenGood(v: Shot, p: LocalSep, s: Stream)
    requires Good(v) && p in v.places && v.places[p].stream.None? && s !in v.streams && s.lsep == p
    ensures Good(Taken(v, p, s))
  {}

  // An end point changes state and keeps its stream.
  function Moved(v: Shot, p: LocalSep, state: State): Shot
    requires p in v.places
  {
    if v.places[p].stream.None? then v else v.(places := v.places[p := v.places[p].(state := state)])
  }

  lemma MovedGood(v: Shot, p: LocalSep, state: State)
    requires Good(v) && p in v.places
    ensures Good(Moved(v, p, state))
  {}

  // A sink that becomes configured reports its delay; report is whether the
  // channel takes it, if it reports at all.
  function MovedTo(v: Shot, p: LocalSep, state: State, report: Option<bool>): Shot
    requires p in v.places
  {
    var w := Moved(v, p, state);
    if state == Configured && report.Some? && v.places[p].stream.Some? then
      var s := v.places[p].stream.value;
      Requested(w, true, PendingReq(Signal.DelayReport, s.rseid, Some(s)), report.value)
    else w
  }

  lemma MovedToGood(v: Shot, p: LocalSep, state: State, report: Option<bool>)
    requires Good(v) && p in v.places
    ensures Good(MovedTo(v, p, state, report))
  {
    hide Good;
    MovedGood(v, p, state);
    if v.places[p].stream.Some? {
      var s := v.places[p].stream.value;
      PlacedStream(v, p);
      NamesIt(PendingReq(Signal.DelayReport, s.rseid, Some(s)), v.streams, v.seps);
      RequestedGood(Moved(v, p, state), true, PendingReq(Signal.DelayReport, s.rseid, Some(s)), report == Some(true));
      if report == Some(false) {
        RequestedGood(Moved(v, p, state), true, PendingReq(Signal.DelayReport, s.rseid, Some(s)), false);
      }
    }
  }

  lemma PlacedStream(v: Shot, p: LocalSep)
    requires Good(v) && p in v.places && v.places[p].stream.Some?
    ensures v.places[p].stream.value in v.streams && v.places[p].stream.value.lsep == p
  {}

  // stream_free on a stream that is not in the list: its end point loses
  // whatever stream it has.
  function Detached(v: Shot, p: LocalSep, s: Stream): Shot
    requires p in v.places
  {
    v.(places := v.places[p := v.places[p].(inuse := false, stream := None)], seps := Forget(v.seps, s.rseid))
  }

  lemma DetachedFree(v: Shot, p: LocalSep, s: Stream)
    requires Good(v) && p in v.places && v.places[p].stream.None?
    ensures Detached(v, p, s) == v.(seps := Forget(v.seps, s.rseid))
  {
    assert v.places[p := v.places[p].(inuse := false, stream := None)] == v.places;
  }

  // The session stays in order exactly when the end point was free.
  lemma DetachedGood(v: Shot, p: LocalSep, s: Stream)
    requires Good(v) && p in v.places
    ensures Good(Detached(v, p, s)) <==> v.places[p].stream.None?
  {
    hide QueueOk, PeersKnow, OnceEach, Forget;
    if v.places[p].stream.None? {
      assert Detached(v, p, s).places == v.places;
      ForgetsGood(v, s.rseid);
    } else {
      PlacedStream(v, p);
      var before := v.places[p].stream.value;
      assert before in v.streams && Detached(v, p, s).places[before.lsep].stream.None?;
    }
  }

  // setconf_cb attaches a stream without looking whether its end point is
  // still free: the session stays in order exactly when it is.
  lemma TakenExactlyWhenFree(v: Shot, p: LocalSep, s: Stream, report: Option<bool>)
    requires Good(v) && p in v.places && s !in v.streams && s.lsep == p
    ensures Good(Taken(v, p, s)) <==> v.places[p].stream.None?
    ensures Good(MovedTo(Taken(v, p, s), p, Configured, report)) <==> v.places[p].stream.None?
  {
    hide QueueOk, PeersKnow, OnceEach, RequestQueue.SendReq;
    if v.places[p].stream.None? {
      TakenGood(v, p, s);
      MovedToGood(Taken(v, p, s), p, Configured, report);
    } else {
      PlacedStream(v, p);
      TwoStreams(Taken(v, p, s), v.places[p].stream.value, p, s);
      TwoStreams(MovedTo(Taken(v, p, s), p, Configured, report), v.places[p].stream.value, p, s);
    }
  }

  lemma TwoStreams(v: Shot, before: Stream, p: LocalSep, s: Stream)
    requires before in v.streams && before.lsep == p && before != s && p in v.places && v.places[p].stream == Some(s)
    ensures !Good(v)
  {}

  // send_request, once it is not refused.
  function Requested(v: Shot, priority: bool, r: Req, ok: bool): Shot {
    v.(q := RequestQueue.SendReq(v.q, priority, r, ok), armed := v.armed || (v.q.outstanding.None? && ok))
  }

  lemma RequestedGood(v: Shot, priority: bool, r: Req, ok: bool)
    requires Good(v) && NamesOnly(r, v.streams, v.seps)
    ensures Good(Requested(v, priority, r, ok))
  {
    hide Attached, PeersKnow, OnceEach, QueueOk;
    var w := Requested(v, priority, r, ok);
    SendKeeps(v.q, v.armed, v.streams, v.seps, priority, r, ok, w.q, w.armed);
  }

  lemma NotSent(v: Shot, priority: bool, r: Req)
    ensures v.q.outstanding.None? ==> Requested(v, priority, r, false) == v
  {}

  // process_queue
  function Processed(v: Shot, ok: bool): Shot {
    v.(q := RequestQueue.ProcessQueue(v.q, ok),
       armed := v.armed || (v.q.outstanding.None? && (v.q.prio != [] || v.q.normal != []) && ok))
  }

  lemma ProcessedGood(v: Shot, ok: bool)
    requires Good(v)
    ensures Good(Processed(v, ok))
  {
    hide Attached, PeersKnow, OnceEach, QueueOk;
    var w := Processed(v, ok);
    ProcessKeeps(v.q, v.armed, v.streams, v.seps, ok, w.q, w.armed);
  }

  // The callback of a discovery, if set, fires.
  function Fired(v: Shot): seq<nat> {
    if v.discover.Some? && v.discover.value.cb then v.ended + [v.discover.value.number] else v.ended
  }

  // finalize_discovery: the callback, if set, fires, the idle source, if any,
  // is removed and the call is over.
  function Finished(v: Shot): Shot {
    if v.discover.None? then v
    else v.(discover := None, ended := Fired(v),
            idles := if v.discover.value.idle && v.idles > 0 then v.idles - 1 else v.idles)
  }

  lemma SourceOfGood(v: Shot)
    requires Good(v)
    ensures HasSource(v.discover, v.idles)
  {}

  lemma FinishedGood(v: Shot)
    requires Good(v)
    ensures Good(Finished(v))
  {
    hide Attached, PeersKnow, QueueOk;
  }

  // A rejected discovery request: the callback is called whether it is set or
  // not, and an idle source stays behind.
  function RejectedEnd(v: Shot): Shot {
    if v.discover.None? then v
    else v.(discover := None, ended := Fired(v), nullCalls := v.nullCalls + if v.discover.value.cb then 0 else 1)
  }

  lemma RejectedEndGood(v: Shot)
    requires Good(v)
    ensures Good(RejectedEnd(v))
  {
    hide Attached, PeersKnow, QueueOk;
  }

  // process_discover: one source less, and the discovery in progress, whichever
  // it is, is over.
  function IdleRan(v: Shot): Shot
    requires v.idles > 0
  {
    v.(idles := v.idles - 1, discover := None, ended := Fired(v))
  }

  lemma IdleRanGood(v: Shot)
    requires Good(v) && v.idles > 0
    ensures Good(IdleRan(v))
  {
    hide Attached, PeersKnow, QueueOk;
  }

  lemma FirstListed(v: Shot)
    requires Good(v) && v.streams != []
    ensures var s := v.streams[0];
      s.lsep in v.places && v.places[s.lsep].stream == Some(s) && WentIdle(v, s.lsep).streams == v.streams[1..]
  {
    assert v.streams[0] in v.streams;
  }

  // connection_lost: every stream goes idle, then discovery is over.
  function Released(v: Shot, streams: seq<Stream>): Shot
    requires forall s :: s in streams ==> s.lsep in v.places
    decreases |streams|
  {
    if streams == [] then v
    else Released(WentIdle(v, streams[0].lsep), streams[1..])
  }

  lemma {:induction false} ReleasedGood(v: Shot, streams: seq<Stream>)
    requires Good(v) && v.streams == streams
    ensures forall s :: s in streams ==> s.lsep in v.places
    ensures Good(Released(v, streams)) && Released(v, streams).streams == []
    ensures Released(v, streams).places.Keys == v.places.Keys
    decreases |streams|
  {
    if streams != [] {
      var s := streams[0];
      assert s in streams && s.lsep in v.places && v.places[s.lsep].stream == Some(s);
      IdleGood(v, s.lsep);
      assert Without(streams, s) == streams[1..];
      ReleasedGood(WentIdle(v, s.lsep), streams[1..]);
      assert v.places.Keys == WentIdle(v, s.lsep).places.Keys;
    }
  }

  // With no streams left every end point is idle and free, and no request names
  // a stream, but perhaps the one being answered.
  lemma NothingAttached(v: Shot)
    requires Good(v) && v.streams == []
    ensures forall p :: p in v.places ==> v.places[p] == Place(Idle, false, None)
    ensures forall r :: r in v.q.prio || r in v.q.normal ==> r.stream.None?
    ensures v.q.outstanding.Some? && v.armed ==> v.q.outstanding.value.stream.None?
    ensures v.pendingOpen.None?
  {
    forall p | p in v.places ensures v.places[p] == Place(Idle, false, None) {
      assert v.places[p].stream.None?;
    }
    forall r | r in v.q.prio || r in v.q.normal ensures r.stream.None? {
      assert NamesOnly(r, v.streams, v.seps);
    }
  }

  function FirstWithRseid(streams: seq<Stream>, rseid: byte): (r: Option<Stream>)
    ensures r.Some? ==> r.value in streams && r.value.rseid == rseid
    ensures r.None? ==> forall s :: s in streams ==> s.rseid != rseid
  {
    if streams == [] then None
    else if streams[0].rseid == rseid then Some(streams[0])
    else FirstWithRseid(streams[1..], rseid)
  }

  function FirstWithSeid(lseps: seq<LocalSep>, seid: byte): (r: Option<LocalSep>)
    ensures r.Some? ==> r.value in lseps && r.value.seid == seid
    ensures r.None? ==> forall p :: p in lseps ==> p.seid != seid
  {
    if lseps == [] then None
    else if lseps[0].seid == seid then Some(lseps[0])
    else FirstWithSeid(lseps[1..], seid)
  }

  function Lost(v: Shot): Shot
    requires forall s :: s in v.streams ==> s.lsep in v.places
  {
    Finished(Released(v, v.streams))
  }

  lemma LostGood(v: Shot)
    requires Good(v)
    ensures forall s :: s in v.streams ==> s.lsep in v.places
    ensures Good(Lost(v)) && Lost(v).streams == [] && Lost(v).discover.None?
    ensures Lost(v).places.Keys == v.places.Keys
  {
    ReleasedGood(v, v.streams);
    FinishedGood(Released(v, v.streams));
  }

  function NoneOutstanding(v: Shot): Shot { v.(q := v.q.(outstanding := None)) }

  lemma NoneOutstandingGood(v: Shot)
    requires Good(v)
    ensures Good(NoneOutstanding(v))
  {}

  // The stream a request is about, by the peer's end point it names.
  function Target(v: Shot, r: Req): Option<Stream> {
    if r.signal.Discover? || r.seid == 0 then None else FirstWithRseid(v.streams, r.seid)
  }

  predicate EndsSession(s: Signal) { s.SetConfiguration? || s.Discover? || s.GetCapabilities? || s.Abort? }

  // cancel_request: the stream is aborted, or the session is given up.
  function Cancelled(v: Shot, ok: bool): Shot
    requires v.q.outstanding.Some?
    requires forall s :: s in v.streams ==> s.lsep in v.places
  {
    var r, idle := v.q.outstanding.value, NoneOutstanding(v);
    if EndsSession(r.signal) || Target(v, r).None? || !ok then Lost(idle)
    else Requested(idle, true, PendingReq(Abort, r.seid, Target(v, r)), true)
  }

  lemma CancelledGood(v: Shot, ok: bool)
    requires Good(v) && v.q.outstanding.Some?
    ensures forall s :: s in v.streams ==> s.lsep in v.places
    ensures Good(Cancelled(v, ok)) && Cancelled(v, ok).places.Keys == v.places.Keys
  {
    var r := v.q.outstanding.value;
    NoneOutstandingGood(v);
    LostGood(NoneOutstanding(v));
    if Target(v, r).Some? {
      RequestedGood(NoneOutstanding(v), true, PendingReq(Abort, r.seid, Target(v, r)), true);
    }
  }

  // avdtp_discover
  function Called(v: Shot, cb: bool, idle: bool): Shot {
    v.(discover := Some(Call(v.calls, cb, idle)), calls := v.calls + 1, idles := v.idles + if idle then 1 else 0)
  }

  lemma CalledGood(v: Shot, cb: bool, idle: bool)
    requires Good(v)
    ensures Good(Called(v, cb, idle))
  {
    hide Attached, QueueOk, PeersKnow;
  }

  // avdtp_abort: a request that waits for its answer is cancelled instead.
  ghost function AbortAsked(v: Shot, s: Stream, ok: bool): Shot
    requires Good(v)
  {
    if s !in v.streams || v.places[s.lsep].state == Aborting then v
    else if v.q.outstanding.Some? && v.armed && v.q.outstanding.value.stream == Some(s) then Cancelled(v, ok)
    else Requested(v, true, PendingReq(Abort, s.rseid, Some(s)), ok)
  }

  lemma AbortAskedGood(v: Shot, s: Stream, ok: bool)
    requires Good(v)
    ensures Good(AbortAsked(v, s, ok))
  {
    if s in v.streams {
      RequestedGood(v, true, PendingReq(Abort, s.rseid, Some(s)), ok);
      if v.q.outstanding.Some? { CancelledGood(v, ok); }
    }
  }

  // avdtp_set_configuration: a new stream on a free end point, if its request
  // is accepted; otherwise the peer's end point forgets any stream it had.
  function Configuring(v: Shot, p: LocalSep, s: Stream, ok: bool): Shot
    requires p in v.places && s.rseid in v.seps
  {
    if v.q.outstanding.None? && !ok then Detached(v, p, s)
    else
      var w := Taken(Requested(v, false, PendingReq(SetConfiguration, s.rseid, Some(s)), ok), p, s);
      w.(seps := v.seps[s.rseid := v.seps[s.rseid].(stream := Some(s))])
  }

  lemma MoreStreams(q: Pending<Req>, armed: bool, streams: seq<Stream>, seps: map<byte, RemoteSep>,
                    more: seq<Stream>, peers: map<byte, RemoteSep>)
    requires QueueOk(q, armed, streams, seps) && peers.Keys == seps.Keys
    requires forall t :: t in streams ==> t in more
    ensures QueueOk(q, armed, more, peers)
  {
    assert forall id :: id in seps ==> id in peers.Keys;
    forall r | r in q.prio || r in q.normal ensures NamesOnly(r, more, peers) {
      assert NamesOnly(r, streams, seps);
    }
  }

  lemma ConfiguringGood(v: Shot, p: LocalSep, s: Stream, ok: bool)
    requires Good(v) && p in v.places && v.places[p].stream.None? && s !in v.streams && s.lsep == p && s.rseid in v.seps
    ensures Good(Configuring(v, p, s, ok))
  {
    hide OnceEach, QueueOk, Attached, NamesOnly, RequestQueue.SendReq;
    DetachedGood(v, p, s);
    if v.q.outstanding.Some? || ok {
      var w := Configuring(v, p, s, ok);
      var r := PendingReq(SetConfiguration, s.rseid, Some(s));
      assert w.seps.Keys == v.seps.Keys;
      MoreStreams(v.q, v.armed, v.streams, v.seps, w.streams, w.seps);
      NamesIt(r, w.streams, w.seps);
      SendKeeps(v.q, v.armed, w.streams, w.seps, false, r, ok, w.q, w.armed);
      TakenAttached(v.places, v.streams, p, s);
    }
  }

  lemma NamesIt(r: Req, streams: seq<Stream>, seps: map<byte, RemoteSep>)
    requires r.stream.Some? && r.stream.value in streams && !AsksCapabilities(r.signal)
    ensures NamesOnly(r, streams, seps)
  {}

  lemma TakenAttached(places: map<LocalSep, Place>, streams: seq<Stream>, p: LocalSep, s: Stream)
    requires Attached(places, streams) && p in places && places[p].stream.None? && s !in streams && s.lsep == p
    ensures Attached(places[p := places[p].(inuse := true, stream := Some(s))], streams + [s])
  {}

  // ------------------------------------------------------ the peer's answers

  lemma PendingOpenGood(v: Shot, s: Stream)
    requires Good(v) && s in v.streams
    ensures Good(v.(pendingOpen := Some(s)))
  {}

  lemma NonePendingGood(v: Shot)
    requires Good(v)
    ensures Good(v.(pendingOpen := None))
  {}

  lemma ForgetsGood(v: Shot, rseid: byte)
    requires Good(v)
    ensures Good(v.(seps := Forget(v.seps, rseid)))
  {
    hide Attached, OnceEach;
    MoreStreams(v.q, v.armed, v.streams, v.seps, v.streams, Forget(v.seps, rseid));
  }

  function Unarmed(v: Shot): Shot { v.(armed := false) }

  lemma UnarmedGood(v: Shot)
    requires Good(v)
    ensures Good(Unarmed(v))
  {}

  // What an accepted request for a stream does to it.
  function Accepting(v: Shot, signal: Signal, s: Stream, report: Option<bool>): Shot
    requires s.lsep in v.places
  {
    match signal
    case SetConfiguration => MovedTo(v, s.lsep, Configured, report)
    case Open => v.(pendingOpen := Some(s))
    case Start => Moved(v, s.lsep, Streaming)
    case Suspend => Moved(v, s.lsep, Opened)
    case Close => Moved(v, s.lsep, Closing)
    case Abort => WentIdle(Moved(v, s.lsep, Aborting), s.lsep)
    case _ => v
  }

  lemma StreamPlaced(v: Shot, s: Stream)
    requires Good(v) && s in v.streams
    ensures s.lsep in v.places && v.places[s.lsep].stream == Some(s)
  {}

  lemma IdleShrinks(v: Shot, p: LocalSep)
    requires p in v.places
    ensures forall u :: u in WentIdle(v, p).streams ==> u in v.streams
  {
    if v.places[p].stream.Some? { WithoutContents(v.streams, v.places[p].stream.value); }
  }

  lemma AcceptingGood(v: Shot, signal: Signal, s: Stream, report: Option<bool>)
    requires Good(v) && s in v.streams
    ensures s.lsep in v.places && Good(Accepting(v, signal, s, report))
    ensures forall u :: u in Accepting(v, signal, s, report).streams ==> u in v.streams
  {
    hide Good, WentIdle;
    StreamPlaced(v, s);
    match signal
    case SetConfiguration => MovedToGood(v, s.lsep, Configured, report);
    case Open => PendingOpenGood(v, s);
    case Start => MovedGood(v, s.lsep, Streaming);
    case Suspend => MovedGood(v, s.lsep, Opened);
    case Close => MovedGood(v, s.lsep, Closing);
    case Abort =>
      MovedGood(v, s.lsep, Aborting);
      IdleGood(Moved(v, s.lsep, Aborting), s.lsep);
      IdleShrinks(Moved(v, s.lsep, Aborting), s.lsep);
    case _ =>
  }

  // The session as module Discovery sees it: a call without a callback never ends.
  ghost function TalkOf(v: Shot): Talk<Stream> {
    Talk(v.q,
         if v.discover.Some? && v.discover.value.cb then Some(v.discover.value.number) else None,
         v.ended,
         CapsOf(v.seps))
  }

  ghost function CapsOf(seps: map<byte, RemoteSep>): map<byte, seq<Cap>> {
    map id | id in seps :: seps[id].caps
  }

  lemma FinishedTalk(v: Shot)
    ensures TalkOf(Finished(v)) == Finalized(TalkOf(v))
  {}

  function Rseids(streams: seq<Stream>): set<byte> { set s | s in streams :: s.rseid }

  // One listed end point of a DISCOVER answer.
  function Noted(v: Shot, id: byte, cmd: Signal): Shot {
    var known := if id in v.seps then v.seps[id] else RemoteSep(None, [], false);
    Requested(v.(seps := v.seps[id := known.(stream := FirstWithRseid(v.streams, id))]), true,
              PendingReq(cmd, id, None), true)
  }

  lemma NotedGood(v: Shot, id: byte, cmd: Signal)
    requires Good(v)
    ensures Good(Noted(v, id, cmd))
  {
    hide Attached, QueueOk, OnceEach;
    var w := Noted(v, id, cmd);
    KeysGrow(v.q, v.armed, v.streams, v.seps, w.seps);
    SendKeeps(v.q, v.armed, v.streams, w.seps, true, PendingReq(cmd, id, None), true, w.q, w.armed);
  }

  lemma KeysGrow(q: Pending<Req>, armed: bool, streams: seq<Stream>, seps: map<byte, RemoteSep>,
                 peers: map<byte, RemoteSep>)
    requires QueueOk(q, armed, streams, seps) && forall id :: id in seps ==> id in peers
    ensures QueueOk(q, armed, streams, peers)
  {
    forall r | r in q.prio || r in q.normal ensures NamesOnly(r, streams, peers) {
      assert NamesOnly(r, streams, seps);
    }
  }

  lemma NotedTalk(v: Shot, id: byte, cmd: Signal)
    requires v.q.outstanding.Some?
    ensures var t, u := TalkOf(v), TalkOf(Noted(v, id, cmd));
      u == t.(q := t.q.(prio := t.q.prio + [PendingReq(cmd, id, None)]), caps := Known(t.caps, [id]))
  {}

  lemma NothingAsked(v: Shot, cmd: Signal)
    ensures AskedAbout(v, TalkOf(v), [], cmd)
  {}

  lemma KnownMore(caps: map<byte, seq<Cap>>, queries: seq<byte>, id: byte)
    ensures Known(Known(caps, queries), [id]) == Known(caps, queries + [id])
  {}

  lemma KnownOne(caps: map<byte, seq<Cap>>, id: byte)
    ensures Known(caps, [id]).Keys == caps.Keys + {id}
  {}

  lemma QueriesNext(infos: seq<SeidInfo>, i: nat, known: set<byte>, streams: seq<Stream>)
    requires i < |infos|
    ensures var id := infos[i].seid;
      Queries(infos[i..], known, Rseids(streams)) ==
        if id !in known && infos[i].inuse && FirstWithRseid(streams, id).None?
        then Queries(infos[i + 1..], known, Rseids(streams))
        else [id] + Queries(infos[i + 1..], known + {id}, Rseids(streams))
  {
    assert infos[i..][1..] == infos[i + 1..];
    var id := infos[i].seid;
    if FirstWithRseid(streams, id).Some? {
      assert FirstWithRseid(streams, id).value.rseid in Rseids(streams);
    }
  }

  lemma {:induction false} AsksMore(queries: seq<byte>, id: byte, cmd: Signal)
    ensures Asks<Stream>(queries + [id], cmd) == Asks(queries, cmd) + [PendingReq(cmd, id, None)]
  {
    if queries != [] {
      AsksMore(queries[1..], id, cmd);
      assert (queries + [id])[1..] == queries[1..] + [id];
    }
  }

  // avdtp_discover_resp: all the end points worth asking about, in order.
  function NotedAll(v: Shot, queries: seq<byte>, cmd: Signal): Shot {
    if queries == [] then v
    else Noted(NotedAll(v, queries[..|queries| - 1], cmd), queries[|queries| - 1], cmd)
  }

  // Without any the discovery is over.
  function Discovering(v: Shot, queries: seq<byte>, cmd: Signal): Shot {
    if queries == [] then Finished(v) else NotedAll(v, queries, cmd)
  }

  lemma NotedNothing(v: Shot, cmd: Signal)
    ensures NotedAll(v, [], cmd) == v
  {}

  lemma NotedNext(v: Shot, queries: seq<byte>, id: byte, cmd: Signal)
    ensures NotedAll(v, queries + [id], cmd) == Noted(NotedAll(v, queries, cmd), id, cmd)
  {
    assert (queries + [id])[..|queries|] == queries;
  }

  lemma NotedKeys(v: Shot, id: byte, cmd: Signal)
    requires v.q.outstanding.Some?
    ensures var w := Noted(v, id, cmd);
      w.seps.Keys == v.seps.Keys + {id} && w.streams == v.streams && w.q.outstanding == v.q.outstanding
  {}

  lemma {:induction false} NotedAllGood(v: Shot, queries: seq<byte>, cmd: Signal)
    requires Good(v)
    ensures Good(NotedAll(v, queries, cmd))
    ensures var w := NotedAll(v, queries, cmd); w == v.(q := w.q, armed := w.armed, seps := w.seps)
    ensures v.q.outstanding.Some? ==>
      var w := NotedAll(v, queries, cmd);
      w.q.outstanding == v.q.outstanding && w.armed == v.armed && AskedAbout(w, TalkOf(v), queries, cmd)
  {
    hide Good, AskedAbout, TalkOf, Noted;
    NothingAsked(v, cmd);
    if queries != [] {
      var front, id := queries[..|queries| - 1], queries[|queries| - 1];
      NotedAllGood(v, front, cmd);
      var u := NotedAll(v, front, cmd);
      NotedGood(u, id, cmd);
      NotedFrame(u, id, cmd);
      assert front + [id] == queries;
      if v.q.outstanding.Some? {
        NotedStep(u, TalkOf(v), front, id, cmd);
      }
    }
  }

  lemma NotedFrame(v: Shot, id: byte, cmd: Signal)
    ensures var w := Noted(v, id, cmd); w == v.(q := w.q, armed := w.armed, seps := w.seps)
    ensures v.q.outstanding.Some? ==> Noted(v, id, cmd).armed == v.armed
  {}

  lemma DiscoveringGood(v: Shot, queries: seq<byte>, cmd: Signal)
    requires Good(v)
    ensures Good(Discovering(v, queries, cmd))
  {
    hide Good;
    FinishedGood(v);
    NotedAllGood(v, queries, cmd);
  }

  // What the session does with a DISCOVER answer is the step of module Discovery.
  lemma DiscoveringTalk(v: Shot, queries: seq<byte>, cmd: Signal)
    requires Good(v) && v.q.outstanding.Some?
    ensures TalkOf(Discovering(v, queries, cmd)) == Discovered(TalkOf(v), queries, cmd)
  {
    hide Good;
    NotedAllGood(v, queries, cmd);
    FinishedTalk(v);
    if queries == [] { NothingKnown(TalkOf(v), cmd); }
  }

  lemma NothingKnown(t: Talk<Stream>, cmd: Signal)
    ensures t.(q := t.q.(prio := t.q.prio + Asks([], cmd)), caps := Known(t.caps, [])) == t
  {}

  // An accepted capability request: its end point's list is replaced.
  function Filed(v: Shot, id: byte, caps: seq<Cap>, reports: bool): Shot
    requires id in v.seps
  {
    v.(seps := v.seps[id := v.seps[id].(caps := caps, delayReporting := reports)])
  }

  lemma FiledGood(v: Shot, id: byte, caps: seq<Cap>, reports: bool)
    requires Good(v) && id in v.seps
    ensures Good(Filed(v, id, caps, reports))
    ensures TalkOf(Filed(v, id, caps, reports)) == TalkOf(v).(caps := TalkOf(v).caps[id := caps])
  {
    hide Attached, OnceEach;
    KeysGrow(v.q, v.armed, v.streams, v.seps, Filed(v, id, caps, reports).seps);
  }

  // Then the discovery is over, unless the next request asks for more.
  function Describing(v: Shot, id: byte, caps: seq<Cap>, reports: bool): Shot
    requires id in v.seps
  {
    if MoreToCome(v.q) then Filed(v, id, caps, reports) else Finished(Filed(v, id, caps, reports))
  }

  lemma DescribingGood(v: Shot, id: byte, caps: seq<Cap>, reports: bool)
    requires Good(v) && id in v.seps
    ensures Good(Describing(v, id, caps, reports))
  {
    hide Good, Filed, TalkOf;
    FiledGood(v, id, caps, reports);
    FinishedGood(Filed(v, id, caps, reports));
  }

  // And so is what it does with an answer about capabilities.
  lemma DescribingTalk(v: Shot, id: byte, bytes: seq<byte>, reports: bool)
    requires Good(v) && id in v.seps
    ensures TalkOf(Describing(v, id, ReadAll(bytes).0, reports)) == Described(TalkOf(v), id, bytes)
  {
    hide Good, ReadAll;
    FiledGood(v, id, ReadAll(bytes).0, reports);
    FinishedTalk(Filed(v, id, ReadAll(bytes).0, reports));
  }

  // The session after some of the listed end points were asked about.
  ghost predicate AskedAbout(v: Shot, t: Talk<Stream>, queries: seq<byte>, cmd: Signal) {
    TalkOf(v) == t.(q := t.q.(prio := t.q.prio + Asks(queries, cmd)), caps := Known(t.caps, queries))
  }

  lemma NotedStep(v: Shot, t: Talk<Stream>, queries: seq<byte>, id: byte, cmd: Signal)
    requires Good(v) && v.q.outstanding.Some? && AskedAbout(v, t, queries, cmd)
    ensures var w := Noted(v, id, cmd);
      && Good(w) && AskedAbout(w, t, queries + [id], cmd) && w == v.(q := w.q, seps := w.seps)
      && w.q.outstanding == v.q.outstanding
      && TalkOf(w).caps.Keys == TalkOf(v).caps.Keys + {id}
  {
    hide Good, Asks, Known;
    NotedGood(v, id, cmd);
    NotedTalk(v, id, cmd);
    KnownOne(TalkOf(v).caps, id);
    KnownMore(t.caps, queries, id);
    AsksMore(queries, id, cmd);
    assert t.q.prio + Asks(queries, cmd) + [PendingReq(cmd, id, None)]
      == t.q.prio + (Asks(queries, cmd) + [PendingReq(cmd, id, None)]);
  }

  lemma AppendOne<T>(front: seq<T>, x: T, rest: seq<T>)
    ensures (front + [x]) + rest == front + ([x] + rest)
  {}

  lemma NoMoreQueries(infos: seq<SeidInfo>, known: set<byte>, attached: set<byte>)
    ensures Queries(infos[|infos|..], known, attached) == []
  {}

  lemma AskedIsKnown(v: Shot)
    requires Good(v) && v.q.outstanding.Some? && AsksCapabilities(v.q.outstanding.value.signal)
    ensures v.q.outstanding.value.seid in v.seps && v.q.outstanding.value.seid in TalkOf(v).caps
  {}

  lemma OutstandingNames(v: Shot)
    requires Good(v) && v.q.outstanding.Some? && v.armed
    ensures v.q.outstanding.value.stream.Some? ==> v.q.outstanding.value.stream.value in v.streams
  {}

  lemma NextTalk(v: Shot, ok: bool)
    ensures TalkOf(Processed(NoneOutstanding(v), ok)) == TalkOf(v).(q := Answer(TalkOf(v).q, ok))
  {}

  lemma UnarmedTalk(v: Shot)
    ensures TalkOf(Unarmed(v)) == TalkOf(v)
  {}

  // avdtp_set_configuration does not look whether the end point is free: the
  // session stays in order exactly when it is, whether the request goes or not.
  lemma ConfiguringNeedsAFreeEndPoint(v: Shot, p: LocalSep, s: Stream, ok: bool)
    requires Good(v) && p in v.places && s !in v.streams && s.lsep == p && s.rseid in v.seps
    ensures Good(Configuring(v, p, s, ok)) <==> v.places[p].stream.None?
  {
    hide QueueOk, PeersKnow, OnceEach, RequestQueue.SendReq;
    if v.places[p].stream.None? {
      ConfiguringGood(v, p, s, ok);
    } else if v.q.outstanding.None? && !ok {
      DetachedGood(v, p, s);
    } else {
      PlacedStream(v, p);
      TwoStreams(Configuring(v, p, s, ok), v.places[p].stream.value, p, s);
    }
  }
}
