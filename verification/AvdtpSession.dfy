// One AVDTP session: the handlers of avdtp.c, changing the session, its end
// points and its streams in place, against the values of module SessionState.
module AvdtpSession {
  import opened Options
  import opened Bytes
  import opened Lists
  import opened RequestQueue
  import opened AvdtpMessages
  import opened Capabilities
  import opened Discovery
  import opened SessionState
  import opened SessionCommands
  import opened SessionRuns

  datatype Kind = Command | Accepted | Rejected | GeneralReject
  datatype Out = Out(kind: Kind, signal: Signal, error: byte)

  // A peer that configures delay reporting speaks at least version 1.3.
  function Raised(version: nat, caps: seq<Cap>): nat {
    if ListsDelay(caps) && !BadTransport(caps) && version < 0x0103 then 0x0103 else version
  }

  // Since version 1.3 all capabilities can be asked for.
  function CapsCommand(version: nat): Signal {
    if version >= 0x0103 then GetAllCapabilities else GetCapabilities
  }

  function Ntohs(high: byte, low: byte): nat {
    var h: int := high;
    256 * h + low
  }

  function Said(signal: Signal, error: Option<byte>): Out {
    if error.Some? then Out(Rejected, signal, error.value) else Out(Accepted, signal, 0)
  }

  // What a command is answered with, if at all.
  ghost function ReplyTo(v: Shot, lseps: seq<LocalSep>, signal: Signal, payload: seq<byte>, answer: ConfAnswer,
                       app: nat -> Option<byte>): Option<Out>
  {
    var p := if payload == [] then None else EndAt(lseps, payload[0]);
    match signal
    case Discover => Some(Said(signal, if lseps == [] then Some(NOT_SUPPORTED) else None))
    case GetCapabilities | GetAllCapabilities =>
      Some(Said(signal, if payload == [] then Some(BAD_LENGTH) else if p.None? then Some(BAD_ACP_SEID) else app(0)))
    case GetConfiguration =>
      if payload == [] then None
      else if p.None? || p.value !in v.places then Some(Said(signal, Some(BAD_ACP_SEID)))
      else
        var s := v.places[p.value].stream;
        Some(Said(signal, if s.None? || s.value.caps == [] then Some(UNSUPPORTED_CONFIGURATION) else None))
    case SetConfiguration =>
      if |payload| < 2 then None
      else
        var error := ConfError(v.places, p, ReadAll(payload[2..]).0, answer);
        if error.None? && answer.Later? then None else Some(Said(signal, error))
    case Open => if payload == [] then None else Some(Said(signal, OpenError(v.places, p, app(0))))
    case Close => if payload == [] then None else Some(Said(signal, CloseError(v.places, p, app(0))))
    case Abort =>
      if p.None? || p.value !in v.places || v.places[p.value].stream.None? then None else Some(Said(signal, None))
    case DelayReport => if |payload| < 3 then None else Some(Said(signal, DelayError(v.places, p, app(0))))
    case Start =>
      if payload == [] then None
      else Some(Said(signal, Reason(Walked(v.places, lseps, payload, Opened, Streaming, app, 0).1)))
    case Suspend =>
      if payload == [] then None
      else Some(Said(signal, Reason(Walked(v.places, lseps, payload, Streaming, Opened, app, 0).1)))
    case Reconfigure => Some(Said(signal, Some(NOT_SUPPORTED)))
    case SecurityControl => Some(Out(GeneralReject, signal, 0))
  }

  function Reason(stop: Option<(byte, byte)>): Option<byte> { if stop.Some? then Some(stop.value.1) else None }

  // The answer, if there is one, is the next message.
  ghost predicate AnsweredWith(before: seq<Out>, said: seq<Out>, reply: Option<Out>) {
    && |before| <= |said| && said[..|before|] == before
    && if reply.Some? then |said| > |before| && said[|before|] == reply.value else said == before
  }

  // The report a sink makes once its configuration was accepted.
  function ReportOf(s: Option<Stream>, ok: bool): Option<bool> {
    if s.Some? && s.value.lsep.sink && s.value.delayReporting then Some(ok) else None
  }

  // How long a rejection must at least be.
  function RejectionSize(signal: Signal): nat {
    match signal
    case Discover | GetCapabilities | GetAllCapabilities | Open | GetConfiguration => 1
    case SetConfiguration | Reconfigure | Start | Suspend | Close | Abort | DelayReport => 2
    case _ => 0
  }

  // An answer the session does not survive.
  predicate TooShort(kind: Kind, signal: Signal, payload: seq<byte>) {
    || (kind.Accepted? && AsksCapabilities(signal) && |payload| < 6)
    || (kind.Rejected? && (signal.Abort? || |payload| < RejectionSize(signal)))
  }

  // What an answer that fits the outstanding request comes to.
  ghost function OnAcceptance(v: Shot, payload: seq<byte>, version: nat, report: Option<bool>): Outcome
    requires v.q.outstanding.Some?
  {
    var r, caps := v.q.outstanding.value, ReadAll(payload).0;
    if r.signal.Discover? then Finds(Queries(Infos(payload), v.seps.Keys, Rseids(v.streams)), CapsCommand(version))
    else if AsksCapabilities(r.signal) then Describes(r.seid, caps, ListsDelay(caps))
    else if r.stream.Some? then OnStream(r.signal, r.stream.value, report)
    else Disregarded
  }

  function OnRejection(signal: Signal): Outcome {
    if signal.Discover? || AsksCapabilities(signal) then Declines else Disregarded
  }

  ghost function AnswerChange(v: Shot, kind: Kind, payload: seq<byte>, version: nat, report: Option<bool>,
                              next: bool): Change
    requires v.q.outstanding.Some?
  {
    var signal := v.q.outstanding.value.signal;
    if TooShort(kind, signal, payload) then AnswerFails
    else if kind.Accepted? then Settles(OnAcceptance(v, payload, version, report), next)
    else if kind.Rejected? then Settles(OnRejection(signal), next)
    else Settles(Disregarded, next)
  }

  lemma WhenAccepted(v: Shot, payload: seq<byte>, version: nat, report: Option<bool>, next: bool)
    requires v.q.outstanding.Some?
    ensures OnAcceptance(Unarmed(v), payload, version, report) == OnAcceptance(v, payload, version, report)
    ensures AnswerChange(v, Accepted, payload, version, report, next)
      == if TooShort(Accepted, v.q.outstanding.value.signal, payload) then AnswerFails
         else Settles(OnAcceptance(v, payload, version, report), next)
  {
    hide Queries, Infos, ReadAll, ListsDelay;
  }

  class Session {
    const lseps: seq<LocalSep>
    const link: nat -> bool // whether the n-th message can be sent
    var version: nat
    var seps: map<byte, RemoteSep>
    var streams: seq<Stream>
    var prioQueue: seq<Req>
    var reqQueue: seq<Req>
    var pendingOpen: Option<Stream>
    var req: Option<Req>
    var armed: bool      // the outstanding request has its timeout running
    var collided: bool   // the outstanding request lost to the peer's command
    var discover: Option<Call>
    var calls: nat
    var nullCalls: nat   // callbacks called though none was set
    var idles: nat       // process_discover sources waiting to run
    var ended: seq<nat>
    var sent: seq<Out>
    var watched: bool    // session_cb still gets what the channel brings

    ghost function View(): Shot
      reads this, Ends(lseps)
    {
      Shot(Places(lseps), streams, pendingOpen, Queue(), armed, seps, discover, calls, ended, idles, nullCalls, watched)
    }

    // The handler made this change, and none besides.
    twostate predicate Made(new change: Change)
      reads this, Ends(lseps)
    {
      Possible(old(View()), change) && View() == Changed(old(View()), change)
    }

    ghost predicate Valid()
      reads this, Ends(lseps)
    {
      Good(View())
    }

    function Queue(): Pending<Req>
      reads this
    {
      Pending(req, prioQueue, reqQueue)
    }

    // Between calls no outstanding request has lost to the peer's command, while
    // the channel is watched.
    predicate Unmarked()
      reads this`watched, this`req, this`collided
    {
      watched && req.Some? ==> !collided
    }

    constructor (lseps: seq<LocalSep>, version: nat, link: nat -> bool)
      requires forall p :: p in lseps ==> p.stream == None && !p.inuse && p.state == Idle
      ensures Valid() && JustMade(View()) && watched && this.lseps == lseps && this.link == link
      ensures sent == [] && this.version == version && Unmarked()
    {
      this.lseps, this.link, this.version := lseps, link, version;
      seps, streams, prioQueue, reqQueue := map[], [], [], [];
      pendingOpen, req, armed, collided := None, None, false, false;
      discover, calls, idles, nullCalls, ended, sent, watched := None, 0, 0, 0, [], [], true;
    }

    // avdtp_send
    method Send(kind: Kind, signal: Signal, error: byte) returns (ok: bool)
      modifies this`sent
      ensures ok == link(|old(sent)|) && sent == old(sent) + [Out(kind, signal, error)]
      ensures View() == old(View())
    {
      ok := link(|sent|);
      sent := sent + [Out(kind, signal, error)];
    }

    // send_req
    method SendReq(priority: bool, r: Req) returns (ok: bool)
      modifies this`req, this`armed, this`collided, this`prioQueue, this`reqQueue, this`sent
      ensures ok == Accepts(old(Queue()), link(|old(sent)|))
      ensures View() == Requested(old(View()), priority, r, link(|old(sent)|))
      ensures collided == (old(collided) && !(old(req.None?) && ok)) && (old(Unmarked()) ==> Unmarked())
      ensures sent == if old(req.Some?) then old(sent) else old(sent) + [Out(Command, r.signal, 0)]
    {
      if req.Some? {
        if priority { prioQueue := prioQueue + [r]; } else { reqQueue := reqQueue + [r]; }
        return true;
      }
      ok := Send(Command, r.signal, 0);
      if ok { req, armed, collided := Some(r), true, false; }
    }

    predicate Refused(stream: Option<Stream>, signal: Signal)
      reads if stream.Some? then {stream.value} else {}
    {
      stream.Some? && stream.value.abortInt && !signal.Abort?
    }

    // send_request: none but ABORT is sent for a stream being aborted.
    method SendRequest(priority: bool, stream: Option<Stream>, signal: Signal, seid: byte) returns (ok: bool)
      modifies this`req, this`armed, this`collided, this`prioQueue, this`reqQueue, this`sent
      ensures ok == (!Refused(stream, signal) && Accepts(old(Queue()), link(|old(sent)|)))
      ensures View() == if Refused(stream, signal) then old(View())
        else Requested(old(View()), priority, PendingReq(signal, seid, stream), link(|old(sent)|))
      ensures collided == (old(collided) && !(old(req.None?) && ok)) && (old(Unmarked()) ==> Unmarked())
      ensures sent == if old(req.Some?) || Refused(stream, signal) then old(sent)
        else old(sent) + [Out(Command, signal, 0)]
    {
      if stream.Some? && stream.value.abortInt && signal != Abort { return false; }
      ok := SendReq(priority, PendingReq(signal, seid, stream));
    }

    // process_queue
    method ProcessQueue()
      modifies this`req, this`armed, this`collided, this`prioQueue, this`reqQueue, this`sent
      ensures View() == Processed(old(View()), link(|old(sent)|))
      ensures old(req.None?) && req.Some? ==> !collided
      ensures sent == old(sent) +
        if old(req.Some? || (prioQueue == [] && reqQueue == [])) then []
        else [Out(Command, old(if prioQueue != [] then prioQueue[0].signal else reqQueue[0].signal), 0)]
    {
      if req.Some? { return; }
      if prioQueue != [] {
        var r := prioQueue[0];
        prioQueue := prioQueue[1..];
        var _ := SendReq(false, r);
      } else if reqQueue != [] {
        var r := reqQueue[0];
        reqQueue := reqQueue[1..];
        var _ := SendReq(false, r);
      }
    }

    // handle_transport_connect without a channel: the wait for it is over.
    method TransportGivenUp()
      requires pendingOpen.Some?
      modifies this`pendingOpen, pendingOpen.value`timer
      ensures pendingOpen == None && !old(pendingOpen).value.timer
    {
      var stream := pendingOpen.value;
      pendingOpen := None;
      stream.timer := false;
    }

    // handle_unanswered_req; the application is told of a request given up.
    method HandleUnansweredReq(stream: Stream)
      requires req.Some? && req.value.stream == Some(stream)
      modifies this`req
      ensures req == Orphaned(old(req), armed, stream)
    {
      if !armed { return; }
      if req.value.signal.Abort? {
        req := Some(req.value.(stream := None));
        return;
      }
      req := None;
    }

    // cleanup_queue
    method CleanupQueue(stream: Stream)
      modifies this`prioQueue, this`reqQueue
      ensures prioQueue == NotNaming(old(prioQueue), stream)
      ensures reqQueue == NotNaming(old(reqQueue), stream)
    {
      prioQueue := WithoutNaming(prioQueue, stream);
      reqQueue := WithoutNaming(reqQueue, stream);
    }

    // One loop of cleanup_queue: find the first request for the stream, free it.
    method WithoutNaming(queue: seq<Req>, stream: Stream) returns (rest: seq<Req>)
      ensures rest == NotNaming(queue, stream)
    {
      rest := queue;
      var i := 0;
      while i < |rest|
        invariant 0 <= i <= |rest|
        invariant forall j :: 0 <= j < i ==> rest[j].stream != Some(stream)
        invariant NotNaming(rest, stream) == NotNaming(queue, stream)
        decreases |rest| - i
      {
        if rest[i].stream == Some(stream) {
          NotNamingDrop(rest, i, stream);
          rest := rest[..i] + rest[i + 1..];
        } else {
          i := i + 1;
        }
      }
      NotNamingAll(rest, stream);
    }

    // Changing one end point changes its place only.
    method SetPlace(sep: LocalSep, state: State, inuse: bool, stream: Option<Stream>)
      requires sep in lseps
      modifies sep
      ensures sep.state == state && sep.inuse == inuse && sep.stream == stream
      ensures Places(lseps) == old(Places(lseps))[sep := Place(state, inuse, stream)]
    {
      sep.state, sep.inuse, sep.stream := state, inuse, stream;
    }

    // stream_free
    method StreamFree(stream: Stream)
      requires stream.lsep in lseps
      modifies stream.lsep, this`seps, stream
      ensures stream.lsep in old(View()).places && View() == Detached(old(View()), stream.lsep, stream)
      ensures !stream.timer && !stream.startTimer && !stream.io && !stream.watched
    {
      SetPlace(stream.lsep, stream.lsep.state, false, None);
      if stream.rseid in seps {
        seps := seps[stream.rseid := seps[stream.rseid].(stream := None)];
      }
      stream.timer, stream.startTimer, stream.io, stream.watched := false, false, false, false;
    }

    method Unlist(stream: Stream)
      modifies this`streams
      ensures streams == Without(old(streams), stream) && Places(lseps) == old(Places(lseps))
    {
      streams := Without(streams, stream);
    }

    method NewStream(lsep: LocalSep, rseid: byte, caps: seq<Cap>, delayReporting: bool) returns (stream: Stream)
      ensures fresh(stream) && View() == old(View()) && stream !in streams
      ensures stream.lsep == lsep && stream.rseid == rseid
      ensures stream.caps == caps && stream.delayReporting == delayReporting
      ensures !stream.abortInt && stream.delay == 0
    {
      stream := new Stream(lsep, rseid, caps, delayReporting);
    }

    // A stream takes its end point.
    method Attach(stream: Stream)
      requires stream.lsep in lseps
      modifies stream.lsep, this`streams
      ensures stream.lsep in old(View()).places && stream in streams
      ensures View() == Taken(old(View()), stream.lsep, stream)
      ensures stream.lsep.stream == Some(stream)
    {
      SetPlace(stream.lsep, stream.lsep.state, true, Some(stream));
      streams := streams + [stream];
    }

    // Both sides take the stream.
    method Take(stream: Stream)
      requires stream.lsep in lseps && stream.rseid in seps
      modifies stream.lsep, this`streams, this`seps
      ensures stream.lsep in old(View()).places
      ensures View() == Taken(old(View()), stream.lsep, stream)
        .(seps := old(seps)[stream.rseid := old(seps)[stream.rseid].(stream := Some(stream))])
    {
      hide Places;
      Attach(stream);
      PeerTakes(stream);
    }

    method PeerTakes(stream: Stream)
      requires stream.rseid in seps
      modifies this`seps
      ensures View()
        == old(View()).(seps := old(seps)[stream.rseid := old(seps)[stream.rseid].(stream := Some(stream))])
    {
      seps := seps[stream.rseid := seps[stream.rseid].(stream := Some(stream))];
    }

    // The part of going idle that concerns requests and the awaited transport.
    method Disown(stream: Stream)
      modifies this`pendingOpen, this`req, this`prioQueue, this`reqQueue, stream
      ensures pendingOpen == if old(pendingOpen) == Some(stream) then None else old(pendingOpen)
      ensures Queue() == Pending(Orphaned(old(req), armed, stream), NotNaming(old(prioQueue), stream),
                                 NotNaming(old(reqQueue), stream))
      ensures Places(lseps) == old(Places(lseps)) && !stream.startTimer
    {
      hide NotNaming;
      stream.startTimer := false;
      if pendingOpen == Some(stream) { TransportGivenUp(); }
      if req.Some? && req.value.stream == Some(stream) { HandleUnansweredReq(stream); }
      CleanupQueue(stream);
    }

    lemma PlaceOf(sep: LocalSep)
      requires sep in lseps
      ensures sep in Places(lseps) && Places(lseps)[sep] == Place(sep.state, sep.inuse, sep.stream)
    {}

    lemma StreamOf(sep: LocalSep)
      requires Valid() && sep in lseps
      ensures sep in Places(lseps) && Places(lseps)[sep] == Place(sep.state, sep.inuse, sep.stream)
      ensures sep.stream.Some? ==> sep.stream.value in streams && sep.stream.value.lsep == sep
      ensures sep.stream.None? ==> sep.state == Idle && !sep.inuse
    {
      PlaceOf(sep);
    }

    lemma Listed(stream: Stream)
      requires Valid() && stream in streams
      ensures stream.lsep in lseps && stream.lsep.stream == Some(stream) && stream.lsep in View().places
      ensures View().places[stream.lsep] == Place(stream.lsep.state, stream.lsep.inuse, Some(stream))
    {}

    // avdtp_sep_set_state to IDLE.
    method GoIdle(sep: LocalSep)
      requires Valid() && sep in lseps
      modifies this`streams, this`pendingOpen, this`req, this`prioQueue, this`reqQueue, this`seps
      modifies sep, if sep.stream.Some? then {sep.stream.value} else {}
      ensures Valid() && View() == WentIdle(old(View()), sep)
      ensures old(sep.stream.Some?) ==>
        var s := old(sep.stream).value; !s.timer && !s.startTimer && !s.io && !s.watched
    {
      hide Good, Orphaned, Forget, Places, NotNaming, Without;
      StreamOf(sep);
      IdleGood(View(), sep);
      ghost var places := Places(lseps);
      if sep.stream.None? { return; }
      var stream := sep.stream.value;
      SetPlace(sep, Idle, sep.inuse, sep.stream);
      Disown(stream);
      if stream in streams {
        Unlist(stream);
        StreamFree(stream);
      }
      assert Places(lseps) == places[sep := Place(Idle, false, None)];
    }

    // finalize_discovery
    method FinalizeDiscovery()
      requires HasSource(discover, idles)
      modifies this`discover, this`ended, this`idles
      ensures View() == Finished(old(View()))
    {
      if discover.None? { return; }
      var call := discover.value;
      discover := None;
      if call.idle { idles := idles - 1; }
      if call.cb { ended := ended + [call.number]; }
    }

    // release_stream, for every stream of the session, and connection_lost.
    method ConnectionLost()
      requires Valid()
      modifies this`streams, this`pendingOpen, this`req, this`prioQueue, this`reqQueue, this`seps
      modifies this`discover, this`ended, this`idles
      modifies Ends(lseps), set s | s in streams
      ensures Valid() && (forall s :: s in old(streams) ==> s.lsep in old(View()).places)
      ensures View() == Lost(old(View()))
      ensures forall s :: s in old(streams) ==> !s.timer && !s.startTimer && !s.io && !s.watched
    {
      hide Good, Places, WentIdle, Released;
      LostGood(View());
      ReleaseAll();
      SourceOfGood(View());
      FinalizeDiscovery();
    }

    method ReleaseAll()
      requires Valid()
      modifies this`streams, this`pendingOpen, this`req, this`prioQueue, this`reqQueue, this`seps
      modifies Ends(lseps), set s | s in streams
      ensures Valid() && streams == [] && (forall s :: s in old(streams) ==> s.lsep in old(View()).places)
      ensures View() == Released(old(View()), old(streams))
      ensures forall s :: s in old(streams) ==> !s.timer && !s.startTimer && !s.io && !s.watched
    {
      hide Good, Places, Orphaned, Forget, Released;
      ghost var v, all := View(), streams;
      ReleasedGood(v, v.streams);
      while streams != []
        invariant Valid() && (forall s :: s in streams ==> s in all)
        invariant forall s :: s in streams ==> s.lsep in View().places
        invariant Released(View(), streams) == Released(v, v.streams)
        invariant forall s :: s in all && s !in streams ==> !s.timer && !s.startTimer && !s.io && !s.watched
        decreases |streams|
      {
        Listed(streams[0]);
        ReleaseFirst();
      }
      ReleasedNone(View());
    }

    lemma ReleasedNone(v: Shot)
      ensures Released(v, []) == v
    {}

    method ReleaseFirst()
      requires Valid() && streams != []
      modifies this`streams, this`pendingOpen, this`req, this`prioQueue, this`reqQueue, this`seps
      modifies streams[0].lsep, streams[0]
      ensures Valid() && streams == old(streams)[1..]
      ensures forall s :: s in streams ==> s.lsep in View().places
      ensures forall s :: s in old(streams) ==> s.lsep in old(View()).places
      ensures Released(View(), streams) == Released(old(View()), old(streams))
      ensures var s := old(streams)[0]; !s.timer && !s.startTimer && !s.io && !s.watched
    {
      hide Good, Places, Orphaned, Forget;
      var stream := streams[0];
      ReleasedGood(View(), streams);
      FirstListed(View());
      Listed(stream);
      GoIdle(stream.lsep);
      ReleasedGood(View(), streams);
    }

    predicate Reports(stream: Stream)
      reads this`streams, this`version, stream, stream.lsep
    {
      && stream in streams && (stream.lsep.state == Configured || stream.lsep.state == Streaming)
      && stream.delayReporting && version >= 0x0103 && !stream.abortInt
    }

    // avdtp_delay_report
    method DelayReport(stream: Stream, delay: nat) returns (ok: bool, ghost change: Change)
      requires Valid()
      modifies this`req, this`armed, this`collided, this`prioQueue, this`reqQueue, this`sent, stream`delay
      ensures Valid() && Made(change)
      ensures var may := old(stream in streams && (stream.lsep.state == Configured || stream.lsep.state == Streaming)
                             && stream.delayReporting && version >= 0x0103 && !stream.abortInt);
        && ok == (may && Accepts(old(Queue()), link(|old(sent)|)))
        && change == if may then Asking(true, Signal.DelayReport, stream, link(|old(sent)|)) else Same
      ensures old(Unmarked()) ==> Unmarked()
    {
      hide Good, Changed, Possible, Requested;
      WhenSame(View());
      change := Same;
      if Reports(stream) {
        WhenAsking(View(), true, Signal.DelayReport, stream, link(|sent|));
        change := Asking(true, Signal.DelayReport, stream, link(|sent|));
      }
      ok := SubmitReport(stream, delay);
    }

    method SubmitReport(stream: Stream, delay: nat) returns (ok: bool)
      modifies this`req, this`armed, this`collided, this`prioQueue, this`reqQueue, this`sent, stream`delay
      ensures ok == (old(Reports(stream)) && Accepts(old(Queue()), link(|old(sent)|)))
      ensures View() == if old(Reports(stream))
        then Requested(old(View()), true, PendingReq(Signal.DelayReport, stream.rseid, Some(stream)), link(|old(sent)|))
        else old(View())
      ensures old(req.Some?) ==> collided == old(collided) && sent == old(sent)
      ensures old(req.None?) && req.Some? ==> !collided
      ensures |old(sent)| <= |sent| && sent[..|old(sent)|] == old(sent)
    {
      if stream !in streams { return false; }
      if stream.lsep.state != Configured && stream.lsep.state != Streaming { return false; }
      if !stream.delayReporting || version < 0x0103 { return false; }
      stream.delay := delay;
      ok := SendRequest(true, Some(stream), Signal.DelayReport, stream.rseid);
    }

    // What becomes of the report a sink makes once it is configured, if it makes one.
    function DueReport(sep: LocalSep): Option<bool>
      reads this`streams, this`version, this`sent, sep, if sep.stream.Some? then {sep.stream.value} else {}
    {
      if sep.sink && sep.stream.Some? && sep.stream.value in streams && sep.stream.value.delayReporting
         && version >= 0x0103 && !sep.stream.value.abortInt then Some(link(|sent|)) else None
    }

    // avdtp_sep_set_state to any other state; a configured sink reports its delay.
    method SetState(sep: LocalSep, state: State)
      requires sep in lseps && state != Idle && (sep.stream.Some? ==> sep.stream.value.lsep == sep)
      modifies this`req, this`armed, this`collided, this`prioQueue, this`reqQueue, this`sent
      modifies sep, if sep.stream.Some? then {sep.stream.value} else {}
      ensures old(Valid()) ==> Valid()
      ensures sep in old(View()).places && View() == MovedTo(old(View()), sep, state, old(DueReport(sep)))
      ensures state != Configured || !sep.sink ==> sent == old(sent) && collided == old(collided)
      ensures old(req.Some?) ==> collided == old(collided) && sent == old(sent)
      ensures old(req.None?) && req.Some? ==> !collided
      ensures |old(sent)| <= |sent| && sent[..|old(sent)|] == old(sent)
      ensures old(sep.stream.Some?) ==> MarksFollow(old(sep.stream).value, state)
    {
      hide Good, Places, Changed, Possible, Requested;
      PlaceOf(sep);
      ghost var v, report := View(), DueReport(sep);
      if Good(v) { MovedToGood(v, sep, state, report); }
      if sep.stream.None? { return; }
      var stream := sep.stream.value;
      SetPlace(sep, state, sep.inuse, sep.stream);
      FollowState(sep, stream, state);
    }

    method FollowState(sep: LocalSep, stream: Stream, state: State)
      requires sep.stream == Some(stream) && stream.lsep == sep && sep.state == state && state != Idle
      modifies this`req, this`armed, this`collided, this`prioQueue, this`reqQueue, this`sent, stream
      ensures var report := old(DueReport(sep));
        View() == if state == Configured && report.Some?
          then Requested(old(View()), true, PendingReq(Signal.DelayReport, stream.rseid, Some(stream)), report.value)
          else old(View())
      ensures state != Configured || !sep.sink ==> sent == old(sent) && collided == old(collided)
      ensures old(req.Some?) ==> collided == old(collided) && sent == old(sent)
      ensures old(req.None?) && req.Some? ==> !collided
      ensures |old(sent)| <= |sent| && sent[..|old(sent)|] == old(sent)
      ensures MarksFollow(stream, state)
    {
      hide Places, Requested;
      if state == Configured {
        if sep.sink { var _ := SubmitReport(stream, stream.delay); }
      } else {
        MarkState(stream, state);
      }
    }

    // The marks and timers of a stream that follow the state.
    twostate predicate MarksFollow(s: Stream, state: State)
      reads s
    {
      && s.abortInt == old(s.abortInt) && s.closeInt == old(s.closeInt) && s.io == old(s.io)
      && s.timer == old(s.timer) && s.stale == old(s.stale)
      && s.starting == (old(s.starting) && state != Opened)
      && s.openAcp == (old(s.openAcp) && state != Streaming)
      && s.startTimer == (old(s.startTimer) && (state == Opened || state == Configured))
    }

    // OPEN ends a start, STREAMING what the peer's OPEN left, and every state but
    // these two and CONFIGURED the wait for the peer's START.
    twostate lemma MarksThen(s: Stream, state: State)
      requires MarksFollow(s, state)
      ensures s.starting ==> old(s.starting) && state != Opened
      ensures old(s.starting) && state != Opened ==> s.starting
      ensures s.openAcp ==> old(s.openAcp) && state != Streaming
      ensures old(s.openAcp) && state != Streaming ==> s.openAcp
      ensures s.startTimer ==> old(s.startTimer) && state in {Configured, Opened}
      ensures old(s.startTimer) && state in {Configured, Opened} ==> s.startTimer
      ensures s.abortInt == old(s.abortInt) && s.closeInt == old(s.closeInt) && s.io == old(s.io)
      ensures s.timer == old(s.timer) && s.stale == old(s.stale)
    {}

    method MarkState(stream: Stream, state: State)
      requires state != Configured
      modifies stream
      ensures View() == old(View()) && MarksFollow(stream, state)
    {
      if state == Opened {
        stream.starting := false;
      } else {
        stream.startTimer := false;
        if state == Streaming { stream.openAcp := false; }
      }
    }

    // cancel_request; cfm tells whether the end points confirm to an application.
    method CancelRequest(cfm: bool) returns (ok: bool)
      requires Valid() && req.Some?
      modifies this`streams, this`pendingOpen, this`req, this`armed, this`collided, this`prioQueue, this`reqQueue
      modifies this`seps, this`discover, this`ended, this`idles, this`sent
      modifies Ends(lseps), set s | s in streams
      ensures Valid() && (forall s :: s in old(streams) ==> s.lsep in old(View()).places)
      ensures View() == Cancelled(old(View()), link(|old(sent)|)) && (req.Some? ==> !collided)
      ensures var target, ends := old(Target(View(), req.value)), EndsSession(old(req.value.signal));
        && ok == (!ends && target.Some? && link(|old(sent)|)) && (ok ==> target.value.abortInt)
        && sent == if ends || target.None? then old(sent) else old(sent) + [Out(Command, Abort, 0)]
    {
      hide Good, Lost, Places, Requested, FirstWithRseid, CallsKept;
      CancelledGood(View(), link(|sent|));
      NoneOutstandingGood(View());
      var r := req.value;
      DropOutstanding();
      var stream := if r.signal.Discover? || r.seid == 0 then None else FirstWithRseid(streams, r.seid);
      if stream.Some? { MarkCancelled(stream.value, r.signal, cfm); }
      NotSent(View(), true, PendingReq(Abort, r.seid, stream));
      ok := false;
      if !EndsSession(r.signal) && stream.Some? {
        ok := SendRequest(true, stream, Abort, r.seid);
      }
      if !ok {
        LostCalls(View());
        ConnectionLost();
      }
    }

    method DropOutstanding()
      modifies this`req
      ensures View() == NoneOutstanding(old(View()))
    {
      req := None;
    }

    method MarkCancelled(stream: Stream, signal: Signal, cfm: bool)
      modifies stream
      ensures View() == old(View()) && stream.abortInt
      ensures stream.starting == (old(stream.starting) && !(signal.Start? && cfm))
      ensures stream.closeInt == (old(stream.closeInt) && !(signal.Close? && cfm))
    {
      stream.abortInt := true;
      if signal.Start? && cfm { stream.starting := false; }
      if signal.Close? && cfm { stream.closeInt := false; }
    }

    // avdtp_abort
    method AbortRequest(stream: Stream, cfm: bool) returns (ok: bool, ghost change: Change)
      requires Valid()
      modifies this`streams, this`pendingOpen, this`req, this`armed, this`collided, this`prioQueue, this`reqQueue
      modifies this`seps, this`discover, this`ended, this`idles, this`sent
      modifies Ends(lseps), (set s | s in streams) + {stream}
      ensures Valid() && change == Aborts(stream, link(|old(sent)|)) && Made(change)
      ensures old(Valid()) && View() == AbortAsked(old(View()), stream, link(|old(sent)|))
      ensures ok && old(req.None? || !armed || req.value.stream != Some(stream)) ==> stream.abortInt
      ensures old(stream !in streams || stream.lsep.state == Aborting) ==> !ok
      ensures old(stream in streams && stream.lsep.state != Aborting) ==>
        ok == if old(req.Some? && armed && req.value.stream == Some(stream))
              then old(!EndsSession(req.value.signal) && Target(View(), req.value).Some?) && link(|old(sent)|)
              else old(req.Some?) || link(|old(sent)|)
      ensures old(req.None? && stream in streams && stream.lsep.state != Aborting) ==>
        sent == old(sent) + [Out(Command, Abort, 0)]
      ensures old(Unmarked()) ==> Unmarked()
    {
      hide Good, Places, Cancelled, Changed, Possible;
      ok, change := false, Aborts(stream, link(|sent|));
      WhenAborting(View(), stream, link(|sent|));
      if stream !in streams { return; }
      Listed(stream);
      if stream.lsep.state == Aborting { return; }
      if req.Some? && armed && req.value.stream == Some(stream) {
        ok := CancelRequest(cfm);
      } else {
        ok := SendRequest(true, Some(stream), Abort, stream.rseid);
        if ok { MarkAborting(stream); }
      }
    }

    method MarkAborting(stream: Stream)
      modifies stream
      ensures View() == old(View()) && stream.abortInt
    {
      stream.abortInt := true;
    }

    // ------------------------------------------------------- local calls

    // avdtp_open
    method OpenRequest(stream: Stream) returns (ok: bool, ghost change: Change)
      requires Valid()
      modifies this`req, this`armed, this`collided, this`prioQueue, this`reqQueue, this`sent
      ensures Valid() && Made(change)
      ensures var may :=
          && stream in streams && (stream.lsep.state == Idle || stream.lsep.state == Configured) && !stream.abortInt;
        && ok == (may && Accepts(old(Queue()), link(|old(sent)|)))
        && change == if may then Asking(false, Signal.Open, stream, link(|old(sent)|)) else Same
      ensures sent == if old(req.Some?) || change == Same then old(sent) else old(sent) + [Out(Command, Signal.Open, 0)]
      ensures old(Unmarked()) ==> Unmarked()
    {
      hide Good, Changed, Possible;
      ok, change := false, Same;
      WhenSame(View());
      if stream !in streams { return; }
      if stream.lsep.state != Idle && stream.lsep.state != Configured { return; }
      WhenAsking(View(), false, Signal.Open, stream, link(|sent|));
      if !stream.abortInt { change := Asking(false, Signal.Open, stream, link(|sent|)); }
      ok := SendRequest(false, Some(stream), Open, stream.rseid);
    }

    // avdtp_start: who accepted the opening first waits for the peer to start.
    method StartRequest(stream: Stream) returns (ok: bool, ghost change: Change)
      requires Valid()
      modifies this`req, this`armed, this`collided, this`prioQueue, this`reqQueue, this`sent, stream
      ensures Valid() && Made(change)
      ensures var may := stream in streams && stream.lsep.state == Opened;
        var asks := may && old(!stream.openAcp && !stream.closeInt && !stream.starting && !stream.abortInt);
        && ok == (may && (old(stream.openAcp) || (asks && Accepts(old(Queue()), link(|old(sent)|)))))
        && change == if asks then Asking(false, Signal.Start, stream, link(|old(sent)|)) else Same
      ensures stream.abortInt == old(stream.abortInt) && stream.openAcp == old(stream.openAcp)
      ensures ok ==> if old(stream.openAcp) then stream.startTimer else stream.starting
      ensures !ok ==> stream.starting == old(stream.starting) && stream.startTimer == old(stream.startTimer)
      ensures old(Unmarked()) ==> Unmarked()
    {
      hide Good, Changed, Possible;
      ok, change := false, Same;
      WhenSame(View());
      if stream !in streams { return; }
      if stream.lsep.state != Opened { return; }
      if stream.openAcp {
        stream.startTimer := true;
        ok := true;
        return;
      }
      if stream.closeInt || stream.starting { return; }
      WhenAsking(View(), false, Signal.Start, stream, link(|sent|));
      if !stream.abortInt { change := Asking(false, Signal.Start, stream, link(|sent|)); }
      ok := SendRequest(false, Some(stream), Start, stream.rseid);
      if ok { stream.starting := true; }
    }

    // avdtp_close: a stream that is not open, or whose request waits for its
    // answer when there is no time, is aborted.
    method CloseRequest(stream: Stream, immediate: bool, cfm: bool) returns (ok: bool, ghost change: Change)
      requires Valid()
      modifies this`streams, this`pendingOpen, this`req, this`armed, this`collided, this`prioQueue, this`reqQueue
      modifies this`seps, this`discover, this`ended, this`idles, this`sent
      modifies Ends(lseps), (set s | s in streams) + {stream}
      ensures Valid() && Made(change)
      ensures var may := old(stream in streams && !stream.closeInt);
        var aborts := old(stream.lsep.state == Idle || stream.lsep.state == Configured
                          || (immediate && req.Some? && req.value.stream == Some(stream)));
        && change == (if !may || (!aborts && old(stream.abortInt)) then Same
                      else if aborts then Aborts(stream, link(|old(sent)|))
                      else Asking(false, Signal.Close, stream, link(|old(sent)|)))
        && (!may ==> !ok)
        && (may && aborts && old(stream.lsep.state != Aborting && req.None?) ==> ok == link(|old(sent)|))
        && (may && !aborts ==>
             ok == (old(!stream.abortInt) && Accepts(old(Queue()), link(|old(sent)|))) && stream.closeInt == ok)
      ensures old(Unmarked()) ==> Unmarked()
    {
      hide Good, AbortAsked, Requested, Changed, Possible;
      ok, change := false, Same;
      WhenSame(View());
      if stream !in streams { return; }
      if stream.closeInt { return; }
      if stream.lsep.state == Idle || stream.lsep.state == Configured {
        ok, change := AbortRequest(stream, cfm);
        return;
      }
      if immediate && req.Some? && req.value.stream == Some(stream) {
        ok, change := AbortRequest(stream, cfm);
        return;
      }
      WhenAsking(View(), false, Signal.Close, stream, link(|sent|));
      if !stream.abortInt { change := Asking(false, Signal.Close, stream, link(|sent|)); }
      ok := SendRequest(false, Some(stream), Close, stream.rseid);
      if ok { MarkClosing(stream); }
    }

    method MarkClosing(stream: Stream)
      modifies stream
      ensures View() == old(View()) && stream.closeInt
    {
      stream.closeInt := true;
    }

    // avdtp_suspend
    method SuspendRequest(stream: Stream) returns (ok: bool, ghost change: Change)
      requires Valid()
      modifies this`req, this`armed, this`collided, this`prioQueue, this`reqQueue, this`sent
      ensures Valid() && Made(change)
      ensures var may := stream in streams && !stream.closeInt && !stream.abortInt
          && (stream.lsep.state == Streaming || stream.lsep.state == Closing || stream.lsep.state == Aborting);
        && ok == (may && Accepts(old(Queue()), link(|old(sent)|)))
        && change == if may then Asking(false, Signal.Suspend, stream, link(|old(sent)|)) else Same
      ensures old(Unmarked()) ==> Unmarked()
    {
      hide Good, Changed, Possible;
      ok, change := false, Same;
      WhenSame(View());
      if stream !in streams { return; }
      if stream.lsep.state == Idle || stream.lsep.state == Configured || stream.lsep.state == Opened
         || stream.closeInt {
        return;
      }
      WhenAsking(View(), false, Signal.Suspend, stream, link(|sent|));
      if !stream.abortInt { change := Asking(false, Signal.Suspend, stream, link(|sent|)); }
      ok := SendRequest(false, Some(stream), Suspend, stream.rseid);
    }

    // avdtp_get_configuration
    method GetConfigurationRequest(stream: Stream) returns (ok: bool, ghost change: Change)
      requires Valid() && stream in streams
      modifies this`req, this`armed, this`collided, this`prioQueue, this`reqQueue, this`sent
      ensures Valid() && Made(change) && ok == (!stream.abortInt && Accepts(old(Queue()), link(|old(sent)|)))
      ensures change
        == if stream.abortInt then Same else Asking(false, Signal.GetConfiguration, stream, link(|old(sent)|))
      ensures old(Unmarked()) ==> Unmarked()
    {
      hide Good, Changed, Possible;
      change := Same;
      WhenSame(View());
      WhenAsking(View(), false, Signal.GetConfiguration, stream, link(|sent|));
      if !stream.abortInt { change := Asking(false, Signal.GetConfiguration, stream, link(|sent|)); }
      ok := SendRequest(false, Some(stream), GetConfiguration, stream.rseid);
    }

    // avdtp_set_configuration. It does not look whether the end point is free.
    method SetConfigurationRequest(rseid: byte, lsep: LocalSep, caps: seq<Cap>)
      returns (stream: Stream, ok: bool, ghost change: Change)
      requires Valid() && lsep in lseps && rseid in seps
      modifies this`streams, this`req, this`armed, this`collided, this`prioQueue, this`reqQueue, this`seps, this`sent
      modifies lsep
      ensures change == Configures(lsep, stream, link(|old(sent)|)) && Made(change)
      ensures Valid() <==> old(lsep.stream.None?)
      ensures fresh(stream) && stream.lsep == lsep && stream.rseid == rseid
      ensures ok == Accepts(old(Queue()), link(|old(sent)|))
      ensures stream.caps == caps + (if stream.delayReporting then [Cap(DELAY_REPORTING, [])] else [])
      ensures stream.delayReporting == (old(seps[rseid]).delayReporting && lsep.delayReporting)
      ensures old(Unmarked()) ==> Unmarked()
    {
      hide Good, Places, Forget, Requested, Changed, Possible, Detached, Taken;
      var reports := seps[rseid].delayReporting && lsep.delayReporting;
      var all: seq<Cap> := if reports then caps + [Cap(DELAY_REPORTING, [])] else caps;
      PlaceOf(lsep);
      ghost var v := View();
      stream := NewStream(lsep, rseid, all, reports);
      change := Configures(lsep, stream, link(|sent|));
      ConfiguringNeedsAFreeEndPoint(v, lsep, stream, link(|sent|));
      WhenConfiguring(v, lsep, stream, link(|sent|));
      NotSent(v, false, PendingReq(SetConfiguration, rseid, Some(stream)));
      ok := SendRequest(false, Some(stream), SetConfiguration, rseid);
      if !ok {
        StreamFree(stream);
      } else {
        Take(stream);
      }
    }

    // ------------------------------------------------- the peer's commands

    // avdtp_check_collision
    method CheckCollision(cmd: Signal, stream: Stream)
      modifies this`collided
      ensures collided == (old(collided) || Collides(req, cmd, stream.rseid)) && View() == old(View())
    {
      if req.None? || (req.value.signal != cmd && cmd != Abort) { return; }
      var signal := if cmd == Abort then req.value.signal else cmd;
      if signal.Open? || signal.Close? || signal.Start? || signal.Suspend? {
        if req.value.seid == stream.rseid { collided := true; }
      }
    }

    // The report it will make when its configuration is accepted now.
    function LateReport(stream: Stream): Option<bool>
      reads this`version, this`sent, stream
    {
      if version >= 0x0103 && !stream.abortInt then ReportOf(Some(stream), link(|sent| + 1)) else None
    }

    // setconf_cb: the stream is attached once the answer is on its way. It does
    // not look whether the end point is still free.
    method SetconfCb(stream: Stream, err: Option<byte>) returns (ghost change: Change)
      requires Valid() && stream !in streams && stream.lsep in lseps
      modifies this`streams, this`req, this`armed, this`collided, this`prioQueue, this`reqQueue, this`seps, this`sent
      modifies stream.lsep, stream
      ensures Made(change)
      ensures change == if err.Some? then Same
        else AnswersLate(stream.lsep, stream, link(|old(sent)|), old(LateReport(stream)))
      ensures old(LateReport(stream))
        == if stream.lsep.sink && stream.delayReporting && old(version) >= 0x0103 && old(!stream.abortInt)
           then Some(link(|old(sent)| + 1)) else None
      ensures Valid() <==> err.Some? || old(stream.lsep.stream.None?)
      ensures forall s :: s in streams ==> s in old(streams) || s == stream
      ensures stream.lsep in old(View()).places
      ensures View() == if err.Some? then old(View())
        else SettledLate(old(View()), stream.lsep, stream, link(|old(sent)|), old(LateReport(stream)))
      ensures |old(sent)| < |sent| && sent[|old(sent)|] == (if err.Some?
        then Out(Rejected, SetConfiguration, UNSUPPORTED_CONFIGURATION)
        else Out(Accepted, SetConfiguration, 0))
      ensures sent[..|old(sent)|] == old(sent)
      ensures err.Some? || !stream.lsep.sink ==> |sent| == |old(sent)| + 1
      ensures old(req.Some?) || err.Some? ==> collided == old(collided)
      ensures old(req.None?) && req.Some? ==> !collided
      ensures old(Unmarked()) ==> Unmarked()
    {
      hide Good, Places, Forget, Changed, Possible, Detached, MovedTo, Taken;
      PlaceOf(stream.lsep);
      ghost var v, report := View(), LateReport(stream);
      WhenSame(v);
      if err.Some? {
        change := Same;
        var _ := Send(Rejected, SetConfiguration, UNSUPPORTED_CONFIGURATION);
        return;
      }
      WhenLate(v, stream.lsep, stream, link(|sent|), report);
      change := AnswersLate(stream.lsep, stream, link(|sent|), report);
      var ok := Send(Accepted, SetConfiguration, 0);
      if !ok {
        StreamFree(stream);
        return;
      }
      AttachConfigured(stream);
    }

    method AttachConfigured(stream: Stream)
      requires stream.lsep in lseps
      modifies this`streams, this`req, this`armed, this`collided, this`prioQueue, this`reqQueue, this`sent
      modifies stream.lsep, stream
      ensures stream.lsep in old(View()).places && stream.lsep in Taken(old(View()), stream.lsep, stream).places
      ensures View() == MovedTo(Taken(old(View()), stream.lsep, stream), stream.lsep, Configured,
        if version >= 0x0103 && !old(stream.abortInt) then ReportOf(Some(stream), link(|old(sent)|)) else None)
      ensures !stream.lsep.sink ==> sent == old(sent)
      ensures |old(sent)| <= |sent| && sent[..|old(sent)|] == old(sent)
      ensures old(req.Some?) ==> collided == old(collided)
      ensures old(req.None?) && req.Some? ==> !collided
    {
      hide Good, Places, MovedTo;
      Attach(stream);
      SetState(stream.lsep, Configured);
    }

    // avdtp_open_cmd
    method OpenCmd(payload: seq<byte>, app: Option<byte>) returns (ok: bool)
      requires Valid()
      modifies this`pendingOpen, this`collided, this`sent, set s | s in streams
      ensures Valid()
      ensures |payload| < 1 ==> !ok && View() == old(View()) && sent == old(sent) && collided == old(collided)
      ensures |payload| >= 1 ==>
        var v, p := old(View()), EndAt(lseps, payload[0]);
        var error := OpenError(v.places, p, app);
        && ok == link(|old(sent)|)
        && (error.Some? ==>
             && sent == old(sent) + [Out(Rejected, Open, error.value)]
             && View() == v && collided == old(collided))
        && (error.None? ==>
             && p.Some? && p.value in v.places && v.places[p.value].stream.Some?
             && v.places[p.value].stream.value in v.streams
             && sent == old(sent) + [Out(Accepted, Open, 0)]
             && collided == (old(collided) || Collides(old(req), Open, v.places[p.value].stream.value.rseid))
             && (ok ==> v.places[p.value].stream.value.openAcp && TimerStarted(v.places[p.value].stream.value))
             && View() == if ok then v.(pendingOpen := v.places[p.value].stream) else v)
    {
      hide Good, Places;
      if |payload| < 1 { return false; }
      var p := FirstWithSeid(lseps, payload[0] / 4);
      var error := None;
      if p.None? {
        error := Some(BAD_ACP_SEID);
      } else {
        StreamOf(p.value);
        error := if p.value.state != Configured then Some(BAD_STATE) else app;
      }
      if error.Some? {
        ok := Send(Rejected, Open, error.value);
        return;
      }
      var stream := p.value.stream.value;
      CheckCollision(Open, stream);
      ok := Send(Accepted, Open, 0);
      if !ok { return; }
      PendingOpenGood(View(), stream);
      AwaitTransport(stream);
    }

    // A timer was started; if one was running, its number is lost.
    twostate predicate TimerStarted(s: Stream)
      reads s
    {
      s.timer && s.stale == old(s.stale) + if old(s.timer) then 1 else 0
    }

    // A timer fired, the one known or another; none is known any more.
    twostate predicate TimerFired(s: Stream, late: bool)
      reads s
    {
      !s.timer && s.stale == old(if late && !s.timer && s.stale > 0 then s.stale - 1 else s.stale)
    }

    method AwaitTransport(stream: Stream)
      modifies stream, this`pendingOpen
      ensures View() == old(View()).(pendingOpen := Some(stream)) && stream.openAcp && TimerStarted(stream)
    {
      if stream.timer { stream.stale := stream.stale + 1; }
      stream.openAcp, stream.timer := true, true;
      pendingOpen := Some(stream);
    }

    // avdtp_close_cmd
    method CloseCmd(payload: seq<byte>, app: Option<byte>) returns (ok: bool)
      requires Valid()
      modifies this`req, this`armed, this`collided, this`prioQueue, this`reqQueue, this`sent
      modifies Ends(lseps), set s | s in streams
      ensures Valid()
      ensures |payload| < 1 ==> !ok && View() == old(View()) && sent == old(sent) && collided == old(collided)
      ensures |payload| >= 1 ==>
        var v, p := old(View()), EndAt(lseps, payload[0]);
        var error := CloseError(v.places, p, app);
        && ok == link(|old(sent)|)
        && (error.Some? ==>
             && sent == old(sent) + [Out(Rejected, Close, error.value)]
             && View() == v && collided == old(collided))
        && (error.None? ==>
             && p.Some? && p.value in v.places && v.places[p.value].stream.Some?
             && sent == old(sent) + [Out(Accepted, Close, 0)]
             && collided == (old(collided) || Collides(old(req), Close, v.places[p.value].stream.value.rseid))
             && (ok ==> TimerStarted(v.places[p.value].stream.value))
             && View() == Moved(v, p.value, Closing))
    {
      hide Good, Moved, Places;
      if |payload| < 1 { return false; }
      var p := FirstWithSeid(lseps, payload[0] / 4);
      var error := None;
      if p.Some? { StreamOf(p.value); }
      if p.None? || p.value.stream.None? {
        error := Some(BAD_ACP_SEID);
      } else {
        error := if p.value.state != Opened && p.value.state != Streaming then Some(BAD_STATE) else app;
      }
      if error.Some? {
        ok := Send(Rejected, Close, error.value);
        return;
      }
      var stream := p.value.stream.value;
      CheckCollision(Close, stream);
      SetState(p.value, Closing);
      ok := Send(Accepted, Close, 0);
      if ok { WaitForPeer(stream); }
    }

    method WaitForPeer(stream: Stream)
      modifies stream
      ensures View() == old(View()) && TimerStarted(stream)
    {
      if stream.timer { stream.stale := stream.stale + 1; }
      stream.timer := true;
    }

    // avdtp_abort_cmd: an unknown or free end point gets no answer at all.
    method AbortCmd(payload: seq<byte>) returns (ok: bool)
      requires Valid()
      modifies this`req, this`armed, this`collided, this`prioQueue, this`reqQueue, this`sent
      modifies Ends(lseps), set s | s in streams
      ensures Valid()
      ensures |payload| < 1 ==> !ok && View() == old(View()) && sent == old(sent) && collided == old(collided)
      ensures |payload| >= 1 ==>
        var v, p := old(View()), EndAt(lseps, payload[0]);
        if p.None? || p.value !in v.places || v.places[p.value].stream.None? then
          ok && View() == v && sent == old(sent) && collided == old(collided)
        else
          && ok == link(|old(sent)|) && sent == old(sent) + [Out(Accepted, Abort, 0)]
          && collided == (old(collided) || Collides(old(req), Abort, v.places[p.value].stream.value.rseid))
          && View() == if ok then Moved(v, p.value, Aborting) else v
    {
      hide Good, Moved, Places;
      if |payload| < 1 { return false; }
      var p := FirstWithSeid(lseps, payload[0] / 4);
      if p.Some? { StreamOf(p.value); }
      if p.None? || p.value.stream.None? { return true; }
      CheckCollision(Abort, p.value.stream.value);
      ok := Send(Accepted, Abort, 0);
      if ok { SetState(p.value, Aborting); }
    }

    method SetDelay(stream: Stream, delay: nat)
      modifies stream
      ensures View() == old(View()) && stream.delay == delay
    {
      stream.delay := delay;
    }

    // avdtp_delayreport_cmd
    method DelayReportCmd(payload: seq<byte>, app: Option<byte>) returns (ok: bool)
      requires Valid()
      modifies this`sent, set s | s in streams
      ensures Valid() && View() == old(View())
      ensures |payload| < 3 ==> !ok && sent == old(sent)
      ensures |payload| >= 3 ==>
        var p := EndAt(lseps, payload[0]);
        var error := DelayError(View().places, p, app);
        && ok == link(|old(sent)|)
        && (error.Some? ==> sent == old(sent) + [Out(Rejected, Signal.DelayReport, error.value)])
        && (error.None? ==>
             && sent == old(sent) + [Out(Accepted, Signal.DelayReport, 0)]
             && p.value.stream.Some?
             && var high: int, low: int := payload[1], payload[2];
                p.value.stream.value.delay == 256 * high + low)
    {
      hide Good, Places;
      if |payload| < 3 { return false; }
      var p := FirstWithSeid(lseps, payload[0] / 4);
      var error := None;
      if p.Some? { StreamOf(p.value); }
      if p.None? || p.value.stream.None? {
        error := Some(BAD_ACP_SEID);
      } else if p.value.state == Idle || p.value.state == Aborting || p.value.state == Closing {
        error := Some(BAD_STATE);
      } else {
        SetDelay(p.value.stream.value, Ntohs(payload[1], payload[2]));
        error := app;
      }
      if error.Some? {
        ok := Send(Rejected, Signal.DelayReport, error.value);
      } else {
        ok := Send(Accepted, Signal.DelayReport, 0);
      }
    }

    // The loop of avdtp_start_cmd and avdtp_suspend_cmd over the end points.
    method Walk(ids: seq<byte>, from: State, to: State, signal: Signal, app: nat -> Option<byte>)
      returns (failure: Option<(byte, byte)>)
      requires Valid() && from != Idle && to != Idle && to != Configured
      modifies this`req, this`armed, this`collided, this`prioQueue, this`reqQueue, this`sent
      modifies Ends(lseps), set s | s in streams
      ensures Valid() && sent == old(sent)
      ensures var places := old(View()).places;
        var walked := Walked(places, lseps, ids, from, to, app, 0);
        && View() == old(View()).(places := walked.0) && failure == walked.1
        && collided == (old(collided)
             || AnyCollides(old(req), signal, WalkedStreams(places, lseps, ids, from, to, app, 0)))
        && (signal.Start? && to == Streaming ==>
             Starting(old(streams), WalkedStreams(places, lseps, ids, from, to, app, 0)
                                    + RefusedStream(walked.0, lseps, failure, from)))
    {
      hide Good, Places, Collides, AnyCollides, Walked, WalkedStreams, Refusal, EndAt, OnWalk;
      ghost var v, went, marked := View(), [], collided;
      failure := None;
      NoneCollides(req, signal);
      WalkStarts(v, lseps, ids, from, to, app);
      for i := 0 to |ids|
        invariant Valid() && sent == old(sent) && failure.None? && req == old(req)
        invariant OnWalk(v, View(), went, lseps, ids, from, to, app, i)
        invariant collided == (marked || AnyCollides(req, signal, went)) && streams == old(streams)
        invariant signal.Start? && to == Streaming ==> Starting(streams, went)
      {
        WalkGoesOn(v, View(), went, lseps, ids, from, to, app, i);
        OnlyPlaces(v, View(), went, lseps, ids, from, to, app, i);
        ghost var p := EndAt(lseps, ids[i]);
        ghost var w := View();
        Reaching(w.places, lseps, ids[i], from, app(i));
        assert went + [] == went;
        failure := WalkOne(ids[i], from, to, signal, app(i));
        if failure.Some? { break; }
        OneMoreCollides(req, signal, went, w.places[p.value].stream.value);
        went := went + [w.places[p.value].stream.value];
      }
      if failure.None? {
        WalkEnds(v, View(), went, lseps, ids, from, to, app);
        assert went + [] == went;
      }
    }

    method WalkOne(octet: byte, from: State, to: State, signal: Signal, app: Option<byte>)
      returns (failure: Option<(byte, byte)>)
      requires Valid() && from != Idle && to != Idle && to != Configured
      modifies this`req, this`armed, this`collided, this`prioQueue, this`reqQueue, this`sent
      modifies Ends(lseps), set s | s in streams
      ensures Valid() && sent == old(sent) && req == old(req) && streams == old(streams)
      ensures signal.Start? && to == Streaming ==>
        Starting(streams, ReachedStream(old(View()).places, lseps, octet, from))
      ensures var v := old(View());
        var p, why := EndAt(lseps, octet), Refusal(v.places, lseps, octet, from, app);
        if why.Some? then View() == v && failure == Some((octet / 4, why.value)) && collided == old(collided)
        else
          && p.Some? && p.value in v.places && v.places[p.value].stream.Some? && failure.None?
          && View() == v.(places := v.places[p.value := v.places[p.value].(state := to)])
          && collided == (old(collided) || Collides(old(req), signal, v.places[p.value].stream.value.rseid))
    {
      hide Good, Places, Collides;
      var id := octet / 4;
      var p := FirstWithSeid(lseps, id);
      if p.Some? { StreamOf(p.value); }
      if p.None? || p.value.stream.None? {
        failure := Some((id, BAD_ACP_SEID));
      } else if p.value.state != from {
        failure := Some((id, BAD_STATE));
      } else {
        failure := AskToGo(p.value, to, signal, app);
      }
    }

    // The application is asked; it may refuse with an error of its own.
    method AskToGo(sep: LocalSep, to: State, signal: Signal, app: Option<byte>) returns (failure: Option<(byte, byte)>)
      requires Valid() && sep in lseps && sep.stream.Some? && to != Idle && to != Configured
      modifies this`req, this`armed, this`collided, this`prioQueue, this`reqQueue, this`sent
      modifies sep, if sep.stream.Some? then {sep.stream.value} else {}
      ensures Valid() && sent == old(sent) && req == old(req) && streams == old(streams) && sep in old(View()).places
      ensures failure == if app.Some? then Some((sep.seid, app.value)) else None
      ensures signal.Start? && to == Streaming ==> Starting(streams, [old(sep.stream).value])
      ensures var v := old(View());
        if app.Some? then View() == v && collided == old(collided)
        else
          && View() == v.(places := v.places[sep := v.places[sep].(state := to)])
          && collided == (old(collided) || Collides(old(req), signal, old(sep.stream).value.rseid))
    {
      hide Good, Places, Collides;
      StreamOf(sep);
      if signal.Start? { MarkStarting(sep.stream.value); }
      if app.Some? { return Some((sep.seid, app.value)); }
      LetGo(sep, to, signal);
      failure := None;
    }

    // The streams marked as starting.
    twostate predicate Starting(all: seq<Stream>, new marked: seq<Stream>)
      reads set s | s in all
    {
      forall s :: s in all ==> s.starting == (old(s.starting) || s in marked)
    }

    method LetGo(sep: LocalSep, to: State, signal: Signal)
      requires Valid() && sep in lseps && sep.stream.Some? && to != Idle && to != Configured
      modifies this`req, this`armed, this`collided, this`prioQueue, this`reqQueue, this`sent
      modifies sep, if sep.stream.Some? then {sep.stream.value} else {}
      ensures Valid() && sent == old(sent) && req == old(req) && sep in old(View()).places
      ensures View() == old(View()).(places := old(View()).places[sep := old(View()).places[sep].(state := to)])
      ensures collided == (old(collided) || Collides(old(req), signal, old(sep.stream).value.rseid))
      ensures to == Streaming ==> old(sep.stream).value.starting == old(sep.stream.value.starting)
    {
      hide Good, Places, Collides, Requested;
      StreamOf(sep);
      CheckCollision(signal, sep.stream.value);
      SetState(sep, to);
    }

    method MarkStarting(stream: Stream)
      modifies stream
      ensures View() == old(View()) && stream.starting
    {
      stream.starting := true;
    }

    // avdtp_start_cmd
    method StartCmd(payload: seq<byte>, app: nat -> Option<byte>) returns (ok: bool)
      requires Valid()
      modifies this`req, this`armed, this`collided, this`prioQueue, this`reqQueue, this`sent
      modifies Ends(lseps), set s | s in streams
      ensures Valid()
      ensures |payload| < 1 ==> !ok && View() == old(View()) && sent == old(sent) && collided == old(collided)
      ensures |payload| >= 1 ==>
        var v := old(View());
        var walked := Walked(v.places, lseps, payload, Opened, Streaming, app, 0);
        && ok == link(|old(sent)|) && View() == v.(places := walked.0)
        && collided == (old(collided)
             || AnyCollides(old(req), Start, WalkedStreams(v.places, lseps, payload, Opened, Streaming, app, 0)))
        && sent == old(sent)
             + [if walked.1.Some? then Out(Rejected, Start, walked.1.value.1) else Out(Accepted, Start, 0)]
        && forall s :: s in old(streams) ==>
             s.starting == (old(s.starting) || s in WalkedStreams(v.places, lseps, payload, Opened, Streaming, app, 0)
                            || s in RefusedStream(walked.0, lseps, walked.1, Opened))
    {
      hide Good, Places, Walked, WalkedStreams, AnyCollides;
      if |payload| < 1 { return false; }
      var failure := Walk(payload, Opened, Streaming, Start, app);
      if failure.Some? {
        ok := Send(Rejected, Start, failure.value.1);
      } else {
        ok := Send(Accepted, Start, 0);
      }
    }

    // avdtp_suspend_cmd
    method SuspendCmd(payload: seq<byte>, app: nat -> Option<byte>) returns (ok: bool)
      requires Valid()
      modifies this`req, this`armed, this`collided, this`prioQueue, this`reqQueue, this`sent
      modifies Ends(lseps), set s | s in streams
      ensures Valid()
      ensures |payload| < 1 ==> !ok && View() == old(View()) && sent == old(sent) && collided == old(collided)
      ensures |payload| >= 1 ==>
        var v := old(View());
        var walked := Walked(v.places, lseps, payload, Streaming, Opened, app, 0);
        && ok == link(|old(sent)|) && View() == v.(places := walked.0)
        && collided == (old(collided)
             || AnyCollides(old(req), Suspend, WalkedStreams(v.places, lseps, payload, Streaming, Opened, app, 0)))
        && sent == old(sent)
             + [if walked.1.Some? then Out(Rejected, Suspend, walked.1.value.1) else Out(Accepted, Suspend, 0)]
    {
      hide Good, Places, Walked, WalkedStreams, AnyCollides;
      if |payload| < 1 { return false; }
      var failure := Walk(payload, Streaming, Opened, Suspend, app);
      if failure.Some? {
        ok := Send(Rejected, Suspend, failure.value.1);
      } else {
        ok := Send(Accepted, Suspend, 0);
      }
    }

    // What a configuration command comes to, for the stream made for it; one
    // the application answers later is handed out waiting.
    ghost predicate ConfDone(v: Shot, n: nat, u: Shot, said: seq<Out>, payload: seq<byte>, answer: ConfAnswer, ok: bool,
                             stream: Option<Stream>)
      requires |payload| >= 2
    {
      var p, caps := EndAt(lseps, payload[0]), ReadAll(payload[2..]).0;
      var error := ConfError(v.places, p, caps, answer);
      var effect := ConfEffect(v, lseps, payload, answer, link(n), stream, ReportOf(stream, link(n + 1)));
      && EffectReady(v, effect) && u == Effected(v, effect)
      && ok == ConfLives(v, lseps, payload, answer, link(n))
      && (stream.Some? <==> error.None?)
      && (stream.Some? ==>
           && p == Some(stream.value.lsep) && stream.value.rseid == payload[1] / 4 && stream.value.caps == caps
           && stream.value.delayReporting == ListsDelay(caps))
      && (error.None? && answer.Later? ==> |said| == n)
      && (error.Some? || !answer.Later? ==>
           && |said| > n && (stream.None? || !stream.value.lsep.sink ==> |said| == n + 1)
           && said[n] == (if error.Some? then Out(Rejected, SetConfiguration, error.value)
                          else Out(Accepted, SetConfiguration, 0)))
    }

    // avdtp_setconf_cmd
    method SetconfCmd(payload: seq<byte>, answer: ConfAnswer)
      returns (ok: bool, stream: Option<Stream>)
      requires Valid()
      modifies this`streams, this`req, this`armed, this`collided, this`prioQueue, this`reqQueue, this`seps, this`sent
      modifies this`version, Ends(lseps)
      ensures Valid()
      ensures forall s :: s in streams ==> s in old(streams) || fresh(s)
      ensures stream.Some? ==> fresh(stream.value)
      ensures |payload| < 2 ==>
        !ok && View() == old(View()) && sent == old(sent) && collided == old(collided) && stream.None?
      ensures |payload| >= 2 ==> ConfDone(old(View()), |old(sent)|, View(), sent, payload, answer, ok, stream)
      ensures |old(sent)| <= |sent| && sent[..|old(sent)|] == old(sent)
      ensures |payload| >= 2 ==>
        var caps := ReadAll(payload[2..]).0;
        var error := ConfError(old(View()).places, EndAt(lseps, payload[0]), caps, answer);
        && (stream.Some? ==> stream.value.caps == caps && stream.value.delayReporting == ListsDelay(caps))
        && (if error == None && answer == Later then |sent| == |old(sent)|
            else |sent| > |old(sent)| && sent[|old(sent)|] ==
                   if error.Some? then Out(Rejected, SetConfiguration, error.value)
                   else Out(Accepted, SetConfiguration, 0))
      ensures old(req.Some?) || stream.None? ==> collided == old(collided)
      ensures old(req.None?) && req.Some? ==> !collided
      ensures |payload| >= 2 ==>
        var p := EndAt(lseps, payload[0]);
        version == if p.Some? && old(p.value.stream.None?) then Raised(old(version), ReadAll(payload[2..]).0)
          else old(version)
    {
      hide Good, Places, Forget, ReadAll, Raised, MovedTo, Taken;
      stream := None;
      if |payload| < 2 { return false, None; }
      var p := FirstWithSeid(lseps, payload[0] / 4);
      if p.None? {
        ok := Send(Rejected, SetConfiguration, BAD_ACP_SEID);
        return;
      }
      var sep := p.value;
      StreamOf(sep);
      if sep.stream.Some? {
        ok := Send(Rejected, SetConfiguration, SEP_IN_USE);
        return;
      }
      ok, stream := ConfigureFree(sep, payload, answer);
    }

    // The end point is free: a stream is made for it, and thrown away again if
    // the configuration does not hold.
    method ConfigureFree(sep: LocalSep, payload: seq<byte>, answer: ConfAnswer)
      returns (ok: bool, stream: Option<Stream>)
      requires Valid() && |payload| >= 2 && sep in lseps && sep.stream.None? && EndAt(lseps, payload[0]) == Some(sep)
      modifies this`streams, this`req, this`armed, this`collided, this`prioQueue, this`reqQueue, this`seps, this`sent
      modifies this`version, Ends(lseps)
      ensures Valid()
      ensures forall s :: s in streams ==> s in old(streams) || fresh(s)
      ensures stream.Some? ==> fresh(stream.value)
      ensures ConfDone(old(View()), |old(sent)|, View(), sent, payload, answer, ok, stream)
      ensures |old(sent)| <= |sent| && sent[..|old(sent)|] == old(sent)
      ensures old(req.Some?) || stream.None? ==> collided == old(collided)
      ensures old(req.None?) && req.Some? ==> !collided
      ensures version == Raised(old(version), ReadAll(payload[2..]).0)
    {
      hide Good, Places, ReadAll, BadTransport, ListsDelay, ConfError, ConfEffect, ConfLives, Effected, EffectReady;
      PlaceOf(sep);
      var caps, _, reports := CapsToList(payload[2..], None);
      var made := NewStream(sep, payload[1] / 4, caps, reports);
      var bad := HasBadTransport(caps);
      if reports && !bad { RaiseVersion(); }
      if bad || answer.Refuses? {
        ok := TurnDown(made, payload, answer, bad);
        stream := None;
        return;
      }
      ok, stream := AskApplication(made, payload, answer);
    }

    method TurnDown(made: Stream, payload: seq<byte>, answer: ConfAnswer, bad: bool) returns (ok: bool)
      requires Valid() && made.lsep in lseps && made.lsep.stream.None?
      requires |payload| >= 2 && EndAt(lseps, payload[0]) == Some(made.lsep) && made.rseid == payload[1] / 4
      requires bad == BadTransport(ReadAll(payload[2..]).0) && (bad || answer.Refuses?)
      modifies this`seps, this`sent, made.lsep, made
      ensures Valid() && ConfDone(old(View()), |old(sent)|, View(), sent, payload, answer, ok, None)
      ensures |old(sent)| <= |sent| && sent[..|old(sent)|] == old(sent)
    {
      hide Good, Places, Forget, ReadAll, BadTransport, ListsDelay, Detached;
      hide ConfError, ConfEffect, ConfLives, Effected, EffectReady;
      PlaceOf(made.lsep);
      ghost var v := View();
      DetachedFree(v, made.lsep, made);
      ForgetsGood(v, made.rseid);
      ConfTurnedDown(v, lseps, payload, answer, made.lsep, link(|sent|), None);
      StreamFree(made);
      ok := Send(Rejected, SetConfiguration, if bad then BAD_MEDIA_TRANSPORT else UNSUPPORTED_CONFIGURATION);
    }

    // The application accepts, refuses, or keeps the stream and answers later.
    method AskApplication(made: Stream, payload: seq<byte>, answer: ConfAnswer)
      returns (ok: bool, stream: Option<Stream>)
      requires Valid() && made !in streams && made.lsep in lseps && made.lsep.stream.None?
      requires |payload| >= 2 && EndAt(lseps, payload[0]) == Some(made.lsep)
      requires made.rseid == payload[1] / 4 && made.caps == ReadAll(payload[2..]).0 && !BadTransport(made.caps)
      requires made.delayReporting == ListsDelay(made.caps) && (made.delayReporting ==> version >= 0x0103)
      requires !answer.Refuses? && !made.abortInt
      modifies this`streams, this`req, this`armed, this`collided, this`prioQueue, this`reqQueue, this`seps, this`sent
      modifies made.lsep, made
      ensures Valid()
      ensures forall s :: s in streams ==> s in old(streams) || s == made
      ensures stream.Some? ==> stream.value == made
      ensures ConfDone(old(View()), |old(sent)|, View(), sent, payload, answer, ok, stream)
      ensures |old(sent)| <= |sent| && sent[..|old(sent)|] == old(sent)
      ensures old(req.Some?) || stream.None? ==> collided == old(collided)
      ensures old(req.None?) && req.Some? ==> !collided
    {
      hide Good, Places, Forget, ReadAll, BadTransport, ListsDelay, Detached, Changed, Possible;
      hide ConfError, ConfEffect, ConfLives, Effected, EffectReady, SettledLate;
      PlaceOf(made.lsep);
      ghost var v := View();
      stream := if answer.Answers? && answer.err.Some? then None else Some(made);
      ConfAnswered(v, lseps, payload, answer, made.lsep, link(|sent|), made, ReportOf(stream, link(|sent| + 1)));
      match answer
      case NoHandler =>
        ok := link(|sent|);
        var _ := SetconfCb(made, None);
      case Answers(err) =>
        var _ := SetconfCb(made, err);
        ok := true;
      case Later => ok := true;
    }

    method HasBadTransport(caps: seq<Cap>) returns (bad: bool)
      ensures bad == BadTransport(caps)
    {
      for i := 0 to |caps|
        invariant forall j :: 0 <= j < i ==> !(caps[j].category == MEDIA_TRANSPORT && |caps[j].data| != 0)
      {
        if caps[i].category == MEDIA_TRANSPORT && |caps[i].data| != 0 { return true; }
      }
      bad := false;
    }

    method RaiseVersion()
      modifies this`version
      ensures View() == old(View()) && version == (if old(version) < 0x0103 then 0x0103 else old(version))
    {
      if version < 0x0103 { version := 0x0103; }
    }

    // -------------------------------------------------- the peer's answers

    // One end point of a DISCOVER answer is noted and asked about.
    method NoteSep(id: byte, cmd: Signal)
      requires req.Some?
      modifies this`prioQueue, this`reqQueue, this`req, this`armed, this`collided, this`sent, this`seps
      ensures View() == Noted(old(View()), id, cmd) && sent == old(sent) && collided == old(collided)
    {
      if id !in seps { seps := seps[id := RemoteSep(None, [], false)]; }
      seps := seps[id := seps[id].(stream := FirstWithRseid(streams, id))];
      var _ := SendRequest(true, None, cmd, id);
    }

    // avdtp_discover_resp: one capability request for each end point worth it.
    method DiscoverResp(payload: seq<byte>)
      requires Valid() && req.Some?
      modifies this`prioQueue, this`reqQueue, this`req, this`armed, this`collided, this`sent, this`seps
      modifies this`discover, this`ended, this`idles
      ensures Valid() && sent == old(sent)
      ensures View() == Discovering(old(View()), Queries(Infos(payload), old(seps).Keys, Rseids(streams)),
                                    CapsCommand(version))
    {
      hide Good, Places, NotedAll, Queries, Infos, Finished;
      ghost var v := View();
      var queries := AskEach(Infos(payload), CapsCommand(version));
      DiscoveringGood(v, queries, CapsCommand(version));
      if queries == [] {
        NotedNothing(v, CapsCommand(version));
        SourceOfGood(v);
        FinalizeDiscovery();
      }
    }

    method AskEach(infos: seq<SeidInfo>, cmd: Signal) returns (queries: seq<byte>)
      requires req.Some?
      modifies this`prioQueue, this`reqQueue, this`req, this`armed, this`collided, this`sent, this`seps
      ensures sent == old(sent) && View() == NotedAll(old(View()), queries, cmd)
      ensures queries == Queries(infos, old(seps).Keys, Rseids(streams))
    {
      hide Places, Queries, Noted, NotedAll, Rseids, FirstWithRseid;
      ghost var v, known := View(), seps.Keys;
      ghost var attached := Rseids(streams);
      queries := [];
      NotedNothing(v, cmd);
      assert infos[0..] == infos && [] + Queries(infos, known, attached) == Queries(infos, known, attached);
      for i := 0 to |infos|
        invariant known == seps.Keys && sent == old(sent) && req.Some?
        invariant View() == NotedAll(v, queries, cmd)
        invariant queries + Queries(infos[i..], known, attached) == Queries(infos, v.seps.Keys, attached)
      {
        var id := infos[i].seid;
        QueriesNext(infos, i, known, streams);
        if id !in seps && infos[i].inuse && FirstWithRseid(streams, id).None? { continue; }
        AppendOne(queries, id, Queries(infos[i + 1..], known + {id}, attached));
        NotedNext(v, queries, id, cmd);
        NotedKeys(View(), id, cmd);
        NoteSep(id, cmd);
        queries := queries + [id];
        known := known + {id};
      }
      NoMoreQueries(infos, known, attached);
    }

    // avdtp_get_capabilities_resp; the end point asked about is always known.
    method GetCapabilitiesResp(payload: seq<byte>) returns (ok: bool)
      requires Valid() && req.Some? && AsksCapabilities(req.value.signal)
      modifies this`seps
      ensures Valid() && ok == (|payload| >= 6) && req.value.seid in old(seps)
      ensures var caps := ReadAll(payload).0;
        View() == if ok then Filed(old(View()), req.value.seid, caps, ListsDelay(caps)) else old(View())
    {
      hide Good, TalkOf, ReadAll, ListsDelay;
      AskedIsKnown(View());
      if |payload| < 6 { return false; }
      var id := req.value.seid;
      var caps, _, reports := CapsToList(payload, None);
      FiledGood(View(), id, caps, reports);
      FileCaps(id, caps, reports);
      ok := true;
    }

    method FileCaps(id: byte, caps: seq<Cap>, reports: bool)
      requires id in seps
      modifies this`seps
      ensures View() == Filed(old(View()), id, caps, reports)
    {
      seps := seps[id := seps[id].(caps := caps, delayReporting := reports)];
    }

    // avdtp_parse_resp for the three signals of discovery.
    method DiscoveryResp(payload: seq<byte>) returns (ok: bool)
      requires Valid() && req.Some? && (AsksCapabilities(req.value.signal) || req.value.signal.Discover?)
      modifies this`prioQueue, this`reqQueue, this`req, this`armed, this`collided, this`sent, this`seps
      modifies this`discover, this`ended, this`idles
      ensures Valid() && sent == old(sent) && ok == (old(req).value.signal.Discover? || |payload| >= 6)
      ensures var v, r, caps := old(View()), old(req).value, ReadAll(payload).0;
        && (!r.signal.Discover? ==> r.seid in v.seps)
        && View() == (if !ok then v
                      else if r.signal.Discover?
                      then Discovering(v, Queries(Infos(payload), v.seps.Keys, Rseids(v.streams)), CapsCommand(version))
                      else Describing(v, r.seid, caps, ListsDelay(caps)))
    {
      hide Good, Places, ReadAll, ListsDelay, Discovering, Queries, Infos, Finished;
      if req.value.signal.Discover? {
        DiscoverResp(payload);
        return true;
      }
      var more := if prioQueue != [] then AsksCapabilities(prioQueue[0].signal)
        else reqQueue != [] && AsksCapabilities(reqQueue[0].signal);
      ok := GetCapabilitiesResp(payload);
      if ok && !more {
        FinishedGood(View());
        SourceOfGood(View());
        FinalizeDiscovery();
      }
    }

    // avdtp_parse_resp for a request about a stream.
    method StreamResp(signal: Signal, stream: Stream)
      requires Valid() && stream in streams && req.Some?
      modifies this`streams, this`pendingOpen, this`req, this`armed, this`collided, this`prioQueue, this`reqQueue
      modifies this`seps, this`sent, Ends(lseps), stream
      ensures forall s :: s in streams ==> s in old(streams)
      ensures sent == old(sent)
      ensures Valid() && stream.lsep in old(View()).places
      ensures View() == Accepting(old(View()), signal, stream, old(DueReport(stream.lsep)))
      ensures signal.Close? || signal.Abort? ==> !stream.io
    {
      hide Good, Places, WentIdle;
      Listed(stream);
      ghost var report := DueReport(stream.lsep);
      AcceptingGood(View(), signal, stream, report);
      var sep := stream.lsep;
      if signal.SetConfiguration? {
        SetState(sep, Configured);
      } else if signal.Open? {
        AwaitChannel(stream);
      } else if signal.Start? {
        if sep.state != Streaming { SetState(sep, Streaming); }
      } else if signal.Suspend? {
        SetState(sep, Opened);
      } else if signal.Close? {
        SetState(sep, Closing);
        CloseStream(stream);
      } else if signal.Abort? {
        EndAborted(sep);
      }
    }

    // avdtp_abort_resp
    method EndAborted(sep: LocalSep)
      requires Valid() && sep in lseps && sep.stream.Some?
      modifies this`streams, this`pendingOpen, this`req, this`armed, this`collided, this`prioQueue, this`reqQueue
      modifies this`seps, this`sent, sep, if sep.stream.Some? then {sep.stream.value} else {}
      ensures Valid() && sent == old(sent) && sep in old(View()).places
      ensures View() == WentIdle(Moved(old(View()), sep, Aborting), sep)
      ensures var s := old(sep.stream).value; !s.timer && !s.startTimer && !s.io && !s.watched
    {
      hide Good, Places, WentIdle;
      StreamOf(sep);
      SetState(sep, Aborting);
      PlaceOf(sep);
      GoIdle(sep);
    }

    method AwaitChannel(stream: Stream)
      modifies this`pendingOpen
      ensures View() == old(View()).(pendingOpen := Some(stream))
    {
      pendingOpen := Some(stream);
    }

    // close_stream
    method CloseStream(stream: Stream)
      modifies stream
      ensures View() == old(View()) && !stream.io
    {
      stream.io := false;
    }

    // avdtp_parse_resp: a stream that went away meanwhile is passed over.
    method ParseResp(payload: seq<byte>) returns (ok: bool, ghost report: Option<bool>)
      requires Valid() && req.Some? && !armed
      requires req.value.stream.Some? ==> req.value.stream.value in streams
      modifies this`streams, this`pendingOpen, this`req, this`armed, this`collided, this`prioQueue, this`reqQueue
      modifies this`seps, this`discover, this`ended, this`idles, this`sent, Ends(lseps), set s | s in streams
      ensures forall s :: s in streams ==> s in old(streams)
      ensures sent == old(sent) && ok == !TooShort(Accepted, old(req).value.signal, payload)
      ensures Valid() && old(Valid())
      ensures old(req).value.stream.Some? ==> report == old(DueReport(req.value.stream.value.lsep))
      ensures var v := old(View());
        var outcome := OnAcceptance(v, payload, version, report);
        if ok then OutcomeReady(v, outcome) && View() == OutcomeOf(v, outcome) else View() == v
    {
      hide Good, Places, ReadAll, ListsDelay, Discovering, Describing, Accepting, Queries, Infos;
      ok, report := true, None;
      if req.value.stream.Some? { report := DueReport(req.value.stream.value.lsep); }
      if AsksCapabilities(req.value.signal) || req.value.signal.Discover? {
        ok := DiscoveryResp(payload);
      } else if req.value.stream.Some? {
        StreamResp(req.value.signal, req.value.stream.value);
      }
    }

    // avdtp_parse_rej; a rejected ABORT ends the session, a rejected discovery
    // request ends the discovery. The callback is called without asking whether
    // it is set.
    method ParseRej(payload: seq<byte>, cfm: bool) returns (ok: bool)
      requires Valid() && req.Some?
      requires req.value.stream.Some? ==> req.value.stream.value in streams
      modifies this`discover, this`ended, this`nullCalls, set s | s in streams
      ensures Valid() && ok == !TooShort(Rejected, req.value.signal, payload)
      ensures View() == if ok && OnRejection(req.value.signal).Declines? then RejectedEnd(old(View())) else old(View())
      ensures ok && cfm && req.value.stream.Some? ==>
        var s := req.value.stream.value;
        && s.starting == (old(s.starting) && !req.value.signal.Start?)
        && s.closeInt == (old(s.closeInt) && !req.value.signal.Close?)
    {
      hide Good;
      var r := req.value;
      if |payload| < RejectionSize(r.signal) { return false; }
      match r.signal
      case Discover | GetCapabilities | GetAllCapabilities =>
        RejectedEndGood(View());
        EndRejected();
        ok := true;
      case Start | Close =>
        if r.stream.Some? && cfm { MarkRejected(r.stream.value, r.signal); }
        ok := true;
      case Abort => ok := false;
      case _ => ok := true;
    }

    method EndRejected()
      modifies this`discover, this`ended, this`nullCalls
      ensures View() == RejectedEnd(old(View()))
    {
      if discover.None? { return; }
      if discover.value.cb {
        ended := ended + [discover.value.number];
      } else {
        nullCalls := nullCalls + 1;
      }
      discover := None;
    }

    method MarkRejected(stream: Stream, signal: Signal)
      modifies stream
      ensures View() == old(View())
      ensures stream.starting == (old(stream.starting) && !signal.Start?)
      ensures stream.closeInt == (old(stream.closeInt) && signal.Start?)
    {
      if signal.Start? { stream.starting := false; } else { stream.closeInt := false; }
    }

    // What the application and the session answer to the commands that change
    // nothing: its end points, their capabilities and configurations.
    method ReadCmd(signal: Signal, payload: seq<byte>, app: Option<byte>) returns (ok: bool)
      modifies this`sent
      ensures View() == old(View())
      ensures ok == ((!signal.GetConfiguration? || |payload| >= 1) && link(|old(sent)|))
      ensures signal.GetConfiguration? && payload == [] ==> sent == old(sent)
      ensures !(signal.GetConfiguration? && payload == []) ==>
        && |sent| == |old(sent)| + 1 && sent[..|old(sent)|] == old(sent)
        && var p := if payload == [] then None else EndAt(lseps, payload[0]);
           sent[|old(sent)|] ==
             match signal
             case Discover => if lseps == [] then Out(Rejected, signal, 0x19) else Out(Accepted, signal, 0)
             case GetCapabilities | GetAllCapabilities =>
               if payload == [] then Out(Rejected, signal, 0x11)
               else if p == None then Out(Rejected, signal, 0x12)
               else if app.Some? then Out(Rejected, signal, app.value) else Out(Accepted, signal, 0)
             case GetConfiguration =>
               if p == None then Out(Rejected, signal, 0x12)
               else if p.value.stream == None || p.value.stream.value.caps == [] then Out(Rejected, signal, 0x29)
               else Out(Accepted, signal, 0)
             case Reconfigure => Out(Rejected, signal, 0x19)
             case _ => Out(GeneralReject, signal, 0)
    {
      var p := if |payload| >= 1 then FirstWithSeid(lseps, payload[0] / 4) else None;
      match signal
      case Discover =>
        if lseps == [] { ok := Send(Rejected, signal, NOT_SUPPORTED); } else { ok := Send(Accepted, signal, 0); }
      case GetCapabilities | GetAllCapabilities =>
        var error := if |payload| < 1 then Some(BAD_LENGTH) else if p.None? then Some(BAD_ACP_SEID) else app;
        if error.Some? { ok := Send(Rejected, signal, error.value); } else { ok := Send(Accepted, signal, 0); }
      case GetConfiguration =>
        if |payload| < 1 { return false; }
        if p.None? {
          ok := Send(Rejected, signal, BAD_ACP_SEID);
        } else if p.value.stream.None? || p.value.stream.value.caps == [] {
          ok := Send(Rejected, signal, UNSUPPORTED_CONFIGURATION);
        } else {
          ok := Send(Accepted, signal, 0);
        }
      case Reconfigure => ok := Send(Rejected, signal, NOT_SUPPORTED);
      case _ => ok := Send(GeneralReject, signal, 0);
    }

    // A command took its effect on v, which became u, and marked the outstanding
    // request if the two collide; n messages were sent before and m are now.
    ghost predicate Obeyed(v: Shot, n: nat, collided: bool, u: Shot, m: nat, marked: bool, signal: Signal,
                           payload: seq<byte>, answer: ConfAnswer, app: nat -> Option<byte>, ok: bool,
                           stream: Option<Stream>)
    {
      var effect := EffectOf(v, n, signal, payload, answer, app, stream);
      && EffectReady(v, effect) && u == Effected(v, effect)
      && ok == CommandLives(v, lseps, signal, payload, answer, link(n))
      && (v.q.outstanding.Some? ==> marked == (collided || CommandMarks(v, lseps, signal, payload, app)))
      && (v.q.outstanding.None? && u.q.outstanding.Some? ==> !marked)
      && (CommandMarks(v, lseps, signal, payload, app) ==> m == n + 1)
      && (Quiet(stream) ==> m == n + if answer.Later? then 0 else 1)
    }

    // A source is configured: nothing but the acceptance is said.
    predicate Quiet(stream: Option<Stream>) { stream.Some? && !stream.value.lsep.sink }

    lemma SaidOnce(v: Shot, n: nat, collided: bool, u: Shot, m: nat, marked: bool, signal: Signal,
                   payload: seq<byte>, answer: ConfAnswer, app: nat -> Option<byte>, ok: bool, stream: Option<Stream>)
      requires HandsOut(v, signal, payload, answer, stream)
      requires Obeyed(v, n, collided, u, m, marked, signal, payload, answer, app, ok, stream)
      ensures Quiet(stream) ==> u.q == v.q && m == n + if answer.Later? then 0 else 1
      ensures v.q.outstanding.None? && u.q.outstanding.Some? ==> !marked
    {
      hide ReadAll, EndAt, ConfError, CommandLives, CommandMarks;
    }

    lemma CommandStep(v: Shot, n: nat, collided: bool, u: Shot, m: nat, marked: bool, signal: Signal,
                      payload: seq<byte>, answer: ConfAnswer, app: nat -> Option<byte>, ok: bool,
                      stream: Option<Stream>) returns (change: Change)
      requires Good(v) && v.watched && HandsOut(v, signal, payload, answer, stream)
      requires Obeyed(v, n, collided, u, m, marked, signal, payload, answer, app, ok, stream)
      requires !(v.q.outstanding.Some? && collided)
      ensures CommandChange(v, n, signal, payload, answer, app, stream, change)
      ensures change.Commanded? && change.alive == ok
      ensures Possible(v, change) && Good(u) && Changed(v, change) == AfterCommand(u, marked, ok, link(m))
    {
      hide Good, HandsOut, Effected, EffectReady, CommandEffect, CommandMarks, CommandLives, Changed, Possible;
      hide AfterCommand;
      var effect := EffectOf(v, n, signal, payload, answer, app, stream);
      var marks := CommandMarks(v, lseps, signal, payload, app);
      change := Commanded(effect, marks, ok, link(m));
      MarksOutstanding(v, lseps, signal, payload, app);
      WhenCommanded(v, effect, marks, ok, link(m));
      SameAfter(u, marked, marks, ok, link(m));
    }

    // A stream is made exactly for a configuration that is not turned down.
    ghost predicate HandsOut(v: Shot, signal: Signal, payload: seq<byte>, answer: ConfAnswer, stream: Option<Stream>) {
      && (stream.Some? <==>
           && signal.SetConfiguration? && |payload| >= 2
           && ConfError(v.places, EndAt(lseps, payload[0]), ReadAll(payload[2..]).0, answer).None?)
      && (stream.Some? ==>
           EndAt(lseps, payload[0]) == Some(stream.value.lsep) && stream.value.rseid == payload[1] / 4)
    }

    // What a command changes when n messages were sent before; stream is the
    // one made for a configuration.
    ghost function EffectOf(v: Shot, n: nat, signal: Signal, payload: seq<byte>, answer: ConfAnswer,
                            app: nat -> Option<byte>, stream: Option<Stream>): Effect
    {
      CommandEffect(v, lseps, signal, payload, answer, app, link(n), stream, ReportOf(stream, link(n + 1)))
    }

    // avdtp_parse_cmd
    method ParseCmd(signal: Signal, payload: seq<byte>, answer: ConfAnswer, app: nat -> Option<byte>)
      returns (ok: bool, stream: Option<Stream>)
      requires Valid()
      modifies this`streams, this`pendingOpen, this`req, this`armed, this`collided, this`prioQueue, this`reqQueue
      modifies this`seps, this`sent, this`version, Ends(lseps), set s | s in streams
      ensures Valid() && (forall s :: s in streams ==> s in old(streams) || fresh(s))
      ensures Obeyed(old(View()), |old(sent)|, old(collided), View(), |sent|, collided, signal, payload, answer, app,
                     ok, stream)
      ensures stream.Some? ==> fresh(stream.value)
      ensures HandsOut(old(View()), signal, payload, answer, stream)
      ensures AnsweredWith(old(sent), sent, ReplyTo(old(View()), lseps, signal, payload, answer, app))
    {
      hide Good, Places, Obeyed, HandsOut, ConfDone, AnsweredWith, ReplyTo;
      ghost var v, n, before, said := View(), |sent|, collided, sent;
      if signal.SetConfiguration? {
        ok, stream := SetconfCmd(payload, answer);
        ConfObeys(v, n, before, View(), sent, collided, payload, answer, app, ok, stream);
        ConfAnswers(v, said, View(), sent, payload, answer, app, ok, stream);
      } else {
        ok := StreamCmd(signal, payload, app);
        stream := None;
        OtherObeys(v, n, before, View(), |sent|, collided, signal, payload, answer, app, ok);
        SameReply(v, signal, payload, answer, app);
      }
    }

    lemma ConfObeys(v: Shot, n: nat, collided: bool, u: Shot, said: seq<Out>, marked: bool, payload: seq<byte>,
                    answer: ConfAnswer, app: nat -> Option<byte>, ok: bool, stream: Option<Stream>)
      requires if |payload| >= 2 then ConfDone(v, n, u, said, payload, answer, ok, stream)
        else !ok && u == v && stream.None?
      requires v.q.outstanding.Some? ==> marked == collided
      requires v.q.outstanding.None? && u.q.outstanding.Some? ==> !marked
      ensures Obeyed(v, n, collided, u, |said|, marked, SetConfiguration, payload, answer, app, ok, stream)
      ensures HandsOut(v, SetConfiguration, payload, answer, stream)
    {
      hide ReadAll, ConfError;
      if |payload| >= 2 {
        hide Effected, EffectReady, ConfEffect, ConfLives;
      }
    }

    lemma ConfAnswers(v: Shot, before: seq<Out>, u: Shot, said: seq<Out>, payload: seq<byte>, answer: ConfAnswer,
                      app: nat -> Option<byte>, ok: bool, stream: Option<Stream>)
      requires |before| <= |said| && said[..|before|] == before
      requires if |payload| >= 2 then ConfDone(v, |before|, u, said, payload, answer, ok, stream) else said == before
      ensures AnsweredWith(before, said, ReplyTo(v, lseps, SetConfiguration, payload, answer, app))
    {
      hide ReadAll, ConfError, Effected, EffectReady, ConfEffect, ConfLives;
    }

    lemma SameReply(v: Shot, signal: Signal, payload: seq<byte>, answer: ConfAnswer, app: nat -> Option<byte>)
      requires !signal.SetConfiguration?
      ensures ReplyTo(v, lseps, signal, payload, NoHandler, app) == ReplyTo(v, lseps, signal, payload, answer, app)
    {
      hide Walked, EndAt, OpenError, CloseError, DelayError;
    }

    lemma OtherObeys(v: Shot, n: nat, collided: bool, u: Shot, m: nat, marked: bool, signal: Signal,
                     payload: seq<byte>, answer: ConfAnswer, app: nat -> Option<byte>, ok: bool)
      requires !signal.SetConfiguration?
      requires Obeyed(v, n, collided, u, m, marked, signal, payload, NoHandler, app, ok, None)
      ensures Obeyed(v, n, collided, u, m, marked, signal, payload, answer, app, ok, None)
      ensures HandsOut(v, signal, payload, answer, None)
    {
      hide Effected, EffectReady, CommandMarks, EffectOf;
      SameEffect(v, n, signal, payload, answer, app);
    }

    lemma SameEffect(v: Shot, n: nat, signal: Signal, payload: seq<byte>, answer: ConfAnswer, app: nat -> Option<byte>)
      requires !signal.SetConfiguration?
      ensures EffectOf(v, n, signal, payload, NoHandler, app, None)
        == EffectOf(v, n, signal, payload, answer, app, None)
    {
      hide OpenError, CloseError, EndAt;
    }

    twostate predicate Obeys(signal: Signal, payload: seq<byte>, app: nat -> Option<byte>, ok: bool)
      reads this, Ends(lseps)
    {
      && Obeyed(old(View()), |old(sent)|, old(collided), View(), |sent|, collided, signal, payload, NoHandler, app, ok,
                None)
      && AnsweredWith(old(sent), sent, ReplyTo(old(View()), lseps, signal, payload, NoHandler, app))
    }

    // Each command by itself: its effect on the session and its answer.
    method DoOpen(payload: seq<byte>, app: nat -> Option<byte>) returns (ok: bool)
      requires Valid()
      modifies this`pendingOpen, this`collided, this`sent, set s | s in streams
      ensures Valid() && Obeys(Signal.Open, payload, app, ok)
    {
      hide Good, Places, Walked, WalkedStreams, Collides, AnyCollides, EndAt;
      ok := OpenCmd(payload, app(0));
    }

    method DoClose(payload: seq<byte>, app: nat -> Option<byte>) returns (ok: bool)
      requires Valid()
      modifies this`req, this`armed, this`collided, this`prioQueue, this`reqQueue, this`sent
      modifies Ends(lseps), set s | s in streams
      ensures Valid() && Obeys(Signal.Close, payload, app, ok)
    {
      hide Good, Places, Walked, WalkedStreams, Collides, AnyCollides, EndAt;
      ok := CloseCmd(payload, app(0));
    }

    method DoAbort(payload: seq<byte>, app: nat -> Option<byte>) returns (ok: bool)
      requires Valid()
      modifies this`req, this`armed, this`collided, this`prioQueue, this`reqQueue, this`sent
      modifies Ends(lseps), set s | s in streams
      ensures Valid() && Obeys(Signal.Abort, payload, app, ok)
    {
      hide Good, Places, Walked, WalkedStreams, Collides, AnyCollides, EndAt;
      ok := AbortCmd(payload);
    }

    method DoStart(payload: seq<byte>, app: nat -> Option<byte>) returns (ok: bool)
      requires Valid()
      modifies this`req, this`armed, this`collided, this`prioQueue, this`reqQueue, this`sent
      modifies Ends(lseps), set s | s in streams
      ensures Valid() && Obeys(Signal.Start, payload, app, ok)
    {
      hide Good, Places, Walked, WalkedStreams, Collides, AnyCollides, EndAt;
      ok := StartCmd(payload, app);
    }

    method DoSuspend(payload: seq<byte>, app: nat -> Option<byte>) returns (ok: bool)
      requires Valid()
      modifies this`req, this`armed, this`collided, this`prioQueue, this`reqQueue, this`sent
      modifies Ends(lseps), set s | s in streams
      ensures Valid() && Obeys(Signal.Suspend, payload, app, ok)
    {
      hide Good, Places, Walked, WalkedStreams, Collides, AnyCollides, EndAt;
      ok := SuspendCmd(payload, app);
    }

    method DoDelayReport(payload: seq<byte>, app: nat -> Option<byte>) returns (ok: bool)
      requires Valid()
      modifies this`sent, set s | s in streams
      ensures Valid() && Obeys(Signal.DelayReport, payload, app, ok)
    {
      hide Good, Places, Walked, WalkedStreams, Collides, AnyCollides, EndAt;
      ok := DelayReportCmd(payload, app(0));
    }

    method DoRead(signal: Signal, payload: seq<byte>, app: nat -> Option<byte>) returns (ok: bool)
      requires Valid() && IsReading(signal)
      modifies this`sent
      ensures Valid() && Obeys(signal, payload, app, ok)
    {
      hide Good, Places, Walked, WalkedStreams, Collides, AnyCollides;
      if payload != [] && EndAt(lseps, payload[0]).Some? { PlaceOf(EndAt(lseps, payload[0]).value); }
      ok := ReadCmd(signal, payload, app(0));
    }

    // The commands that change nothing.
    predicate IsReading(signal: Signal) {
      !signal.SetConfiguration? && !signal.DelayReport? && !signal.Open? && !signal.Close? && !signal.Abort?
      && !signal.Start? && !signal.Suspend?
    }

    method StreamCmd(signal: Signal, payload: seq<byte>, app: nat -> Option<byte>) returns (ok: bool)
      requires Valid() && !signal.SetConfiguration?
      modifies this`pendingOpen, this`req, this`armed, this`collided, this`prioQueue, this`reqQueue, this`sent
      modifies Ends(lseps), set s | s in streams
      ensures Valid() && Obeys(signal, payload, app, ok)
    {
      hide Good, Places, Obeys;
      if signal.Open? {
        ok := DoOpen(payload, app);
      } else if signal.Close? {
        ok := DoClose(payload, app);
      } else if signal.Abort? {
        ok := DoAbort(payload, app);
      } else if signal.Start? {
        ok := DoStart(payload, app);
      } else if signal.Suspend? {
        ok := DoSuspend(payload, app);
      } else if signal.DelayReport? {
        ok := DoDelayReport(payload, app);
      } else {
        ok := DoRead(signal, payload, app);
      }
    }

    method Disarm()
      modifies this`armed
      ensures View() == Unarmed(old(View()))
    {
      armed := false;
    }

    // The end of session_cb: the outstanding request is done, the next one goes.
    method NextRequest()
      requires Valid()
      modifies this`req, this`armed, this`collided, this`prioQueue, this`reqQueue, this`sent
      ensures Valid() && View() == Processed(NoneOutstanding(old(View())), link(|old(sent)|))
      ensures req.Some? ==> !collided
      ensures sent == old(sent) +
        if old(prioQueue == [] && reqQueue == []) then []
        else [Out(Command, old(if prioQueue != [] then prioQueue[0].signal else reqQueue[0].signal), 0)]
    {
      hide Good, Places;
      NoneOutstandingGood(View());
      ProcessedGood(NoneOutstanding(View()), link(|sent|));
      DropOutstanding();
      ProcessQueue();
    }

    // The end of session_cb when it fails: nothing more is heard of the channel.
    method GiveUp()
      requires Valid()
      modifies this`streams, this`pendingOpen, this`req, this`armed, this`prioQueue, this`reqQueue, this`seps
      modifies this`discover, this`ended, this`idles, this`watched, Ends(lseps), set s | s in streams
      ensures old(Valid()) && Valid() && View() == Broken(old(View())) && !watched
    {
      hide Good, Places, Lost;
      LostGood(View());
      BrokenGood(View());
      ConnectionLost();
      Unwatch();
    }

    // session_cb when the channel is gone, or brings no proper packet.
    method ChannelFailed() returns (ghost change: Change)
      requires Valid() && watched
      modifies this`streams, this`pendingOpen, this`req, this`armed, this`prioQueue, this`reqQueue, this`seps
      modifies this`discover, this`ended, this`idles, this`watched, Ends(lseps), set s | s in streams
      ensures Valid() && change == ChannelFails && Made(change) && streams == [] && discover.None?
      ensures old(Unmarked()) ==> Unmarked()
    {
      hide Good, Places, Broken, Changed, Possible;
      change := ChannelFails;
      WhenBroken(View());
      BrokenGood(View());
      GiveUp();
    }

    // session_cb when the channel is no longer valid: it is not watched any more,
    // and the session stays as it is.
    method ChannelInvalid() returns (ghost change: Change)
      requires Valid() && watched
      modifies this`watched
      ensures Valid() && change == StopsListening && Made(change) && Unmarked()
    {
      hide Good, Places, Changed, Possible;
      change := StopsListening;
      WhenDeaf(View());
      Unwatch();
    }

    method Unwatch()
      modifies this`watched
      ensures View() == old(View()).(watched := false) && !watched
    {
      watched := false;
    }

    // session_cb on a command of the peer. A configuration the application
    // will answer later hands out its stream.
    method ReceiveCommand(signal: Signal, payload: seq<byte>, answer: ConfAnswer, app: nat -> Option<byte>)
      returns (alive: bool, stream: Option<Stream>, ghost change: Change)
      requires Valid() && watched && Unmarked()
      modifies this, Ends(lseps), set s | s in streams
      ensures Valid() && Made(change) && Unmarked()
      ensures CommandChange(old(View()), |old(sent)|, signal, payload, answer, app, stream, change)
      ensures change.Commanded? && alive == change.alive
      ensures var reply := ReplyTo(old(View()), lseps, signal, payload, answer, app);
        && |old(sent)| <= |sent| && sent[..|old(sent)|] == old(sent)
        && (reply.Some? ==> |sent| > |old(sent)| && sent[|old(sent)|] == reply.value)
        && (reply.None? && old(req.None?) ==> sent == old(sent))
      ensures stream.Some? && !stream.value.lsep.sink && alive && old(req.None?) ==>
        |sent| == |old(sent)| + if answer.Later? then 0 else 1
      ensures var report :=
          if stream.Some? && stream.value.lsep.sink && stream.value.delayReporting then Some(link(|old(sent)| + 1))
          else None;
        change.effect
          == CommandEffect(old(View()), lseps, signal, payload, answer, app, link(|old(sent)|), stream, report)
      ensures change.marked == CommandMarks(old(View()), lseps, signal, payload, app)
      ensures change.marked ==> change.next == link(|old(sent)| + 1)
      ensures alive == CommandLives(old(View()), lseps, signal, payload, answer, link(|old(sent)|))
      ensures stream.Some? <==>
        (signal == SetConfiguration && |payload| >= 2
         && ConfError(old(View()).places, EndAt(lseps, payload[0]), ReadAll(payload[2..]).0, answer) == None)
      ensures stream.Some? ==>
        EndAt(lseps, payload[0]) == Some(stream.value.lsep) && stream.value.rseid == payload[1] / 4
      ensures stream.Some? ==> fresh(stream.value)
    {
      hide Good, Places, Obeyed, CommandChange, HandsOut, Changed, Possible, AfterCommand;
      hide CommandEffect, CommandMarks, CommandLives, ConfError, EndAt, ReadAll, ReplyTo, AnsweredWith;
      ghost var v, n, before := View(), |sent|, collided;
      alive, stream := ParseCmd(signal, payload, answer, app);
      SaidOnce(v, n, before, View(), |sent|, collided, signal, payload, answer, app, alive, stream);
      change := CommandStep(v, n, before, View(), |sent|, collided, signal, payload, answer, app, alive, stream);
      Commanding(v, n, signal, payload, answer, app, stream, change);
      ghost var said := sent;
      FinishCommand(alive);
      Answered(old(sent), said, sent, ReplyTo(v, lseps, signal, payload, answer, app));
    }

    lemma Answered(before: seq<Out>, said: seq<Out>, sent: seq<Out>, reply: Option<Out>)
      requires AnsweredWith(before, said, reply) && |said| <= |sent| && sent[..|said|] == said
      ensures |before| <= |sent| && sent[..|before|] == before
      ensures if reply.Some? then |sent| > |before| && sent[|before|] == reply.value else said == before
    {
      assert sent[..|before|] == said[..|before|];
    }

    lemma Commanding(v: Shot, n: nat, signal: Signal, payload: seq<byte>, answer: ConfAnswer, app: nat -> Option<byte>,
                     stream: Option<Stream>, change: Change)
      requires CommandChange(v, n, signal, payload, answer, app, stream, change)
      ensures change == Commanded(
        CommandEffect(v, lseps, signal, payload, answer, app, link(n), stream,
          if stream.Some? && stream.value.lsep.sink && stream.value.delayReporting then Some(link(n + 1)) else None),
        CommandMarks(v, lseps, signal, payload, app), CommandLives(v, lseps, signal, payload, answer, link(n)),
        change.next)
      ensures change.marked ==> change.next == link(n + 1)
      ensures stream.Some? <==>
        (signal == SetConfiguration && |payload| >= 2
         && ConfError(v.places, EndAt(lseps, payload[0]), ReadAll(payload[2..]).0, answer) == None)
      ensures stream.Some? ==>
        EndAt(lseps, payload[0]) == Some(stream.value.lsep) && stream.value.rseid == payload[1] / 4
    {
      hide CommandEffect, CommandMarks, CommandLives, ConfError, EndAt, ReadAll;
    }

    // What the command changed, whether the session survives it, which request
    // loses to it, and the stream handed out.
    ghost predicate CommandChange(v: Shot, n: nat, signal: Signal, payload: seq<byte>, answer: ConfAnswer,
                                  app: nat -> Option<byte>, stream: Option<Stream>, change: Change)
    {
      var marks := CommandMarks(v, lseps, signal, payload, app);
      && change.Commanded? && change.effect == EffectOf(v, n, signal, payload, answer, app, stream)
      && change.alive == CommandLives(v, lseps, signal, payload, answer, link(n))
      && change.marked == marks
      && (marks ==> change.next == link(n + 1))
      && HandsOut(v, signal, payload, answer, stream)
    }

    method FinishCommand(alive: bool)
      requires Valid()
      modifies this, Ends(lseps), set s | s in streams
      ensures old(Valid()) && Valid() && View() == AfterCommand(old(View()), old(collided), alive, link(|old(sent)|))
      ensures !alive || old(req.None? || !collided) ==> sent == old(sent)
      ensures |old(sent)| <= |sent| && sent[..|old(sent)|] == old(sent)
      ensures Unmarked()
    {
      hide Good, Places, Broken, Processed;
      if !alive {
        GiveUp();
      } else if req.Some? && collided {
        NextRequest();
      }
    }

    // An accepted request: discovery goes on, or the stream moves.
    method RequestAccepted(payload: seq<byte>) returns (alive: bool, ghost report: Option<bool>, ghost change: Change)
      requires Valid() && req.Some? && armed && watched
      modifies this, Ends(lseps), set s | s in streams
      ensures Valid() && Made(change) && alive == !change.AnswerFails?
      ensures old(req).value.stream.Some? ==> old(Valid()) && report == old(DueReport(req.value.stream.value.lsep))
      ensures change == AnswerChange(old(View()), Accepted, payload, old(version), report, link(|old(sent)|))
      ensures Unmarked()
    {
      hide Good, Places, OutcomeOf, Processed, Changed, Possible, Broken, OnAcceptance, AnswerChange, TooShort;
      ghost var v, next := View(), link(|sent|);
      OutstandingNames(v);
      UnarmedGood(v);
      Disarm();
      alive, report := ParseResp(payload);
      WhenAccepted(v, payload, version, report, next);
      change := AnswerChange(v, Accepted, payload, old(version), report, next);
      if alive { WhenSettled(v, OnAcceptance(v, payload, version, report), next); } else { WhenFailed(v); }
      FinishAnswer(alive);
    }

    method FinishAnswer(ok: bool)
      requires Valid()
      modifies this, Ends(lseps), set s | s in streams
      ensures old(Valid()) && Valid() && Unmarked()
      ensures View() == if ok then Processed(NoneOutstanding(old(View())), link(|old(sent)|)) else Broken(old(View()))
    {
      hide Good, Places, Broken, Processed;
      if !ok {
        GiveUp();
      } else {
        NextRequest();
      }
    }

    // A rejected request: a discovery ends, a rejected ABORT ends the session.
    method RequestRejected(payload: seq<byte>, cfm: bool) returns (alive: bool, ghost change: Change)
      requires Valid() && req.Some? && armed && watched
      modifies this, Ends(lseps), set s | s in streams
      ensures Valid() && Made(change) && alive == !change.AnswerFails?
      ensures change == AnswerChange(old(View()), Rejected, payload, old(version), None, link(|old(sent)|))
      ensures Unmarked()
    {
      hide Good, Places, OnAcceptance, Processed, Changed, Possible, Broken, RejectedEnd;
      ghost var v, next := View(), link(|sent|);
      OutstandingNames(v);
      UnarmedGood(v);
      Disarm();
      alive := ParseRej(payload, cfm);
      change := AnswerChange(v, Rejected, payload, old(version), None, next);
      if alive { WhenSettled(v, OnRejection(v.q.outstanding.value.signal), next); } else { WhenFailed(v); }
      FinishAnswer(alive);
    }

    // session_cb on an answer of the peer: one that does not fit the
    // outstanding request is ignored, one of any other kind only ends it.
    method ReceiveAnswer(kind: Kind, signal: Signal, labelFits: bool, payload: seq<byte>, cfm: bool)
      returns (alive: bool, ghost report: Option<bool>, ghost change: Change)
      requires Valid() && watched && Listening(View())
      modifies this, Ends(lseps), set s | s in streams
      ensures Valid() && Made(change) && alive == !change.AnswerFails?
      ensures old(req.Some? && req.value.stream.Some?) && kind.Accepted? && change.Settles? ==>
        var s := old(req).value.stream.value;
        && old(Valid()) && old(s.lsep.stream) == Some(s)
        && report == if old(s.lsep.sink && s.delayReporting && version >= 0x0103 && !s.abortInt)
                     then Some(link(|old(sent)|)) else None
      ensures change == if old(req.None? || req.value.signal != signal) || !labelFits then Same
        else AnswerChange(old(View()), kind, payload, old(version), report, link(|old(sent)|))
      ensures old(Unmarked()) ==> Unmarked()
    {
      hide Good, Places, OnAcceptance, Processed, Changed, Possible;
      ghost var v, next := View(), link(|sent|);
      WhenSame(v);
      alive, report, change := true, None, Same;
      if req.None? || !labelFits || signal != req.value.signal { return; }
      if kind.Accepted? {
        OutstandingNames(v);
        if req.value.stream.Some? { Listed(req.value.stream.value); }
        alive, report, change := RequestAccepted(payload);
      } else if kind.Rejected? {
        alive, change := RequestRejected(payload, cfm);
      } else {
        UnarmedGood(v);
        WhenSettled(v, Disregarded, next);
        change := Settles(Disregarded, next);
        Disarm();
        NextRequest();
      }
    }

    // ------------------------------------------------- timers and transport

    // request_timeout
    method RequestTimeout(cfm: bool) returns (ghost change: Change)
      requires Valid() && req.Some? && armed
      modifies this`streams, this`pendingOpen, this`req, this`armed, this`collided, this`prioQueue, this`reqQueue
      modifies this`seps, this`discover, this`ended, this`idles, this`sent
      modifies Ends(lseps), set s | s in streams
      ensures Valid() && change == TimesOut(link(|old(sent)|)) && Made(change)
      ensures sent == if old(EndsSession(req.value.signal) || Target(View(), req.value).None?) then old(sent)
        else old(sent) + [Out(Command, Abort, 0)]
      ensures old(Unmarked()) ==> Unmarked()
    {
      hide Good, Cancelled, Changed, Possible, Places;
      change := TimesOut(link(|sent|));
      WhenTimedOut(View(), link(|sent|));
      var _ := CancelRequest(cfm);
    }

    // stream_open_timeout: the peer did not open the transport channel. A second
    // OPEN overwrites the number of the first timer, which then fires whatever
    // has become of the stream.
    method StreamOpenTimeout(stream: Stream, late: bool, cfm: bool) returns (ghost change: Change)
      requires Valid() && if late then stream.stale > 0 else stream.timer
      modifies this`streams, this`pendingOpen, this`req, this`armed, this`collided, this`prioQueue, this`reqQueue
      modifies this`seps, this`discover, this`ended, this`idles, this`sent
      modifies Ends(lseps), (set s | s in streams) + {stream}
      ensures Valid() && change == NeverOpens(stream, link(|old(sent)|)) && Made(change)
      ensures old(Unmarked()) ==> Unmarked()
    {
      hide Good, AbortAsked, Places, Changed, Possible;
      change := NeverOpens(stream, link(|sent|));
      NonePendingGood(View());
      WhenNeverOpened(View(), stream, link(|sent|));
      StopWaiting(stream, late);
      ghost var w, ok := View(), link(|sent|);
      WhenAborting(w, stream, ok);
      var _, _ := AbortRequest(stream, cfm);
    }

    method StopWaiting(stream: Stream, late: bool)
      requires if late then stream.stale > 0 else stream.timer
      modifies stream, this`pendingOpen
      ensures View() == old(View()).(pendingOpen := None) && TimerFired(stream, late)
    {
      if late && !stream.timer { stream.stale := stream.stale - 1; }
      stream.timer := false;
      pendingOpen := None;
    }

    // stream_close_timeout
    method StreamCloseTimeout(stream: Stream, late: bool)
      requires Valid() && if late then stream.stale > 0 else stream.timer
      modifies stream
      ensures Valid() && View() == old(View()) && TimerFired(stream, late) && !stream.io
    {
      if late && !stream.timer { stream.stale := stream.stale - 1; }
      stream.timer, stream.io := false, false;
    }

    // start_timeout: the peer was to start the stream and did not.
    method StartTimeout(stream: Stream) returns (ghost change: Change)
      requires Valid() && stream in streams && stream.startTimer
      modifies this`req, this`armed, this`collided, this`prioQueue, this`reqQueue, this`sent, stream
      ensures Valid() && Made(change) && !stream.startTimer && !stream.openAcp
      ensures var asks := stream.lsep.state == Opened && old(!stream.closeInt && !stream.starting && !stream.abortInt);
        change == if asks then Asking(false, Signal.Start, stream, link(|old(sent)|)) else Same
      ensures old(Unmarked()) ==> Unmarked()
    {
      hide Good, Changed, Possible;
      stream.openAcp := false;
      ghost var v := View();
      var _, made := StartRequest(stream);
      change := made;
      stream.startTimer := false;
    }

    // avdtp_stream_set_transport and handle_transport_connect
    method SetTransport(stream: Stream) returns (ok: bool, ghost change: Change)
      requires Valid() && stream in streams
      modifies this`pendingOpen, this`req, this`armed, this`collided, this`prioQueue, this`reqQueue, this`sent
      modifies Ends(lseps), stream
      ensures Valid() && Made(change)
      ensures ok == (old(pendingOpen) == Some(stream)) && change == if ok then Connects(stream) else Same
      ensures ok ==> stream.io && stream.watched && !stream.timer && stream.stale == old(stream.stale)
      ensures old(Unmarked()) ==> Unmarked()
    {
      hide Good, Places, Moved, Changed, Possible;
      Listed(stream);
      ok, change := false, Same;
      WhenSame(View());
      if pendingOpen != Some(stream) { return; }
      WhenConnected(View(), stream);
      NonePendingGood(View());
      NoLongerAwaited(stream);
      Connect(stream);
      SetState(stream.lsep, Opened);
      Watch(stream);
      ok, change := true, Connects(stream);
    }

    method NoLongerAwaited(stream: Stream)
      modifies stream`timer, this`pendingOpen
      ensures View() == old(View()).(pendingOpen := None) && !stream.timer
    {
      stream.timer := false;
      pendingOpen := None;
    }

    method Connect(stream: Stream)
      modifies stream`io
      ensures View() == old(View()) && stream.io
    {
      stream.io := true;
    }

    method Watch(stream: Stream)
      modifies stream`watched, stream`timer, stream`io
      ensures View() == old(View()) && stream.watched && stream.io && !stream.timer
    {
      stream.watched, stream.io, stream.timer := true, true, false;
    }

    // transport_cb: the transport channel is gone; a stream this side is
    // aborting waits for the answer instead.
    method TransportCb(stream: Stream, nval: bool) returns (ghost change: Change)
      requires Valid() && stream in streams && stream.watched
      modifies this`streams, this`pendingOpen, this`req, this`prioQueue, this`reqQueue, this`seps
      modifies Ends(lseps), stream
      ensures Valid() && Made(change)
      ensures change == if old(stream.abortInt) then Same else GoesIdle(stream.lsep)
      ensures old(stream.abortInt) ==> !stream.watched && (stream.io ==> nval)
      ensures old(Unmarked()) ==> Unmarked()
    {
      hide Good, Places, WentIdle, Changed, Possible;
      Listed(stream);
      WhenSame(View());
      IdleCalls(View(), stream.lsep);
      WhenIdle(View(), stream.lsep);
      ChannelGone(stream, nval);
      Listed(stream);
      change := Same;
      if !stream.abortInt {
        change := GoesIdle(stream.lsep);
        GoIdle(stream.lsep);
      }
    }

    method ChannelGone(stream: Stream, nval: bool)
      modifies stream
      ensures View() == old(View()) && !stream.watched && stream.abortInt == old(stream.abortInt)
      ensures stream.io == (nval && old(stream.io))
    {
      if !nval { stream.io := false; }
      stream.watched := false;
    }

    // ------------------------------------------------------------ discovery

    // avdtp_discover: known end points are reported from the main loop, and
    // otherwise the peer is asked; if it cannot be asked no callback is set.
    method DiscoverRequest() returns (ok: bool, ghost change: Change)
      requires Valid()
      modifies this`req, this`armed, this`collided, this`prioQueue, this`reqQueue, this`sent
      modifies this`discover, this`calls, this`idles
      ensures Valid() && Made(change)
      ensures change == if old(discover.Some?) then Same else Discovers(link(|old(sent)|))
      ensures ok == (old(discover.None?) && (old(seps) != map[] || Accepts(old(Queue()), link(|old(sent)|))))
      ensures sent == if old(discover.Some? || seps != map[] || req.Some?) then old(sent)
        else old(sent) + [Out(Command, Signal.Discover, 0)]
      ensures old(Unmarked()) ==> Unmarked()
    {
      hide Good, Places, Requested, Called, Changed, Possible;
      ok, change := false, Same;
      WhenSame(View());
      if discover.Some? { return; }
      WhenDiscovering(View(), link(|sent|));
      change := Discovers(link(|sent|));
      if seps != map[] {
        NewCall(true, true);
        ok := true;
        return;
      }
      ok := SendRequest(false, None, Discover, 0);
      NewCall(ok, false);
    }

    method NewCall(cb: bool, idle: bool)
      modifies this`discover, this`calls, this`idles
      ensures View() == Called(old(View()), cb, idle)
    {
      discover, calls := Some(Call(calls, cb, idle)), calls + 1;
      if idle { idles := idles + 1; }
    }

    // process_discover: the source from avdtp_discover runs. It does not ask
    // whether a discovery is still in progress; sound tells whether one is.
    method ProcessDiscover() returns (sound: bool, ghost change: Change)
      requires Valid() && idles > 0
      modifies this`discover, this`ended, this`idles
      ensures Valid() && change == IdleRuns && Made(change)
      ensures sound == old(discover.Some?) && (old(Tied(View())) ==> sound)
      ensures old(Unmarked()) ==> Unmarked()
    {
      hide Good, Changed, Possible;
      change := IdleRuns;
      WhenIdleRuns(View());
      idles := idles - 1;
      if discover.None? {
        sound := false;
        return;
      }
      discover := Some(discover.value.(idle := false));
      FinalizeDiscovery();
      sound := true;
    }
  }
}
