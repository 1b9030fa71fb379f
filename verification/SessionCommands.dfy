// What the peer's commands do to a session: why one is turned down, and what
// an accepted one changes (avdtp.c).
module SessionCommands {
  import opened Options
  import opened Bytes
  import opened AvdtpMessages
  import opened Capabilities
  import opened SessionState

  const BAD_ACP_SEID: byte := 0x12
  const SEP_IN_USE: byte := 0x13
  const BAD_MEDIA_TRANSPORT: byte := 0x23
  const UNSUPPORTED_CONFIGURATION: byte := 0x29
  const BAD_STATE: byte := 0x31
  const BAD_LENGTH: byte := 0x11
  const NOT_SUPPORTED: byte := 0x19

  // Why a command about one end point is turned down, if it is: no such end
  // point, the wrong state, or the application's own error.
  function OpenError(places: map<LocalSep, Place>, p: Option<LocalSep>, app: Option<byte>): Option<byte> {
    if p.None? || p.value !in places then Some(BAD_ACP_SEID)
    else if places[p.value].state != Configured then Some(BAD_STATE)
    else app
  }

  function CloseError(places: map<LocalSep, Place>, p: Option<LocalSep>, app: Option<byte>): Option<byte> {
    if p.None? || p.value !in places || places[p.value].stream.None? then Some(BAD_ACP_SEID)
    else if places[p.value].state != Opened && places[p.value].state != Streaming then Some(BAD_STATE)
    else app
  }

  function DelayError(places: map<LocalSep, Place>, p: Option<LocalSep>, app: Option<byte>): Option<byte> {
    if p.None? || p.value !in places || places[p.value].stream.None? then Some(BAD_ACP_SEID)
    else if places[p.value].state in {Idle, Aborting, Closing} then Some(BAD_STATE)
    else app
  }

  // ------------------------------------------------- START and SUSPEND

  function EndAt(lseps: seq<LocalSep>, octet: byte): Option<LocalSep> { FirstWithSeid(lseps, octet / 4) }

  // Why one end point cannot go, if it cannot.
  function Refusal(places: map<LocalSep, Place>, lseps: seq<LocalSep>, octet: byte, from: State, app: Option<byte>):
    Option<byte>
  {
    var p := EndAt(lseps, octet);
    if p.None? || p.value !in places || places[p.value].stream.None? then Some(BAD_ACP_SEID)
    else if places[p.value].state != from then Some(BAD_STATE)
    else app
  }

  // The listed end points go one by one, from one state to another, up to the
  // first that cannot: its number and why.
  function Walked(places: map<LocalSep, Place>, lseps: seq<LocalSep>, ids: seq<byte>, from: State, to: State,
                  app: nat -> Option<byte>, i: nat): (r: (map<LocalSep, Place>, Option<(byte, byte)>))
    decreases |ids|
  {
    if ids == [] then (places, None)
    else
      var why := Refusal(places, lseps, ids[0], from, app(i));
      if why.Some? then (places, Some((ids[0] / 4, why.value)))
      else
        var p := EndAt(lseps, ids[0]).value;
        Walked(places[p := places[p].(state := to)], lseps, ids[1..], from, to, app, i + 1)
  }

  // The streams that went.
  function WalkedStreams(places: map<LocalSep, Place>, lseps: seq<LocalSep>, ids: seq<byte>, from: State, to: State,
                         app: nat -> Option<byte>, i: nat): seq<Stream>
    decreases |ids|
  {
    if ids == [] || Refusal(places, lseps, ids[0], from, app(i)).Some? then []
    else
      var p := EndAt(lseps, ids[0]).value;
      [places[p].stream.value]
        + WalkedStreams(places[p := places[p].(state := to)], lseps, ids[1..], from, to, app, i + 1)
  }

  // The stream of an end point that is found where it should be; the
  // application is asked about it.
  function ReachedStream(places: map<LocalSep, Place>, lseps: seq<LocalSep>, octet: byte, from: State): seq<Stream> {
    if Refusal(places, lseps, octet, from, None).None? then [places[EndAt(lseps, octet).value].stream.value] else []
  }

  // The stream the application refused, if that is where the walk stopped.
  function RefusedStream(places: map<LocalSep, Place>, lseps: seq<LocalSep>, stop: Option<(byte, byte)>, from: State):
    seq<Stream>
  {
    if stop.None? then []
    else
      var p := FirstWithSeid(lseps, stop.value.0);
      if p.Some? && p.value in places && places[p.value].stream.Some? && places[p.value].state == from
      then [places[p.value].stream.value] else []
  }

  // An end point that goes was reached; one that stops the walk was if the
  // application refused it.
  lemma Reaching(places: map<LocalSep, Place>, lseps: seq<LocalSep>, octet: byte, from: State, app: Option<byte>)
    ensures var why, reached := Refusal(places, lseps, octet, from, app), ReachedStream(places, lseps, octet, from);
      if why.Some? then reached == RefusedStream(places, lseps, Some((octet / 4, why.value)), from)
      else
        && EndAt(lseps, octet).Some? && EndAt(lseps, octet).value in places
        && reached == [places[EndAt(lseps, octet).value].stream.value]
  {}

  predicate Names(lseps: seq<LocalSep>, ids: seq<byte>, p: LocalSep) {
    exists k :: 0 <= k < |ids| && EndAt(lseps, ids[k]) == Some(p)
  }

  // All of them are distinct, where they should be, and consented to.
  ghost predicate AllGo(places: map<LocalSep, Place>, lseps: seq<LocalSep>, ids: seq<byte>, from: State,
                        app: nat -> Option<byte>, i: nat) {
    && (forall k :: 0 <= k < |ids| ==> Refusal(places, lseps, ids[k], from, app(i + k)).None?)
    && (forall j, k :: 0 <= j < k < |ids| ==> EndAt(lseps, ids[j]) != EndAt(lseps, ids[k]))
  }

  // Exactly the named end points have the new state.
  ghost function AllMoved(places: map<LocalSep, Place>, lseps: seq<LocalSep>, ids: seq<byte>, to: State):
    map<LocalSep, Place>
  {
    map p | p in places :: if Names(lseps, ids, p) then places[p].(state := to) else places[p]
  }

  // Why the k-th of them cannot go after those before it went.
  ghost function StopReason(places: map<LocalSep, Place>, lseps: seq<LocalSep>, ids: seq<byte>, k: nat, from: State,
                            app: Option<byte>): (byte, byte)
    requires k < |ids|
  {
    var end := EndAt(lseps, ids[k]);
    var why := Refusal(places, lseps, ids[k], from, app);
    (ids[k] / 4,
     if end.Some? && Names(lseps, ids[..k], end.value) then BAD_STATE else if why.Some? then why.value else 0)
  }

  // What START and SUSPEND come to: the longest list of end points that are
  // distinct, in the state asked for and consented to moves, and nothing else.
  // One that is named again fails with a bad state, any other for its own reason.
  lemma {:induction false} WalkedExactly(places: map<LocalSep, Place>, lseps: seq<LocalSep>, ids: seq<byte>,
                                         from: State, to: State, app: nat -> Option<byte>, i: nat)
    returns (k: nat)
    requires from != to
    ensures k <= |ids| && AllGo(places, lseps, ids[..k], from, app, i)
    ensures k < |ids| ==> !AllGo(places, lseps, ids[..k + 1], from, app, i)
    ensures Walked(places, lseps, ids, from, to, app, i).0 == AllMoved(places, lseps, ids[..k], to)
    ensures Walked(places, lseps, ids, from, to, app, i).1
      == if k == |ids| then None else Some(StopReason(places, lseps, ids, k, from, app(i + k)))
    ensures |WalkedStreams(places, lseps, ids, from, to, app, i)| == k
    decreases |ids|
  {
    hide AllGo, AllMoved, StopReason, Refusal;
    if ids == [] || Refusal(places, lseps, ids[0], from, app(i)).Some? {
      k := 0;
      NoneGoes(places, lseps, ids, from, to, app, i);
    } else {
      GoesFrom(places, lseps, ids[0], from, app(i));
      var p := EndAt(lseps, ids[0]).value;
      var next := places[p := places[p].(state := to)];
      var m := WalkedExactly(next, lseps, ids[1..], from, to, app, i + 1);
      k := m + 1;
      FirstGoes(places, lseps, ids, from, to, app, i, m);
      FirstMoves(places, lseps, ids, p, to, m);
      if k < |ids| {
        FirstGoes(places, lseps, ids, from, to, app, i, m + 1);
        SameReason(places, lseps, ids, from, to, app(i + k), m);
      }
    }
  }

  lemma GoesFrom(places: map<LocalSep, Place>, lseps: seq<LocalSep>, octet: byte, from: State, app: Option<byte>)
    requires Refusal(places, lseps, octet, from, app).None?
    ensures var p := EndAt(lseps, octet); p.Some? && p.value in places && places[p.value].stream.Some?
  {}

  lemma NoneGoes(places: map<LocalSep, Place>, lseps: seq<LocalSep>, ids: seq<byte>, from: State, to: State,
                 app: nat -> Option<byte>, i: nat)
    requires ids == [] || Refusal(places, lseps, ids[0], from, app(i)).Some?
    ensures AllGo(places, lseps, ids[..0], from, app, i) && AllMoved(places, lseps, ids[..0], to) == places
    ensures ids != [] ==>
      && !AllGo(places, lseps, ids[..1], from, app, i)
      && StopReason(places, lseps, ids, 0, from, app(i + 0))
        == (ids[0] / 4, Refusal(places, lseps, ids[0], from, app(i)).value)
  {
    hide Refusal;
    if ids != [] {
      assert ids[..1][0] == ids[0];
      assert Refusal(places, lseps, ids[..1][0], from, app(i + 0)).Some?;
    }
  }

  // After the first went, the others go exactly when they would have gone
  // before, and are not the first again.
  lemma FirstGoes(places: map<LocalSep, Place>, lseps: seq<LocalSep>, ids: seq<byte>, from: State, to: State,
                  app: nat -> Option<byte>, i: nat, m: nat)
    requires from != to && ids != [] && m < |ids| && Refusal(places, lseps, ids[0], from, app(i)).None?
    ensures var p := EndAt(lseps, ids[0]).value;
      AllGo(places, lseps, ids[..m + 1], from, app, i) <==>
        AllGo(places[p := places[p].(state := to)], lseps, ids[1..][..m], from, app, i + 1)
  {
    var p := EndAt(lseps, ids[0]).value;
    var next, rest, all := places[p := places[p].(state := to)], ids[1..][..m], ids[..m + 1];
    assert forall k :: 0 <= k < m ==> rest[k] == all[k + 1];
    if AllGo(next, lseps, rest, from, app, i + 1) {
      forall k | 0 <= k < |all| ensures Refusal(places, lseps, all[k], from, app(i + k)).None?
        && forall j :: 0 <= j < k ==> EndAt(lseps, all[j]) != EndAt(lseps, all[k])
      {
        if k > 0 { assert Refusal(next, lseps, rest[k - 1], from, app(i + 1 + (k - 1))).None?; }
        forall j | 0 <= j < k ensures EndAt(lseps, all[j]) != EndAt(lseps, all[k]) {
          if j > 0 { assert EndAt(lseps, rest[j - 1]) != EndAt(lseps, rest[k - 1]); }
        }
      }
    }
    if AllGo(places, lseps, all, from, app, i) {
      forall k | 0 <= k < |rest| ensures Refusal(next, lseps, rest[k], from, app(i + 1 + k)).None? {
        assert Refusal(places, lseps, all[k + 1], from, app(i + (k + 1))).None?;
        assert EndAt(lseps, all[0]) != EndAt(lseps, all[k + 1]);
      }
      forall j, k | 0 <= j < k < |rest| ensures EndAt(lseps, rest[j]) != EndAt(lseps, rest[k]) {
        assert EndAt(lseps, all[j + 1]) != EndAt(lseps, all[k + 1]);
      }
    }
  }

  lemma FirstMoves(places: map<LocalSep, Place>, lseps: seq<LocalSep>, ids: seq<byte>, p: LocalSep, to: State, m: nat)
    requires ids != [] && m < |ids| && p in places && EndAt(lseps, ids[0]) == Some(p)
    ensures AllMoved(places[p := places[p].(state := to)], lseps, ids[1..][..m], to)
      == AllMoved(places, lseps, ids[..m + 1], to)
  {
    var rest, all := ids[1..][..m], ids[..m + 1];
    forall q: LocalSep ensures Names(lseps, all, q) <==> q == p || Names(lseps, rest, q) {
      NamesFirst(lseps, all, q);
      assert all[1..] == rest;
    }
  }

  lemma NamesFirst(lseps: seq<LocalSep>, ids: seq<byte>, p: LocalSep)
    requires ids != []
    ensures Names(lseps, ids, p) <==> EndAt(lseps, ids[0]) == Some(p) || Names(lseps, ids[1..], p)
  {
    if Names(lseps, ids[1..], p) {
      var k :| 0 <= k < |ids[1..]| && EndAt(lseps, ids[1..][k]) == Some(p);
      assert EndAt(lseps, ids[k + 1]) == Some(p);
    }
    if Names(lseps, ids, p) {
      var k :| 0 <= k < |ids| && EndAt(lseps, ids[k]) == Some(p);
      if k > 0 { assert EndAt(lseps, ids[1..][k - 1]) == Some(p); }
    }
  }

  lemma SameReason(places: map<LocalSep, Place>, lseps: seq<LocalSep>, ids: seq<byte>, from: State, to: State,
                   app: Option<byte>, m: nat)
    requires from != to && ids != [] && m + 1 < |ids|
    requires EndAt(lseps, ids[0]).Some? && EndAt(lseps, ids[0]).value in places
      && places[EndAt(lseps, ids[0]).value].stream.Some?
    ensures var p := EndAt(lseps, ids[0]).value;
      StopReason(places[p := places[p].(state := to)], lseps, ids[1..], m, from, app)
        == StopReason(places, lseps, ids, m + 1, from, app)
  {
    var p, end := EndAt(lseps, ids[0]).value, EndAt(lseps, ids[m + 1]);
    assert ids[1..][m] == ids[m + 1];
    if end.Some? {
      NamesFirst(lseps, ids[..m + 1], end.value);
      assert ids[..m + 1][1..] == ids[1..][..m];
    }
  }

  // What the application answers to a configuration; it may also keep the
  // stream and answer later.
  datatype ConfAnswer = NoHandler | Refuses | Answers(err: Option<byte>) | Later

  predicate BadTransport(caps: seq<Cap>) {
    exists i :: 0 <= i < |caps| && caps[i].category == MEDIA_TRANSPORT && |caps[i].data| != 0
  }

  function ConfError(places: map<LocalSep, Place>, p: Option<LocalSep>, caps: seq<Cap>,
                     answer: ConfAnswer): Option<byte>
  {
    if p.None? || p.value !in places then Some(BAD_ACP_SEID)
    else if places[p.value].stream.Some? then Some(SEP_IN_USE)
    else if BadTransport(caps) then Some(BAD_MEDIA_TRANSPORT)
    else if answer.Refuses? then Some(UNSUPPORTED_CONFIGURATION)
    else if answer.Answers? && answer.err.Some? then Some(UNSUPPORTED_CONFIGURATION)
    else None
  }

  // A local request for the same stream loses to the peer's command.
  predicate Collides(req: Option<Req>, cmd: Signal, rseid: byte) {
    && req.Some? && (req.value.signal == cmd || cmd.Abort?) && MayLose(req.value.signal)
    && req.value.seid == rseid
  }

  predicate MayLose(signal: Signal) { signal.Open? || signal.Close? || signal.Start? || signal.Suspend? }

  // ------------------------------------------------- what a command changes

  datatype Effect =
    | NoEffect
    | Attaches(p: LocalSep, s: Stream, report: Option<bool>)
    | Forgets(rseid: byte)
    | Awaits(s: Stream)
    | Moves(p: LocalSep, state: State)
    | Walks(lseps: seq<LocalSep>, ids: seq<byte>, from: State, to: State, app: nat -> Option<byte>)

  // What the handler found before it makes the change.
  ghost predicate EffectReady(v: Shot, e: Effect) {
    match e
    case Attaches(p, s, _) => p in v.places && v.places[p].stream.None? && s !in v.streams && s.lsep == p
    case Awaits(s) => s in v.streams
    case Moves(p, state) => p in v.places && (state == Closing || state == Aborting)
    case Walks(_, _, from, to, _) => (from == Opened && to == Streaming) || (from == Streaming && to == Opened)
    case _ => true
  }

  ghost function Effected(v: Shot, e: Effect): Shot
    requires EffectReady(v, e)
  {
    match e
    case NoEffect => v
    case Attaches(p, s, report) => MovedTo(Taken(v, p, s), p, Configured, report)
    case Forgets(rseid) => v.(seps := Forget(v.seps, rseid))
    case Awaits(s) => v.(pendingOpen := Some(s))
    case Moves(p, state) => Moved(v, p, state)
    case Walks(lseps, ids, from, to, app) => v.(places := Walked(v.places, lseps, ids, from, to, app, 0).0)
  }

  lemma {:induction false} WalkedGood(v: Shot, lseps: seq<LocalSep>, ids: seq<byte>, from: State, to: State,
                                      app: nat -> Option<byte>, i: nat)
    requires Good(v)
    ensures Good(v.(places := Walked(v.places, lseps, ids, from, to, app, i).0))
    decreases |ids|
  {
    hide Good;
    assert v.(places := v.places) == v;
    if ids != [] && Refusal(v.places, lseps, ids[0], from, app(i)).None? {
      var p := EndAt(lseps, ids[0]).value;
      MovedGood(v, p, to);
      WalkedGood(Moved(v, p, to), lseps, ids[1..], from, to, app, i + 1);
    }
  }

  lemma EffectedGood(v: Shot, e: Effect)
    requires Good(v) && EffectReady(v, e)
    ensures Good(Effected(v, e))
  {
    hide Good, MovedTo, Taken, Walked;
    match e
    case Attaches(p, s, report) =>
      TakenGood(v, p, s);
      TakenPlace(v, p, s);
      MovedToGood(Taken(v, p, s), p, Configured, report);
    case Forgets(rseid) => ForgetsGood(v, rseid);
    case Awaits(s) => PendingOpenGood(v, s);
    case Moves(p, state) => MovedGood(v, p, state);
    case Walks(lseps, ids, from, to, app) => WalkedGood(v, lseps, ids, from, to, app, 0);
    case NoEffect =>
  }

  lemma TakenPlace(v: Shot, p: LocalSep, s: Stream)
    requires p in v.places
    ensures p in Taken(v, p, s).places
  {}

  // SET_CONFIGURATION, once it is known what the application says; sent is
  // whether the acceptance could be sent, made the stream made for it.
  ghost function ConfEffect(v: Shot, lseps: seq<LocalSep>, payload: seq<byte>, answer: ConfAnswer, sent: bool,
                            made: Option<Stream>, report: Option<bool>): Effect
  {
    if |payload| < 2 then NoEffect
    else
      var p := EndAt(lseps, payload[0]);
      if p.None? || p.value !in v.places || v.places[p.value].stream.Some? then NoEffect
      else if BadTransport(ReadAll(payload[2..]).0) || answer.Refuses? then Forgets(payload[1] / 4)
      else if answer.Later? || (answer.Answers? && answer.err.Some?) then NoEffect
      else if !sent then Forgets(payload[1] / 4)
      else if made.Some? then Attaches(p.value, made.value, report)
      else NoEffect
  }

  // Whether the session lives on.
  predicate ConfLives(v: Shot, lseps: seq<LocalSep>, payload: seq<byte>, answer: ConfAnswer, sent: bool) {
    |payload| >= 2 &&
    var error := ConfError(v.places, EndAt(lseps, payload[0]), ReadAll(payload[2..]).0, answer);
    sent || (error.None? && !answer.NoHandler?) || (answer.Answers? && error == Some(UNSUPPORTED_CONFIGURATION))
  }

  predicate CommandLives(v: Shot, lseps: seq<LocalSep>, signal: Signal, payload: seq<byte>, answer: ConfAnswer,
                         sent: bool)
  {
    match signal
    case SetConfiguration => ConfLives(v, lseps, payload, answer, sent)
    case Open | Start | Close | Suspend | GetConfiguration => |payload| >= 1 && sent
    case Abort =>
      && |payload| >= 1
      && var p := EndAt(lseps, payload[0]); sent || p.None? || p.value !in v.places || v.places[p.value].stream.None?
    case DelayReport => |payload| >= 3 && sent
    case _ => sent
  }

  // The effect of a command from what the session holds, the octets and the
  // application's answers; sent is whether the acceptance could be sent, made
  // the stream made for a configuration, report what becomes of its delay report.
  ghost function CommandEffect(v: Shot, lseps: seq<LocalSep>, signal: Signal, payload: seq<byte>, answer: ConfAnswer,
                               app: nat -> Option<byte>, sent: bool, made: Option<Stream>, report: Option<bool>): Effect
  {
    if |payload| < 1 then NoEffect
    else
      var p := EndAt(lseps, payload[0]);
      match signal
      case SetConfiguration => ConfEffect(v, lseps, payload, answer, sent, made, report)
      case Open =>
        if OpenError(v.places, p, app(0)).Some? || v.places[p.value].stream.None? || !sent then NoEffect
        else Awaits(v.places[p.value].stream.value)
      case Close => if CloseError(v.places, p, app(0)).Some? then NoEffect else Moves(p.value, Closing)
      case Abort =>
        if p.None? || p.value !in v.places || v.places[p.value].stream.None? || !sent then NoEffect
        else Moves(p.value, Aborting)
      case Start => Walks(lseps, payload, Opened, Streaming, app)
      case Suspend => Walks(lseps, payload, Streaming, Opened, app)
      case _ => NoEffect
  }

  // Whether the outstanding request loses to the command.
  ghost predicate CommandMarks(v: Shot, lseps: seq<LocalSep>, signal: Signal, payload: seq<byte>,
                               app: nat -> Option<byte>)
  {
    |payload| >= 1 &&
    var p := EndAt(lseps, payload[0]);
    match signal
    case Open =>
      OpenError(v.places, p, app(0)).None? && v.places[p.value].stream.Some?
      && Collides(v.q.outstanding, signal, v.places[p.value].stream.value.rseid)
    case Close =>
      CloseError(v.places, p, app(0)).None?
      && Collides(v.q.outstanding, signal, v.places[p.value].stream.value.rseid)
    case Abort =>
      p.Some? && p.value in v.places && v.places[p.value].stream.Some?
      && Collides(v.q.outstanding, signal, v.places[p.value].stream.value.rseid)
    case Start =>
      AnyCollides(v.q.outstanding, signal, WalkedStreams(v.places, lseps, payload, Opened, Streaming, app, 0))
    case Suspend =>
      AnyCollides(v.q.outstanding, signal, WalkedStreams(v.places, lseps, payload, Streaming, Opened, app, 0))
    case _ => false
  }

  predicate AnyCollides(req: Option<Req>, cmd: Signal, streams: seq<Stream>) {
    exists s :: s in streams && Collides(req, cmd, s.rseid)
  }

  lemma WalkStep(places: map<LocalSep, Place>, lseps: seq<LocalSep>, ids: seq<byte>, from: State, to: State,
                 app: nat -> Option<byte>, i: nat)
    requires i < |ids|
    ensures var why := Refusal(places, lseps, ids[i], from, app(i));
      if why.Some? then
        && Walked(places, lseps, ids[i..], from, to, app, i) == (places, Some((ids[i] / 4, why.value)))
        && WalkedStreams(places, lseps, ids[i..], from, to, app, i) == []
      else
        var p := EndAt(lseps, ids[i]).value;
        var next := places[p := places[p].(state := to)];
        && Walked(places, lseps, ids[i..], from, to, app, i) == Walked(next, lseps, ids[i + 1..], from, to, app, i + 1)
        && WalkedStreams(places, lseps, ids[i..], from, to, app, i)
          == [places[p].stream.value] + WalkedStreams(next, lseps, ids[i + 1..], from, to, app, i + 1)
  {
    assert ids[i..][0] == ids[i] && ids[i..][1..] == ids[i + 1..];
  }

  lemma WalkEnd(places: map<LocalSep, Place>, lseps: seq<LocalSep>, ids: seq<byte>, from: State, to: State,
                app: nat -> Option<byte>)
    ensures Walked(places, lseps, ids[|ids|..], from, to, app, |ids|) == (places, None)
    ensures WalkedStreams(places, lseps, ids[|ids|..], from, to, app, |ids|) == []
  {}

  // The walk after i of the end points went.
  ghost predicate OnWalk(v: Shot, w: Shot, went: seq<Stream>, lseps: seq<LocalSep>, ids: seq<byte>, from: State,
                         to: State, app: nat -> Option<byte>, i: nat)
  {
    && i <= |ids| && w == v.(places := w.places)
    && Walked(w.places, lseps, ids[i..], from, to, app, i) == Walked(v.places, lseps, ids, from, to, app, 0)
    && went + WalkedStreams(w.places, lseps, ids[i..], from, to, app, i)
      == WalkedStreams(v.places, lseps, ids, from, to, app, 0)
  }

  lemma WalkStarts(v: Shot, lseps: seq<LocalSep>, ids: seq<byte>, from: State, to: State, app: nat -> Option<byte>)
    ensures OnWalk(v, v, [], lseps, ids, from, to, app, 0)
  {
    assert ids[0..] == ids;
    var all := WalkedStreams(v.places, lseps, ids, from, to, app, 0);
    assert [] + all == all;
  }

  lemma WalkGoesOn(v: Shot, w: Shot, went: seq<Stream>, lseps: seq<LocalSep>, ids: seq<byte>, from: State, to: State,
                   app: nat -> Option<byte>, i: nat)
    requires OnWalk(v, w, went, lseps, ids, from, to, app, i) && i < |ids|
    ensures var why := Refusal(w.places, lseps, ids[i], from, app(i));
      if why.Some? then
        && Walked(v.places, lseps, ids, from, to, app, 0) == (w.places, Some((ids[i] / 4, why.value)))
        && WalkedStreams(v.places, lseps, ids, from, to, app, 0) == went
      else
        && EndAt(lseps, ids[i]).Some?
        && var p := EndAt(lseps, ids[i]).value;
           && p in w.places && w.places[p].stream.Some?
           && OnWalk(v, w.(places := w.places[p := w.places[p].(state := to)]), went + [w.places[p].stream.value],
                     lseps, ids, from, to, app, i + 1)
  {
    hide Walked, WalkedStreams, Refusal, EndAt;
    WalkStep(w.places, lseps, ids, from, to, app, i);
    if Refusal(w.places, lseps, ids[i], from, app(i)).Some? {
      assert went + [] == went;
    } else {
      GoesFrom(w.places, lseps, ids[i], from, app(i));
      var p := EndAt(lseps, ids[i]).value;
      AppendOne(went, w.places[p].stream.value,
                WalkedStreams(w.places[p := w.places[p].(state := to)], lseps, ids[i + 1..], from, to, app, i + 1));
    }
  }

  lemma WalkEnds(v: Shot, w: Shot, went: seq<Stream>, lseps: seq<LocalSep>, ids: seq<byte>, from: State, to: State,
                 app: nat -> Option<byte>)
    requires OnWalk(v, w, went, lseps, ids, from, to, app, |ids|)
    ensures w == v.(places := Walked(v.places, lseps, ids, from, to, app, 0).0)
    ensures Walked(v.places, lseps, ids, from, to, app, 0).1 == None
    ensures WalkedStreams(v.places, lseps, ids, from, to, app, 0) == went
  {
    hide Walked, WalkedStreams;
    WalkEnd(w.places, lseps, ids, from, to, app);
    assert went + [] == went;
  }

  lemma OnlyPlaces(v: Shot, w: Shot, went: seq<Stream>, lseps: seq<LocalSep>, ids: seq<byte>, from: State, to: State,
                   app: nat -> Option<byte>, i: nat)
    requires OnWalk(v, w, went, lseps, ids, from, to, app, i)
    ensures w == v.(places := w.places)
  {}

  lemma MarksOutstanding(v: Shot, lseps: seq<LocalSep>, signal: Signal, payload: seq<byte>, app: nat -> Option<byte>)
    ensures CommandMarks(v, lseps, signal, payload, app) ==>
      v.q.outstanding.Some? && MayLose(v.q.outstanding.value.signal)
  {}

  lemma NoneCollides(req: Option<Req>, cmd: Signal)
    ensures !AnyCollides(req, cmd, [])
  {}

  lemma OneMoreCollides(req: Option<Req>, cmd: Signal, streams: seq<Stream>, s: Stream)
    ensures AnyCollides(req, cmd, streams + [s]) <==> AnyCollides(req, cmd, streams) || Collides(req, cmd, s.rseid)
  {
    hide Collides;
    assert forall u :: u in streams + [s] <==> u in streams || u == s;
  }
}
