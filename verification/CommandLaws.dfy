// The answers to the peer's commands in plain terms: which end point an octet
// names, when a command is accepted, why it is not, and what it changes (avdtp.c).
module CommandLaws {
  import opened Options
  import opened Bytes
  import opened AvdtpMessages
  import opened Capabilities
  import opened SessionState
  import opened SessionCommands

  // The i-th end point is the first with this number.
  ghost predicate FirstAt(lseps: seq<LocalSep>, id: int, i: nat) {
    i < |lseps| && lseps[i].seid == id && forall j :: 0 <= j < i ==> lseps[j].seid != id
  }

  ghost predicate NoneHas(lseps: seq<LocalSep>, id: int) { forall j :: 0 <= j < |lseps| ==> lseps[j].seid != id }

  // An octet names an end point by its upper six bits.
  lemma {:induction false} Named(lseps: seq<LocalSep>, octet: byte)
    ensures forall i: nat :: FirstAt(lseps, octet / 4, i) ==> EndAt(lseps, octet) == Some(lseps[i])
    ensures NoneHas(lseps, octet / 4) ==> EndAt(lseps, octet) == None
    ensures NoneHas(lseps, octet / 4) || exists i: nat :: FirstAt(lseps, octet / 4, i)
  {
    FirstFound(lseps, octet / 4);
  }

  lemma {:induction false} FirstFound(lseps: seq<LocalSep>, id: byte)
    ensures forall i: nat :: FirstAt(lseps, id, i) ==> FirstWithSeid(lseps, id) == Some(lseps[i])
    ensures NoneHas(lseps, id) ==> FirstWithSeid(lseps, id) == None
    ensures NoneHas(lseps, id) || exists i: nat :: FirstAt(lseps, id, i)
  {
    if lseps != [] && lseps[0].seid == id {
      assert FirstAt(lseps, id, 0);
    } else if lseps != [] {
      FirstFound(lseps[1..], id);
      forall i: nat | FirstAt(lseps, id, i) ensures FirstAt(lseps[1..], id, i - 1) {}
      if i: nat :| FirstAt(lseps[1..], id, i) { assert FirstAt(lseps, id, i + 1); }
    }
  }

  // The outstanding request is of this kind, for the peer end point of the stream.
  ghost predicate AskedAlready(v: Shot, signals: set<Signal>, s: Option<Stream>) {
    && v.q.outstanding.Some? && s.Some?
    && v.q.outstanding.value.signal in signals && v.q.outstanding.value.seid == s.value.rseid
  }

  // OPEN is accepted exactly in CONFIGURED with consent. Then the stream is
  // awaited, and an OPEN of ours for it is lost.
  lemma OpenPlainly(v: Shot, lseps: seq<LocalSep>, payload: seq<byte>, answer: ConfAnswer, app: nat -> Option<byte>,
                    sent: bool, made: Option<Stream>, report: Option<bool>, i: nat)
    requires Good(v) && |payload| >= 1 && FirstAt(lseps, payload[0] / 4, i) && lseps[i] in v.places
    ensures var p := v.places[lseps[i]];
      var accepted := p.state == Configured && app(0) == None;
      var e := CommandEffect(v, lseps, Open, payload, answer, app, sent, made, report);
      && OpenError(v.places, EndAt(lseps, payload[0]), app(0)) == (if p.state != Configured then Some(0x31) else app(0))
      && EffectReady(v, e) && Effected(v, e) == (if accepted && sent then v.(pendingOpen := p.stream) else v)
      && (CommandMarks(v, lseps, Open, payload, app) <==> accepted && AskedAlready(v, {Open}, p.stream))
      && (CommandLives(v, lseps, Open, payload, answer, sent) <==> sent)
  {
    Named(lseps, payload[0]);
    hide EndAt;
  }

  // CLOSE is accepted exactly in OPEN and STREAMING with consent; the end point
  // is then CLOSING, and a CLOSE of ours for its stream is lost.
  lemma ClosePlainly(v: Shot, lseps: seq<LocalSep>, payload: seq<byte>, answer: ConfAnswer, app: nat -> Option<byte>,
                     sent: bool, made: Option<Stream>, report: Option<bool>, i: nat)
    requires Good(v) && |payload| >= 1 && FirstAt(lseps, payload[0] / 4, i) && lseps[i] in v.places
    ensures var p := v.places[lseps[i]];
      var open := p.stream.Some? && (p.state == Opened || p.state == Streaming);
      var e := CommandEffect(v, lseps, Close, payload, answer, app, sent, made, report);
      && CloseError(v.places, EndAt(lseps, payload[0]), app(0))
        == (if p.stream == None then Some(0x12) else if !open then Some(0x31) else app(0))
      && EffectReady(v, e)
      && Effected(v, e)
        == (if open && app(0) == None then v.(places := v.places[lseps[i] := p.(state := Closing)]) else v)
      && (CommandMarks(v, lseps, Close, payload, app) <==> open && app(0) == None && AskedAlready(v, {Close}, p.stream))
      && (CommandLives(v, lseps, Close, payload, answer, sent) <==> sent)
  {
    Named(lseps, payload[0]);
    hide EndAt, Good;
  }

  // ABORT is accepted for any attached stream, and for it any of our requests
  // that opens, starts, suspends or closes it is lost. Otherwise there is no answer.
  lemma AbortPlainly(v: Shot, lseps: seq<LocalSep>, payload: seq<byte>, answer: ConfAnswer, app: nat -> Option<byte>,
                     sent: bool, made: Option<Stream>, report: Option<bool>, i: nat)
    requires Good(v) && |payload| >= 1 && FirstAt(lseps, payload[0] / 4, i) && lseps[i] in v.places
    ensures var p := v.places[lseps[i]];
      var e := CommandEffect(v, lseps, Abort, payload, answer, app, sent, made, report);
      && EffectReady(v, e)
      && Effected(v, e)
        == (if p.stream.Some? && sent then v.(places := v.places[lseps[i] := p.(state := Aborting)]) else v)
      && (CommandMarks(v, lseps, Abort, payload, app) <==> AskedAlready(v, {Open, Close, Start, Suspend}, p.stream))
      && (CommandLives(v, lseps, Abort, payload, answer, sent) <==> sent || p.stream == None)
  {
    Named(lseps, payload[0]);
    hide EndAt, Good;
  }

  // DELAY_REPORT is taken in CONFIGURED, OPEN and STREAMING.
  lemma DelayPlainly(v: Shot, lseps: seq<LocalSep>, payload: seq<byte>, answer: ConfAnswer, app: Option<byte>,
                     sent: bool, i: nat)
    requires |payload| >= 1 && FirstAt(lseps, payload[0] / 4, i) && lseps[i] in v.places
    ensures var p := v.places[lseps[i]];
      && DelayError(v.places, EndAt(lseps, payload[0]), app)
        == (if p.stream == None then Some(0x12)
            else if p.state == Configured || p.state == Opened || p.state == Streaming then app else Some(0x31))
      && (CommandLives(v, lseps, Signal.DelayReport, payload, answer, sent) <==> sent && |payload| >= 3)
  {
    Named(lseps, payload[0]);
    hide EndAt;
  }

  // Some media transport capability is not empty.
  ghost predicate OddTransport(caps: seq<Cap>) {
    exists k :: 0 <= k < |caps| && caps[k].category == 1 && |caps[k].data| > 0
  }

  // SET_CONFIGURATION needs a free end point, an empty media transport
  // capability and the application. What it refuses or turns down makes the
  // peer's end point forget its stream; so does an acceptance that is not sent.
  lemma ConfigurationPlainly(v: Shot, lseps: seq<LocalSep>, payload: seq<byte>, answer: ConfAnswer,
                             app: nat -> Option<byte>, sent: bool, s: Stream, report: Option<bool>, i: nat)
    requires Good(v) && |payload| >= 2 && FirstAt(lseps, payload[0] / 4, i) && lseps[i] in v.places
    requires s !in v.streams && s.lsep == lseps[i]
    ensures var p, caps := v.places[lseps[i]], ReadAll(payload[2..]).0;
      var no := answer == Refuses || (answer.Answers? && answer.err.Some?);
      var error := ConfError(v.places, EndAt(lseps, payload[0]), caps, answer);
      var e := CommandEffect(v, lseps, SetConfiguration, payload, answer, app, sent,
                             if error == None then Some(s) else None, report);
      && error == (if p.stream.Some? then Some(0x13) else if OddTransport(caps) then Some(0x23)
                   else if no then Some(0x29) else None)
      && EffectReady(v, e)
      && (p.stream.Some? ==> Effected(v, e) == v)
      && (p.stream == None && (OddTransport(caps) || answer == Refuses) ==>
           Effected(v, e) == v.(seps := Forget(v.seps, payload[1] / 4)))
      && (p.stream == None && !OddTransport(caps) && answer != Refuses ==>
           if no || answer == Later then Effected(v, e) == v
           else if sent then
             && Effected(v, e).places == v.places[lseps[i] := Place(Configured, true, Some(s))]
             && Effected(v, e).streams == v.streams + [s] && Effected(v, e).seps == v.seps
           else Effected(v, e) == v.(seps := Forget(v.seps, payload[1] / 4)))
      && (CommandLives(v, lseps, SetConfiguration, payload, answer, sent) <==>
           sent || (p.stream == None && !OddTransport(caps) && (answer.Answers? || answer.Later?)))
      && !CommandMarks(v, lseps, SetConfiguration, payload, app)
  {
    Named(lseps, payload[0]);
    hide EndAt, ReadAll, Good, Forget;
  }

  // The peer's end point with this number, if known, has no stream any more.
  lemma Forgotten(seps: map<byte, RemoteSep>, id: byte)
    ensures Forget(seps, id).Keys == seps.Keys
    ensures id in seps ==> Forget(seps, id)[id] == RemoteSep(None, seps[id].caps, seps[id].delayReporting)
    ensures forall other :: other in seps && other != id ==> Forget(seps, id)[other] == seps[other]
  {}

  // A number no end point has: nothing changes, and only ABORT gets no answer.
  lemma NoSuchEnd(v: Shot, lseps: seq<LocalSep>, signal: Signal, payload: seq<byte>, answer: ConfAnswer,
                  app: nat -> Option<byte>, sent: bool, made: Option<Stream>, report: Option<bool>)
    requires |payload| >= 1 && NoneHas(lseps, payload[0] / 4)
    requires signal in {Open, Close, Abort, Signal.DelayReport, SetConfiguration}
    ensures CommandEffect(v, lseps, signal, payload, answer, app, sent, made, report) == NoEffect
    ensures !CommandMarks(v, lseps, signal, payload, app)
    ensures OpenError(v.places, EndAt(lseps, payload[0]), app(0)) == Some(0x12)
    ensures CloseError(v.places, EndAt(lseps, payload[0]), app(0)) == Some(0x12)
    ensures DelayError(v.places, EndAt(lseps, payload[0]), app(0)) == Some(0x12)
    ensures forall caps :: ConfError(v.places, EndAt(lseps, payload[0]), caps, answer) == Some(0x12)
    ensures CommandLives(v, lseps, signal, payload, answer, sent) <==>
      match signal
      case Abort => true
      case SetConfiguration => sent && |payload| >= 2
      case DelayReport => sent && |payload| >= 3
      case _ => sent
  {
    Named(lseps, payload[0]);
    hide EndAt, ReadAll;
  }

  // Any other command changes nothing; one too short ends the session.
  lemma OtherCommands(v: Shot, lseps: seq<LocalSep>, signal: Signal, payload: seq<byte>, answer: ConfAnswer,
                      app: nat -> Option<byte>, sent: bool, made: Option<Stream>, report: Option<bool>)
    ensures signal !in {SetConfiguration, Open, Start, Close, Suspend, Abort} ==>
      CommandEffect(v, lseps, signal, payload, answer, app, sent, made, report) == NoEffect
      && !CommandMarks(v, lseps, signal, payload, app)
    ensures signal in {Discover, GetCapabilities, GetAllCapabilities, Reconfigure, SecurityControl} ==>
      (CommandLives(v, lseps, signal, payload, answer, sent) <==> sent)
    ensures signal == GetConfiguration ==>
      (CommandLives(v, lseps, signal, payload, answer, sent) <==> sent && |payload| >= 1)
    ensures signal in {Open, Start, Close, Suspend, Abort} && payload == [] ==>
      !CommandLives(v, lseps, signal, payload, answer, sent)
    ensures signal == SetConfiguration && |payload| < 2 ==> !CommandLives(v, lseps, signal, payload, answer, sent)
  {
    hide ReadAll;
  }

  // ------------------------------------------------- START and SUSPEND

  // The octet names the j-th end point, and that has a stream.
  ghost predicate Stands(places: map<LocalSep, Place>, lseps: seq<LocalSep>, octet: byte, j: nat) {
    FirstAt(lseps, octet / 4, j) && lseps[j] in places && places[lseps[j]].stream.Some?
  }

  // It does, the end point is in this state, and the application consents.
  ghost predicate MayGo(places: map<LocalSep, Place>, lseps: seq<LocalSep>, octet: byte, from: State,
                        app: Option<byte>)
  {
    app == None && exists j: nat :: Stands(places, lseps, octet, j) && places[lseps[j]].state == from
  }

  // The first n octets do, and no two of them name the same end point.
  ghost predicate AllMayGo(places: map<LocalSep, Place>, lseps: seq<LocalSep>, ids: seq<byte>, from: State,
                           app: nat -> Option<byte>, n: nat)
  {
    && n <= |ids|
    && (forall k :: 0 <= k < n ==> MayGo(places, lseps, ids[k], from, app(k)))
    && (forall j, k :: 0 <= j < k < n ==> ids[j] / 4 != ids[k] / 4)
  }

  // One of the first n octets names this end point number.
  ghost predicate Among(ids: seq<byte>, n: nat, id: int) { exists k :: 0 <= k < n <= |ids| && ids[k] / 4 == id }

  // Why the octet after the first n is turned down: no such end point with a
  // stream, one that went already or is in another state, or what the application says.
  ghost predicate TurnedDown(places: map<LocalSep, Place>, lseps: seq<LocalSep>, ids: seq<byte>, n: nat, from: State,
                             app: Option<byte>, why: byte)
    requires n < |ids|
  {
    if forall j: nat :: !Stands(places, lseps, ids[n], j) then why == 0x12
    else if Among(ids, n, ids[n] / 4)
            || forall j: nat :: Stands(places, lseps, ids[n], j) ==> places[lseps[j]].state != from then why == 0x31
    else app == Some(why)
  }

  lemma StandsMeans(places: map<LocalSep, Place>, lseps: seq<LocalSep>, octet: byte)
    ensures forall j: nat :: Stands(places, lseps, octet, j) ==>
      EndAt(lseps, octet) == Some(lseps[j]) && lseps[j] in places && places[lseps[j]].stream.Some?
    ensures var p := EndAt(lseps, octet);
      (p.Some? && p.value in places && places[p.value].stream.Some?) ==>
      exists j: nat :: Stands(places, lseps, octet, j) && lseps[j] == p.value
    ensures EndAt(lseps, octet).Some? ==> EndAt(lseps, octet).value.seid == octet / 4
  {
    Named(lseps, octet);
    if EndAt(lseps, octet).Some? && EndAt(lseps, octet).value in places
      && places[EndAt(lseps, octet).value].stream.Some? {
      var j: nat :| FirstAt(lseps, octet / 4, j);
      assert Stands(places, lseps, octet, j);
    }
  }

  lemma RefusalMeans(places: map<LocalSep, Place>, lseps: seq<LocalSep>, octet: byte, from: State, app: Option<byte>)
    ensures Refusal(places, lseps, octet, from, app).None? <==> MayGo(places, lseps, octet, from, app)
    ensures Refusal(places, lseps, octet, from, app) ==
      if forall j: nat :: !Stands(places, lseps, octet, j) then Some(0x12)
      else if forall j: nat :: Stands(places, lseps, octet, j) ==> places[lseps[j]].state != from then Some(0x31)
      else app
  {
    StandsMeans(places, lseps, octet);
    hide Stands, EndAt;
  }

  lemma AllGoMeans(places: map<LocalSep, Place>, lseps: seq<LocalSep>, ids: seq<byte>, from: State,
                   app: nat -> Option<byte>, n: nat)
    requires n <= |ids|
    ensures AllGo(places, lseps, ids[..n], from, app, 0) <==> AllMayGo(places, lseps, ids, from, app, n)
  {
    hide Stands, EndAt, Refusal, MayGo;
    forall k | 0 <= k < n
      ensures Refusal(places, lseps, ids[..n][k], from, app(0 + k)).None?
        <==> MayGo(places, lseps, ids[k], from, app(k))
    {
      RefusalMeans(places, lseps, ids[k], from, app(k));
    }
    if forall k :: 0 <= k < n ==> MayGo(places, lseps, ids[k], from, app(k)) {
      forall j, k | 0 <= j < k < n
        ensures EndAt(lseps, ids[..n][j]) != EndAt(lseps, ids[..n][k]) <==> ids[j] / 4 != ids[k] / 4
      {
        SameEnd(places, lseps, ids[j], ids[k], from, app(j), app(k));
      }
    }
  }

  lemma SameEnd(places: map<LocalSep, Place>, lseps: seq<LocalSep>, a: byte, b: byte, from: State, x: Option<byte>,
                y: Option<byte>)
    requires MayGo(places, lseps, a, from, x) && MayGo(places, lseps, b, from, y)
    ensures EndAt(lseps, a) == EndAt(lseps, b) <==> a / 4 == b / 4
  {
    StandsMeans(places, lseps, a);
    StandsMeans(places, lseps, b);
  }

  // One of the first n octets names this end point.
  ghost predicate Goes(places: map<LocalSep, Place>, lseps: seq<LocalSep>, ids: seq<byte>, n: nat, p: LocalSep) {
    n <= |ids| && exists k, j: nat :: 0 <= k < n && Stands(places, lseps, ids[k], j) && lseps[j] == p
  }

  lemma MovedMeans(places: map<LocalSep, Place>, lseps: seq<LocalSep>, ids: seq<byte>, from: State, to: State,
                   app: nat -> Option<byte>, n: nat)
    requires AllMayGo(places, lseps, ids, from, app, n)
    ensures AllMoved(places, lseps, ids[..n], to).Keys == places.Keys
    ensures forall p :: p in places ==>
      AllMoved(places, lseps, ids[..n], to)[p] ==
        if Goes(places, lseps, ids, n, p) then places[p].(state := to) else places[p]
  {
    hide Stands, EndAt, MayGo, Names;
    forall p | p in places
      ensures Names(lseps, ids[..n], p) <==> Goes(places, lseps, ids, n, p)
    {
      NamedAmong(places, lseps, ids, from, app, n, p);
    }
  }

  lemma NamedAmong(places: map<LocalSep, Place>, lseps: seq<LocalSep>, ids: seq<byte>, from: State,
                   app: nat -> Option<byte>, n: nat, p: LocalSep)
    requires AllMayGo(places, lseps, ids, from, app, n)
    ensures Names(lseps, ids[..n], p) <==> Goes(places, lseps, ids, n, p)
  {
    hide EndAt;
    if k :| 0 <= k < n && EndAt(lseps, ids[..n][k]) == Some(p) {
      assert MayGo(places, lseps, ids[k], from, app(k));
      StandsMeans(places, lseps, ids[k]);
    }
    if k, j: nat :| 0 <= k < n && Stands(places, lseps, ids[k], j) && lseps[j] == p {
      StandsMeans(places, lseps, ids[k]);
      assert EndAt(lseps, ids[..n][k]) == Some(p);
    }
  }

  lemma StopMeans(places: map<LocalSep, Place>, lseps: seq<LocalSep>, ids: seq<byte>, from: State,
                  app: nat -> Option<byte>, n: nat)
    requires AllMayGo(places, lseps, ids, from, app, n) && n < |ids|
    requires !AllMayGo(places, lseps, ids, from, app, n + 1)
    ensures StopReason(places, lseps, ids, n, from, app(n)).0 == ids[n] / 4
    ensures TurnedDown(places, lseps, ids, n, from, app(n), StopReason(places, lseps, ids, n, from, app(n)).1)
  {
    hide Stands, Refusal, MayGo;
    RefusalMeans(places, lseps, ids[n], from, app(n));
    StandsMeans(places, lseps, ids[n]);
    if Among(ids, n, ids[n] / 4) {
      var k :| 0 <= k < n && ids[k] / 4 == ids[n] / 4;
      assert MayGo(places, lseps, ids[k], from, app(k));
      GoesStands(places, lseps, ids[k], from, app(k));
      assert ids[..n][k] == ids[k] && EndAt(lseps, ids[k]) == EndAt(lseps, ids[n]);
      assert EndAt(lseps, ids[n]).Some? && Names(lseps, ids[..n], EndAt(lseps, ids[n]).value);
    } else {
      if EndAt(lseps, ids[n]).Some? && Names(lseps, ids[..n], EndAt(lseps, ids[n]).value) {
        var k :| 0 <= k < n && EndAt(lseps, ids[..n][k]) == EndAt(lseps, ids[n]);
        StandsMeans(places, lseps, ids[k]);
        assert false;
      }
      assert !MayGo(places, lseps, ids[n], from, app(n));
    }
  }

  lemma GoesStands(places: map<LocalSep, Place>, lseps: seq<LocalSep>, octet: byte, from: State, app: Option<byte>)
    requires MayGo(places, lseps, octet, from, app)
    ensures var p := EndAt(lseps, octet);
      p.Some? && p.value in places && places[p.value].stream.Some? && exists j: nat :: Stands(places, lseps, octet, j)
  {
    StandsMeans(places, lseps, octet);
  }

  lemma {:induction false} StreamsGone(places: map<LocalSep, Place>, lseps: seq<LocalSep>, ids: seq<byte>, from: State,
                                       to: State, app: nat -> Option<byte>, i: nat)
    ensures var went := WalkedStreams(places, lseps, ids, from, to, app, i);
      |went| <= |ids| && forall k :: 0 <= k < |went| ==>
        var p := EndAt(lseps, ids[k]);
        p.Some? && p.value in places && places[p.value].stream == Some(went[k])
    decreases |ids|
  {
    if ids != [] && Refusal(places, lseps, ids[0], from, app(i)).None? {
      GoesFrom(places, lseps, ids[0], from, app(i));
      var p := EndAt(lseps, ids[0]).value;
      var next := places[p := places[p].(state := to)];
      StreamsGone(next, lseps, ids[1..], from, to, app, i + 1);
      var went := WalkedStreams(places, lseps, ids, from, to, app, i);
      forall k | 0 <= k < |went|
        ensures var q := EndAt(lseps, ids[k]);
          q.Some? && q.value in places && places[q.value].stream == Some(went[k])
      {
        if k > 0 { assert ids[k] == ids[1..][k - 1] && went[k] == went[1..][k - 1]; }
      }
    }
    hide EndAt, Refusal;
  }

  // Up to the first octet that is turned down the end points named go, and no
  // others; their streams went, in this order.
  lemma WalkedPlainly(places: map<LocalSep, Place>, lseps: seq<LocalSep>, ids: seq<byte>, from: State, to: State,
                      app: nat -> Option<byte>) returns (n: nat)
    requires from != to
    ensures AllMayGo(places, lseps, ids, from, app, n)
    ensures n < |ids| ==> !AllMayGo(places, lseps, ids, from, app, n + 1)
    ensures var (after, stop) := Walked(places, lseps, ids, from, to, app, 0);
      && (stop == None <==> AllMayGo(places, lseps, ids, from, app, |ids|))
      && (n < |ids| ==>
           stop.Some? && stop.value.0 == ids[n] / 4
           && TurnedDown(places, lseps, ids, n, from, app(n), stop.value.1))
      && after.Keys == places.Keys
      && (forall p :: p in places ==>
           after[p] == if Goes(places, lseps, ids, n, p) then places[p].(state := to) else places[p])
    ensures n == |WalkedStreams(places, lseps, ids, from, to, app, 0)|
  {
    hide *;
    n := WalkedExactly(places, lseps, ids, from, to, app, 0);
    AllGoMeans(places, lseps, ids, from, app, n);
    if n < |ids| {
      AllGoMeans(places, lseps, ids, from, app, n + 1);
      StopMeans(places, lseps, ids, from, app, n);
    }
    if n < |ids| && AllMayGo(places, lseps, ids, from, app, |ids|) { FewerMayGo(places, lseps, ids, from, app, n + 1); }
    MovedMeans(places, lseps, ids, from, to, app, n);
  }

  lemma FewerMayGo(places: map<LocalSep, Place>, lseps: seq<LocalSep>, ids: seq<byte>, from: State,
                   app: nat -> Option<byte>, n: nat)
    requires AllMayGo(places, lseps, ids, from, app, |ids|) && n <= |ids|
    ensures AllMayGo(places, lseps, ids, from, app, n)
  {
    hide MayGo;
  }

  // Their streams, in this order.
  lemma StreamsPlainly(places: map<LocalSep, Place>, lseps: seq<LocalSep>, ids: seq<byte>, from: State, to: State,
                       app: nat -> Option<byte>, k: nat, j: nat)
    requires k < |WalkedStreams(places, lseps, ids, from, to, app, 0)|
    ensures k < |ids|
    ensures Stands(places, lseps, ids[k], j) ==>
      places[lseps[j]].stream == Some(WalkedStreams(places, lseps, ids, from, to, app, 0)[k])
  {
    StreamsGone(places, lseps, ids, from, to, app, 0);
    StandsMeans(places, lseps, ids[k]);
    hide WalkedStreams, EndAt;
  }

  // The stream a refused START leaves marked as starting: that of an end point
  // the application was asked about.
  lemma RefusedPlainly(places: map<LocalSep, Place>, lseps: seq<LocalSep>, ids: seq<byte>, from: State, to: State,
                       app: nat -> Option<byte>) returns (n: nat)
    requires from != to
    ensures n == |WalkedStreams(places, lseps, ids, from, to, app, 0)| <= |ids|
    ensures var (after, stop) := Walked(places, lseps, ids, from, to, app, 0);
      && (n == |ids| || (forall j: nat :: !Stands(places, lseps, ids[n], j)) ==>
           RefusedStream(after, lseps, stop, from) == [])
      && (n < |ids| ==> forall j: nat :: Stands(places, lseps, ids[n], j) ==>
           RefusedStream(after, lseps, stop, from) ==
             (if places[lseps[j]].state == from && !Among(ids, n, ids[n] / 4) then [places[lseps[j]].stream.value]
              else []))
  {
    hide Walked, WalkedStreams, AllMayGo, TurnedDown, Goes;
    n := WalkedPlainly(places, lseps, ids, from, to, app);
    AllAtMost(places, lseps, ids, from, app, n);
    if n < |ids| {
      StandsMeans(places, lseps, ids[n]);
      if EndAt(lseps, ids[n]).Some? {
        GoesAmong(places, lseps, ids, from, app, n, ids[n], EndAt(lseps, ids[n]).value);
      }
    } else {
      assert AllMayGo(places, lseps, ids, from, app, |ids|);
    }
  }

  lemma AllAtMost(places: map<LocalSep, Place>, lseps: seq<LocalSep>, ids: seq<byte>, from: State,
                  app: nat -> Option<byte>, n: nat)
    requires AllMayGo(places, lseps, ids, from, app, n)
    ensures n <= |ids|
  {}

  lemma GoesAmong(places: map<LocalSep, Place>, lseps: seq<LocalSep>, ids: seq<byte>, from: State,
                  app: nat -> Option<byte>, n: nat, octet: byte, p: LocalSep)
    requires AllMayGo(places, lseps, ids, from, app, n) && EndAt(lseps, octet) == Some(p)
    ensures Goes(places, lseps, ids, n, p) <==> Among(ids, n, octet / 4)
  {
    if k, j: nat :| 0 <= k < n && Stands(places, lseps, ids[k], j) && lseps[j] == p {
      StandsMeans(places, lseps, ids[k]);
    }
    if k :| 0 <= k < n && ids[k] / 4 == octet / 4 {
      assert MayGo(places, lseps, ids[k], from, app(k));
      StandsMeans(places, lseps, ids[k]);
    }
    hide Stands;
  }

  // What START and SUSPEND make of the session, and when a START or SUSPEND of
  // ours is lost to it.
  lemma StartAndSuspend(v: Shot, lseps: seq<LocalSep>, payload: seq<byte>, answer: ConfAnswer,
                        app: nat -> Option<byte>, sent: bool, made: Option<Stream>, report: Option<bool>)
    requires |payload| >= 1
    ensures var e := CommandEffect(v, lseps, Start, payload, answer, app, sent, made, report);
      EffectReady(v, e)
      && Effected(v, e) == v.(places := Walked(v.places, lseps, payload, Opened, Streaming, app, 0).0)
    ensures var e := CommandEffect(v, lseps, Suspend, payload, answer, app, sent, made, report);
      EffectReady(v, e)
      && Effected(v, e) == v.(places := Walked(v.places, lseps, payload, Streaming, Opened, app, 0).0)
    ensures CommandMarks(v, lseps, Start, payload, app) <==>
      exists s :: s in WalkedStreams(v.places, lseps, payload, Opened, Streaming, app, 0)
                  && AskedAlready(v, {Start}, Some(s))
    ensures CommandMarks(v, lseps, Suspend, payload, app) <==>
      exists s :: s in WalkedStreams(v.places, lseps, payload, Streaming, Opened, app, 0)
                  && AskedAlready(v, {Suspend}, Some(s))
    ensures CommandLives(v, lseps, Start, payload, answer, sent) <==> sent
    ensures CommandLives(v, lseps, Suspend, payload, answer, sent) <==> sent
  {
    hide Walked, WalkedStreams, EndAt;
  }
}
