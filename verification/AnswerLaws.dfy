// What an answer of the peer comes to, from its kind, its octets and the
// outstanding request (avdtp.c).
module AnswerLaws {
  import opened Options
  import opened Bytes
  import opened AvdtpMessages
  import opened Capabilities
  import opened Discovery
  import opened SessionState
  import opened SessionRuns
  import opened AvdtpSession

  // A rejection carries an error code, and what it is about unless that is an
  // end point or none; a rejected ABORT the session does not survive.
  lemma RejectionPlainly(v: Shot, payload: seq<byte>, version: nat, report: Option<bool>, next: bool)
    requires v.q.outstanding.Some?
    ensures var signal := v.q.outstanding.value.signal;
      var least :=
        if signal in {SetConfiguration, Reconfigure, Start, Suspend, Close, Signal.DelayReport} then 2
        else if signal == SecurityControl then 0 else 1;
      AnswerChange(v, Rejected, payload, version, report, next) ==
        if signal == Abort || |payload| < least then AnswerFails
        else if signal in {Signal.Discover, GetCapabilities, GetAllCapabilities} then Settles(Declines, next)
        else Settles(Disregarded, next)
  {}

  // An acceptance of DISCOVER names the end points to ask about, since version
  // 1.3 for all their capabilities; one of a capability request needs six octets
  // and lists them; any other is about the stream of the request, if it has one.
  lemma AcceptancePlainly(v: Shot, payload: seq<byte>, version: nat, report: Option<bool>, next: bool)
    requires v.q.outstanding.Some?
    ensures var r, caps := v.q.outstanding.value, ReadAll(payload).0;
      var change := AnswerChange(v, Accepted, payload, version, report, next);
      if r.signal == Signal.Discover then
        change == Settles(Finds(Queries(Infos(payload), v.seps.Keys, Rseids(v.streams)),
                                if version >= 0x0103 then GetAllCapabilities else GetCapabilities), next)
      else if r.signal in {GetCapabilities, GetAllCapabilities} then
        change == if |payload| < 6 then AnswerFails
                  else Settles(Describes(r.seid, caps, exists k :: 0 <= k < |caps| && caps[k].category == 8), next)
      else if r.stream.Some? then change == Settles(OnStream(r.signal, r.stream.value, report), next)
      else change == Settles(Disregarded, next)
    ensures forall id :: id in Rseids(v.streams) <==> exists k :: 0 <= k < |v.streams| && v.streams[k].rseid == id
  {
    hide Queries, Infos, ReadAll;
    var streams := v.streams;
    forall id | id in Rseids(streams) ensures exists k :: 0 <= k < |streams| && streams[k].rseid == id {
      var s :| s in streams && s.rseid == id;
    }
  }

  // Any other answer only ends the request.
  lemma OtherAnswers(v: Shot, kind: Kind, payload: seq<byte>, version: nat, report: Option<bool>, next: bool)
    requires v.q.outstanding.Some? && (kind == Command || kind == GeneralReject)
    ensures AnswerChange(v, kind, payload, version, report, next) == Settles(Disregarded, next)
  {}

  // The version a configuration with delay reporting stands for.
  lemma VersionRaised(version: nat, caps: seq<Cap>)
    ensures var reports := exists k :: 0 <= k < |caps| && caps[k].category == 8;
      var odd := exists k :: 0 <= k < |caps| && caps[k].category == 1 && caps[k].data != [];
      Raised(version, caps) == if reports && !odd && version < 0x0103 then 0x0103 else version
  {}
}
