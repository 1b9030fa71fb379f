// AVRCP continuation, on values: a response longer than the control channel's
// MTU leaves in fragments that the peer draws one request at a time
// (avrcp-lib.c; AVRCP 1.5, section 6.8).
module Continuation {
  import opened Options
  import opened Bytes
  import opened Arith

  const HEADER_LENGTH: nat := 7 // AVRCP_HEADER_LENGTH
  const ABORT_CONTINUING: byte := 0x41
  const STABLE: byte := 0x0C
  const ACCEPTED: byte := 0x09
  const PANEL: byte := 0x09

  // Room for parameters in one packet.
  type Mtu = m: nat | HEADER_LENGTH < m < 0x10000 witness 48

  function Room(mtu: Mtu): nat { mtu - HEADER_LENGTH }

  datatype PacketType = Single | Start | Continuing | End

  // A part of the vector handed to AVCTP; None is an entry nobody filled in.
  datatype Packet = Packet(
    transaction: nat, code: byte, subunit: byte, pduId: byte, ptype: PacketType,
    paramsLen: nat, parts: seq<Option<seq<byte>>>)

  datatype Pending = Pending(pduId: byte, bytes: seq<byte>)

  datatype Link = Link(continuing: Option<Pending>, sent: seq<Packet>)

  // -------------------------------------------------------------- fragments

  datatype Fragment = Fragment(ptype: PacketType, body: seq<byte>)

  function FirstType(ptype: PacketType): PacketType { if ptype.Single? then Start else Continuing }
  function LastType(ptype: PacketType): PacketType { if ptype.Single? then Single else End }

  // All the packets a message takes, from a first one sent as ptype.
  function Fragments(mtu: Mtu, ptype: PacketType, bytes: seq<byte>): seq<Fragment>
    decreases |bytes|
  {
    if |bytes| <= Room(mtu) then [Fragment(LastType(ptype), bytes)]
    else [Fragment(FirstType(ptype), bytes[..Room(mtu)])] + Fragments(mtu, Continuing, bytes[Room(mtu)..])
  }

  function Bodies(fragments: seq<Fragment>): seq<byte> {
    if fragments == [] then [] else fragments[0].body + Bodies(fragments[1..])
  }

  // The receiver's side of section 6.8: a start opens a message, a continuing
  // packet adds to an open one, an end completes it; anything else is refused.
  function Reassemble(open: Option<seq<byte>>, fragments: seq<Fragment>): Option<seq<byte>>
    decreases |fragments|
  {
    if fragments == [] then None
    else
      var f, rest := fragments[0], fragments[1..];
      match f.ptype
      case Single => if open.None? && rest == [] then Some(f.body) else None
      case Start => if open.None? then Reassemble(Some(f.body), rest) else None
      case Continuing => if open.Some? then Reassemble(Some(open.value + f.body), rest) else None
      case End => if open.Some? && rest == [] then Some(open.value + f.body) else None
  }

  // Any number of continuing packets, then an end.
  predicate GoesOn(f: seq<Fragment>) {
    |f| >= 1 && f[|f| - 1].ptype == End && forall k :: 0 <= k < |f| - 1 ==> f[k].ptype == Continuing
  }

  // It takes exactly a single packet, or a start and what goes on with it, and
  // gives their bodies in order.
  lemma ReassembledExactly(f: seq<Fragment>)
    ensures Reassemble(None, f) ==
      if (|f| == 1 && f[0].ptype == Single) || (|f| >= 2 && f[0].ptype == Start && GoesOn(f[1..]))
      then Some(Bodies(f)) else None
  {
    if |f| == 1 {
      assert Bodies(f[1..]) == [] && Bodies(f) == f[0].body;
    }
    if f != [] { AfterStart(f[0].body, f[1..]); }
  }

  lemma {:induction false} AfterStart(before: seq<byte>, f: seq<Fragment>)
    ensures Reassemble(Some(before), f) == if GoesOn(f) then Some(before + Bodies(f)) else None
    decreases |f|
  {
    if |f| == 1 {
      assert Bodies(f[1..]) == [] && Bodies(f) == f[0].body;
    } else if |f| >= 2 {
      AfterStart(before + f[0].body, f[1..]);
      GoesOnFirst(f);
      assert before + f[0].body + Bodies(f[1..]) == before + Bodies(f);
      hide GoesOn;
    }
  }

  lemma GoesOnFirst(f: seq<Fragment>)
    requires |f| >= 2
    ensures GoesOn(f) <==> f[0].ptype == Continuing && GoesOn(f[1..])
  {
    assert forall k :: 0 < k < |f| - 1 ==> f[k] == f[1..][k - 1];
    assert forall k :: 0 <= k < |f[1..]| - 1 ==> f[1..][k] == f[k + 1];
  }

  lemma {:induction false} ContinuedReassembles(mtu: Mtu, before: seq<byte>, bytes: seq<byte>)
    ensures Reassemble(Some(before), Fragments(mtu, Continuing, bytes)) == Some(before + bytes)
    decreases |bytes|
  {
    if |bytes| > Room(mtu) {
      var first, rest := bytes[..Room(mtu)], bytes[Room(mtu)..];
      ContinuedReassembles(mtu, before + first, rest);
      assert Fragments(mtu, Continuing, bytes)[1..] == Fragments(mtu, Continuing, rest);
      assert before + first + rest == before + bytes by { assert first + rest == bytes; }
    }
  }

  lemma FragmentsReassemble(mtu: Mtu, bytes: seq<byte>)
    ensures Reassemble(None, Fragments(mtu, Single, bytes)) == Some(bytes)
  {
    if |bytes| > Room(mtu) {
      ContinuedReassembles(mtu, bytes[..Room(mtu)], bytes[Room(mtu)..]);
      assert Fragments(mtu, Single, bytes)[1..] == Fragments(mtu, Continuing, bytes[Room(mtu)..]);
      assert bytes[..Room(mtu)] + bytes[Room(mtu)..] == bytes;
    }
  }

  // Every packet fits the MTU, only the last one may leave room, and there are
  // as many as it takes.
  lemma {:induction false} FragmentsFit(mtu: Mtu, ptype: PacketType, bytes: seq<byte>)
    ensures var f := Fragments(mtu, ptype, bytes);
      && |f| == (if bytes == [] then 1 else (|bytes| + Room(mtu) - 1) / Room(mtu))
      && (forall i :: 0 <= i < |f| ==> HEADER_LENGTH + |f[i].body| <= mtu)
      && (forall i :: 0 <= i < |f| - 1 ==> HEADER_LENGTH + |f[i].body| == mtu)
      && Bodies(f) == bytes
    decreases |bytes|
  {
    var room := Room(mtu);
    if |bytes| > room {
      var rest := bytes[room..];
      FragmentsFit(mtu, Continuing, rest);
      assert (|rest| + room - 1) / room + 1 == (|bytes| + room - 1) / room by { DivStep(|rest| + room - 1, room); }
      assert bytes == bytes[..room] + rest;
    } else {
      if bytes != [] { CeilOne(|bytes|, room); }
      assert Fragments(mtu, ptype, bytes)[1..] == [];
    }
  }

  lemma DivStep(a: nat, d: nat)
    requires d > 0
    ensures (a + d) / d == a / d + 1
  {
    DivModUnique(a + d, d, a / d + 1, a % d);
  }

  lemma CeilOne(k: nat, d: nat)
    requires 0 < k <= d
    ensures (k + d - 1) / d == 1
  {
    if k == d { DivStep(d - 1, d); } else { DivStep(k - 1, d); }
  }

  // --------------------------------------------------------- the session's steps

  datatype Event =
    | Respond(transaction: nat, pduId: byte, bytes: seq<byte>)  // avrcp_send with one vector
    | Request(transaction: nat, params: seq<byte>)              // the peer draws the next fragment
    | Abort(transaction: nat, params: seq<byte>)

  function Send(mtu: Mtu, l: Link, transaction: nat, pduId: byte, ptype: PacketType, bytes: seq<byte>): Link {
    var first := Fragments(mtu, ptype, bytes)[0];
    Link(
      if |bytes| <= Room(mtu) then None else Some(Pending(pduId, bytes[Room(mtu)..])),
      l.sent + [Packet(transaction, STABLE, PANEL, pduId, first.ptype, |first.body|, [Some(first.body)])])
  }

  // request_continuing: one parameter byte, naming the pending PDU.
  predicate Draws(l: Link, params: seq<byte>) {
    |params| == 1 && l.continuing.Some? && l.continuing.value.pduId == params[0]
  }

  // abort_continuing: the parameter is not compared with the pending PDU.
  predicate Aborts(l: Link, params: seq<byte>) { |params| == 1 && l.continuing.Some? }

  function AbortPacket(transaction: nat): Packet {
    Packet(transaction, ACCEPTED, PANEL, ABORT_CONTINUING, Single, 0, [])
  }

  function Step(mtu: Mtu, l: Link, e: Event): Link {
    match e
    case Respond(transaction, pduId, bytes) => Send(mtu, l, transaction, pduId, Single, bytes)
    case Request(transaction, params) =>
      if Draws(l, params)
      then Send(mtu, l, transaction, params[0], Continuing, l.continuing.value.bytes)
      else l
    case Abort(transaction, params) =>
      if Aborts(l, params) then Link(None, l.sent + [AbortPacket(transaction)]) else l
  }

  // The response last begun and where its packets start; an abort discards it.
  datatype Job = Job(pduId: byte, bytes: seq<byte>, from: nat)

  function JobStep(l: Link, job: Option<Job>, e: Event): Option<Job> {
    match e
    case Respond(_, pduId, bytes) => Some(Job(pduId, bytes, |l.sent|))
    case Request(_, _) => job
    case Abort(_, params) => if Aborts(l, params) then None else job
  }

  function Run(mtu: Mtu, events: seq<Event>): (r: (Link, Option<Job>)) {
    if events == [] then (Link(None, []), None)
    else
      var (l, job) := Run(mtu, events[..|events| - 1]);
      var e := events[|events| - 1];
      (Step(mtu, l, e), JobStep(l, job, e))
  }

  function Carried(p: Packet): Fragment {
    Fragment(p.ptype, if |p.parts| == 1 && p.parts[0].Some? then p.parts[0].value else [])
  }

  function Shapes(sent: seq<Packet>): (s: seq<Fragment>)
    ensures |s| == |sent|
  {
    seq(|sent|, i requires 0 <= i < |sent| => Carried(sent[i]))
  }

  function Unsent(mtu: Mtu, l: Link): seq<Fragment> {
    if l.continuing.Some? then Fragments(mtu, Continuing, l.continuing.value.bytes) else []
  }

  // What was sent for the job and what is still to be drawn are together the
  // fragments of the whole response.
  ghost predicate OnTrack(mtu: Mtu, l: Link, job: Option<Job>) {
    match job
    case None => l.continuing.None?
    case Some(j) =>
      && j.from < |l.sent|
      && Shapes(l.sent[j.from..]) + Unsent(mtu, l) == Fragments(mtu, Single, j.bytes)
      && (l.continuing.Some? ==> l.continuing.value.pduId == j.pduId && l.continuing.value.bytes != [])
      && (forall i :: j.from <= i < |l.sent| ==> l.sent[i].pduId == j.pduId)
  }

  lemma ShapesMore(sent: seq<Packet>, from: nat, p: Packet)
    requires from <= |sent|
    ensures Shapes((sent + [p])[from..]) == Shapes(sent[from..]) + [Carried(p)]
  {}

  lemma SendOnTrack(mtu: Mtu, l: Link, transaction: nat, pduId: byte, ptype: PacketType, bytes: seq<byte>)
    ensures var next := Send(mtu, l, transaction, pduId, ptype, bytes);
      && |next.sent| == |l.sent| + 1
      && [Carried(next.sent[|l.sent|])] + Unsent(mtu, next) == Fragments(mtu, ptype, bytes)
  {}

  lemma RespondOnTrack(mtu: Mtu, l: Link, transaction: nat, pduId: byte, bytes: seq<byte>)
    ensures OnTrack(mtu, Send(mtu, l, transaction, pduId, Single, bytes), Some(Job(pduId, bytes, |l.sent|)))
  {
    SendOnTrack(mtu, l, transaction, pduId, Single, bytes);
    var next := Send(mtu, l, transaction, pduId, Single, bytes);
    assert next.sent[|l.sent|..] == [next.sent[|l.sent|]];
    assert Shapes([next.sent[|l.sent|]]) == [Carried(next.sent[|l.sent|])];
    hide Shapes, Unsent, Fragments, Carried;
  }

  lemma DrawOnTrack(mtu: Mtu, l: Link, job: Option<Job>, transaction: nat)
    requires OnTrack(mtu, l, job) && l.continuing.Some?
    ensures OnTrack(mtu,
      Send(mtu, l, transaction, l.continuing.value.pduId, Continuing, l.continuing.value.bytes), job)
  {
    hide Shapes, Carried, Fragments;
    var j, pending := job.value, l.continuing.value;
    var next := Send(mtu, l, transaction, pending.pduId, Continuing, pending.bytes);
    SendOnTrack(mtu, l, transaction, pending.pduId, Continuing, pending.bytes);
    var p := next.sent[|l.sent|];
    ShapesMore(l.sent, j.from, p);
    assert next.sent == l.sent + [p];
    calc {
      Shapes(next.sent[j.from..]) + Unsent(mtu, next);
      Shapes(l.sent[j.from..]) + [Carried(p)] + Unsent(mtu, next);
      Shapes(l.sent[j.from..]) + ([Carried(p)] + Unsent(mtu, next));
      Shapes(l.sent[j.from..]) + Unsent(mtu, l);
    }
  }

  lemma StepOnTrack(mtu: Mtu, l: Link, job: Option<Job>, e: Event)
    requires OnTrack(mtu, l, job)
    ensures OnTrack(mtu, Step(mtu, l, e), JobStep(l, job, e))
  {
    match e
    case Respond(transaction, pduId, bytes) => RespondOnTrack(mtu, l, transaction, pduId, bytes);
    case Request(transaction, params) =>
      if Draws(l, params) { DrawOnTrack(mtu, l, job, transaction); }
      hide OnTrack, Send;
    case Abort(_, _) =>
  }

  // In every run of responses, requests and aborts.
  lemma {:induction false} RunOnTrack(mtu: Mtu, events: seq<Event>)
    ensures OnTrack(mtu, Run(mtu, events).0, Run(mtu, events).1)
  {
    if events != [] {
      RunOnTrack(mtu, events[..|events| - 1]);
      var (l, job) := Run(mtu, events[..|events| - 1]);
      StepOnTrack(mtu, l, job, events[|events| - 1]);
    }
  }

  lemma {:induction false} BodiesJoin(a: seq<Fragment>, b: seq<Fragment>)
    ensures Bodies(a + b) == Bodies(a) + Bodies(b)
  {
    hide Bodies;
    if a == [] {
      assert a + b == b;
      NoBodies();
    } else {
      BodiesJoin(a[1..], b);
      assert (a + b)[1..] == a[1..] + b;
      BodiesFirst(a);
      BodiesFirst(a + b);
    }
  }

  lemma NoBodies()
    ensures Bodies([]) == []
  {}

  lemma BodiesFirst(f: seq<Fragment>)
    requires f != []
    ensures Bodies(f) == f[0].body + Bodies(f[1..])
  {}

  // At every point the pending bytes are exactly what the response still owes.
  lemma PendingIsTheUnsentRest(mtu: Mtu, events: seq<Event>)
    ensures var (l, job) := Run(mtu, events);
      && (job.None? ==> l.continuing.None?)
      && (job.Some? ==>
        job.value.from < |l.sent| &&
        Bodies(Shapes(l.sent[job.value.from..])) + (if l.continuing.Some? then l.continuing.value.bytes else [])
          == job.value.bytes)
  {
    RunOnTrack(mtu, events);
    var (l, job) := Run(mtu, events);
    if job.Some? {
      BodiesJoin(Shapes(l.sent[job.value.from..]), Unsent(mtu, l));
      FragmentsFit(mtu, Single, job.value.bytes);
      if l.continuing.Some? { FragmentsFit(mtu, Continuing, l.continuing.value.bytes); }
    }
  }

  // A response drawn to the end arrives whole: nothing is pending exactly when
  // all of its packets are out, and then the peer reassembles it.
  lemma DrawnResponseArrives(mtu: Mtu, events: seq<Event>)
    ensures var (l, job) := Run(mtu, events);
      job.Some? ==>
        job.value.from <= |l.sent| &&
        var packets := l.sent[job.value.from..];
        && (l.continuing.None? <==> |packets| == |Fragments(mtu, Single, job.value.bytes)|)
        && (l.continuing.None? ==> Reassemble(None, Shapes(packets)) == Some(job.value.bytes))
  {
    RunOnTrack(mtu, events);
    var (l, job) := Run(mtu, events);
    if job.Some? {
      FragmentsReassemble(mtu, job.value.bytes);
      assert Shapes(l.sent[job.value.from..]) + [] == Shapes(l.sent[job.value.from..]);
    }
  }

  // ------------------------------------------- what the peer sees, literally

  // How many packets a response takes.
  function Count(mtu: Mtu, bytes: seq<byte>): nat {
    if bytes == [] then 1 else (|bytes| + (mtu - 7) - 1) / (mtu - 7)
  }

  lemma PartBounds(mtu: Mtu, bytes: seq<byte>, k: nat)
    requires k < Count(mtu, bytes)
    ensures 0 <= k * (mtu - 7) <= |bytes|
    ensures k + 1 < Count(mtu, bytes) <==> (k + 1) * (mtu - 7) < |bytes|
  {
    var d, m := mtu - 7, |bytes|;
    if bytes != [] {
      CeilBounds(m, d);
      var n := (m + d - 1) / d;
      MulMono(k, n - 1, d);
      if k + 1 < n { MulMono(k + 1, n - 1, d); }
    }
  }

  lemma CeilBounds(m: nat, d: nat)
    requires m > 0 && d > 0
    ensures var n := (m + d - 1) / d; n >= 1 && (n - 1) * d < m <= n * d
  {
    var a := m + d - 1;
    var n := a / d;
    assert a == n * d + a % d && (n - 1) * d == n * d - d;
    if n <= 0 { MulMono(n, 0, d); }
  }

  // The k-th of them.
  function Part(mtu: Mtu, bytes: seq<byte>, k: nat): seq<byte>
    requires k < Count(mtu, bytes)
  {
    PartBounds(mtu, bytes, k);
    if k + 1 < Count(mtu, bytes) then bytes[k * (mtu - 7)..(k + 1) * (mtu - 7)] else bytes[k * (mtu - 7)..]
  }

  function PartType(n: nat, k: nat): PacketType {
    if n == 1 then Single else if k == 0 then Start else if k + 1 == n then End else Continuing
  }

  function PartPacket(mtu: Mtu, transaction: nat, pduId: byte, bytes: seq<byte>, k: nat): Packet
    requires k < Count(mtu, bytes)
  {
    var part := Part(mtu, bytes, k);
    Packet(transaction, 0x0C, 0x09, pduId, PartType(Count(mtu, bytes), k), |part|, [Some(part)])
  }

  // The rest after k + 1 packets.
  function Left(mtu: Mtu, pduId: byte, bytes: seq<byte>, k: nat): Option<Pending>
    requires k < Count(mtu, bytes)
  {
    PartBounds(mtu, bytes, k);
    if k + 1 < Count(mtu, bytes) then Some(Pending(pduId, bytes[(k + 1) * (mtu - 7)..])) else None
  }

  lemma Responds(mtu: Mtu, l: Link, transaction: nat, pduId: byte, bytes: seq<byte>)
    ensures Count(mtu, bytes) >= 1
    ensures Step(mtu, l, Respond(transaction, pduId, bytes))
      == Link(Left(mtu, pduId, bytes, 0), l.sent + [PartPacket(mtu, transaction, pduId, bytes, 0)])
  {
    CountPositive(mtu, bytes);
    PartBounds(mtu, bytes, 0);
  }

  lemma CountPositive(mtu: Mtu, bytes: seq<byte>)
    ensures Count(mtu, bytes) >= 1
  {
    if bytes != [] { CeilBounds(|bytes|, mtu - 7); }
  }

  // A request for the pending PDU is answered with the next part.
  lemma Drawn(mtu: Mtu, l: Link, transaction: nat, pduId: byte, bytes: seq<byte>, k: nat)
    requires k + 1 < Count(mtu, bytes) && l.continuing == Left(mtu, pduId, bytes, k)
    ensures Step(mtu, l, Request(transaction, [pduId]))
      == Link(Left(mtu, pduId, bytes, k + 1), l.sent + [PartPacket(mtu, transaction, pduId, bytes, k + 1)])
  {
    PartBounds(mtu, bytes, k);
    PartBounds(mtu, bytes, k + 1);
    var d := mtu - 7;
    assert (k + 2) * d == (k + 1) * d + d;
    var rest := bytes[(k + 1) * d..];
    if k + 2 < Count(mtu, bytes) {
      assert rest[..d] == bytes[(k + 1) * d..(k + 2) * d];
      assert rest[d..] == bytes[(k + 2) * d..];
    }
  }

  // Any other request changes nothing.
  lemma OnlyThePendingPdu(mtu: Mtu, l: Link, transaction: nat, params: seq<byte>)
    requires l.continuing.None? || params != [l.continuing.value.pduId]
    ensures Step(mtu, l, Request(transaction, params)) == l
  {}

  // An abort with one parameter, whatever it is, discards what is pending and
  // is answered; any other changes nothing.
  lemma AbortDiscards(mtu: Mtu, l: Link, transaction: nat, params: seq<byte>)
    ensures Step(mtu, l, Abort(transaction, params)) ==
      if l.continuing.Some? && |params| == 1
      then Link(None, l.sent + [Packet(transaction, 0x09, 0x09, 0x41, Single, 0, [])])
      else l
  {}

  predicate AllDraw(draws: seq<Event>, pduId: byte) {
    forall i :: 0 <= i < |draws| ==> draws[i].Request? && draws[i].params == [pduId]
  }

  // After a response and some requests for it, whatever came before: as many
  // packets are out as were drawn, each with its part, and the rest is pending.
  lemma {:induction false} DrawnOneByOne(mtu: Mtu, before: seq<Event>, transaction: nat, pduId: byte, bytes: seq<byte>,
                                         draws: seq<Event>)
    requires AllDraw(draws, pduId)
    ensures Count(mtu, bytes) >= 1
    ensures var n, was := Count(mtu, bytes), Run(mtu, before).0.sent;
      var (l, job) := Run(mtu, before + [Respond(transaction, pduId, bytes)] + draws);
      var out := Min(|draws| + 1, n);
      && job == Some(Job(pduId, bytes, |was|))
      && l.continuing == Left(mtu, pduId, bytes, out - 1)
      && |l.sent| == |was| + out && l.sent[..|was|] == was
      && (forall k :: |was| <= k < |l.sent| ==>
           l.sent[k] == PartPacket(mtu, if k == |was| then transaction else draws[k - |was| - 1].transaction,
                                   pduId, bytes, k - |was|))
    decreases |draws|
  {
    hide Left, PartPacket, Step, Count;
    CountPositive(mtu, bytes);
    var begin := before + [Respond(transaction, pduId, bytes)];
    var all := begin + draws;
    if draws == [] {
      assert all == begin && begin[..|begin| - 1] == before;
      Responds(mtu, Run(mtu, before).0, transaction, pduId, bytes);
    } else {
      var front, e := draws[..|draws| - 1], draws[|draws| - 1];
      DrawnOneByOne(mtu, before, transaction, pduId, bytes, front);
      assert all[..|all| - 1] == begin + front && all[|all| - 1] == e;
      var l := Run(mtu, begin + front).0;
      if |draws| < Count(mtu, bytes) {
        Drawn(mtu, l, e.transaction, pduId, bytes, |draws| - 1);
      } else {
        NothingLeft(mtu, pduId, bytes, Count(mtu, bytes) - 1);
        OnlyThePendingPdu(mtu, l, e.transaction, [pduId]);
      }
    }
  }

  lemma NothingLeft(mtu: Mtu, pduId: byte, bytes: seq<byte>, k: nat)
    requires k < Count(mtu, bytes)
    ensures Left(mtu, pduId, bytes, k).None? <==> k == Count(mtu, bytes) - 1
  {}

  // The peer draws a response to its end with one request less than it takes
  // packets, and then has it; with fewer some of it stays pending.
  lemma DrawnToTheEnd(mtu: Mtu, before: seq<Event>, transaction: nat, pduId: byte, bytes: seq<byte>,
                      draws: seq<Event>)
    requires AllDraw(draws, pduId)
    ensures var n := if bytes == [] then 1 else (|bytes| + (mtu - 7) - 1) / (mtu - 7);
      var was, l := Run(mtu, before).0.sent, Run(mtu, before + [Respond(transaction, pduId, bytes)] + draws).0;
      && (l.continuing.None? <==> |draws| >= n - 1)
      && was <= l.sent && |l.sent| == |was| + (if |draws| < n then |draws| + 1 else n)
      && (|draws| >= n - 1 ==> Reassemble(None, Shapes(l.sent[|was|..])) == Some(bytes))
      && forall k :: |was| <= k < |l.sent| ==>
           Looks(mtu, l.sent[k], draws, transaction, pduId, k - |was|)
  {
    hide Left, Run, Count, Reassemble, Shapes;
    DrawnOneByOne(mtu, before, transaction, pduId, bytes, draws);
    CountIs(mtu, bytes);
    var n, was := Count(mtu, bytes), |Run(mtu, before).0.sent|;
    NothingLeft(mtu, pduId, bytes, Min(|draws| + 1, n) - 1);
    DrawnResponseArrives(mtu, before + [Respond(transaction, pduId, bytes)] + draws);
    var l := Run(mtu, before + [Respond(transaction, pduId, bytes)] + draws).0;
    forall k | was <= k < |l.sent| ensures Looks(mtu, l.sent[k], draws, transaction, pduId, k - was) {
      PacketLooks(mtu, if k == was then transaction else draws[k - was - 1].transaction, pduId, bytes, k - was);
    }
    hide PartPacket, AllDraw;
  }

  ghost predicate Looks(mtu: Mtu, p: Packet, draws: seq<Event>, transaction: nat, pduId: byte, k: nat)
    requires k <= |draws| && (k > 0 ==> draws[k - 1].Request?)
  {
    && p.code == 0x0C && p.subunit == 0x09 && p.pduId == pduId
    && p.transaction == (if k == 0 then transaction else draws[k - 1].transaction)
    && |p.parts| == 1 && p.parts[0].Some? && p.paramsLen == |p.parts[0].value| <= mtu - 7
  }

  lemma CountIs(mtu: Mtu, bytes: seq<byte>)
    ensures Count(mtu, bytes) == if bytes == [] then 1 else (|bytes| + (mtu - 7) - 1) / (mtu - 7)
  {}

  lemma PacketLooks(mtu: Mtu, transaction: nat, pduId: byte, bytes: seq<byte>, k: nat)
    requires k < Count(mtu, bytes)
    ensures var p := PartPacket(mtu, transaction, pduId, bytes, k);
      && p.code == 0x0C && p.subunit == 0x09 && p.pduId == pduId && p.transaction == transaction
      && |p.parts| == 1 && p.parts[0].Some? && p.paramsLen == |p.parts[0].value| <= mtu - 7
  {
    PartBounds(mtu, bytes, k);
    assert (k + 1) * (mtu - 7) == k * (mtu - 7) + (mtu - 7);
  }
}
