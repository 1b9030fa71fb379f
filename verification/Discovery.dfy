// Discovery of the peer's end points: one DISCOVER, then one capability request
// for each, all through the shared request queue (avdtp.c).
module Discovery {
  import opened Options
  import opened Bytes
  import opened RequestQueue
  import opened AvdtpMessages
  import opened Capabilities

  // discover holds the number of the avdtp_discover call in progress, ended the
  // calls whose callback has fired, caps the known end points.
  datatype Talk<S> = Talk(
    q: Pending<PendingReq<S>>, discover: Option<nat>, ended: seq<nat>, caps: map<byte, seq<Cap>>)

  // finalize_discovery
  function Finalized<S>(t: Talk<S>): Talk<S> {
    if t.discover.None? then t
    else t.(discover := None, ended := t.ended + [t.discover.value])
  }

  // The end points worth asking: not those that are new and used by someone else.
  function Queries(infos: seq<SeidInfo>, known: set<byte>, attached: set<byte>): seq<byte> {
    if infos == [] then []
    else
      var i := infos[0];
      if i.seid !in known && i.inuse && i.seid !in attached then Queries(infos[1..], known, attached)
      else [i.seid] + Queries(infos[1..], known + {i.seid}, attached)
  }

  function Asks<S>(queries: seq<byte>, cmd: Signal): (r: seq<PendingReq<S>>)
    ensures |r| == |queries|
  {
    if queries == [] then [] else [PendingReq(cmd, queries[0], None)] + Asks(queries[1..], cmd)
  }

  function Known(caps: map<byte, seq<Cap>>, queries: seq<byte>): map<byte, seq<Cap>> {
    map id | id in caps.Keys + (set q | q in queries) :: if id in caps then caps[id] else []
  }

  // avdtp_discover_resp, while the DISCOVER request is still outstanding.
  function Discovered<S>(t: Talk<S>, queries: seq<byte>, cmd: Signal): Talk<S> {
    var asked := t.(q := t.q.(prio := t.q.prio + Asks(queries, cmd)), caps := Known(t.caps, queries));
    if queries == [] then Finalized(asked) else asked
  }

  // Whether the request next in line is another capability request.
  predicate MoreToCome<S>(q: Pending<PendingReq<S>>) {
    if |q.prio| > 0 then AsksCapabilities(q.prio[0].signal)
    else |q.normal| > 0 && AsksCapabilities(q.normal[0].signal)
  }

  // An accepted capability request for the end point seid.
  function Described<S>(t: Talk<S>, seid: byte, bytes: seq<byte>): Talk<S> {
    var stored := t.(caps := t.caps[seid := ReadAll(bytes).0]);
    if MoreToCome(t.q) then stored else Finalized(stored)
  }

  // cleanup_queue
  function NotNaming<S(==)>(queue: seq<PendingReq<S>>, s: S): seq<PendingReq<S>> {
    if queue == [] then []
    else (if queue[0].stream == Some(s) then [] else [queue[0]]) + NotNaming(queue[1..], s)
  }

  // ------------------------------------------- a DISCOVER answer, octet by octet

  // An octet holds the number of an end point, its in-use mark and a reserved bit.
  lemma OctetSays(id: nat, used: nat, reserved: nat)
    requires id < 64 && used < 2 && reserved < 2
    ensures 4 * id + 2 * used + reserved < 256
    ensures Info(4 * id + 2 * used + reserved) == SeidInfo(id, used == 1)
  {}

  // The i-th listed end point, from the first of its two octets.
  ghost predicate ListedAt(bytes: seq<byte>, i: nat, id: byte, inuse: bool) {
    2 * i + 1 < |bytes| && bytes[2 * i] / 4 == id && (inuse <==> bytes[2 * i] / 2 % 2 == 1)
  }

  lemma {:induction false} AnswerLists(bytes: seq<byte>)
    ensures |Infos(bytes)| == |bytes| / 2
    ensures forall i: nat, id: byte, inuse: bool ::
      ListedAt(bytes, i, id, inuse) <==> i < |Infos(bytes)| && Infos(bytes)[i] == SeidInfo(id, inuse)
  {
    if |bytes| >= 2 {
      var rest := bytes[2..];
      AnswerLists(rest);
      forall i: nat, id: byte, inuse: bool
        ensures ListedAt(bytes, i, id, inuse) <==> i < |Infos(bytes)| && Infos(bytes)[i] == SeidInfo(id, inuse)
      {
        if i > 0 {
          assert ListedAt(rest, i - 1, id, inuse) <==> ListedAt(bytes, i, id, inuse);
          if i < |Infos(bytes)| { assert Infos(bytes)[i] == Infos(rest)[i - 1]; }
        }
      }
    }
  }

  // The peer is asked about an end point exactly when it is listed and is known,
  // has a stream of ours or is listed as not in use.
  lemma AskedExactly(bytes: seq<byte>, known: set<byte>, attached: set<byte>, id: byte)
    ensures id in Queries(Infos(bytes), known, attached) <==>
      exists i: nat, inuse: bool :: ListedAt(bytes, i, id, inuse) && (id in known || id in attached || !inuse)
  {
    AnswerLists(bytes);
    QueriesHave(Infos(bytes), known, attached, id);
    var infos := Infos(bytes);
    if i: nat :| i < |infos| && infos[i].seid == id && (id in known || id in attached || !infos[i].inuse) {
      assert ListedAt(bytes, i, id, infos[i].inuse);
    }
    hide ListedAt, Infos, Queries;
  }

  lemma {:induction false} QueriesHave(infos: seq<SeidInfo>, known: set<byte>, attached: set<byte>, id: byte)
    ensures id in Queries(infos, known, attached) <==>
      exists i: nat :: i < |infos| && infos[i].seid == id && (id in known || id in attached || !infos[i].inuse)
  {
    if infos != [] {
      var first, rest := infos[0], infos[1..];
      QueriesHave(rest, known, attached, id);
      QueriesHave(rest, known + {first.seid}, attached, id);
      assert forall i: nat :: i < |rest| ==> rest[i] == infos[i + 1];
      assert forall i: nat :: 0 < i < |infos| ==> infos[i] == rest[i - 1];
    }
  }

  // In the order of the list, and as often: each further one exactly when it is
  // known, has a stream, or was listed as not in use so far.
  lemma {:induction false} QueriesGrow(infos: seq<SeidInfo>, last: SeidInfo, known: set<byte>, attached: set<byte>)
    ensures Queries(infos + [last], known, attached) == Queries(infos, known, attached) +
      if last.seid in known || last.seid in attached || SeidInfo(last.seid, false) in infos + [last] then [last.seid]
      else []
  {
    if infos != [] {
      var first, all := infos[0], infos + [last];
      assert all[0] == first && all[1..] == infos[1..] + [last];
      QueriesGrow(infos[1..], last, known, attached);
      QueriesGrow(infos[1..], last, known + {first.seid}, attached);
      assert all == [first] + (infos[1..] + [last]);
    }
  }

  // One request for each, without a stream.
  lemma {:induction false} AsksEach<S>(queries: seq<byte>, cmd: Signal)
    ensures |Asks<S>(queries, cmd)| == |queries|
    ensures forall k :: 0 <= k < |queries| ==> Asks<S>(queries, cmd)[k] == PendingReq(cmd, queries[k], None)
  {
    if queries != [] { AsksEach<S>(queries[1..], cmd); }
  }
}
