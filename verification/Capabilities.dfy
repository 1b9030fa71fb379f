/** Service capabilities: category, length and value, printed into a request and read back. */
module Capabilities {
  import opened Bytes
  import opened Options
  import opened Signalling
  import opened Reassembly

  const MEDIA_TRANSPORT := 1
  const MEDIA_CODEC := 7
  const DELAY_REPORTING := 8

  /** Octets before the codec's own data in a media codec capability. */
  const CODEC_HEADER := 2

  datatype RawCap = Cap(category: byte, data: seq<byte>)

  /** The length travels in one octet. */
  type Cap = c: RawCap | |c.data| < 256 witness RawCap.Cap(0, [])

  function Print(cap: Cap): seq<byte> {
    [cap.category, |cap.data|] + cap.data
  }

  /** The capability bytes of a configuration request. */
  function PrintAll(caps: seq<Cap>): seq<byte> {
    if caps == [] then [] else Print(caps[0]) + PrintAll(caps[1..])
  }

  /** A capability can be read at the front: its two header octets are there and its length does not overrun. */
  predicate Readable(bytes: seq<byte>) {
    |bytes| >= 2 && 2 + bytes[1] <= |bytes|
  }

  function ReadOne(bytes: seq<byte>): (cap: Cap)
    requires Readable(bytes)
  {
    RawCap.Cap(bytes[0], bytes[2..2 + bytes[1]])
  }

  /** All capabilities that can be read, and the unread rest. */
  function ReadAll(bytes: seq<byte>): (r: (seq<Cap>, seq<byte>))
    decreases |bytes|
  {
    if !Readable(bytes) then ([], bytes)
    else
      var (caps, rest) := ReadAll(bytes[2 + bytes[1]..]);
      ([ReadOne(bytes)] + caps, rest)
  }

  predicate NamesCodec(cap: Cap) {
    cap.category == MEDIA_CODEC && |cap.data| >= CODEC_HEADER
  }

  /** The last media codec capability, or what the caller had before. */
  function LastCodec(caps: seq<Cap>, before: Option<Cap>): Option<Cap> {
    if caps == [] then before
    else if NamesCodec(caps[|caps| - 1]) then Some(caps[|caps| - 1])
    else LastCodec(caps[..|caps| - 1], before)
  }

  predicate ListsDelay(caps: seq<Cap>) {
    exists i :: 0 <= i < |caps| && caps[i].category == DELAY_REPORTING
  }

  lemma NoDelay()
    ensures !ListsDelay([])
  {
  }

  lemma OneMoreDelay(caps: seq<Cap>, cap: Cap)
    ensures ListsDelay(caps + [cap]) <==> ListsDelay(caps) || cap.category == DELAY_REPORTING
  {
    if ListsDelay(caps) {
      var i :| 0 <= i < |caps| && caps[i].category == DELAY_REPORTING;
      assert (caps + [cap])[i].category == DELAY_REPORTING;
    }
    if cap.category == DELAY_REPORTING {
      assert (caps + [cap])[|caps|].category == DELAY_REPORTING;
    }
  }

  /** caps_to_list. */
  method CapsToList(data: seq<byte>, before: Option<Cap>)
    returns (caps: seq<Cap>, codec: Option<Cap>, delayReporting: bool)
    ensures caps == ReadAll(data).0
    ensures codec == LastCodec(caps, before)
    ensures delayReporting == ListsDelay(caps)
  {
    hide ReadAll, LastCodec, Readable, ReadOne, ListsDelay;
    caps, codec, delayReporting := [], before, false;
    NoCodec(before);
    NoDelay();
    var processed := 0;
    assert data[0..] == data;
    while processed + 2 <= |data|
      invariant 0 <= processed <= |data|
      invariant ReadAll(data).0 == caps + ReadAll(data[processed..]).0
      invariant codec == LastCodec(caps, before)
      invariant delayReporting == ListsDelay(caps)
      decreases |data| - processed
    {
      var category, length := data[processed], data[processed + 1];
      ghost var rest := data[processed..];
      FrontRead(data, processed);
      if processed + 2 + length > |data| {
        break;
      }
      var cap: Cap := RawCap.Cap(category, data[processed + 2..processed + 2 + length]);
      assert caps + ([cap] + ReadAll(data[processed + 2 + length..]).0)
        == caps + [cap] + ReadAll(data[processed + 2 + length..]).0;
      processed := processed + 2 + length;
      OneMoreCodec(caps, cap, before);
      OneMoreDelay(caps, cap);
      caps := caps + [cap];
      if category == MEDIA_CODEC && length >= CODEC_HEADER {
        codec := Some(cap);
      } else if category == DELAY_REPORTING {
        delayReporting := true;
      }
    }
    if processed + 2 > |data| { NothingRead(data[processed..]); }
  }

  lemma NoCodec(before: Option<Cap>)
    ensures LastCodec([], before) == before
  {
  }

  /** The codec is the last media codec capability with its two header octets; without one it stays as it was. */
  lemma {:induction false} CodecIsTheLast(caps: seq<Cap>, before: Option<Cap>)
    ensures forall k :: 0 <= k < |caps| && caps[k].category == 7 && |caps[k].data| >= 2 ==>
      ((forall j :: k < j < |caps| ==> caps[j].category != 7 || |caps[j].data| < 2) ==>
        LastCodec(caps, before) == Some(caps[k]))
    ensures (forall k :: 0 <= k < |caps| ==> caps[k].category != 7 || |caps[k].data| < 2) ==>
      LastCodec(caps, before) == before
  {
    if caps != [] { CodecIsTheLast(caps[..|caps| - 1], before); }
  }

  lemma OneMoreCodec(caps: seq<Cap>, cap: Cap, before: Option<Cap>)
    ensures LastCodec(caps + [cap], before) == if NamesCodec(cap) then Some(cap) else LastCodec(caps, before)
  {
    assert (caps + [cap])[..|caps|] == caps;
  }

  /** The capability at an offset, or none if its length overruns. */
  lemma FrontRead(data: seq<byte>, at: nat)
    requires at + 2 <= |data|
    ensures var length: int := data[at + 1];
      ReadAll(data[at..]).0 ==
        if at + 2 + length > |data| then []
        else [RawCap.Cap(data[at], data[at + 2..at + 2 + length])] + ReadAll(data[at + 2 + length..]).0
  {
    var rest := data[at..];
    var length: int := data[at + 1];
    assert rest[0] == data[at] && rest[1] == data[at + 1];
    if at + 2 + length <= |data| {
      assert rest[2..2 + length] == data[at + 2..at + 2 + length] && rest[2 + length..] == data[at + 2 + length..];
    }
  }

  lemma NothingRead(bytes: seq<byte>)
    requires |bytes| < 2
    ensures ReadAll(bytes).0 == []
  {
  }

  /** The capability part of avdtp_set_configuration: sum the sizes, then copy one after the other. */
  method PrintRequest(acpSeid: byte, intSeid: byte, caps: seq<Cap>) returns (req: array<byte>)
    requires acpSeid < 64 && intSeid < 64
    ensures fresh(req) && req[..] == [4 * acpSeid, 4 * intSeid] + PrintAll(caps)
  {
    var capsLen, i := 0, 0;
    while i < |caps|
      invariant 0 <= i <= |caps| && capsLen >= 0
      invariant capsLen + |PrintAll(caps[i..])| == |PrintAll(caps)|
    {
      assert caps[i..][1..] == caps[i + 1..];
      capsLen := capsLen + |caps[i].data| + 2;
      i := i + 1;
    }
    req := new byte[2 + capsLen](_ => 0);
    req[0], req[1] := 4 * acpSeid, 4 * intSeid;
    i := 0;
    var ptr := 2;
    while i < |caps|
      invariant 0 <= i <= |caps|
      invariant ptr + |PrintAll(caps[i..])| == req.Length && ptr >= 2
      invariant req[..ptr] + PrintAll(caps[i..]) == [4 * acpSeid, 4 * intSeid] + PrintAll(caps)
    {
      ghost var before := req[..ptr];
      assert caps[i..][1..] == caps[i + 1..];
      assert before + (Print(caps[i]) + PrintAll(caps[i + 1..])) == before + Print(caps[i]) + PrintAll(caps[i + 1..]);
      Memcpy(req, ptr, Print(caps[i]));
      ptr := ptr + |caps[i].data| + 2;
      assert req[..ptr] == before + Print(caps[i]);
      i := i + 1;
    }
    assert req[..ptr] == req[..];
  }

  lemma ReadPrintedOne(cap: Cap, rest: seq<byte>)
    ensures ReadAll(Print(cap) + rest) == ([cap] + ReadAll(rest).0, ReadAll(rest).1)
  {
    var bytes := Print(cap) + rest;
    var length: int := bytes[1];
    assert length == |cap.data| && bytes[2..2 + length] == cap.data && bytes[2 + length..] == rest;
    ReadStep(bytes);
  }

  /** Reading what was printed gives the list back, with whatever cannot be read left over. */
  lemma {:induction false} ReadPrinted(caps: seq<Cap>, rest: seq<byte>)
    requires !Readable(rest)
    ensures ReadAll(PrintAll(caps) + rest) == (caps, rest)
  {
    hide Print, ReadAll, PrintAll, Readable;
    if caps == [] {
      PrintNothing();
      ReadNothing(rest);
      assert [] + rest == rest;
    } else {
      ReadPrinted(caps[1..], rest);
      var tail := PrintAll(caps[1..]) + rest;
      ReadPrintedOne(caps[0], tail);
      PrintStep(caps[0], caps[1..]);
      assert caps == [caps[0]] + caps[1..];
      assert Print(caps[0]) + PrintAll(caps[1..]) + rest == Print(caps[0]) + tail;
    }
  }

  lemma PrintNothing()
    ensures PrintAll([]) == []
  {
  }

  lemma ReadNothing(bytes: seq<byte>)
    requires !Readable(bytes)
    ensures ReadAll(bytes) == ([], bytes)
  {
  }

  /** For any bytes at all: what was read prints to a prefix, and the rest is too short or overruns. */
  lemma {:induction false} PrintRead(bytes: seq<byte>)
    ensures bytes == PrintAll(ReadAll(bytes).0) + ReadAll(bytes).1
    ensures var rest := ReadAll(bytes).1; |rest| < 2 || 2 + rest[1] > |rest|
  {
    PrintReadBack(bytes);
    RestUnreadable(bytes);
  }

  lemma {:induction false} PrintReadBack(bytes: seq<byte>)
    ensures bytes == PrintAll(ReadAll(bytes).0) + ReadAll(bytes).1
    decreases |bytes|
  {
    hide Print, PrintAll, ReadAll, ReadOne;
    if Readable(bytes) {
      var length: int := bytes[1];
      var tail := bytes[2 + length..];
      PrintReadBack(tail);
      ReadStep(bytes);
      PrintOne(bytes);
      PrintStep(ReadOne(bytes), ReadAll(tail).0);
      Reassociate(bytes, 2 + length, PrintAll(ReadAll(tail).0), ReadAll(tail).1);
    } else {
      ReadNothing(bytes);
      PrintNothing();
    }
  }

  lemma Reassociate(bytes: seq<byte>, k: nat, middle: seq<byte>, rest: seq<byte>)
    requires k <= |bytes| && bytes[k..] == middle + rest
    ensures bytes == (bytes[..k] + middle) + rest
  {
    assert bytes == bytes[..k] + bytes[k..];
  }

  lemma {:induction false} RestUnreadable(bytes: seq<byte>)
    ensures !Readable(ReadAll(bytes).1)
    decreases |bytes|
  {
    if Readable(bytes) { RestUnreadable(bytes[2 + bytes[1]..]); }
  }

  lemma ReadStep(bytes: seq<byte>)
    requires Readable(bytes)
    ensures var rest := ReadAll(bytes[2 + bytes[1]..]);
      ReadAll(bytes) == ([ReadOne(bytes)] + rest.0, rest.1)
  {
  }

  lemma PrintOne(bytes: seq<byte>)
    requires Readable(bytes)
    ensures Print(ReadOne(bytes)) == bytes[..2 + bytes[1]]
  {
  }

  lemma PrintStep(cap: Cap, caps: seq<Cap>)
    ensures PrintAll([cap] + caps) == Print(cap) + PrintAll(caps)
  {
    assert ([cap] + caps)[1..] == caps;
  }

  /** The bytes a peer gets from a configuration request. */
  function Request(acpSeid: byte, intSeid: byte, caps: seq<Cap>): (r: seq<byte>)
    requires acpSeid < 64 && intSeid < 64
    ensures |r| >= 2 && r[2..] == PrintAll(caps)
  {
    [4 * acpSeid, 4 * intSeid] + PrintAll(caps)
  }

  /** Sent, cut up, put together and read again: the peer configures with the same capabilities. */
  lemma ConfigurationTravels(s: InState, omtu: int, imtu: nat, transaction: byte, acpSeid: byte, intSeid: byte,
                             caps: seq<Cap>)
    requires |s.buf| == IN_BUF_SIZE && !s.active && acpSeid < 64 && intSeid < 64 && 3 <= omtu <= imtu
    requires var len := 2 + |PrintAll(caps)|;
      len <= 255 && (2 + len <= omtu || (len - (omtu - 3)) % (omtu - 1) != 0)
    ensures var packets := Packets(omtu, transaction, 0, 3, Request(acpSeid, intSeid, caps));
      var (t, results) := Feed(s, packets, imtu);
      && CompletesAtEnd(results, |packets|)
      && t.signalId == 3 && t.messageType == 0 && t.dataSize >= 2
      && Payload(t)[0] / 4 == acpSeid && Payload(t)[1] / 4 == intSeid
      && ReadAll(Payload(t)[2..]) == (caps, [])
  {
    hide Header, Tail, Feed, Packets, PrintAll, ReadAll;
    var request := Request(acpSeid, intSeid, caps);
    assert |request| == 2 + |PrintAll(caps)| && request[0] == 4 * acpSeid && request[1] == 4 * intSeid;
    hide Request;
    FragmentThenReassemble(s, omtu, imtu, transaction, 0, 3, request);
    ReadPrinted(caps, []);
    assert PrintAll(caps) + [] == PrintAll(caps);
  }
}
