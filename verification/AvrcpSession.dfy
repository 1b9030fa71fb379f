// The AVRCP session as the code runs it: it fills a vector, counts what fits
// and keeps the rest in a buffer of its own (avrcp-lib.c). The peer's view and
// the properties of whole exchanges are in module Continuation.
module AvrcpSession {
  import opened Options
  import opened Bytes
  import opened Continuation

  const GET_ELEMENT_ATTRIBUTES: byte := 0x20

  function Concat(iov: seq<seq<byte>>): seq<byte> {
    if iov == [] then [] else Concat(iov[..|iov| - 1]) + iov[|iov| - 1]
  }

  lemma {:induction false} ConcatSplit(iov: seq<seq<byte>>, i: nat)
    requires i <= |iov|
    ensures Concat(iov) == Concat(iov[..i]) + Concat(iov[i..])
  {
    if i == |iov| {
      assert iov[..i] == iov && iov[i..] == [];
    } else {
      var front := iov[..|iov| - 1];
      ConcatSplit(front, i);
      assert front[..i] == iov[..i] && iov[i..][..|iov[i..]| - 1] == front[i..];
      assert iov[i..][|iov[i..]| - 1] == iov[|iov| - 1];
    }
  }

  // The first i vectors without the first offset bytes.
  function Rest(iov: seq<seq<byte>>, offset: nat, i: nat): (r: seq<byte>)
    requires 0 < |iov| && offset <= |iov[0]| && i <= |iov|
  {
    if i == 0 then [] else if i == 1 then iov[0][offset..] else Rest(iov, offset, i - 1) + iov[i - 1]
  }

  lemma {:induction false} RestIsSuffix(iov: seq<seq<byte>>, offset: nat, i: nat)
    requires 0 < |iov| && offset <= |iov[0]| && 0 < i <= |iov|
    ensures offset <= |Concat(iov[..i])| && Rest(iov, offset, i) == Concat(iov[..i])[offset..]
  {
    assert iov[..i][..i - 1] == iov[..i - 1];
    if i == 1 {
      assert Concat(iov[..1]) == iov[0];
    } else {
      RestIsSuffix(iov, offset, i - 1);
    }
  }

  lemma {:induction false} RestGrows(iov: seq<seq<byte>>, offset: nat, i: nat, j: nat)
    requires 0 < |iov| && offset <= |iov[0]| && i <= j <= |iov|
    ensures |Rest(iov, offset, i)| <= |Rest(iov, offset, j)|
    decreases j
  {
    if i < j { RestGrows(iov, offset, i, j - 1); }
  }

  // The entries handed to AVCTP, in order; an unfilled one carries nothing known.
  function Filled(parts: seq<Option<seq<byte>>>): seq<byte> {
    if parts == [] then []
    else
      var last := parts[|parts| - 1];
      Filled(parts[..|parts| - 1]) + if last.Some? then last.value else []
  }

  ghost predicate AllFilled(parts: seq<Option<seq<byte>>>) { forall i :: 0 <= i < |parts| ==> parts[i].Some? }

  // A packet that carries what fits of a vector.
  ghost predicate Vectored(
    p: Packet, transaction: nat, code: byte, subunit: byte, pduId: byte, ptype: PacketType, iov: seq<seq<byte>>,
    room: nat)
  {
    var all := Concat(iov);
    && p.transaction == transaction && p.code == code && p.subunit == subunit && p.pduId == pduId
    && p.ptype == (if |all| > room then FirstType(ptype) else if iov == [] then ptype else LastType(ptype))
    && p.paramsLen == Min(|all|, room)
    && |p.parts| == |iov| && Filled(p.parts) == all[..p.paramsLen]
    && (AllFilled(p.parts) <==> |all| <= room || |Concat(iov[..|iov| - 1])| <= room)
  }

  // What a vector too long for one packet leaves behind.
  function Kept(pduId: byte, iov: seq<seq<byte>>, room: nat): Option<Pending> {
    var all := Concat(iov);
    if |all| <= room then None else Some(Pending(pduId, all[room..]))
  }

  lemma ConcatNone(iov: seq<seq<byte>>)
    ensures Concat(iov[..0]) == []
  {}

  lemma ConcatMore(iov: seq<seq<byte>>, i: nat)
    requires i < |iov|
    ensures Concat(iov[..i + 1]) == Concat(iov[..i]) + iov[i]
  {
    assert iov[..i + 1][..i] == iov[..i];
  }

  lemma {:induction false} FilledWhole(parts: seq<Option<seq<byte>>>, iov: seq<seq<byte>>)
    requires |parts| == |iov| && forall k :: 0 <= k < |iov| ==> parts[k] == Some(iov[k])
    ensures Filled(parts) == Concat(iov)
  {
    if iov != [] { FilledWhole(parts[..|parts| - 1], iov[..|iov| - 1]); }
  }

  lemma {:induction false} FilledEmpty(parts: seq<Option<seq<byte>>>, i: nat)
    requires i <= |parts| && forall k :: i <= k < |parts| ==> parts[k].None?
    ensures Filled(parts) == Filled(parts[..i])
  {
    if i == |parts| {
      assert parts[..i] == parts;
    } else {
      FilledEmpty(parts[..|parts| - 1], i);
      assert parts[..|parts| - 1][..i] == parts[..i];
    }
  }

  lemma Uncut(parts: seq<Option<seq<byte>>>, iov: seq<seq<byte>>)
    requires |parts| == |iov| && forall k :: 0 <= k < |iov| ==> parts[k] == Some(iov[k])
    ensures AllFilled(parts) && Filled(parts) == Concat(iov)
    ensures iov[..|iov|] == iov
  {
    FilledWhole(parts, iov);
  }

  lemma Cut(parts: seq<Option<seq<byte>>>, iov: seq<seq<byte>>, i: nat, fits: nat)
    requires |parts| == |iov| && i < |iov| && fits < |iov[i]|
    requires forall k :: 0 <= k < i ==> parts[k] == Some(iov[k])
    requires parts[i] == Some(iov[i][..fits])
    requires forall k :: i < k < |iov| ==> parts[k].None?
    ensures var all, room := Concat(iov), |Concat(iov[..i])| + fits;
      && |all| > room && Filled(parts) == all[..room] && Rest(iov[i..], fits, |iov| - i) == all[room..]
      && (AllFilled(parts) <==> |Concat(iov[..|iov| - 1])| <= room)
  {
    var before := Concat(iov[..i]);
    FilledEmpty(parts, i + 1);
    assert parts[..i + 1][..i] == parts[..i];
    FilledWhole(parts[..i], iov[..i]);
    ConcatSplit(iov, i);
    RestIsSuffix(iov[i..], fits, |iov| - i);
    assert iov[i..][..|iov| - i] == iov[i..];
    ConcatStarts(iov[i..]);
    if i < |iov| - 1 {
      assert parts[|iov| - 1].None?;
      ConcatSplit(iov[..|iov| - 1], i);
      assert iov[..|iov| - 1][..i] == iov[..i];
      ConcatStarts(iov[..|iov| - 1][i..]);
    }
  }

  lemma {:induction false} ConcatStarts(iov: seq<seq<byte>>)
    requires iov != []
    ensures |Concat(iov)| >= |iov[0]| && Concat(iov)[..|iov[0]|] == iov[0]
  {
    if |iov| > 1 { ConcatStarts(iov[..|iov| - 1]); }
  }

  lemma UncutPacket(
    parts: seq<Option<seq<byte>>>, transaction: nat, code: byte, subunit: byte, pduId: byte, ptype: PacketType,
    iov: seq<seq<byte>>, room: nat)
    requires |parts| == |iov| && forall k :: 0 <= k < |iov| ==> parts[k] == Some(iov[k])
    requires |Concat(iov[..|iov|])| <= room
    ensures var last := if iov == [] || ptype.Single? then ptype else End;
      Vectored(
        Packet(transaction, code, subunit, pduId, last, |Concat(iov[..|iov|])|, parts),
        transaction, code, subunit, pduId, ptype, iov, room)
    ensures Kept(pduId, iov, room) == None
  {
    Uncut(parts, iov);
  }

  lemma CutPacket(
    parts: seq<Option<seq<byte>>>, transaction: nat, code: byte, subunit: byte, pduId: byte, ptype: PacketType,
    iov: seq<seq<byte>>, i: nat, fits: nat)
    requires |parts| == |iov| && i < |iov| && fits < |iov[i]|
    requires forall k :: 0 <= k < i ==> parts[k] == Some(iov[k])
    requires parts[i] == Some(iov[i][..fits])
    requires forall k :: i < k < |iov| ==> parts[k].None?
    ensures var room := |Concat(iov[..i])| + fits;
      && Vectored(
           Packet(transaction, code, subunit, pduId, FirstType(ptype), room, parts),
           transaction, code, subunit, pduId, ptype, iov, room)
      && Kept(pduId, iov, room) == Some(Pending(pduId, Rest(iov[i..], fits, |iov| - i)))
  {
    Cut(parts, iov, i, fits);
  }

  // With one vector the session does a step of module Continuation.
  lemma OneVector(mtu: Mtu, before: Link, after: Link, transaction: nat, pduId: byte, ptype: PacketType,
                  bytes: seq<byte>)
    requires after.continuing == Kept(pduId, [bytes], Room(mtu))
    requires |after.sent| == |before.sent| + 1 && after.sent[..|before.sent|] == before.sent
    requires Vectored(after.sent[|before.sent|], transaction, STABLE, PANEL, pduId, ptype, [bytes], Room(mtu))
    ensures after == Send(mtu, before, transaction, pduId, ptype, bytes)
  {
    assert Concat([bytes]) == bytes by { assert [bytes][..0] == []; }
    assert Concat([bytes][..0]) == [];
    var p := after.sent[|before.sent|];
    assert |[bytes]| == 1 && AllFilled(p.parts);
    assert p.parts[0].Some?;
    assert Filled(p.parts) == p.parts[0].value by {
      assert Filled(p.parts[..|p.parts| - 1]) == [];
    }
    assert Filled(p.parts) == bytes[..p.paramsLen] == Fragments(mtu, ptype, bytes)[0].body;
    assert p.parts == [Some(Fragments(mtu, ptype, bytes)[0].body)];
    assert after.sent == before.sent + [p];
  }

  class Avrcp {
    const controlMtu: Mtu
    var continuing: Option<Pending>
    var sent: seq<Packet>

    constructor (mtu: Mtu)
      ensures controlMtu == mtu && View() == Link(None, [])
    {
      controlMtu, continuing, sent := mtu, None, [];
    }

    ghost function View(): Link
      reads this
    {
      Link(continuing, sent)
    }

    method ContinuingNew(pduId: byte, iov: seq<seq<byte>>, offset: nat)
      requires |iov| > 0 && offset <= |iov[0]|
      modifies this`continuing
      ensures continuing == Some(Pending(pduId, Rest(iov, offset, |iov|)))
    {
      var len := 0;
      for i := 0 to |iov|
        invariant len == |Rest(iov, offset, i)|
      {
        if i == 0 && offset > 0 {
          len := len + |iov[i]| - offset;
          continue;
        }
        len := len + |iov[i]|;
      }
      var base := new byte[len](i => 0);
      var iovLen := 0;
      for i := 0 to |iov|
        modifies base
        invariant iovLen == |Rest(iov, offset, i)| <= len
        invariant base[..iovLen] == Rest(iov, offset, i)
      {
        RestGrows(iov, offset, i + 1, |iov|);
        if i == 0 && offset > 0 {
          Memcpy(base, 0, iov[i][offset..]);
          iovLen := iovLen + |iov[i]| - offset;
          continue;
        }
        Memcpy(base, iovLen, iov[i]);
        iovLen := iovLen + |iov[i]|;
      }
      assert base[..] == base[..iovLen];
      continuing := Some(Pending(pduId, base[..]));
    }

    method AvrcpSendInternal(
      transaction: nat, code: byte, subunit: byte, pduId: byte, ptype: PacketType, iov: seq<seq<byte>>)
      modifies this
      ensures continuing == Kept(pduId, iov, Room(controlMtu))
      ensures |sent| == |old(sent)| + 1 && sent[..|old(sent)|] == old(sent)
      ensures Vectored(sent[|old(sent)|], transaction, code, subunit, pduId, ptype, iov, Room(controlMtu))
    {
      hide Vectored, Kept, Concat, Rest;
      continuing := None;
      var pdu := new Option<seq<byte>>[|iov|](i => None);
      var packetType, paramsLen := ptype, 0;
      ConcatNone(iov);
      var i := 0;
      while i < |iov|
        modifies pdu
        invariant 0 <= i <= |iov|
        invariant paramsLen == |Concat(iov[..i])| <= Room(controlMtu)
        invariant forall k :: 0 <= k < |iov| ==> pdu[k] == if k < i then Some(iov[k]) else None
        invariant packetType == if i == 0 || ptype.Single? then ptype else End
      {
        ConcatMore(iov, i);
        if HEADER_LENGTH + paramsLen + |iov[i]| > controlMtu { break; }
        pdu[i] := Some(iov[i]);
        paramsLen := paramsLen + |iov[i]|;
        if !packetType.Single? { packetType := End; }
        i := i + 1;
      }
      if i < |iov| {
        // Only what fits is sent; the rest waits for the peer.
        ConcatMore(iov, i);
        var fits := controlMtu - (HEADER_LENGTH + paramsLen);
        pdu[i] := Some(iov[i][..fits]);
        paramsLen := paramsLen + fits;
        ContinuingNew(pduId, iov[i..], fits);
        packetType := if !packetType.Single? then Continuing else Start;
        CutPacket(pdu[..], transaction, code, subunit, pduId, ptype, iov, i, fits);
      } else {
        UncutPacket(pdu[..], transaction, code, subunit, pduId, ptype, iov, Room(controlMtu));
      }
      sent := sent + [Packet(transaction, code, subunit, pduId, packetType, paramsLen, pdu[..])];
    }

    // avrcp_get_element_attrs_rsp: the long response, in one vector.
    method GetElementAttrsRsp(transaction: nat, params: seq<byte>)
      modifies this
      ensures View() == Step(controlMtu, old(View()), Respond(transaction, 0x20, params))
    {
      hide Vectored, Kept, Send;
      AvrcpSendInternal(transaction, STABLE, PANEL, GET_ELEMENT_ATTRIBUTES, Single, [params]);
      OneVector(controlMtu, old(View()), View(), transaction, GET_ELEMENT_ATTRIBUTES, Single, params);
    }

    // The peer asks for the next fragment; the buffer outlives the pending record.
    method RequestContinuing(transaction: nat, params: seq<byte>) returns (ok: bool)
      modifies this
      ensures ok <==> old(continuing).Some? && params == [old(continuing).value.pduId]
      ensures View() == Step(controlMtu, old(View()), Request(transaction, params))
    {
      hide Vectored, Kept, Send;
      if |params| != 1 || continuing.None? || continuing.value.pduId != params[0] { return false; }
      var base := continuing.value.bytes;
      AvrcpSendInternal(transaction, STABLE, PANEL, params[0], Continuing, [base]);
      OneVector(controlMtu, old(View()), View(), transaction, params[0], Continuing, base);
      ok := true;
    }

    method AbortContinuing(transaction: nat, params: seq<byte>) returns (ok: bool)
      modifies this
      ensures ok <==> old(continuing).Some? && |params| == 1
      ensures View() == Step(controlMtu, old(View()), Abort(transaction, params))
    {
      if |params| != 1 || continuing.None? { return false; }
      continuing := None;
      AvrcpSendInternal(transaction, ACCEPTED, PANEL, Continuation.ABORT_CONTINUING, Single, []);
      assert sent == old(sent) + [sent[|old(sent)|]];
      ok := true;
    }
  }
}
