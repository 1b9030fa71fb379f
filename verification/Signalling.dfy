/** AVDTP signalling messages: cutting one into packets and putting it together again. */
module Signalling {
  import opened Bytes

  const SINGLE := 0
  const START := 1
  const CONTINUE := 2
  const END := 3

  const IN_BUF_SIZE := 1024

  /** First octet: transaction label, packet type, message type (AVDTP 1.3, section 8.4.1). */
  function Header(transaction: byte, packetType: int, messageType: byte): (b: byte)
    requires 0 <= packetType < 4
    ensures b % 4 == messageType % 4 && (b / 4) % 4 == packetType && b / 16 == transaction % 16
  {
    messageType % 4 + 4 * packetType + 16 * (transaction % 16)
  }

  /** The pieces after the start packet: continue packets while more than one packet's worth is left, then end. */
  function Tail(omtu: int, transaction: byte, messageType: byte, data: seq<byte>): seq<seq<byte>>
    requires omtu >= 3
    decreases |data|
  {
    if data == [] then []
    else if |data| + 1 > omtu then
      [[Header(transaction, CONTINUE, messageType)] + data[..omtu - 1]]
        + Tail(omtu, transaction, messageType, data[omtu - 1..])
    else [[Header(transaction, END, messageType)] + data]
  }

  /** The packet count the start packet announces, before it is cut to an octet. */
  function Announced(omtu: int, len: int): int
    requires omtu >= 3
  {
    (len - (omtu - 3)) / (omtu - 1) + 2
  }

  predicate Sendable(omtu: int, data: seq<byte>) {
    2 + |data| <= omtu || omtu >= 3
  }

  predicate IsSingle(omtu: int, data: seq<byte>) {
    2 + |data| <= omtu
  }

  /** The whole message as it goes over the channel. */
  function Packets(omtu: int, transaction: byte, messageType: byte, signalId: byte, data: seq<byte>): seq<seq<byte>>
    requires Sendable(omtu, data)
  {
    if IsSingle(omtu, data) then
      [[Header(transaction, SINGLE, messageType), signalId % 64] + data]
    else
      [[Header(transaction, START, messageType), Announced(omtu, |data|) % 256, signalId % 64] + data[..omtu - 3]]
        + Tail(omtu, transaction, messageType, data[omtu - 3..])
  }

  function TailStep(omtu: int, left: int): (int, int) {
    if left + 1 > omtu then (CONTINUE, omtu - 1) else (END, left)
  }

  lemma TailContinues(omtu: int, transaction: byte, messageType: byte, rest: seq<byte>)
    requires omtu >= 3 && |rest| + 1 > omtu
    ensures Tail(omtu, transaction, messageType, rest)
      == [[Header(transaction, CONTINUE, messageType)] + rest[..omtu - 1]]
           + Tail(omtu, transaction, messageType, rest[omtu - 1..])
  {
    hide Header;
  }

  lemma TailEnds(omtu: int, transaction: byte, messageType: byte, rest: seq<byte>)
    requires omtu >= 3 && rest != [] && |rest| + 1 <= omtu
    ensures Tail(omtu, transaction, messageType, rest)
      == [[Header(transaction, END, messageType)] + rest[..|rest|]]
           + Tail(omtu, transaction, messageType, rest[|rest|..])
  {
    hide Header;
    assert rest[..|rest|] == rest && rest[|rest|..] == [];
    assert Tail(omtu, transaction, messageType, []) == [];
  }

  lemma TailUnfolds(omtu: int, transaction: byte, messageType: byte, rest: seq<byte>)
    requires omtu >= 3 && rest != []
    ensures var step := TailStep(omtu, |rest|);
      && 0 < step.1 <= |rest| && step.1 + 1 <= omtu
      && Tail(omtu, transaction, messageType, rest)
         == [[Header(transaction, step.0, messageType)] + rest[..step.1]]
            + Tail(omtu, transaction, messageType, rest[step.1..])
  {
    hide Header, Tail;
    if |rest| + 1 > omtu {
      TailContinues(omtu, transaction, messageType, rest);
    } else {
      TailEnds(omtu, transaction, messageType, rest);
    }
  }

  lemma FragmentsUnfold(omtu: int, transaction: byte, messageType: byte, signalId: byte, data: seq<byte>)
    requires omtu >= 3 && !IsSingle(omtu, data)
    ensures Packets(omtu, transaction, messageType, signalId, data)
      == [[Header(transaction, START, messageType), Announced(omtu, |data|) % 256, signalId % 64] + data[..omtu - 3]]
         + Tail(omtu, transaction, messageType, data[omtu - 3..])
  {
  }

  /** The sending half of a session: its channel, its scratch buffer, and what the socket has taken. */
  class Sender {
    var isOpen: bool
    const omtu: nat
    const buf: array<byte>
    var budget: nat  // packets the socket will still take before a send fails
    var wire: seq<seq<byte>>

    ghost predicate Valid() reads this {
      buf.Length >= omtu
    }

    constructor (omtu: nat, imtu: nat, budget: nat)
      ensures Valid() && fresh(buf) && isOpen && wire == [] && this.omtu == omtu && this.budget == budget
    {
      this.omtu := omtu;
      this.isOpen := true;
      this.budget := budget;
      this.wire := [];
      this.buf := new byte[if imtu >= omtu then imtu else omtu](_ => 0);
    }

    method TrySend(len: nat) returns (ok: bool)
      requires len <= buf.Length
      modifies this`budget, this`wire
      ensures ok == (old(budget) > 0)
      ensures budget == if ok then old(budget) - 1 else 0
      ensures wire == if ok then old(wire) + [buf[..len]] else old(wire)
    {
      ok := budget > 0;
      if ok {
        wire := wire + [buf[..len]];
        budget := budget - 1;
      }
    }

    /** A packet is laid out in the scratch buffer: header, then payload. */
    method Fill(header: seq<byte>, payload: seq<byte>)
      requires |header| + |payload| <= buf.Length
      modifies buf
      ensures buf[..|header| + |payload|] == header + payload
    {
      Memcpy(buf, 0, header);
      Memcpy(buf, |header|, payload);
    }

    /** avdtp_send: every packet in order, stopping at the first the socket refuses. */
    method Send(transaction: byte, messageType: byte, signalId: byte, data: seq<byte>) returns (ok: bool)
      requires Valid()
      modifies this`budget, this`wire, buf
      ensures !isOpen || !Sendable(omtu, data) ==> !ok && wire == old(wire)
      ensures isOpen && Sendable(omtu, data) ==>
        var packets := Packets(omtu, transaction, messageType, signalId, data);
        && ok == (|packets| <= old(budget))
        && wire == old(wire) + packets[..Min(|packets|, old(budget))]
    {
      hide Header, Tail, Announced;
      if !isOpen {
        return false;
      }
      if 2 + |data| <= omtu {
        Fill([Header(transaction, SINGLE, messageType), signalId % 64], data);
        ok := TrySend(2 + |data|);
        return;
      }
      if omtu < 3 {
        return false;
      }
      hide Packets;
      FragmentsUnfold(omtu, transaction, messageType, signalId, data);
      var contFragments := (|data| - (omtu - 3)) / (omtu - 1) + 1;
      AnnouncedIs(omtu, |data|, contFragments);
      Fill([Header(transaction, START, messageType), (contFragments + 1) % 256, signalId % 64], data[..omtu - 3]);
      ghost var packets := Packets(omtu, transaction, messageType, signalId, data);
      ok := TrySend(omtu);
      if !ok {
        return;
      }
      ok := SendTail(transaction, messageType, data, omtu - 3, packets, 1);
    }

    /** The loop of avdtp_send: one packet after the other, until the data is out or the socket refuses. */
    method SendTail(transaction: byte, messageType: byte, data: seq<byte>, first: nat,
                    ghost packets: seq<seq<byte>>, ghost done: nat) returns (ok: bool)
      requires Valid() && omtu >= 3 && first <= |data|
      requires done <= |packets| && packets[done..] == Tail(omtu, transaction, messageType, data[first..])
      modifies this`budget, this`wire, buf
      ensures ok == (|packets| - done <= old(budget))
      ensures wire == old(wire) + packets[done..][..Min(|packets| - done, old(budget))]
    {
      hide Header, Tail;
      ok := true;
      var sent := first;
      ghost var n, before := done, wire;
      while sent < |data|
        invariant first <= sent <= |data| && ok
        invariant done <= n <= |packets| && budget == old(budget) - (n - done) && n - done <= old(budget)
        invariant wire == before + packets[done..n]
        invariant packets[n..] == Tail(omtu, transaction, messageType, data[sent..])
        decreases |data| - sent
      {
        ghost var rest := data[sent..];
        TailUnfolds(omtu, transaction, messageType, rest);
        var left := |data| - sent;
        var packetType, toCopy;
        if left + 1 > omtu {
          packetType, toCopy := CONTINUE, omtu - 1;
        } else {
          packetType, toCopy := END, left;
        }
        Fill([Header(transaction, packetType, messageType)], data[sent..sent + toCopy]);
        assert data[sent..sent + toCopy] == rest[..toCopy] && data[sent + toCopy..] == rest[toCopy..];
        assert packets[n] == packets[n..][0] && packets[n + 1..] == packets[n..][1..];
        assert packets[done..][..n - done] == packets[done..n];
        ok := TrySend(toCopy + 1);
        if !ok {
          return;
        }
        sent := sent + toCopy;
        assert packets[done..n + 1] == packets[done..n] + [packets[n]];
        n := n + 1;
      }
      assert data[sent..] == [];
      TailOfNothing(omtu, transaction, messageType);
      assert packets[done..n] == packets[done..];
    }
  }

  lemma AnnouncedIs(omtu: int, len: int, contFragments: int)
    requires omtu >= 3 && contFragments == (len - (omtu - 3)) / (omtu - 1) + 1
    ensures Announced(omtu, len) == contFragments + 1
  {
  }

  lemma TailOfNothing(omtu: int, transaction: byte, messageType: byte)
    requires omtu >= 3
    ensures Tail(omtu, transaction, messageType, []) == []
  {
  }
}
