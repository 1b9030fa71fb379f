/** The receiving half: the in_buf of a session and what one packet does to it. */
module Reassembly {
  import opened Arith
  import opened Bytes
  import opened Signalling

  datatype ParseResult = ParseError | ParseFragment | ParseSuccess

  /** What in_buf holds, as a value. */
  datatype InState = InState(active: bool, noOfPackets: int, transaction: int, messageType: int, signalId: int,
                             buf: seq<byte>, dataSize: byte)

  /** The message as the command and response handlers see it. */
  function Payload(s: InState): seq<byte>
    requires |s.buf| == IN_BUF_SIZE
  {
    s.buf[..s.dataSize]
  }

  function PacketType(b: byte): int {
    (b / 4) % 4
  }

  /** The state after the header checks, and where the payload starts; None where the packet is refused. */
  datatype Opened = Refused | Accepted(state: InState, headerSize: nat)

  function Open(s: InState, packet: seq<byte>): (o: Opened)
    requires |packet| >= 1
    ensures o.Accepted? ==> o.headerSize <= |packet| && o.state.buf == s.buf
  {
    var h := packet[0];
    if PacketType(h) == SINGLE then
      if |packet| < 2 || s.active then Refused
      else Accepted(InState(true, 1, h / 16, h % 4, packet[1] % 64, s.buf, 0), 2)
    else if PacketType(h) == START then
      if |packet| < 3 || s.active then Refused
      else Accepted(InState(true, packet[1], h / 16, h % 4, packet[2] % 64, s.buf, 0), 3)
    else if PacketType(h) == CONTINUE then
      if !s.active || s.transaction != h / 16 || s.noOfPackets <= 1 then Refused
      else Accepted(s, 1)
    else
      if !s.active || s.transaction != h / 16 || s.noOfPackets > 1 then Refused
      else Accepted(s, 1)
  }

  /** avdtp_parse_data on values. */
  function ParseStep(s: InState, packet: seq<byte>): (r: (InState, ParseResult))
    requires |packet| >= 1 && |s.buf| == IN_BUF_SIZE
    ensures |r.0.buf| == IN_BUF_SIZE
  {
    var o := Open(s, packet);
    if o.Refused? then (s, ParseError)
    else
      var payload := packet[o.headerSize..];
      var size := o.state.dataSize;
      if size + |payload| > IN_BUF_SIZE then (o.state, ParseError)
      else
        var t := o.state.(buf := s.buf[..size] + payload + s.buf[size + |payload|..],
                          dataSize := (size + |payload|) % 256);
        if t.noOfPackets > 1 then (t.(noOfPackets := t.noOfPackets - 1), ParseFragment)
        else (t.(active := false), ParseSuccess)
  }

  /**
   * Any packet at all. A first one (single or start) is refused within a message or when its header is cut off;
   * a further one outside a message, with another tag, or when the announced count does not call for it. What
   * does not fit the buffer is refused as well; the rest is appended, and the message is complete when no more
   * packets are expected.
   */
  lemma AnyPacket(s: InState, packet: seq<byte>)
    requires |packet| >= 1 && |s.buf| == 1024
    ensures var kind, tag, t, result :=
        packet[0] / 4 % 4, packet[0] / 16, ParseStep(s, packet).0, ParseStep(s, packet).1;
      var header, before := if kind == 0 then 2 else if kind == 1 then 3 else 1, if kind <= 1 then 0 else s.dataSize;
      var n := before + |packet| - header;
      if (kind <= 1 && (s.active || |packet| < header))
         || (kind >= 2 && (!s.active || s.transaction != tag || (kind == 2 <==> s.noOfPackets <= 1)))
      then t == s && result == ParseError
      else
        && (result == ParseError <==> n > 1024)
        && (if kind <= 1 then t.transaction == tag && t.messageType == packet[0] % 4
                              && t.signalId == packet[header - 1] % 64
            else t.transaction == s.transaction && t.messageType == s.messageType && t.signalId == s.signalId)
        && (n > 1024 ==> t.buf == s.buf && t.dataSize == before && t.active)
        && (n <= 1024 ==>
             var left := if kind == 0 then 1 else if kind == 1 then packet[1] as int else s.noOfPackets;
             && t.buf[..before] == s.buf[..before] && t.buf[before..n] == packet[header..] && t.buf[n..] == s.buf[n..]
             && t.dataSize == n % 256
             && (result == ParseFragment <==> left > 1) && (t.active <==> left > 1)
             && t.noOfPackets == if left > 1 then left - 1 else left)
  {}

  /** struct in_buf, updated in place. */
  class InBuf {
    var active: bool
    var noOfPackets: int
    var transaction: int
    var messageType: int
    var signalId: int
    const buf: array<byte>
    var dataSize: byte

    ghost predicate Valid() reads this {
      buf.Length == IN_BUF_SIZE
    }

    ghost function State(): InState
      reads this, buf
    {
      InState(active, noOfPackets, transaction, messageType, signalId, buf[..], dataSize)
    }

    constructor ()
      ensures Valid() && fresh(buf) && !active
    {
      active, noOfPackets, transaction, messageType, signalId, dataSize := false, 0, 0, 0, 0, 0;
      buf := new byte[IN_BUF_SIZE](_ => 0);
    }

    /** avdtp_parse_data: every copy stays inside the 1024-byte buffer, whatever the packet says. */
    method ParseData(packet: seq<byte>) returns (result: ParseResult)
      requires Valid() && |packet| >= 1
      modifies this, buf
      ensures Valid() && (State(), result) == ParseStep(old(State()), packet)
    {
      var header := packet[0];
      var payload;
      if PacketType(header) == SINGLE {
        if |packet| < 2 || active {
          return ParseError;
        }
        payload := packet[2..];
        active := true;
        dataSize := 0;
        noOfPackets := 1;
        transaction := header / 16;
        messageType := header % 4;
        signalId := packet[1] % 64;
      } else if PacketType(header) == START {
        if |packet| < 3 || active {
          return ParseError;
        }
        active := true;
        dataSize := 0;
        transaction := header / 16;
        messageType := header % 4;
        noOfPackets := packet[1];
        signalId := packet[2] % 64;
        payload := packet[3..];
      } else if PacketType(header) == CONTINUE {
        if !active || transaction != header / 16 || noOfPackets <= 1 {
          return ParseError;
        }
        payload := packet[1..];
      } else {
        if !active || transaction != header / 16 || noOfPackets > 1 {
          return ParseError;
        }
        payload := packet[1..];
      }
      if dataSize + |payload| > IN_BUF_SIZE {
        return ParseError;
      }
      Memcpy(buf, dataSize, payload);
      dataSize := (dataSize + |payload|) % 256;
      if noOfPackets > 1 {
        noOfPackets := noOfPackets - 1;
        return ParseFragment;
      }
      active := false;
      return ParseSuccess;
    }
  }

  /** session_cb reads at most imtu bytes of a packet, and gives up on the first error. */
  function Feed(s: InState, packets: seq<seq<byte>>, imtu: nat): (r: (InState, seq<ParseResult>))
    requires |s.buf| == IN_BUF_SIZE
    ensures |r.0.buf| == IN_BUF_SIZE
    decreases |packets|
  {
    if packets == [] then (s, [])
    else
      var packet := packets[0][..Min(|packets[0]|, imtu)];
      if |packet| < 1 then (s, [ParseError])
      else
        var (t, result) := ParseStep(s, packet);
        if result == ParseError then (t, [ParseError])
        else
          var (u, results) := Feed(t, packets[1..], imtu);
          (u, [result] + results)
  }

  /** One packet at a time, cut to imtu octets, up to the first that is empty or refused. */
  lemma FedOneByOne(s: InState, packet: seq<byte>, rest: seq<seq<byte>>, imtu: nat)
    requires |s.buf| == 1024
    ensures Feed(s, [], imtu) == (s, [])
    ensures packet == [] || imtu == 0 ==> Feed(s, [packet] + rest, imtu) == (s, [ParseError])
    ensures packet != [] && imtu > 0 ==>
      var (t, result) := ParseStep(s, if |packet| <= imtu then packet else packet[..imtu]);
      && Feed(s, [packet] + rest, imtu).1 == [result] + (if result == ParseError then [] else Feed(t, rest, imtu).1)
      && Feed(s, [packet] + rest, imtu).0 == (if result == ParseError then t else Feed(t, rest, imtu).0)
  {
    assert ([packet] + rest)[1..] == rest;
    assert |packet| <= imtu ==> packet[..|packet|] == packet;
    hide ParseStep;
  }

  /** Every packet but the last is a fragment, and the last completes the message. */
  predicate CompletesAtEnd(results: seq<ParseResult>, n: nat) {
    && |results| == n && n >= 1
    && results[n - 1] == ParseSuccess
    && forall i :: 0 <= i < n - 1 ==> results[i] == ParseFragment
  }

  ghost predicate Complete(s: InState, transaction: byte, messageType: byte, signalId: byte, data: seq<byte>)
    requires |s.buf| == IN_BUF_SIZE
  {
    && Payload(s) == data && !s.active
    && s.transaction == transaction % 16 && s.messageType == messageType % 4 && s.signalId == signalId % 64
  }

  /** The receiver ends up with exactly the message that was sent. */
  ghost predicate Delivered(s: InState, packets: seq<seq<byte>>, imtu: nat, transaction: byte, messageType: byte,
                            signalId: byte, data: seq<byte>)
    requires |s.buf| == IN_BUF_SIZE
  {
    var (t, results) := Feed(s, packets, imtu);
    CompletesAtEnd(results, |packets|) && Complete(t, transaction, messageType, signalId, data)
  }

  /** The payload bytes of a packet of the given position. */
  function Bodies(packets: seq<seq<byte>>): seq<byte>
    requires forall p :: p in packets ==> |p| >= 1
  {
    if packets == [] then [] else packets[0][1..] + Bodies(packets[1..])
  }

  /** Each packet fits the channel, and the pieces put end to end are the data. */
  lemma {:induction false} TailCarriesAll(omtu: int, transaction: byte, messageType: byte, data: seq<byte>)
    requires omtu >= 3
    ensures forall p :: p in Tail(omtu, transaction, messageType, data) ==> 1 <= |p| <= omtu
    ensures Bodies(Tail(omtu, transaction, messageType, data)) == data
    decreases |data|
  {
    hide Header, Tail;
    if data == [] {
      TailOfNothing(omtu, transaction, messageType);
    } else {
      TailUnfolds(omtu, transaction, messageType, data);
      var toCopy := TailStep(omtu, |data|).1;
      TailCarriesAll(omtu, transaction, messageType, data[toCopy..]);
      assert Tail(omtu, transaction, messageType, data)[1..] == Tail(omtu, transaction, messageType, data[toCopy..]);
      assert data[..toCopy] + data[toCopy..] == data;
    }
  }

  lemma {:induction false} TailCount(omtu: int, transaction: byte, messageType: byte, data: seq<byte>)
    requires omtu >= 3
    ensures |Tail(omtu, transaction, messageType, data)| == (|data| + (omtu - 2)) / (omtu - 1)
    decreases |data|
  {
    hide Header, Tail;
    if data == [] {
      TailOfNothing(omtu, transaction, messageType);
      DivModUnique(omtu - 2, omtu - 1, 0, omtu - 2);
    } else {
      TailUnfolds(omtu, transaction, messageType, data);
      var toCopy := TailStep(omtu, |data|).1;
      TailCount(omtu, transaction, messageType, data[toCopy..]);
      CeilStep(|data|, omtu - 1, toCopy);
    }
  }

  lemma CeilStep(len: int, w: int, c: int)
    requires w >= 2 && len >= 1 && c == Min(len, w)
    ensures (len + (w - 1)) / w == 1 + (len - c + (w - 1)) / w
  {
    var x := len - c + (w - 1);
    if c == w {
      assert x + w == (x / w + 1) * w + x % w;
      DivModUnique(x + w, w, x / w + 1, x % w);
    } else {
      DivModUnique(w - 1, w, 0, w - 1);
      DivModUnique(len + (w - 1), w, 1, len - 1);
    }
  }

  lemma CeilFloor(x: int, w: int)
    requires w >= 1 && x >= 0
    ensures (x + (w - 1)) / w == x / w + if x % w == 0 then 0 else 1
  {
    assert x == (x / w) * w + x % w;
    if x % w == 0 {
      DivModUnique(x + (w - 1), w, x / w, w - 1);
    } else {
      DivModUnique(x + (w - 1), w, x / w + 1, x % w - 1);
    }
  }

  /** The announced count is the number of packets sent, or one more when the last packet is exactly full. */
  lemma AnnouncedCount(omtu: int, transaction: byte, messageType: byte, signalId: byte, data: seq<byte>)
    requires omtu >= 3 && !IsSingle(omtu, data)
    ensures Announced(omtu, |data|) == |Packets(omtu, transaction, messageType, signalId, data)|
      + if (|data| - (omtu - 3)) % (omtu - 1) == 0 then 1 else 0
  {
    hide Header, Tail;
    TailCount(omtu, transaction, messageType, data[omtu - 3..]);
    CeilFloor(|data| - (omtu - 3), omtu - 1);
  }

  /** All of it, for every length: the packets fit, and after their headers they hold the data in order. */
  lemma PacketsCarryAll(omtu: int, transaction: byte, messageType: byte, signalId: byte, data: seq<byte>)
    requires Sendable(omtu, data)
    ensures var packets := Packets(omtu, transaction, messageType, signalId, data);
      && (forall p :: p in packets ==> 1 <= |p| <= omtu)
      && (IsSingle(omtu, data) ==> |packets| == 1 && packets[0][2..] == data)
      && (!IsSingle(omtu, data) ==> packets[0][3..] + Bodies(packets[1..]) == data)
  {
    hide Header, Tail, Announced;
    if !IsSingle(omtu, data) {
      TailCarriesAll(omtu, transaction, messageType, data[omtu - 3..]);
      FragmentsUnfold(omtu, transaction, messageType, signalId, data);
      assert Packets(omtu, transaction, messageType, signalId, data)[1..]
        == Tail(omtu, transaction, messageType, data[omtu - 3..]);
      assert data[..omtu - 3] + data[omtu - 3..] == data;
    }
  }

  /** A receiver in the middle of a message: what it has, and how many packets it still expects. */
  ghost predicate Midway(s: InState, transaction: byte, messageType: byte, signalId: byte, got: seq<byte>, left: int) {
    && |s.buf| == IN_BUF_SIZE && s.active
    && s.transaction == transaction % 16 && s.messageType == messageType % 4 && s.signalId == signalId % 64
    && |got| < 256 && s.dataSize == |got| && s.buf[..|got|] == got
    && s.noOfPackets == left
  }

  lemma ContinueReceived(s: InState, transaction: byte, messageType: byte, signalId: byte, got: seq<byte>, left: int,
                         piece: seq<byte>)
    requires Midway(s, transaction, messageType, signalId, got, left) && left > 1 && |got| + |piece| <= 255
    ensures var (t, result) := ParseStep(s, [Header(transaction, CONTINUE, messageType)] + piece);
      result == ParseFragment && Midway(t, transaction, messageType, signalId, got + piece, left - 1)
  {
    hide Header;
    assert ([Header(transaction, CONTINUE, messageType)] + piece)[1..] == piece;
  }

  lemma EndReceived(s: InState, transaction: byte, messageType: byte, signalId: byte, got: seq<byte>, left: int,
                    piece: seq<byte>)
    requires Midway(s, transaction, messageType, signalId, got, left) && |got| + |piece| <= 255
    ensures var (t, result) := ParseStep(s, [Header(transaction, END, messageType)] + piece);
      && result == (if left > 1 then ParseError else ParseSuccess)
      && (left <= 1 ==> Complete(t, transaction, messageType, signalId, got + piece))
  {
    hide Header;
    assert ([Header(transaction, END, messageType)] + piece)[1..] == piece;
  }

  /** What a receiver that counted len / w + 1 more packets makes of the tail. */
  lemma {:induction false} TailReceived(s: InState, omtu: int, imtu: nat, transaction: byte, messageType: byte,
                                        signalId: byte, got: seq<byte>, rest: seq<byte>)
    requires 3 <= omtu <= imtu && rest != [] && |got| + |rest| <= 255
    requires Midway(s, transaction, messageType, signalId, got, |rest| / (omtu - 1) + 1)
    ensures var packets := Tail(omtu, transaction, messageType, rest);
      var (t, results) := Feed(s, packets, imtu);
      && |results| == |packets| >= 1
      && (forall i :: 0 <= i < |packets| - 1 ==> results[i] == ParseFragment)
      && results[|packets| - 1] == (if |rest| % (omtu - 1) == 0 then ParseError else ParseSuccess)
      && (|rest| % (omtu - 1) != 0 ==> Complete(t, transaction, messageType, signalId, got + rest))
    decreases |rest|
  {
    hide Header, Tail, ParseStep, Midway;
    var packets := Tail(omtu, transaction, messageType, rest);
    TailUnfolds(omtu, transaction, messageType, rest);
    var (packetType, toCopy) := TailStep(omtu, |rest|);
    var piece, tail := rest[..toCopy], Tail(omtu, transaction, messageType, rest[toCopy..]);
    assert packets[1..] == tail && packets[0][..Min(|packets[0]|, imtu)] == packets[0];
    BufferStays(s, transaction, messageType, signalId, got, |rest| / (omtu - 1) + 1);
    if packetType == CONTINUE {
      QuotientStep(|rest|, omtu - 1);
      ContinueReceived(s, transaction, messageType, signalId, got, |rest| / (omtu - 1) + 1, piece);
      var (t, _) := ParseStep(s, packets[0]);
      TailReceived(t, omtu, imtu, transaction, messageType, signalId, got + piece, rest[toCopy..]);
      assert got + piece + rest[toCopy..] == got + rest;
    } else {
      assert rest[toCopy..] == [] && piece == rest;
      TailOfNothing(omtu, transaction, messageType);
      LastQuotient(|rest|, omtu - 1);
      EndReceived(s, transaction, messageType, signalId, got, |rest| / (omtu - 1) + 1, piece);
    }
  }

  lemma BufferStays(s: InState, transaction: byte, messageType: byte, signalId: byte, got: seq<byte>, left: int)
    requires Midway(s, transaction, messageType, signalId, got, left)
    ensures |s.buf| == IN_BUF_SIZE
  {
  }

  lemma LastQuotient(len: int, w: int)
    requires 1 <= len <= w
    ensures len / w + 1 > 1 <==> len % w == 0
  {
    if len == w {
      DivModUnique(len, w, 1, 0);
    } else {
      DivModUnique(len, w, 0, len);
    }
  }

  lemma QuotientStep(len: int, w: int)
    requires len > w >= 1
    ensures len / w == (len - w) / w + 1 && len % w == (len - w) % w && len / w >= 1
  {
    assert len == ((len - w) / w + 1) * w + (len - w) % w;
    DivModUnique(len, w, (len - w) / w + 1, (len - w) % w);
  }

  lemma SingleReceived(s: InState, omtu: int, imtu: nat, transaction: byte, messageType: byte, signalId: byte,
                       data: seq<byte>)
    requires |s.buf| == IN_BUF_SIZE && !s.active && IsSingle(omtu, data) && omtu <= imtu && |data| <= 255
    ensures Delivered(s, Packets(omtu, transaction, messageType, signalId, data), imtu, transaction, messageType,
                      signalId, data)
  {
    hide Header;
    var packets := Packets(omtu, transaction, messageType, signalId, data);
    var packet := packets[0];
    assert packet[..Min(|packet|, imtu)] == packet && packet[2..] == data;
    var (t, result) := ParseStep(s, packet);
    assert result == ParseSuccess && Complete(t, transaction, messageType, signalId, data);
    assert Feed(t, packets[1..], imtu) == (t, []);
  }

  /** The start packet leaves the receiver waiting for the announced rest. */
  lemma StartReceived(s: InState, omtu: int, transaction: byte, messageType: byte, signalId: byte, data: seq<byte>)
    requires |s.buf| == IN_BUF_SIZE && !s.active && omtu >= 3 && !IsSingle(omtu, data) && |data| <= 255
    ensures var (t, result) := ParseStep(s, Packets(omtu, transaction, messageType, signalId, data)[0]);
      && result == ParseFragment
      && Midway(t, transaction, messageType, signalId, data[..omtu - 3], (|data| - (omtu - 3)) / (omtu - 1) + 1)
  {
    hide Header, Tail, Packets, ParseStep, Midway;
    FragmentsUnfold(omtu, transaction, messageType, signalId, data);
    var packet := Packets(omtu, transaction, messageType, signalId, data)[0];
    assert packet[3..] == data[..omtu - 3];
    HalfOf(|data| - (omtu - 3), omtu - 1);
    StartHeld(s, transaction, messageType, signalId, packet, Announced(omtu, |data|));
  }

  lemma StartHeld(s: InState, transaction: byte, messageType: byte, signalId: byte, packet: seq<byte>, count: int)
    requires |s.buf| == IN_BUF_SIZE && !s.active && 3 <= |packet| <= 258 && 1 < count < 256
    requires packet[0] == Header(transaction, START, messageType) && packet[1] == count && packet[2] == signalId % 64
    ensures var (t, result) := ParseStep(s, packet);
      result == ParseFragment && Midway(t, transaction, messageType, signalId, packet[3..], count - 1)
  {
    hide Header;
  }

  lemma HalfOf(x: nat, w: int)
    requires w >= 2
    ensures 0 <= x / w && 2 * (x / w) <= x
  {
    MulMono(2, w, x / w);
  }

  /**
   * Fragment then reassemble is the identity exactly when the payload length fits an octet
   * and the message is one packet or its last packet is not completely full.
   */
  lemma FragmentThenReassemble(s: InState, omtu: int, imtu: nat, transaction: byte, messageType: byte, signalId: byte,
                               data: seq<byte>)
    requires |s.buf| == IN_BUF_SIZE && !s.active && Sendable(omtu, data) && omtu <= imtu
    ensures Delivered(s, Packets(omtu, transaction, messageType, signalId, data), imtu, transaction, messageType,
                      signalId, data)
      <==> |data| <= 255 && (IsSingle(omtu, data) || (|data| - (omtu - 3)) % (omtu - 1) != 0)
  {
    hide Header, Tail, ParseStep;
    var packets := Packets(omtu, transaction, messageType, signalId, data);
    if |data| <= 255 {
      if IsSingle(omtu, data) {
        SingleReceived(s, omtu, imtu, transaction, messageType, signalId, data);
      } else {
        FragmentsUnfold(omtu, transaction, messageType, signalId, data);
        StartReceived(s, omtu, transaction, messageType, signalId, data);
        var (t, _) := ParseStep(s, packets[0]);
        assert packets[0][..Min(|packets[0]|, imtu)] == packets[0];
        var rest := data[omtu - 3..];
        assert packets[1..] == Tail(omtu, transaction, messageType, rest);
        assert data[..omtu - 3] + rest == data;
        TailReceived(t, omtu, imtu, transaction, messageType, signalId, data[..omtu - 3], rest);
      }
    }
  }

  /** What happens to a lone packet that is too long: it is accepted, and its reported length wraps. */
  lemma LongSinglePacket(s: InState, omtu: int, transaction: byte, messageType: byte, signalId: byte, data: seq<byte>)
    requires |s.buf| == IN_BUF_SIZE && !s.active && IsSingle(omtu, data)
    ensures var (t, result) := ParseStep(s, Packets(omtu, transaction, messageType, signalId, data)[0]);
      && (result == ParseSuccess <==> |data| <= IN_BUF_SIZE)
      && (result == ParseSuccess ==> Payload(t) == data[..|data| % 256])
  {
    hide Header;
    assert Packets(omtu, transaction, messageType, signalId, data)[0][2..] == data;
  }
}
