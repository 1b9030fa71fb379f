// What AVDTP requests and answers say, as far as a session looks at them.
module AvdtpMessages {
  import opened Options
  import opened Bytes

  datatype Signal =
    | Discover | GetCapabilities | SetConfiguration | GetConfiguration | Reconfigure | Open | Start
    | Close | Suspend | Abort | SecurityControl | GetAllCapabilities | DelayReport

  predicate AsksCapabilities(s: Signal) { s.GetCapabilities? || s.GetAllCapabilities? }

  // struct pending_req: seid is the first octet of its data, stream the stream
  // it was sent for.
  datatype PendingReq<S> = PendingReq(signal: Signal, seid: byte, stream: Option<S>)

  // struct seid_info
  datatype SeidInfo = SeidInfo(seid: byte, inuse: bool)

  function Info(b: byte): SeidInfo { SeidInfo(b / 4, (b / 2) % 2 == 1) }

  // The end points a DISCOVER answer lists; an odd last octet is not looked at.
  function Infos(bytes: seq<byte>): seq<SeidInfo> {
    if |bytes| < 2 then [] else [Info(bytes[0])] + Infos(bytes[2..])
  }
}
