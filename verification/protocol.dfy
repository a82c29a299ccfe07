/** The text frames exchanged with the queue: requests and reports going out, job assignments coming in. */
module Protocol {
  import opened Wrappers
  import opened Text
  import opened Jobs

  /** Messages the worker sends. */
  datatype OutMsg = Get | Failed | Complete(id: string)
  {
    /** A terminal report for the job in flight. */
    predicate IsReport()
    {
      Failed? || Complete?
    }
  }

  function EncodeOut(m: OutMsg): string
  {
    match m
    case Get => "GET:"
    case Failed => "FAILED:"
    case Complete(id) => "COMPLETE:" + id
  }

  /** How the queue reads a worker frame. */
  function DecodeOut(s: string): Option<OutMsg>
  {
    if s == "GET:" then Some(Get)
    else if s == "FAILED:" then Some(Failed)
    else if HasPrefix(s, "COMPLETE:") then Some(Complete(s[9..]))
    else None
  }

  /** Every outgoing frame, including a report for any job identity, reads back as the message sent. */
  lemma OutRoundTrip(m: OutMsg)
    ensures DecodeOut(EncodeOut(m)) == Some(m)
  {
    if m.Complete? {
      PrefixOfConcat("COMPLETE:", m.id);
    }
  }

  /** A decoded inbound frame: the empty-queue signal or a job assignment. */
  datatype Inbound = NoWork | Assignment(job: Job)

  /** One byte of a websocket message; inbound frames are read and sliced as bytes. */
  newtype byte = b: int | 0 <= b < 256

  /** The ASCII bytes of `DATA:`: the empty-queue signal, and the header of every job frame. */
  const DataSignal: seq<byte> := [0x44, 0x41, 0x54, 0x41, 0x3A]

  /** Why an inbound frame stops the worker: too short to slice, or a payload that is not a job. */
  datatype FrameError = Truncated | MalformedPayload

  /** Length in bytes of the `DATA:` prefix, dropped from every non-empty-queue frame. */
  const HeaderLength := 5

  /**
   * Decodes one inbound frame. Exactly `DATA:` means no work; any other frame loses its
   * first five bytes, whatever they are, and the remainder must decode as a job.
   * `payload` is the JSON decoder, abstracted as a partial function on bytes.
   */
  function DecodeFrame(frame: seq<byte>, payload: seq<byte> -> Option<Job>): (r: Result<Inbound, FrameError>)
    ensures r == Success(NoWork) <==> frame == DataSignal
    ensures r == Failure(Truncated) <==> |frame| < HeaderLength
    ensures r == Failure(MalformedPayload) <==> frame != DataSignal && |frame| >= HeaderLength && payload(frame[HeaderLength..]).None?
    ensures frame != DataSignal && |frame| >= HeaderLength && payload(frame[HeaderLength..]).Some? ==>
      r == Success(Assignment(payload(frame[HeaderLength..]).value))
  {
    if frame == DataSignal then Success(NoWork)
    else if |frame| < HeaderLength then Failure(Truncated)
    else
      match payload(frame[HeaderLength..])
      case Some(j) => Success(Assignment(j))
      case None => Failure(MalformedPayload)
  }

  /** The queue's framing: `DATA:` followed by the job's JSON, or `DATA:` alone. */
  function EncodeFrame(m: Inbound, render: Job -> seq<byte>): seq<byte>
  {
    match m
    case NoWork => DataSignal
    case Assignment(j) => DataSignal + render(j)
  }

  /** Framing and decoding invert each other whenever the JSON rendering of the job is non-empty and reads back. */
  lemma FrameRoundTrip(m: Inbound, render: Job -> seq<byte>, payload: seq<byte> -> Option<Job>)
    requires m.Assignment? ==> render(m.job) != [] && payload(render(m.job)) == Some(m.job)
    ensures DecodeFrame(EncodeFrame(m, render), payload) == Success(m)
  {
    if m.Assignment? {
      PrefixOfConcat(DataSignal, render(m.job));
      assert |EncodeFrame(m, render)| > 5;
    }
  }

  /** The five-byte header is never inspected: any header other than the bare `DATA:` frame decodes the same payload. */
  lemma HeaderIgnored(header: seq<byte>, body: seq<byte>, payload: seq<byte> -> Option<Job>)
    requires |header| == HeaderLength && header + body != DataSignal
    ensures DecodeFrame(header + body, payload) == (match payload(body) case Some(j) => Success(Assignment(j)) case None => Failure(MalformedPayload))
  {
    PrefixOfConcat(header, body);
  }
}
