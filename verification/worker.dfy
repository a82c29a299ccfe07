/**
 * The worker's shared state and its two writers, the frame reader and the polling
 * loop, as atomic events interleaved in any order, with properties of event traces.
 */
module Worker {
  import opened Wrappers
  import opened Jobs
  import opened Protocol
  import opened Pipeline

  /** The job being held and whether a `GET:` is awaiting its answer. */
  datatype State = State(job: Option<Job>, requested: bool)

  const Idle := State(None, false)

  /** A frame read from the queue, or one pass of the polling loop with the outcomes its pipeline meets. */
  datatype Event = Receive(frame: seq<byte>) | Tick(out: Outcomes)

  /** Why the process exits. */
  datatype Crash = FrameFault(error: FrameError) | JobFatal

  datatype Step = Continue(state: State, sent: seq<OutMsg>) | Halt(cause: Crash)

  /**
   * The reader's update. The bare `DATA:` frame clears the request flag; a job frame
   * replaces the held job and leaves the flag alone; a frame that cannot be decoded
   * ends the process. The reader never sends anything.
   */
  function OnFrame(st: State, frame: seq<byte>, payload: seq<byte> -> Option<Job>): (r: Step)
    ensures r.Continue? ==> r.sent == []
    ensures frame == DataSignal ==> r == Continue(State(st.job, false), [])
    ensures frame != DataSignal && |frame| >= HeaderLength && payload(frame[HeaderLength..]).Some? ==>
      r == Continue(State(payload(frame[HeaderLength..]), st.requested), [])
    ensures r.Halt? <==> frame != DataSignal && (|frame| < HeaderLength || payload(frame[HeaderLength..]).None?)
  {
    match DecodeFrame(frame, payload)
    case Success(NoWork) => Continue(st.(requested := false), [])
    case Success(Assignment(j)) => Continue(st.(job := Some(j)), [])
    case Failure(e) => Halt(FrameFault(e))
  }

  /**
   * One pass of the polling loop. Idle with no request outstanding: send `GET:` and
   * raise the flag. Holding a job: clear the flag, run the pipeline, report, drop the job.
   */
  function OnTick(st: State, out: Outcomes): (r: Step)
    ensures r.Continue? && Get in r.sent ==> st == Idle && r.state == State(None, true)
    ensures st == Idle ==> r == Continue(State(None, true), [Get])
    ensures st.job.None? && st.requested ==> r == Continue(st, [])
    ensures st.job.Some? && r.Continue? ==>
      && r.state == Idle
      && (r.sent == [Failed] || r.sent == [Complete(st.job.value.id)])
    ensures st.job.Some? ==>
      && (r.Halt? <==> RunJob(st.job.value, out).terminal == Fatal)
      && (r == Continue(Idle, [Failed]) <==> RunJob(st.job.value, out).terminal == JobFailed)
      && (RunJob(st.job.value, out).terminal.Completed? ==> r == Continue(Idle, [Complete(st.job.value.id)]))
  {
    match st.job
    case None =>
      if !st.requested then Continue(State(None, true), [Get]) else Continue(st, [])
    case Some(j) =>
      match RunJob(j, out).terminal
      case Completed(_) => Continue(Idle, [Complete(j.id)])
      case JobFailed => Continue(Idle, [Failed])
      case Fatal => Halt(JobFatal)
  }

  function Next(st: State, e: Event, payload: seq<byte> -> Option<Job>): Step
  {
    match e
    case Receive(frame) => OnFrame(st, frame, payload)
    case Tick(out) => OnTick(st, out)
  }

  /** What a run of events leaves behind: the frames sent, the last state, and whether the process exited. */
  datatype Trace = Trace(sent: seq<OutMsg>, final: State, halted: bool)

  function Execute(st: State, evs: seq<Event>, payload: seq<byte> -> Option<Job>): Trace
    decreases |evs|
  {
    if |evs| == 0 then Trace([], st, false)
    else
      match Next(st, evs[0], payload)
      case Halt(_) => Trace([], st, true)
      case Continue(st', msgs) =>
        var t := Execute(st', evs[1..], payload);
        Trace(msgs + t.sent, t.final, t.halted)
  }

  /** No frame of the run is the bare empty-queue signal. */
  predicate NoEmptySignal(evs: seq<Event>)
  {
    forall i :: 0 <= i < |evs| ==> evs[i] != Receive(DataSignal)
  }

  /** Every `GET:` in the frames sent comes after some report. */
  predicate ReportBeforeGet(msgs: seq<OutMsg>)
  {
    forall k :: 0 <= k < |msgs| && msgs[k] == Get ==> exists m :: 0 <= m < k && msgs[m].IsReport()
  }

  /**
   * While a request is outstanding or a job is held, no second `GET:` is sent until
   * the empty-queue signal arrives or a job is reported.
   */
  lemma {:induction false} NoRequestWhileBusy(st: State, evs: seq<Event>, payload: seq<byte> -> Option<Job>)
    requires st.requested || st.job.Some?
    requires NoEmptySignal(evs)
    ensures ReportBeforeGet(Execute(st, evs, payload).sent)
    decreases |evs|
  {
    if |evs| > 0 {
      match Next(st, evs[0], payload)
      case Halt(_) =>
      case Continue(st', msgs) =>
        var rest := Execute(st', evs[1..], payload);
        NoEmptySignalTail(evs);
        if msgs == [] {
          assert st'.requested || st'.job.Some?;
          NoRequestWhileBusy(st', evs[1..], payload);
          assert msgs + rest.sent == rest.sent;
        } else {
          ReportFirst(msgs, rest.sent);
        }
    }
  }

  lemma NoEmptySignalTail(evs: seq<Event>)
    requires |evs| > 0 && NoEmptySignal(evs)
    ensures NoEmptySignal(evs[1..])
  {
    forall i | 0 <= i < |evs[1..]|
      ensures evs[1..][i] != Receive(DataSignal)
    {
      assert evs[1..][i] == evs[i + 1];
    }
  }

  /** Frames that start with a report have every `GET:` preceded by a report. */
  lemma ReportFirst(msgs: seq<OutMsg>, rest: seq<OutMsg>)
    requires |msgs| > 0 && msgs[0].IsReport()
    ensures ReportBeforeGet(msgs + rest)
  {
    var sent := msgs + rest;
    forall k | 0 <= k < |sent| && sent[k] == Get
      ensures exists m :: 0 <= m < k && sent[m].IsReport()
    {
      assert sent[0].IsReport();
    }
  }

  function CountGets(msgs: seq<OutMsg>): nat
  {
    if |msgs| == 0 then 0 else (if msgs[0] == Get then 1 else 0) + CountGets(msgs[1..])
  }

  function CountReports(msgs: seq<OutMsg>): nat
  {
    if |msgs| == 0 then 0 else (if msgs[0].IsReport() then 1 else 0) + CountReports(msgs[1..])
  }

  function CountEmptySignals(evs: seq<Event>): nat
  {
    if |evs| == 0 then 0 else (if evs[0] == Receive(DataSignal) then 1 else 0) + CountEmptySignals(evs[1..])
  }

  /** 1 while the worker waits on the queue: a request is outstanding or a job is held. */
  function Busy(st: State): nat
  {
    if st.requested || st.job.Some? then 1 else 0
  }

  lemma {:induction false} CountsOfPrepend(m: seq<OutMsg>, rest: seq<OutMsg>)
    requires |m| <= 1
    ensures CountGets(m + rest) == CountGets(m) + CountGets(rest)
    ensures CountReports(m + rest) == CountReports(m) + CountReports(rest)
  {
    if |m| == 1 {
      assert (m + rest)[1..] == rest;
    } else {
      assert m + rest == rest;
    }
  }

  /**
   * Requests are paid for: over any run, the `GET:` frames sent never exceed the reports
   * sent plus the empty-queue signals received, plus one when the worker ends busy and
   * did not start busy.
   */
  lemma {:induction false} RequestsBounded(st: State, evs: seq<Event>, payload: seq<byte> -> Option<Job>)
    ensures var t := Execute(st, evs, payload);
      CountGets(t.sent) + Busy(st) <= CountReports(t.sent) + CountEmptySignals(evs) + Busy(t.final)
    decreases |evs|
  {
    if |evs| > 0 {
      match Next(st, evs[0], payload)
      case Halt(_) =>
      case Continue(st', msgs) =>
        RequestsBounded(st', evs[1..], payload);
        var rest := Execute(st', evs[1..], payload);
        assert |msgs| <= 1;
        CountsOfPrepend(msgs, rest.sent);
    }
  }

  /** From start-up, the worker never sends more than one `GET:` beyond its reports and the empty-queue signals it received. */
  lemma RequestsFromStart(evs: seq<Event>, payload: seq<byte> -> Option<Job>)
    ensures CountGets(Execute(Idle, evs, payload).sent) <= CountReports(Execute(Idle, evs, payload).sent) + CountEmptySignals(evs) + 1
  {
    RequestsBounded(Idle, evs, payload);
  }

  /** After the empty-queue signal, the next pass of an idle worker sends exactly one `GET:`. */
  lemma EmptySignalThenRequest(st: State, out: Outcomes, payload: seq<byte> -> Option<Job>)
    requires st.job.None?
    ensures Execute(st, [Receive(DataSignal), Tick(out)], payload) == Trace([Get], State(None, true), false)
  {
    var evs := [Receive(DataSignal), Tick(out)];
    assert evs[1..] == [Tick(out)];
    assert [Tick(out)][1..] == [];
    assert Next(st, evs[0], payload) == Continue(Idle, []);
    assert Execute(Idle, [Tick(out)], payload) == Trace([Get] + [], State(None, true), false);
  }

  /** A job received before the previous one was picked up replaces it: the next pass runs only the newer job. */
  lemma LatestJobWins(st: State, f1: seq<byte>, f2: seq<byte>, out: Outcomes, payload: seq<byte> -> Option<Job>)
    requires f1 != DataSignal && |f1| >= HeaderLength && payload(f1[HeaderLength..]).Some?
    requires f2 != DataSignal && |f2| >= HeaderLength && payload(f2[HeaderLength..]).Some?
    ensures Execute(st, [Receive(f1), Receive(f2), Tick(out)], payload) == Execute(st.(job := payload(f2[HeaderLength..])), [Tick(out)], payload)
  {
    var evs := [Receive(f1), Receive(f2), Tick(out)];
    var s1 := st.(job := payload(f1[HeaderLength..]));
    var s2 := st.(job := payload(f2[HeaderLength..]));
    assert evs[1..] == [Receive(f2), Tick(out)];
    assert evs[1..][1..] == [Tick(out)];
    assert Next(st, evs[0], payload) == Continue(s1, []);
    assert Next(s1, Receive(f2), payload) == Continue(s2, []);
    assert Execute(s1, [Receive(f2), Tick(out)], payload) == Execute(s2, [Tick(out)], payload);
  }

  /**
   * A failure of the track generator or the simulator during the pass that holds a job
   * sends exactly one `FAILED:` and leaves the worker idle.
   */
  lemma ExecutableFailureReportsFailed(st: State, out: Outcomes, step: Action)
    requires st.job.Some?
    requires JobScoped(step) && StepFails(step, out)
    requires step in RunJob(st.job.value, out).actions
    ensures OnTick(st, out) == Continue(Idle, [Failed])
  {
    var r := RunJob(st.job.value, out);
    RunStopsAtFirstFailure(st.job.value, out);
    var k :| 0 <= k < |r.actions| && r.actions[k] == step;
    assert k == |r.actions| - 1;
  }

  /** A pass whose pipeline completes sends exactly `COMPLETE:` with the held job's identity. */
  lemma CompletionReportsJob(st: State, out: Outcomes)
    requires st.job.Some? && RunJob(st.job.value, out).terminal.Completed?
    ensures OnTick(st, out) == Continue(Idle, [Complete(st.job.value.id)])
    ensures EncodeOut(OnTick(st, out).sent[0]) == "COMPLETE:" + st.job.value.id
  {
  }
}
