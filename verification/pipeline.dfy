/**
 * The job execution pipeline as a plan: for a job and the exit statuses of the
 * external steps, the ordered actions the worker performs and how the job ends.
 */
module Pipeline {
  import opened Wrappers
  import opened Text
  import opened Jobs
  import opened Params

  /** Every object the worker reads or writes lives under this bucket. */
  const Bucket := "s3://simulation.njcoast.us/"

  /** Object-store key of a file named `name` in a job's folder. */
  function Key(folder: string, name: string): string
  {
    Bucket + folder + "/" + name
  }

  /** One `aws s3 cp` of a local file; a failed required upload stops the process, a best-effort one is ignored. */
  datatype Upload = Upload(local: string, remote: string, required: bool)

  datatype Action =
    | Download(remote: string, local: string)
    | GenerateTrack
    | ReadParams
    | WriteParams(doc: Parameters)
    | Put(upload: Upload)
    | Simulate
    | Convert

  /** How a job ends: reported complete, reported failed, or the whole process exits. */
  datatype Terminal = Completed(id: string) | JobFailed | Fatal

  datatype Run = Run(actions: seq<Action>, terminal: Terminal)

  /**
   * What the outside world answers: whether the input download succeeds, the exit
   * status of the track generator and of the simulator, the parameters document read
   * from disk (`None` when it cannot be opened or decoded), whether writing the patched
   * document succeeds, and the remote keys whose upload fails. The converter's exit
   * status is never consulted.
   */
  datatype Outcomes = Outcomes(
    fetchOk: bool,
    trackOk: bool,
    params: Option<Parameters>,
    writeOk: bool,
    simulateOk: bool,
    failedUploads: set<string>)

  /** A file the pipeline publishes: where it lies locally, the stem and extension of its remote name. */
  datatype Artifact = Artifact(local: string, stem: string, ext: string, required: bool)

  /** The result files, in upload order. */
  const ResultArtifacts: seq<Artifact> := [
    Artifact("/app/heatmap.json", "heatmap", ".json", true),
    Artifact("/app/wind_heatmap.json", "wind_heatmap", ".json", true),
    Artifact("/app/wind.geojson", "wind", ".geojson", false),
    Artifact("/app/surge_line.json", "surge_line", ".json", true),
    Artifact("/app/surge.geojson", "surge", ".geojson", false),
    Artifact("/app/track.json", "track", ".geojson", false)]

  /** Published after the other results only for storm type 1. */
  const TransectArtifact := Artifact("/app/transect_line.json", "transect_line", ".json", true)

  /** The patched parameters document of a derived-parameters job. */
  const ParamsArtifact := Artifact("/app/input_params.json", "input_params", ".json", true)

  /** The uploads whose failure is ignored. */
  const BestEffortLocals: set<string> := {"/app/wind.geojson", "/app/surge.geojson", "/app/track.json"}

  /** Text inserted before the extension of published names: nothing for pre-computed jobs, the suffix otherwise. */
  function Tag(j: Job): string
  {
    if IsPrecomputed(j) then "" else Suffix(j)
  }

  function UploadOf(j: Job, a: Artifact): Upload
  {
    Upload(a.local, Key(j.folder, a.stem + Tag(j) + a.ext), a.required)
  }

  /** The track cone, published under its bare name even for derived-parameters jobs. */
  function ConeUpload(j: Job): Upload
  {
    Upload("/app/cone.json", Key(j.folder, "cone.json"), true)
  }

  function ResultArtifactsFor(stormType: int): seq<Artifact>
  {
    ResultArtifacts + (if stormType == 1 then [TransectArtifact] else [])
  }

  function ResultUploads(j: Job, stormType: int): (us: seq<Upload>)
    ensures |us| == |ResultArtifactsFor(stormType)|
    ensures forall i :: 0 <= i < |us| ==> us[i] == UploadOf(j, ResultArtifactsFor(stormType)[i])
  {
    var arts := ResultArtifactsFor(stormType);
    seq(|arts|, i requires 0 <= i < |arts| => UploadOf(j, arts[i]))
  }

  function ParamUploads(j: Job): seq<Upload>
  {
    [UploadOf(j, ParamsArtifact), ConeUpload(j)]
  }

  /** An upload that stops the process: it is required and its transfer fails. */
  predicate Blocks(u: Upload, failed: set<string>)
  {
    u.required && u.remote in failed
  }

  /**
   * Performs uploads in order. Returns the uploads attempted and whether a required
   * one failed; the first such failure is the last upload attempted.
   */
  function PerformUploads(us: seq<Upload>, failed: set<string>): (r: (seq<Upload>, bool))
    ensures |r.0| <= |us| && r.0 == us[..|r.0|]
    ensures r.1 <==> exists i :: 0 <= i < |us| && Blocks(us[i], failed)
    ensures !r.1 ==> r.0 == us
    ensures r.1 ==> |r.0| > 0 && Blocks(r.0[|r.0| - 1], failed)
    ensures forall i :: 0 <= i < |r.0| - 1 ==> !Blocks(r.0[i], failed)
  {
    if us == [] then ([], false)
    else if Blocks(us[0], failed) then ([us[0]], true)
    else
      var (rest, fatal) := PerformUploads(us[1..], failed);
      assert forall i :: 1 <= i < |us| ==> us[i] == us[1..][i - 1];
      ([us[0]] + rest, fatal)
  }

  function Puts(us: seq<Upload>): (acts: seq<Action>)
    ensures |acts| == |us|
    ensures forall i :: 0 <= i < |us| ==> acts[i] == Put(us[i])
  {
    seq(|us|, i requires 0 <= i < |us| => Put(us[i]))
  }

  /** Where the pipeline stands when the simulator is about to run: stopped early, or ready with the steps done and the document in use. */
  datatype Prelude = Stopped(run: Run) | Ready(done: seq<Action>, doc: Parameters)
  {
    /** The steps taken so far, whether or not the pipeline stopped. */
    function Steps(): seq<Action>
    {
      if Stopped? then run.actions else done
    }
  }

  /** Everything before the simulator, in the job's mode. */
  function Prepare(j: Job, out: Outcomes): Prelude
  {
    if IsPrecomputed(j) then FetchParams(j, out) else DeriveParams(j, out)
  }

  /** Pre-computed mode: fetch the parameters document from the job's folder and read it. */
  function FetchParams(j: Job, out: Outcomes): Prelude
  {
    var fetch := Download(Key(j.folder, "input_params.json"), "/app/input_params.json");
    if !out.fetchOk then Stopped(Run([fetch], Fatal))
    else if out.params.None? then Stopped(Run([fetch, ReadParams], Fatal))
    else Ready([fetch, ReadParams], out.params.value)
  }

  /** The steps of derived mode up to and including writing the patched document. */
  function DerivedSteps(j: Job, p: Parameters): seq<Action>
  {
    [Download(Key(j.folder, "input.geojson"), "/app/sandy.geojson"), GenerateTrack, ReadParams, WriteParams(Patch(p, j))]
  }

  /** Derived mode: fetch the track input, run the track generator, patch and write the document, publish it. */
  function DeriveParams(j: Job, out: Outcomes): Prelude
  {
    var fetch := Download(Key(j.folder, "input.geojson"), "/app/sandy.geojson");
    if !out.fetchOk then Stopped(Run([fetch], Fatal))
    else if !out.trackOk then Stopped(Run([fetch, GenerateTrack], JobFailed))
    else if out.params.None? then Stopped(Run([fetch, GenerateTrack, ReadParams], Fatal))
    else if !out.writeOk then Stopped(Run(DerivedSteps(j, out.params.value), Fatal))
    else PublishParams(j, out, DerivedSteps(j, out.params.value), Patch(out.params.value, j))
  }

  /** After the steps `written`: upload the patched document and the cone; a failed one is fatal. */
  function PublishParams(j: Job, out: Outcomes, written: seq<Action>, p: Parameters): Prelude
  {
    var (attempted, fatal) := PerformUploads(ParamUploads(j), out.failedUploads);
    if fatal then Stopped(Run(written + Puts(attempted), Fatal))
    else Ready(written + Puts(attempted), p)
  }

  /** After the steps `done`: simulate, convert (its status ignored), then publish `results`; success reports `id`. */
  function Finish(id: string, out: Outcomes, results: seq<Upload>, done: seq<Action>): Run
  {
    if !out.simulateOk then Run(done + [Simulate], JobFailed)
    else
      var (attempted, fatal) := PerformUploads(results, out.failedUploads);
      Run(done + [Simulate, Convert] + Puts(attempted), if fatal then Fatal else Completed(id))
  }

  /** The whole pipeline for one job. */
  function RunJob(j: Job, out: Outcomes): Run
  {
    match Prepare(j, out)
    case Stopped(r) => r
    case Ready(done, p) => Finish(j.id, out, ResultUploads(j, p.stormType), done)
  }

  // ---------------------------------------------------------------------------
  // Failures

  /** Whether an action fails under the given outcomes; a best-effort upload and the converter never do. */
  predicate StepFails(a: Action, out: Outcomes)
  {
    match a
    case Download(_, _) => !out.fetchOk
    case GenerateTrack => !out.trackOk
    case ReadParams => out.params.None?
    case WriteParams(_) => !out.writeOk
    case Put(u) => Blocks(u, out.failedUploads)
    case Simulate => !out.simulateOk
    case Convert => false
  }

  /** Steps whose failure ends the job with a FAILED report rather than ending the process. */
  predicate JobScoped(a: Action)
  {
    a == GenerateTrack || a == Simulate
  }

  /** The shape every run has: it stops at its first failing step, and how it ends is decided by that step. */
  predicate StopsAtFirstFailure(r: Run, out: Outcomes)
  {
    && |r.actions| > 0
    && (forall k :: 0 <= k < |r.actions| - 1 ==> !StepFails(r.actions[k], out))
    && (r.terminal.Completed? <==> !StepFails(r.actions[|r.actions| - 1], out))
    && (r.terminal == JobFailed <==> StepFails(r.actions[|r.actions| - 1], out) && JobScoped(r.actions[|r.actions| - 1]))
  }

  /** A put fails exactly when its upload blocks. */
  lemma PutsFail(us: seq<Upload>, out: Outcomes)
    ensures forall k :: 0 <= k < |us| ==> (StepFails(Puts(us)[k], out) <==> Blocks(us[k], out.failedUploads))
  {
  }

  /** The uploads attempted never fail before the last one, and the last one fails exactly when the batch is fatal. */
  lemma PutsStop(us: seq<Upload>, out: Outcomes)
    ensures var (attempted, fatal) := PerformUploads(us, out.failedUploads);
      && (forall k :: 0 <= k < |attempted| - 1 ==> !StepFails(Puts(attempted)[k], out))
      && (|attempted| > 0 ==> (fatal <==> StepFails(Puts(attempted)[|attempted| - 1], out)))
      && (!fatal ==> forall k :: 0 <= k < |attempted| ==> !StepFails(Puts(attempted)[k], out))
  {
    var (attempted, fatal) := PerformUploads(us, out.failedUploads);
    PutsFail(attempted, out);
  }

  /** Appending a run that may fail only at its end to steps that all succeed. */
  lemma AppendStops(xs: seq<Action>, ys: seq<Action>, out: Outcomes)
    requires forall k :: 0 <= k < |xs| ==> !StepFails(xs[k], out)
    requires |ys| > 0 && forall k :: 0 <= k < |ys| - 1 ==> !StepFails(ys[k], out)
    ensures forall k :: 0 <= k < |xs + ys| - 1 ==> !StepFails((xs + ys)[k], out)
    ensures (xs + ys)[|xs + ys| - 1] == ys[|ys| - 1]
  {
    forall k | 0 <= k < |xs + ys| - 1
      ensures !StepFails((xs + ys)[k], out)
    {
      if k >= |xs| {
        assert (xs + ys)[k] == ys[k - |xs|];
      }
    }
  }

  /** Appending steps that all succeed to steps that all succeed. */
  lemma AppendSucceeds(xs: seq<Action>, ys: seq<Action>, out: Outcomes)
    requires forall k :: 0 <= k < |xs| ==> !StepFails(xs[k], out)
    requires forall k :: 0 <= k < |ys| ==> !StepFails(ys[k], out)
    ensures forall k :: 0 <= k < |xs + ys| ==> !StepFails((xs + ys)[k], out)
  {
    forall k | 0 <= k < |xs + ys|
      ensures !StepFails((xs + ys)[k], out)
    {
      if k >= |xs| {
        assert (xs + ys)[k] == ys[k - |xs|];
      }
    }
  }

  /** A prelude that stopped has the first-failure shape and did not complete; a ready one took no failing step. */
  predicate PreludeSound(pre: Prelude, out: Outcomes)
  {
    match pre
    case Stopped(r) => StopsAtFirstFailure(r, out) && !r.terminal.Completed?
    case Ready(done, _) => forall k :: 0 <= k < |done| ==> !StepFails(done[k], out)
  }

  lemma PublishStops(j: Job, out: Outcomes, written: seq<Action>, p: Parameters)
    requires forall k :: 0 <= k < |written| ==> !StepFails(written[k], out)
    ensures PreludeSound(PublishParams(j, out, written, p), out)
    ensures PublishParams(j, out, written, p).Ready? ==> PublishParams(j, out, written, p).doc == p
  {
    var (attempted, fatal) := PerformUploads(ParamUploads(j), out.failedUploads);
    PutsStop(ParamUploads(j), out);
    if fatal {
      AppendStops(written, Puts(attempted), out);
    } else {
      AppendSucceeds(written, Puts(attempted), out);
    }
  }

  lemma DeriveStops(j: Job, out: Outcomes)
    ensures PreludeSound(DeriveParams(j, out), out)
    ensures DeriveParams(j, out).Ready? ==>
      && out.fetchOk && out.params.Some?
      && DeriveParams(j, out).doc.stormType == out.params.value.stormType
  {
    if out.fetchOk && out.trackOk && out.params.Some? && out.writeOk {
      var written := DerivedSteps(j, out.params.value);
      assert forall k :: 0 <= k < |written| ==> !StepFails(written[k], out);
      PublishStops(j, out, written, Patch(out.params.value, j));
    }
  }

  /** What `Prepare` guarantees: an early stop already has the first-failure shape, and a ready prelude has no failing step and keeps the storm type read from disk. */
  lemma PrepareStops(j: Job, out: Outcomes)
    ensures PreludeSound(Prepare(j, out), out)
    ensures Prepare(j, out).Ready? ==>
      && out.fetchOk && out.params.Some?
      && Prepare(j, out).doc.stormType == out.params.value.stormType
  {
    if !IsPrecomputed(j) {
      DeriveStops(j, out);
    }
  }

  lemma FinishStops(id: string, out: Outcomes, results: seq<Upload>, done: seq<Action>)
    requires |results| > 0
    requires forall k :: 0 <= k < |done| ==> !StepFails(done[k], out)
    ensures StopsAtFirstFailure(Finish(id, out, results, done), out)
    ensures Finish(id, out, results, done).terminal.Completed? ==> Finish(id, out, results, done).terminal.id == id
  {
    if out.simulateOk {
      var (attempted, fatal) := PerformUploads(results, out.failedUploads);
      PutsStop(results, out);
      assert |attempted| > 0;
      var tail := [Simulate, Convert] + Puts(attempted);
      AppendStops([Simulate, Convert], Puts(attempted), out);
      AppendStops(done, tail, out);
      assert done + [Simulate, Convert] + Puts(attempted) == done + tail;
    } else {
      AppendStops(done, [Simulate], out);
    }
  }

  /**
   * Whatever the outcomes, the pipeline stops at its first failing step: a failing
   * track generator or simulator yields FAILED, a failing download, parameters read or
   * write, or required upload is fatal, and a run with no failing step completes with
   * the job's own identity.
   */
  lemma RunStopsAtFirstFailure(j: Job, out: Outcomes)
    ensures StopsAtFirstFailure(RunJob(j, out), out)
    ensures RunJob(j, out).terminal.Completed? ==> RunJob(j, out).terminal.id == j.id
  {
    PrepareStops(j, out);
    match Prepare(j, out)
    case Stopped(_) =>
    case Ready(done, p) =>
      FinishStops(j.id, out, ResultUploads(j, p.stormType), done);
  }

  /** In a completed run no step failed. */
  lemma CompletedNothingFails(r: Run, out: Outcomes)
    requires StopsAtFirstFailure(r, out) && r.terminal.Completed?
    ensures forall k :: 0 <= k < |r.actions| ==> !StepFails(r.actions[k], out)
  {
  }

  // ---------------------------------------------------------------------------
  // Uploads and their keys

  /** The uploads `Finish` attempts come from its result list, after the steps already done. */
  lemma FinishPuts(id: string, out: Outcomes, results: seq<Upload>, done: seq<Action>)
    ensures forall a :: a in Finish(id, out, results, done).actions ==> a in done || a in [Simulate, Convert] || (a.Put? && a.upload in results)
  {
    if out.simulateOk {
      var attempted := PerformUploads(results, out.failedUploads).0;
      var tail := Puts(attempted);
      assert Finish(id, out, results, done).actions == done + [Simulate, Convert] + tail;
      forall a | a in tail
        ensures a.Put? && a.upload in results
      {
        var k :| 0 <= k < |tail| && tail[k] == a;
        assert attempted[k] == results[k];
      }
    }
  }

  /** The uploads `PublishParams` attempts are the parameter uploads, after the steps already done. */
  lemma PublishPuts(j: Job, out: Outcomes, written: seq<Action>, p: Parameters)
    ensures forall a :: a in PublishParams(j, out, written, p).Steps() ==> a in written || (a.Put? && a.upload in ParamUploads(j))
  {
    var attempted := PerformUploads(ParamUploads(j), out.failedUploads).0;
    var tail := Puts(attempted);
    assert PublishParams(j, out, written, p).Steps() == written + tail;
    forall a | a in tail
      ensures a.Put? && a.upload in ParamUploads(j)
    {
      var k :| 0 <= k < |tail| && tail[k] == a;
      assert attempted[k] == ParamUploads(j)[k];
    }
  }

  /** The uploads `Prepare` attempts are the parameter uploads of a derived-parameters job. */
  lemma PreparePuts(j: Job, out: Outcomes)
    ensures forall a :: a in Prepare(j, out).Steps() && a.Put? ==> !IsPrecomputed(j) && a.upload in ParamUploads(j)
  {
    if !IsPrecomputed(j) && out.fetchOk && out.trackOk && out.params.Some? && out.writeOk {
      PublishPuts(j, out, DerivedSteps(j, out.params.value), Patch(out.params.value, j));
    }
  }

  /** Every upload a run attempts is one of the job's result uploads or, for a derived-parameters job, one of its parameter uploads. */
  lemma RunPuts(j: Job, out: Outcomes)
    ensures forall a :: a in RunJob(j, out).actions && a.Put? ==>
      out.params.Some? &&
      (a.upload in ResultUploads(j, out.params.value.stormType) || (!IsPrecomputed(j) && a.upload in ParamUploads(j)))
  {
    PreparePuts(j, out);
    PrepareStops(j, out);
    match Prepare(j, out)
    case Stopped(r) =>
      assert forall a :: a in r.actions && a.Put? ==> out.params.Some?;
    case Ready(done, p) =>
      FinishPuts(j.id, out, ResultUploads(j, p.stormType), done);
  }

  lemma KeyInFolder(folder: string, name: string)
    ensures HasPrefix(Key(folder, name), Bucket + folder + "/")
  {
    PrefixOfConcat(Bucket + folder + "/", name);
  }

  /** The published name of an artifact for a job: bare for a pre-computed job, suffixed before the extension otherwise. */
  predicate PublishedAs(j: Job, u: Upload, art: Artifact)
  {
    u.local == art.local && u.required == art.required &&
    u.remote == Key(j.folder, art.stem + (if IsPrecomputed(j) then "" else Suffix(j)) + art.ext)
  }

  /** The artifact table marks as best-effort exactly the wind, surge and track GeoJSON files. */
  lemma BestEffortArtifacts()
    ensures forall art :: art in ResultArtifactsFor(1) + [ParamsArtifact] ==> (!art.required <==> art.local in BestEffortLocals)
  {
    var all := ResultArtifactsFor(1) + [ParamsArtifact];
    assert all == [ResultArtifacts[0], ResultArtifacts[1], ResultArtifacts[2], ResultArtifacts[3], ResultArtifacts[4], ResultArtifacts[5], TransectArtifact, ParamsArtifact];
  }

  lemma ResultLocals()
    ensures forall art :: art in ResultArtifactsFor(1) ==> art.local != ParamsArtifact.local && art.local != "/app/cone.json"
    ensures forall art :: art in ResultArtifacts ==> art.local != TransectArtifact.local
  {
    assert ResultArtifactsFor(1) == [ResultArtifacts[0], ResultArtifacts[1], ResultArtifacts[2], ResultArtifacts[3], ResultArtifacts[4], ResultArtifacts[5], TransectArtifact];
  }

  /** The shape of one upload the pipeline can attempt. */
  lemma UploadShape(j: Job, st: int, u: Upload)
    requires u in ResultUploads(j, st) || (!IsPrecomputed(j) && u in ParamUploads(j))
    ensures HasPrefix(u.remote, Bucket + j.folder + "/")
    ensures !u.required <==> u.local in BestEffortLocals
    ensures u == ConeUpload(j) || exists art :: art in ResultArtifactsFor(1) + [ParamsArtifact] && PublishedAs(j, u, art)
    ensures IsPrecomputed(j) ==> exists art :: art in ResultArtifactsFor(1) && PublishedAs(j, u, art)
  {
    BestEffortArtifacts();
    if u in ResultUploads(j, st) {
      var i :| 0 <= i < |ResultUploads(j, st)| && ResultUploads(j, st)[i] == u;
      var art := ResultArtifactsFor(st)[i];
      assert art in ResultArtifactsFor(1);
      assert art in ResultArtifactsFor(1) + [ParamsArtifact];
      assert PublishedAs(j, u, art);
      KeyInFolder(j.folder, art.stem + Tag(j) + art.ext);
    } else if u == UploadOf(j, ParamsArtifact) {
      assert ParamsArtifact in ResultArtifactsFor(1) + [ParamsArtifact];
      assert PublishedAs(j, u, ParamsArtifact);
      KeyInFolder(j.folder, ParamsArtifact.stem + Tag(j) + ParamsArtifact.ext);
    } else {
      KeyInFolder(j.folder, "cone.json");
    }
  }

  /**
   * Published keys: every upload goes to the job's folder in the bucket under the name
   * of one of the job's artifacts; the cone, published bare, is the only upload other
   * than the artifacts, and only derived-parameters jobs publish it or the parameters
   * document; exactly the wind, surge and track GeoJSON uploads are best-effort.
   */
  lemma UploadKeys(j: Job, out: Outcomes)
    ensures forall a :: a in RunJob(j, out).actions && a.Put? ==>
      && HasPrefix(a.upload.remote, Bucket + j.folder + "/")
      && (!a.upload.required <==> a.upload.local in BestEffortLocals)
      && (a.upload == ConeUpload(j) || exists art :: art in ResultArtifactsFor(1) + [ParamsArtifact] && PublishedAs(j, a.upload, art))
      && (IsPrecomputed(j) ==> exists art :: art in ResultArtifactsFor(1) && PublishedAs(j, a.upload, art))
  {
    RunPuts(j, out);
    forall a | a in RunJob(j, out).actions && a.Put?
      ensures HasPrefix(a.upload.remote, Bucket + j.folder + "/")
      ensures !a.upload.required <==> a.upload.local in BestEffortLocals
      ensures a.upload == ConeUpload(j) || exists art :: art in ResultArtifactsFor(1) + [ParamsArtifact] && PublishedAs(j, a.upload, art)
      ensures IsPrecomputed(j) ==> exists art :: art in ResultArtifactsFor(1) && PublishedAs(j, a.upload, art)
    {
      UploadShape(j, out.params.value.stormType, a.upload);
    }
  }

  // ---------------------------------------------------------------------------
  // The two modes

  /** `Finish` keeps the steps already done as a prefix and runs the simulator next. */
  lemma FinishExtends(id: string, out: Outcomes, results: seq<Upload>, done: seq<Action>)
    ensures |done| < |Finish(id, out, results, done).actions|
    ensures Finish(id, out, results, done).actions[..|done|] == done
    ensures Finish(id, out, results, done).actions[|done|] == Simulate
  {
    if out.simulateOk {
      var attempted := PerformUploads(results, out.failedUploads).0;
      assert Finish(id, out, results, done).actions == done + ([Simulate, Convert] + Puts(attempted));
    }
  }

  /** The run's steps begin with the prelude's steps. */
  lemma RunExtendsPrelude(j: Job, out: Outcomes)
    ensures |Prepare(j, out).Steps()| <= |RunJob(j, out).actions|
    ensures RunJob(j, out).actions[..|Prepare(j, out).Steps()|] == Prepare(j, out).Steps()
  {
    match Prepare(j, out)
    case Stopped(r) =>
      assert r.actions[..|r.actions|] == r.actions;
    case Ready(done, p) =>
      FinishExtends(j.id, out, ResultUploads(j, p.stormType), done);
  }

  /** A pre-computed-parameters job fetches its parameters document and never runs the track generator, patches, or publishes parameters or the cone. */
  lemma PrecomputedSkipsDerivation(j: Job, out: Outcomes)
    requires IsPrecomputed(j)
    ensures RunJob(j, out).actions[0] == Download(Key(j.folder, "input_params.json"), "/app/input_params.json")
    ensures forall a :: a in RunJob(j, out).actions ==>
      && a != GenerateTrack
      && !a.WriteParams?
      && (a.Put? ==> a.upload.local != ParamsArtifact.local && a.upload.local != "/app/cone.json")
  {
    RunPuts(j, out);
    ResultLocals();
    RunExtendsPrelude(j, out);
    var r := RunJob(j, out);
    assert r.actions[0] == r.actions[..|Prepare(j, out).Steps()|][0];
    if out.fetchOk && out.params.Some? {
      var done := Prepare(j, out).done;
      var results := ResultUploads(j, out.params.value.stormType);
      FinishPuts(j.id, out, results, done);
      forall a | a in r.actions && a.Put?
        ensures a.upload.local != ParamsArtifact.local && a.upload.local != "/app/cone.json"
      {
        UploadShape(j, out.params.value.stormType, a.upload);
      }
    }
  }

  /** Derived mode's prelude fetches the track input, runs the track generator next, and on success writes the patched document and publishes it first. */
  lemma DeriveOrder(j: Job, out: Outcomes)
    ensures DeriveParams(j, out).Steps()[0] == Download(Key(j.folder, "input.geojson"), "/app/sandy.geojson")
    ensures out.fetchOk ==> |DeriveParams(j, out).Steps()| >= 2 && DeriveParams(j, out).Steps()[1] == GenerateTrack
    ensures out.fetchOk && out.trackOk && out.params.Some? && out.writeOk ==>
      && |DeriveParams(j, out).Steps()| >= 5
      && DeriveParams(j, out).Steps()[3] == WriteParams(Patch(out.params.value, j))
      && DeriveParams(j, out).Steps()[4] == Put(UploadOf(j, ParamsArtifact))
  {
    if out.fetchOk && out.trackOk && out.params.Some? && out.writeOk {
      var written := DerivedSteps(j, out.params.value);
      var attempted := PerformUploads(ParamUploads(j), out.failedUploads).0;
      assert DeriveParams(j, out).Steps() == written + Puts(attempted);
      assert |attempted| > 0 && attempted[0] == UploadOf(j, ParamsArtifact);
    }
  }

  /** Any other job fetches its track input, runs the track generator next, and on success writes the patched document and publishes it first. */
  lemma DerivedRunsTrackGenerator(j: Job, out: Outcomes)
    requires !IsPrecomputed(j)
    ensures RunJob(j, out).actions[0] == Download(Key(j.folder, "input.geojson"), "/app/sandy.geojson")
    ensures out.fetchOk ==> |RunJob(j, out).actions| >= 2 && RunJob(j, out).actions[1] == GenerateTrack
    ensures out.fetchOk && out.trackOk && out.params.Some? && out.writeOk ==>
      && |RunJob(j, out).actions| >= 5
      && RunJob(j, out).actions[3] == WriteParams(Patch(out.params.value, j))
      && RunJob(j, out).actions[4] == Put(UploadOf(j, ParamsArtifact))
  {
    DeriveOrder(j, out);
    RunExtendsPrelude(j, out);
    var pre := Prepare(j, out).Steps();
    var acts := RunJob(j, out).actions;
    assert forall k :: 0 <= k < |pre| ==> acts[k] == acts[..|pre|][k];
  }

  // ---------------------------------------------------------------------------
  // Completion

  lemma FinishCompleted(id: string, out: Outcomes, results: seq<Upload>, done: seq<Action>)
    requires Finish(id, out, results, done).terminal.Completed?
    ensures out.simulateOk
    ensures Finish(id, out, results, done).actions == done + [Simulate, Convert] + Puts(results)
    ensures forall u :: u in results ==> !Blocks(u, out.failedUploads)
  {
  }

  lemma PublishReady(j: Job, out: Outcomes, written: seq<Action>, p: Parameters)
    requires PublishParams(j, out, written, p).Ready?
    ensures PublishParams(j, out, written, p).done == written + Puts(ParamUploads(j))
  {
  }

  /** A ready derived prelude attempted both parameter uploads, in order, after the four derivation steps. */
  lemma PrepareReady(j: Job, out: Outcomes)
    requires Prepare(j, out).Ready? && !IsPrecomputed(j)
    ensures out.params.Some?
    ensures Prepare(j, out).done == DerivedSteps(j, out.params.value) + Puts(ParamUploads(j))
    ensures |Prepare(j, out).done| == 6
    ensures Prepare(j, out).done[4] == Put(ParamUploads(j)[0]) && Prepare(j, out).done[5] == Put(ParamUploads(j)[1])
  {
    PublishReady(j, out, DerivedSteps(j, out.params.value), Patch(out.params.value, j));
  }

  /** A completed run is a ready prelude followed by the simulator, the converter and every result upload. */
  lemma CompletedRun(j: Job, out: Outcomes)
    requires RunJob(j, out).terminal.Completed?
    ensures Prepare(j, out).Ready? && out.params.Some? && out.simulateOk
    ensures RunJob(j, out).terminal.id == j.id
    ensures RunJob(j, out).actions == Prepare(j, out).done + [Simulate, Convert] + Puts(ResultUploads(j, out.params.value.stormType))
  {
    PrepareStops(j, out);
    var pre := Prepare(j, out);
    FinishCompleted(j.id, out, ResultUploads(j, pre.doc.stormType), pre.done);
  }

  /**
   * A job completes only with its own identity, after the simulator succeeded, with
   * every result upload (and for a derived job every parameter upload) attempted, the
   * result uploads last, and no required upload failing.
   */
  lemma CompletedPublishesAll(j: Job, out: Outcomes)
    requires RunJob(j, out).terminal.Completed?
    ensures RunJob(j, out).terminal.id == j.id
    ensures out.params.Some? && out.simulateOk && Simulate in RunJob(j, out).actions
    ensures var us := ResultUploads(j, out.params.value.stormType);
      |us| <= |RunJob(j, out).actions| && RunJob(j, out).actions[|RunJob(j, out).actions| - |us|..] == Puts(us)
    ensures !IsPrecomputed(j) ==> forall u :: u in ParamUploads(j) ==> Put(u) in RunJob(j, out).actions
    ensures forall a :: a in RunJob(j, out).actions && a.Put? ==> !Blocks(a.upload, out.failedUploads)
  {
    CompletedRun(j, out);
    RunStopsAtFirstFailure(j, out);
    var r := RunJob(j, out);
    CompletedNothingFails(r, out);
    var done := Prepare(j, out).done;
    var us := ResultUploads(j, out.params.value.stormType);
    assert r.actions == (done + [Simulate, Convert]) + Puts(us);
    assert r.actions[|done|] == Simulate;
    if !IsPrecomputed(j) {
      CompletedParamUploads(j, out);
    }
  }

  /** A completed derived-parameters run attempted both parameter uploads. */
  lemma CompletedParamUploads(j: Job, out: Outcomes)
    requires RunJob(j, out).terminal.Completed? && !IsPrecomputed(j)
    ensures forall u :: u in ParamUploads(j) ==> Put(u) in RunJob(j, out).actions
  {
    CompletedRun(j, out);
    PrepareReady(j, out);
    RunExtendsPrelude(j, out);
    var acts := RunJob(j, out).actions;
    var done := Prepare(j, out).done;
    assert acts[4] == acts[..6][4] == done[4];
    assert acts[5] == acts[..6][5] == done[5];
  }

  /** Every element of a trailing run of uploads is among the actions. */
  lemma TailPuts(acts: seq<Action>, us: seq<Upload>)
    requires |us| <= |acts| && acts[|acts| - |us|..] == Puts(us)
    ensures forall u :: u in us ==> Put(u) in acts
  {
    forall u | u in us
      ensures Put(u) in acts
    {
      var i :| 0 <= i < |us| && us[i] == u;
      assert acts[|acts| - |us| + i] == Puts(us)[i];
    }
  }

  /** A completed run attempted every result upload of its storm type. */
  lemma CompletedAttemptsResults(j: Job, out: Outcomes)
    requires RunJob(j, out).terminal.Completed?
    ensures out.params.Some?
    ensures forall u :: u in ResultUploads(j, out.params.value.stormType) ==> Put(u) in RunJob(j, out).actions
  {
    CompletedPublishesAll(j, out);
    TailPuts(RunJob(j, out).actions, ResultUploads(j, out.params.value.stormType));
  }

  lemma TransectInResults(j: Job, st: int)
    ensures st == 1 ==> |ResultUploads(j, st)| == 7 && ResultUploads(j, st)[6].local == TransectArtifact.local
    ensures forall u :: u in ResultUploads(j, st) && u.local == TransectArtifact.local ==> st == 1
  {
    ResultLocals();
    var us := ResultUploads(j, st);
    forall u | u in us && u.local == TransectArtifact.local
      ensures st == 1
    {
      var i :| 0 <= i < |us| && us[i] == u;
      assert ResultArtifactsFor(st)[i].local == TransectArtifact.local;
    }
  }

  /** A completed job published the transect line exactly when its storm type is 1. */
  lemma TransectIffStormType(j: Job, out: Outcomes)
    requires RunJob(j, out).terminal.Completed?
    ensures out.params.Some?
    ensures (exists a :: a in RunJob(j, out).actions && a.Put? && a.upload.local == TransectArtifact.local) <==> out.params.value.stormType == 1
  {
    CompletedPublishesAll(j, out);
    RunPuts(j, out);
    var r := RunJob(j, out);
    var st := out.params.value.stormType;
    var us := ResultUploads(j, st);
    TransectInResults(j, st);
    if st == 1 {
      var tail := r.actions[|r.actions| - |us|..];
      assert tail[6] == Put(us[6]);
      assert r.actions[|r.actions| - 1] == Put(us[6]);
    }
  }
}
