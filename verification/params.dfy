/** The simulation parameters document and the scenario override applied to it for derived-parameters jobs. */
module Params {
  import opened Wrappers
  import opened Jobs

  /** The model's fixed six-coefficient vector. */
  type Coefficients = s: seq<real> | |s| == 6 witness [0.0, 0.0, 0.0, 0.0, 0.0, 0.0]

  /**
   * The on-disk `input_params.json` record, field by field. Floating-point fields are
   * exact reals; the JSON encoding itself is not modelled.
   */
  datatype Parameters = Parameters(
    indexSLT: (int, int),
    indexW: int,
    indexProb: real,
    coefficients: Coefficients,
    timeMC: real,
    latitude: seq<real>,
    longitude: seq<real>,
    seaLevelRise: real,
    tide: real,
    protection: int,
    strength: int,
    stormType: int,
    surgeOut: string,
    windOut: string,
    runupOut: string,
    workspaceOut: string)

  /** Probability index selected by each analysis code that has one. */
  const ProbabilityTable: map<int, real> := map[0 := 0.0, 1 := 0.5, 2 := 0.1]

  /** The probability index for an analysis code; `None` leaves the document's value in place. */
  function AnalysisProbability(analysis: int): (r: Option<real>)
    ensures r.Some? <==> analysis in ProbabilityTable
    ensures r.Some? ==> r.value == ProbabilityTable[analysis]
  {
    match analysis
    case 0 => Some(0.0)
    case 1 => Some(0.5)
    case 2 => Some(0.1)
    case _ => None
  }

  /**
   * Overwrites the four scenario fields of a track-derived document with the job's
   * values: sea-level rise and protection copied, tide halved, probability index
   * taken from the analysis code when it has one.
   */
  function Patch(p: Parameters, j: Job): (r: Parameters)
    ensures r.seaLevelRise == j.slr && r.protection == j.protection
    ensures 2.0 * r.tide == j.tide as real
    ensures j.analysis in ProbabilityTable ==> r.indexProb == ProbabilityTable[j.analysis]
    ensures j.analysis !in ProbabilityTable ==> r.indexProb == p.indexProb
  {
    var prob := match AnalysisProbability(j.analysis)
      case Some(v) => v
      case None => p.indexProb;
    p.(seaLevelRise := j.slr, tide := 0.5 * j.tide as real, protection := j.protection, indexProb := prob)
  }

  /** Every field other than the four scenario fields comes through the patch untouched. */
  lemma PatchKeepsOtherFields(p: Parameters, j: Job)
    ensures Patch(p, j).(seaLevelRise := p.seaLevelRise, tide := p.tide, protection := p.protection, indexProb := p.indexProb) == p
  {
  }
}
