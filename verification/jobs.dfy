/** The job record handed out by the queue and the deterministic artifact suffix derived from its scenario. */
module Jobs {
  import opened Wrappers
  import opened Text

  /**
   * One unit of work. `slr` is the sea-level-rise offset as an exact real; `tide`,
   * `analysis` and `protection` are the integer codes of the payload, where -1 means
   * "unset" for tide and analysis. On the wire the identity travels under the JSON
   * key "string", which only the abstract payload decoder sees.
   */
  datatype Job = Job(id: string, folder: string, slr: real, protection: int, tide: int, analysis: int)

  /** The sentinel pair tide = -1 and analysis = -1 selects the pre-computed-parameters pipeline. */
  predicate IsPrecomputed(j: Job)
  {
    j.tide == -1 && j.analysis == -1
  }

  /** Go's float-to-int conversion: the fraction is dropped, rounding toward zero. */
  function TruncTowardZero(x: real): (r: int)
    ensures 0.0 <= x ==> 0 <= r && r as real <= x < r as real + 1.0
    ensures x < 0.0 ==> r <= 0 && r as real - 1.0 < x <= r as real
  {
    if x >= 0.0 then x.Floor else -((-x).Floor)
  }

  /** The sea-level-rise component of the suffix: whole tenths, truncated toward zero. */
  function SlrTenths(j: Job): int
  {
    TruncTowardZero(j.slr * 10.0)
  }

  function TideLabel(tide: int): string
  {
    if tide == 0 then "__tide_low"
    else if tide == 1 then "__tide_zero"
    else if tide == 2 then "__tide_high"
    else ""
  }

  function AnalysisLabel(analysis: int): string
  {
    if analysis == 0 then "__analysis_deterministic"
    else if analysis == 1 then "__analysis_expected"
    else if analysis == 2 then "__analysis_extreme"
    else ""
  }

  function ProtectionLabel(protection: int): string
  {
    if protection == 1 then "__protection_current"
    else if protection == 2 then "__protection_degraded"
    else if protection == 3 then "__protection_compromised"
    else ""
  }

  /** The artifact suffix of a job: sea-level rise, then tide, analysis and protection labels. */
  function Suffix(j: Job): string
  {
    "__slr_" + IntToDecimal(SlrTenths(j)) + TideLabel(j.tide) + AnalysisLabel(j.analysis) + ProtectionLabel(j.protection)
  }

  /**
   * What a suffix can distinguish: the truncated tenths and each code that has a label.
   * An out-of-range code (including the sentinel -1, and protection 0) is `None`.
   */
  datatype Scenario = Scenario(slrTenths: int, tide: Option<int>, analysis: Option<int>, protection: Option<int>)

  function InRange(code: int, lo: int, hi: int): Option<int>
  {
    if lo <= code <= hi then Some(code) else None
  }

  function ScenarioOf(j: Job): Scenario
  {
    Scenario(SlrTenths(j), InRange(j.tide, 0, 2), InRange(j.analysis, 0, 2), InRange(j.protection, 1, 3))
  }

  /** Strips the first of the labels `labelOf(lo)`, ..., `labelOf(hi)` that `s` starts with. */
  function TakeLabel(s: string, labelOf: int -> string, lo: int, hi: int): (string, Option<int>)
    decreases hi - lo
  {
    if hi < lo then (s, None)
    else if HasPrefix(s, labelOf(lo)) then (s[|labelOf(lo)|..], Some(lo))
    else TakeLabel(s, labelOf, lo + 1, hi)
  }

  /** Reads the labels that follow the sea-level-rise component, in their fixed order. */
  function ParseLabels(tenths: int, rest: string): Option<Scenario>
  {
    var (r1, tide) := TakeLabel(rest, TideLabel, 0, 2);
    var (r2, analysis) := TakeLabel(r1, AnalysisLabel, 0, 2);
    var (r3, protection) := TakeLabel(r2, ProtectionLabel, 1, 3);
    if r3 == [] then Some(Scenario(tenths, tide, analysis, protection)) else None
  }

  /** Reads a suffix back into the scenario it names; `None` when the text is not a suffix. */
  function ParseSuffix(s: string): Option<Scenario>
  {
    if !HasPrefix(s, "__slr_") then None
    else
      match ScanInt(s[6..])
      case None => None
      case Some((tenths, rest)) => ParseLabels(tenths, rest)
  }

  /** Every label starts with an underscore and carries its group's letter at position 2. */
  lemma TideLabelShape(t: int)
    ensures TideLabel(t) == [] || (|TideLabel(t)| > 7 && TideLabel(t)[0] == '_' && TideLabel(t)[1] == '_' && TideLabel(t)[2] == 't')
  {
  }

  lemma AnalysisLabelShape(a: int)
    ensures AnalysisLabel(a) == [] || (|AnalysisLabel(a)| > 13 && AnalysisLabel(a)[0] == '_' && AnalysisLabel(a)[1] == '_' && AnalysisLabel(a)[2] == 'a')
  {
  }

  lemma ProtectionLabelShape(p: int)
    ensures ProtectionLabel(p) == [] || (|ProtectionLabel(p)| > 14 && ProtectionLabel(p)[0] == '_' && ProtectionLabel(p)[1] == '_' && ProtectionLabel(p)[2] == 'p')
  {
  }

  /** A label that differs from the text at some position is skipped. */
  lemma TakeLabelSkip(s: string, labelOf: int -> string, lo: int, hi: int, i: nat)
    requires lo <= hi && i < |labelOf(lo)| && i < |s| && s[i] != labelOf(lo)[i]
    ensures TakeLabel(s, labelOf, lo, hi) == TakeLabel(s, labelOf, lo + 1, hi)
  {
    PrefixMismatch(s, labelOf(lo), i);
  }

  /** A label the text starts with is stripped. */
  lemma TakeLabelHit(labelOf: int -> string, lo: int, hi: int, r: string)
    requires lo <= hi
    ensures TakeLabel(labelOf(lo) + r, labelOf, lo, hi) == (r, Some(lo))
  {
    PrefixOfConcat(labelOf(lo), r);
  }

  lemma TakeTideLabel(t: int, r: string)
    requires r == [] || (|r| > 2 && r[2] != 't')
    ensures TakeLabel(TideLabel(t) + r, TideLabel, 0, 2) == (r, InRange(t, 0, 2))
  {
    if t == 0 {
      TakeLabelHit(TideLabel, 0, 2, r);
    } else if t == 1 {
      TakeTideZero(r);
    } else if t == 2 {
      TakeTideHigh(r);
    } else {
      assert TideLabel(t) + r == r;
      TakeTideUnset(r);
    }
  }

  lemma TakeTideZero(r: string)
    ensures TakeLabel(TideLabel(1) + r, TideLabel, 0, 2) == (r, Some(1))
  {
    TakeLabelSkip(TideLabel(1) + r, TideLabel, 0, 2, 7);
    TakeLabelHit(TideLabel, 1, 2, r);
  }

  lemma TakeTideHigh(r: string)
    ensures TakeLabel(TideLabel(2) + r, TideLabel, 0, 2) == (r, Some(2))
  {
    var s := TideLabel(2) + r;
    TakeLabelSkip(s, TideLabel, 0, 2, 7);
    TakeLabelSkip(s, TideLabel, 1, 2, 7);
    TakeLabelHit(TideLabel, 2, 2, r);
  }

  lemma TakeTideUnset(r: string)
    requires r == [] || (|r| > 2 && r[2] != 't')
    ensures TakeLabel(r, TideLabel, 0, 2) == (r, None)
  {
    if r != [] {
      TakeLabelSkip(r, TideLabel, 0, 2, 2);
      TakeLabelSkip(r, TideLabel, 1, 2, 2);
      TakeLabelSkip(r, TideLabel, 2, 2, 2);
    }
  }

  lemma TakeAnalysisLabel(a: int, r: string)
    requires r == [] || (|r| > 2 && r[2] != 'a')
    ensures TakeLabel(AnalysisLabel(a) + r, AnalysisLabel, 0, 2) == (r, InRange(a, 0, 2))
  {
    if a == 0 {
      TakeLabelHit(AnalysisLabel, 0, 2, r);
    } else if a == 1 {
      TakeAnalysisExpected(r);
    } else if a == 2 {
      TakeAnalysisExtreme(r);
    } else {
      assert AnalysisLabel(a) + r == r;
      TakeAnalysisUnset(r);
    }
  }

  lemma TakeAnalysisExpected(r: string)
    ensures TakeLabel(AnalysisLabel(1) + r, AnalysisLabel, 0, 2) == (r, Some(1))
  {
    TakeLabelSkip(AnalysisLabel(1) + r, AnalysisLabel, 0, 2, 11);
    TakeLabelHit(AnalysisLabel, 1, 2, r);
  }

  lemma TakeAnalysisExtreme(r: string)
    ensures TakeLabel(AnalysisLabel(2) + r, AnalysisLabel, 0, 2) == (r, Some(2))
  {
    var s := AnalysisLabel(2) + r;
    TakeLabelSkip(s, AnalysisLabel, 0, 2, 11);
    TakeLabelSkip(s, AnalysisLabel, 1, 2, 13);
    TakeLabelHit(AnalysisLabel, 2, 2, r);
  }

  lemma TakeAnalysisUnset(r: string)
    requires r == [] || (|r| > 2 && r[2] != 'a')
    ensures TakeLabel(r, AnalysisLabel, 0, 2) == (r, None)
  {
    if r != [] {
      TakeLabelSkip(r, AnalysisLabel, 0, 2, 2);
      TakeLabelSkip(r, AnalysisLabel, 1, 2, 2);
      TakeLabelSkip(r, AnalysisLabel, 2, 2, 2);
    }
  }

  lemma TakeProtectionLabel(p: int)
    ensures TakeLabel(ProtectionLabel(p), ProtectionLabel, 1, 3) == ([], InRange(p, 1, 3))
  {
    var s := ProtectionLabel(p);
    assert s + [] == s;
    if p == 1 {
      TakeLabelHit(ProtectionLabel, 1, 3, []);
    } else if p == 2 {
      TakeLabelSkip(s, ProtectionLabel, 1, 3, 13);
      TakeLabelHit(ProtectionLabel, 2, 3, []);
    } else if p == 3 {
      TakeLabelSkip(s, ProtectionLabel, 1, 3, 14);
      TakeLabelSkip(s, ProtectionLabel, 2, 3, 13);
      TakeLabelHit(ProtectionLabel, 3, 3, []);
    }
  }

  lemma LabelsRoundTrip(tenths: int, t: int, a: int, p: int)
    ensures ParseLabels(tenths, TideLabel(t) + (AnalysisLabel(a) + ProtectionLabel(p))) == Some(Scenario(tenths, InRange(t, 0, 2), InRange(a, 0, 2), InRange(p, 1, 3)))
  {
    AnalysisLabelShape(a);
    ProtectionLabelShape(p);
    TakeTideLabel(t, AnalysisLabel(a) + ProtectionLabel(p));
    TakeAnalysisLabel(a, ProtectionLabel(p));
    TakeProtectionLabel(p);
  }

  /** A suffix names its scenario: reading it back yields the truncated tenths and exactly the in-range codes. */
  lemma SuffixRoundTrip(j: Job)
    ensures ParseSuffix(Suffix(j)) == Some(ScenarioOf(j))
  {
    var d := IntToDecimal(SlrTenths(j));
    var t, a, p := TideLabel(j.tide), AnalysisLabel(j.analysis), ProtectionLabel(j.protection);
    var rest := t + (a + p);
    var s := "__slr_" + (d + rest);
    assert Suffix(j) == s;
    PrefixOfConcat("__slr_", d + rest);
    TideLabelShape(j.tide);
    AnalysisLabelShape(j.analysis);
    ProtectionLabelShape(j.protection);
    LabelsStartWithUnderscore(t, a, p);
    ScanIntToDecimal(SlrTenths(j), rest);
    LabelsRoundTrip(SlrTenths(j), j.tide, j.analysis, j.protection);
  }

  lemma LabelsStartWithUnderscore(t: string, a: string, p: string)
    requires t == [] || t[0] == '_'
    requires a == [] || a[0] == '_'
    requires p == [] || p[0] == '_'
    ensures t + (a + p) == [] || (t + (a + p))[0] == '_'
  {
  }

  /** Two jobs share a suffix exactly when they agree on the tenths and on every labelled code. */
  lemma SuffixDistinguishesScenarios(j1: Job, j2: Job)
    ensures Suffix(j1) == Suffix(j2) <==> ScenarioOf(j1) == ScenarioOf(j2)
  {
    if Suffix(j1) == Suffix(j2) {
      SuffixRoundTrip(j1);
      SuffixRoundTrip(j2);
    }
  }

  lemma SuffixExampleFull()
    ensures Suffix(Job("job-42", "f", 1.2, 2, 2, 1)) == "__slr_12" + "__tide_high" + "__analysis_expected" + "__protection_degraded"
  {
    var j := Job("job-42", "f", 1.2, 2, 2, 1);
    assert SlrTenths(j) == 12;
    assert NatToDigits(12) == "1" + "2";
  }

  lemma SuffixExampleNoProtection()
    ensures Suffix(Job("job-42", "f", 0.0, 0, 0, 0)) == "__slr_" + "0" + "__tide_low" + "__analysis_deterministic"
  {
    assert SlrTenths(Job("job-42", "f", 0.0, 0, 0, 0)) == 0;
    assert IntToDecimal(0) == "0";
  }

  lemma SuffixExampleSentinels()
    ensures Suffix(Job("job-42", "f", -0.25, 0, -1, -1)) == "__slr_-2"
  {
    assert SlrTenths(Job("job-42", "f", -0.25, 0, -1, -1)) == -2;
    assert IntToDecimal(-2) == "-2";
  }
}
