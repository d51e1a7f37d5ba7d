/** The processing pipeline of the architecture page
    (app/architecture/page.tsx): a stream of raw (HR, MAP) samples, one
    Kalman filter per channel, a drift detector on the filtered heart rate,
    the Bayes risk engine on both filtered channels, the status flags shown
    to the clinician, and a bounded log of processed samples.  The React
    scheduling (when the effect runs, the node animation timers) is left to
    the caller: each method is one of the page's callbacks. */
module Architecture {

  import opened Reals
  import Kalman
  import Drift
  import Risk
  import Seqs

  /** One raw sample of a scenario: heart rate and mean arterial pressure. */
  datatype VitalSign = VitalSign(hr: real, mp: real)

  datatype ScenarioType = Stable | Sepsis

  /** What one pass of the pipeline produced. */
  datatype ProcessedState = ProcessedState(filteredHR: real, filteredMAP: real, slope: real, risk: real)

  const InitialState := ProcessedState(0.0, 0.0, 0.0, 0.0)

  /** The two generated scenarios hold 60 and 40 samples. */
  const StableLength: nat := 60
  const SepsisLength: nat := 40
  const DriftWindow: nat := 10
  /** The log keeps the previous eight lines and the new one. */
  const LogKeep: nat := 8

  // ---------------------------------------------------------------------
  // Status flags

  predicate IsCritical(s: ProcessedState) {
    s.risk > 0.8
  }

  predicate IsDriftDetected(s: ProcessedState) {
    Abs(s.slope) > 0.3
  }

  predicate IsWarning(s: ProcessedState) {
    (s.risk > 0.4 || IsDriftDetected(s)) && !IsCritical(s)
  }

  predicate IsStable(s: ProcessedState) {
    !IsCritical(s) && !IsWarning(s)
  }

  datatype Status = CriticalBanner | WarningBanner | StableBanner

  /** The banner the page shows: critical before warning before stable. */
  function Classify(s: ProcessedState): (st: Status)
    ensures st == CriticalBanner <==> IsCritical(s)
    ensures st == WarningBanner <==> IsWarning(s)
    ensures st == StableBanner <==> IsStable(s)
  {
    if IsCritical(s) then CriticalBanner else if IsWarning(s) then WarningBanner else StableBanner
  }

  /** Exactly one of the three flags holds for every processed state. */
  lemma ExactlyOneStatus(s: ProcessedState)
    ensures IsCritical(s) || IsWarning(s) || IsStable(s)
    ensures !(IsCritical(s) && IsWarning(s))
    ensures !(IsCritical(s) && IsStable(s))
    ensures !(IsWarning(s) && IsStable(s))
  {
  }

  /** Stable means a risk of at most 0.4 and a slope of at most 0.3 either way. */
  lemma StableMeansQuiet(s: ProcessedState)
    ensures IsStable(s) <==> s.risk <= 0.4 && -0.3 <= s.slope <= 0.3
  {
  }

  // ---------------------------------------------------------------------
  // The log

  /** The tag that leads a log line: an alert above risk 0.8; otherwise a
      risk reading, HIGH above 0.5, prefixed by a drift report when the
      slope exceeds 0.3 either way. */
  datatype LogTag = Alert | RiskReading(drifting: bool, high: bool)

  /** One log line, without its timestamp and number formatting. */
  datatype LogEntry = LogEntry(state: ProcessedState, tag: LogTag)

  function Tag(s: ProcessedState): (t: LogTag)
    ensures t == Alert <==> IsCritical(s)
    ensures t.RiskReading? ==> (t.drifting <==> IsDriftDetected(s)) && (t.high <==> s.risk > 0.5)
  {
    var riskLog := RiskReading(false, s.risk > 0.5);
    var withDrift := if Abs(s.slope) > 0.3 then RiskReading(true, riskLog.high) else riskLog;
    if s.risk > 0.8 then Alert else withDrift
  }

  /** A line tagged as a plain risk reading is stable or a warning, never
      critical, and a drift report is always a warning. */
  lemma TagAgreesWithStatus(s: ProcessedState)
    ensures Tag(s).RiskReading? <==> !IsCritical(s)
    ensures Tag(s) == RiskReading(true, s.risk > 0.5) ==> IsWarning(s)
    ensures Tag(s).RiskReading? && s.risk > 0.5 ==> IsWarning(s)
  {
  }

  /** `[...prev.slice(-8), newLog]` */
  function AppendLog(logs: seq<LogEntry>, e: LogEntry): (r: seq<LogEntry>)
    ensures 1 <= |r| <= LogKeep + 1 && r[|r| - 1] == e
    ensures r == Seqs.Last(logs, LogKeep) + [e]
  {
    Seqs.AppendThenLast(logs, e, LogKeep + 1);
    Seqs.Last(logs, LogKeep) + [e]
  }

  /** The log appended to by one step keeps its older lines in order:
      they are the newest of the previous lines. */
  lemma AppendLogKeepsNewest(logs: seq<LogEntry>, e: LogEntry)
    ensures |logs| <= LogKeep ==> AppendLog(logs, e) == logs + [e]
    ensures |logs| > LogKeep ==> AppendLog(logs, e) == logs[|logs| - LogKeep..] + [e]
  {
  }

  // ---------------------------------------------------------------------
  // One pass of the pipeline, as functions of the stage states

  /** The first sample through fresh default filters and an empty window
      comes out unchanged, with a flat slope. */
  lemma FirstSamplePassesThrough(pt: VitalSign)
    ensures Kalman.Step(Kalman.DefaultParams, Kalman.Uninitialized, pt.hr, 0.0).x == pt.hr
    ensures Kalman.Step(Kalman.DefaultParams, Kalman.Uninitialized, pt.mp, 0.0).x == pt.mp
    ensures Drift.Slide([], pt.hr, DriftWindow) == [pt.hr]
    ensures Drift.Slope([pt.hr]) == 0.0
  {
    Kalman.FirstCall(Kalman.DefaultParams, pt.hr, 0.0);
    Kalman.FirstCall(Kalman.DefaultParams, pt.mp, 0.0);
  }

  // ---------------------------------------------------------------------
  // The page

  /** The page's state: the filters and the detector created once on mount,
      the logistic the risk engine uses, the two scenarios, and the React
      state the pipeline reads and writes. */
  class ArchitecturePipeline {
    const kfHR: Kalman.KalmanFilter
    const kfMAP: Kalman.KalmanFilter
    const drift: Drift.DriftDetector
    const sigmoid: real -> Risk.Open01
    const stableData: seq<VitalSign>
    const sepsisData: seq<VitalSign>

    var scenarioType: ScenarioType
    var currentIndex: nat
    var isPlaying: bool
    var logs: seq<LogEntry>
    var processed: ProcessedState

    ghost predicate Valid()
      reads this, kfHR, kfMAP, drift
    {
      kfHR != kfMAP &&
      kfHR.Valid() && kfMAP.Valid() && drift.Valid() &&
      kfHR.params == Kalman.DefaultParams && kfMAP.params == Kalman.DefaultParams &&
      drift.windowSize == DriftWindow &&
      |stableData| == StableLength && |sepsisData| == SepsisLength &&
      currentIndex < |CurrentData()| &&
      |logs| <= LogKeep + 1
    }

    /** `currentData`: the selected scenario's samples. */
    function CurrentData(): seq<VitalSign>
      reads this
    {
      if scenarioType == Stable then stableData else sepsisData
    }

    /** `rawPoint = currentData[currentIndex % currentData.length]` */
    function RawPoint(): (pt: VitalSign)
      reads this
      requires |CurrentData()| > 0
      ensures pt in CurrentData()
    {
      CurrentData()[currentIndex % |CurrentData()|]
    }

    /** Mount: both filters built with R = 1, Q = 1, A = 1, B = 0, C = 1, the
        detector with a window of 10, the stable scenario at its first sample. */
    constructor (sigmoid: real -> Risk.Open01, stableData: seq<VitalSign>, sepsisData: seq<VitalSign>)
      requires |stableData| == StableLength && |sepsisData| == SepsisLength
      ensures Valid()
      ensures fresh(kfHR) && fresh(kfMAP) && fresh(drift)
      ensures kfHR.state == Kalman.Uninitialized && kfMAP.state == Kalman.Uninitialized && drift.window == []
      ensures this.sigmoid == sigmoid && this.stableData == stableData && this.sepsisData == sepsisData
      ensures scenarioType == Stable && currentIndex == 0 && !isPlaying && logs == [] && processed == InitialState
    {
      kfHR := new Kalman.KalmanFilter(Kalman.DefaultParams);
      kfMAP := new Kalman.KalmanFilter(Kalman.DefaultParams);
      drift := new Drift.DriftDetector(DriftWindow);
      this.sigmoid := sigmoid;
      this.stableData := stableData;
      this.sepsisData := sepsisData;
      scenarioType := Stable;
      currentIndex := 0;
      isPlaying := false;
      logs := [];
      processed := InitialState;
    }

    /** The processing effect: filter HR and MAP each with its own filter,
        feed the filtered heart rate to the drift detector, feed both filtered
        values to the risk engine, record the result and log it. */
    method Process()
      requires Valid()
      modifies this, kfHR, kfMAP, drift
      ensures Valid()
      ensures kfHR.state == Kalman.Step(Kalman.DefaultParams, old(kfHR.state), old(RawPoint()).hr, 0.0)
      ensures kfMAP.state == Kalman.Step(Kalman.DefaultParams, old(kfMAP.state), old(RawPoint()).mp, 0.0)
      ensures drift.window == Drift.Slide(old(drift.window), kfHR.state.x, DriftWindow)
      ensures processed == ProcessedState(kfHR.state.x, kfMAP.state.x, Drift.Slope(drift.window),
                                          Risk.CalculateRisk(sigmoid, kfHR.state.x, kfMAP.state.x))
      ensures 0.0 <= processed.risk <= 1.0
      ensures logs == AppendLog(old(logs), LogEntry(processed, Tag(processed)))
      ensures scenarioType == old(scenarioType) && currentIndex == old(currentIndex) && isPlaying == old(isPlaying)
    {
      var pt := RawPoint();
      var fHR := kfHR.Filter(pt.hr, 0.0);
      ghost var hrState := kfHR.state;
      var fMAP := kfMAP.Filter(pt.mp, 0.0);
      assert kfHR.state == hrState;
      var slope := drift.AddPoint(fHR);
      assert kfHR.state == hrState && fHR == kfHR.state.x && fMAP == kfMAP.state.x;
      var risk := Risk.CalculateRisk(sigmoid, fHR, fMAP);
      processed := ProcessedState(fHR, fMAP, slope, risk);
      logs := AppendLog(logs, LogEntry(processed, Tag(processed)));
    }

    /** The play timer: the next sample of the scenario, wrapping round. */
    method Advance()
      requires Valid() && isPlaying
      modifies this
      ensures Valid()
      ensures currentIndex == (old(currentIndex) + 1) % |CurrentData()|
      ensures scenarioType == old(scenarioType) && isPlaying && logs == old(logs) && processed == old(processed)
    {
      currentIndex := (currentIndex + 1) % |CurrentData()|;
    }

    /** The play / pause button. */
    method TogglePlaying()
      requires Valid()
      modifies this
      ensures Valid()
      ensures isPlaying == !old(isPlaying)
      ensures scenarioType == old(scenarioType) && currentIndex == old(currentIndex)
      ensures logs == old(logs) && processed == old(processed)
    {
      isPlaying := !isPlaying;
    }

    /** `handleScenarioChange`: pause, switch scenario, rewind and clear the
        log.  The filters and the detector keep what they have learnt. */
    method ScenarioChange(t: ScenarioType)
      requires Valid()
      modifies this
      ensures Valid()
      ensures !isPlaying && scenarioType == t && currentIndex == 0 && logs == []
      ensures processed == old(processed)
      ensures kfHR.state == old(kfHR.state) && kfMAP.state == old(kfMAP.state) && drift.window == old(drift.window)
    {
      isPlaying := false;
      scenarioType := t;
      currentIndex := 0;
      logs := [];
    }
  }
}
