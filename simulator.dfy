/** The heart-rate simulator hook of the monitoring demo
    (`useVitalSimulator` in app/hooks/useVitalSimulator.ts): a bounded
    history of heart-rate samples, the one-second tick that appends a new
    sample until thirty seconds have elapsed, and the analysis that turns the
    last ten samples into a drift slope and a status.  `Math.random` is
    replaced by its result, a parameter in [0, 1); timestamps are left out. */
module Simulator {

  import Seqs

  datatype VitalData = VitalData(heartRate: real, trend: real)

  /** Scenario A is a stable patient; in scenario B the heart rate rises by
      one bpm on every tick. */
  datatype Scenario = A | B

  datatype SimulationStatus = Normal | DriftWarning | CriticalFailure

  datatype Analysis = Analysis(slope: real, isDrifting: bool, status: SimulationStatus)

  const InitialHR: real := 75.0
  /** The history keeps at most this many samples. */
  const HistoryCap: nat := 30
  /** The tick that stops the simulation. */
  const TickLimit: int := 30
  /** The analysis looks at this many recent samples. */
  const AnalysisWindow: nat := 10
  const DriftThreshold: real := 4.0
  const CriticalHR: real := 100.0
  /** `reset` seeds the history with this many samples. */
  const SeedLength: nat := 20

  // ---------------------------------------------------------------------
  // The analysis

  /** The heart rate shown: the newest sample's, or 75 with no history. */
  function CurrentHR(data: seq<VitalData>): (hr: real)
    ensures data == [] ==> hr == InitialHR
    ensures data != [] ==> hr == data[|data| - 1].heartRate
  {
    if |data| > 0 then data[|data| - 1].heartRate else InitialHR
  }

  /** The `reduce` over heart rates: a running sum from the left. */
  function SumHR(s: seq<VitalData>): real {
    if s == [] then 0.0 else SumHR(s[..|s| - 1]) + s[|s| - 1].heartRate
  }

  /** The `analysis` memo: below ten samples there is nothing to analyse;
      otherwise the slope is the mean of the newest three of the last ten
      samples minus the mean of the oldest three, drift is a slope above 4,
      and a current heart rate of 100 or more is critical whatever the drift. */
  function Analyze(data: seq<VitalData>): (a: Analysis)
    ensures |data| < AnalysisWindow ==> a == Analysis(0.0, false, Normal)
    ensures a.isDrifting <==> |data| >= AnalysisWindow && a.slope > DriftThreshold
  {
    if |data| < AnalysisWindow then Analysis(0.0, false, Normal)
    else
      var recent := Seqs.Last(data, AnalysisWindow);
      var first3 := SumHR(recent[..3]) / 3.0;
      var last3 := SumHR(Seqs.Last(recent, 3)) / 3.0;
      var slope := last3 - first3;
      var isDrifting := slope > DriftThreshold;
      var isCritical := CurrentHR(data) >= CriticalHR;
      var status := if isCritical then CriticalFailure else if isDrifting then DriftWarning else Normal;
      Analysis(slope, isDrifting, status)
  }

  /** With ten or more samples the slope is, in history indices, the mean of
      the three newest samples minus the mean of the samples ten, nine and
      eight places from the end. */
  lemma AnalysisSlope(data: seq<VitalData>)
    requires |data| >= AnalysisWindow
    ensures var n := |data|;
      Analyze(data).slope
        == (data[n - 3].heartRate + data[n - 2].heartRate + data[n - 1].heartRate) / 3.0
         - (data[n - 10].heartRate + data[n - 9].heartRate + data[n - 8].heartRate) / 3.0
  {
    var n := |data|;
    var recent := Seqs.Last(data, AnalysisWindow);
    assert recent[..3] == [data[n - 10], data[n - 9], data[n - 8]];
    assert Seqs.Last(recent, 3) == [data[n - 3], data[n - 2], data[n - 1]];
    SumOfThree(data[n - 10], data[n - 9], data[n - 8]);
    SumOfThree(data[n - 3], data[n - 2], data[n - 1]);
  }

  lemma SumOfThree(a: VitalData, b: VitalData, c: VitalData)
    ensures SumHR([a, b, c]) == a.heartRate + b.heartRate + c.heartRate
  {
    assert [a][..0] == [];
    assert SumHR([a]) == a.heartRate;
    assert [a, b][..1] == [a];
    assert SumHR([a, b]) == a.heartRate + b.heartRate;
    assert [a, b, c][..2] == [a, b];
  }

  /** The status priority: critical exactly when there is enough history and
      the current heart rate is at least 100; a drift warning exactly when
      drifting and not critical; normal otherwise. */
  lemma StatusPriority(data: seq<VitalData>)
    ensures Analyze(data).status == CriticalFailure
        <==> |data| >= AnalysisWindow && CurrentHR(data) >= CriticalHR
    ensures Analyze(data).status == DriftWarning
        <==> Analyze(data).isDrifting && !(|data| >= AnalysisWindow && CurrentHR(data) >= CriticalHR)
    ensures Analyze(data).status == Normal
        <==> !Analyze(data).isDrifting && !(|data| >= AnalysisWindow && CurrentHR(data) >= CriticalHR)
  {
  }

  /** A history whose last ten samples rise by `d` per sample gives slope 7d:
      the newest three sit seven samples after the oldest three.  Nothing
      before those ten samples matters. */
  lemma SteadyRiseSlope(data: seq<VitalData>, d: real)
    requires |data| >= AnalysisWindow
    requires forall i :: |data| - AnalysisWindow < i < |data| ==> data[i].heartRate == data[i - 1].heartRate + d
    ensures Analyze(data).slope == 7.0 * d
  {
    var n := |data|;
    var h := data[n - 10].heartRate;
    assert data[n - 9].heartRate == h + d;
    assert data[n - 8].heartRate == h + 2.0 * d;
    assert data[n - 7].heartRate == h + 3.0 * d;
    assert data[n - 6].heartRate == h + 4.0 * d;
    assert data[n - 5].heartRate == h + 5.0 * d;
    assert data[n - 4].heartRate == h + 6.0 * d;
    assert data[n - 3].heartRate == h + 7.0 * d;
    assert data[n - 2].heartRate == h + 8.0 * d;
    assert data[n - 1].heartRate == h + 9.0 * d;
    AnalysisSlope(data);
  }

  /** Ten samples climbing by one beat each, as scenario B's do without
      noise, are flagged as drift, whatever came before them. */
  lemma SteadyClimbDrifts(data: seq<VitalData>)
    requires |data| >= AnalysisWindow
    requires forall i :: |data| - AnalysisWindow < i < |data| ==> data[i].heartRate == data[i - 1].heartRate + 1.0
    ensures Analyze(data).isDrifting
  {
    SteadyRiseSlope(data, 1.0);
  }

  /** A history whose last ten samples are flat has slope 0 and is never
      drifting. */
  lemma FlatHistoryNotDrifting(data: seq<VitalData>)
    requires forall i :: 0 < i < |data| && |data| - AnalysisWindow < i ==> data[i].heartRate == data[i - 1].heartRate
    ensures Analyze(data).slope == 0.0 && !Analyze(data).isDrifting
  {
    if |data| >= AnalysisWindow {
      SteadyRiseSlope(data, 0.0);
    }
  }

  /** Scenario B after a reset: whatever the seed samples, ten or more
      appended samples that climb by one beat each are flagged as drift. */
  lemma SeededClimbDrifts(seeds: seq<VitalData>, climb: seq<VitalData>)
    requires |climb| >= AnalysisWindow
    requires forall i :: 0 < i < |climb| ==> climb[i].heartRate == climb[i - 1].heartRate + 1.0
    ensures Analyze(seeds + climb).isDrifting
  {
    var data := seeds + climb;
    forall i | |data| - AnalysisWindow < i < |data|
      ensures data[i].heartRate == data[i - 1].heartRate + 1.0
    {
      assert data[i] == climb[i - |seeds|] && data[i - 1] == climb[i - 1 - |seeds|];
    }
    SteadyClimbDrifts(data);
  }

  // ---------------------------------------------------------------------
  // The tick

  /** `Math.round`: the nearest integer, halves rounded up. */
  function Round(x: real): (n: int)
    ensures x - 0.5 < n as real <= x + 0.5
  {
    (x + 0.5).Floor
  }

  /** `Math.round(x * 10) / 10`: x to one decimal place. */
  function RoundTenth(x: real): (r: real)
    ensures x - 0.05 < r <= x + 0.05
  {
    Round(x * 10.0) as real / 10.0
  }

  /** The noise-free heart rate at tick `t`: flat in A, one beat per tick up in B. */
  function BaseHR(scenario: Scenario, t: int): real {
    match scenario
    case A => InitialHR
    case B => InitialHR + 1.0 * t as real
  }

  /** The noise drawn from `Math.random()`'s result `r`: uniform in [-3, 3)
      in scenario A, in [-2, 2) in scenario B. */
  function Noise(scenario: Scenario, r: real): (noise: real)
    requires 0.0 <= r < 1.0
    ensures scenario == A ==> -3.0 <= noise < 3.0
    ensures scenario == B ==> -2.0 <= noise < 2.0
  {
    match scenario
    case A => r * 6.0 - 3.0
    case B => r * 4.0 - 2.0
  }

  /** The heart rate appended at tick `t`, within 3.05 beats of 75 in
      scenario A and within 2.05 beats of 75 + t in scenario B. */
  function NewHeartRate(scenario: Scenario, t: int, r: real): (hr: real)
    requires 0.0 <= r < 1.0
    ensures scenario == A ==> InitialHR - 3.05 < hr < InitialHR + 3.05
    ensures scenario == B ==> InitialHR + t as real - 2.05 < hr < InitialHR + t as real + 2.05
  {
    RoundTenth(BaseHR(scenario, t) + Noise(scenario, r))
  }

  /** The seed sample `reset` draws from `Math.random()`'s result `r`. */
  function SeedSample(r: real): (v: VitalData)
    requires 0.0 <= r < 1.0
    ensures InitialHR - 1.0 <= v.heartRate < InitialHR + 1.0 && v.trend == 0.0
  {
    VitalData(InitialHR + (r * 2.0 - 1.0), 0.0)
  }

  predicate UnitInterval(rs: seq<real>) {
    forall i :: 0 <= i < |rs| ==> 0.0 <= rs[i] < 1.0
  }

  function SeedHistory(rs: seq<real>): (data: seq<VitalData>)
    requires UnitInterval(rs)
    ensures |data| == |rs|
    ensures forall i :: 0 <= i < |rs| ==> data[i] == SeedSample(rs[i])
  {
    if rs == [] then [] else SeedHistory(rs[..|rs| - 1]) + [SeedSample(rs[|rs| - 1])]
  }

  /** The history after appending one sample: the 30 most recent. */
  function Append(data: seq<VitalData>, v: VitalData): (r: seq<VitalData>)
    ensures 1 <= |r| <= HistoryCap
    ensures r[|r| - 1] == v
    ensures r == Seqs.Last(data, HistoryCap - 1) + [v]
  {
    Seqs.AppendThenLast(data, v, HistoryCap);
    Seqs.Last(data + [v], HistoryCap)
  }

  /** A freshly seeded history is long enough to analyse at once, its slope
      stays within 2 beats either way, and it reports NORMAL. */
  lemma SeededHistoryNormal(rs: seq<real>)
    requires |rs| == SeedLength && UnitInterval(rs)
    ensures |SeedHistory(rs)| >= AnalysisWindow
    ensures -2.0 < Analyze(SeedHistory(rs)).slope < 2.0
    ensures Analyze(SeedHistory(rs)).status == Normal
  {
    var data := SeedHistory(rs);
    AnalysisSlope(data);
    var n := |data|;
    assert InitialHR - 1.0 <= data[n - 1].heartRate < InitialHR + 1.0;
    assert InitialHR - 1.0 <= data[n - 2].heartRate < InitialHR + 1.0;
    assert InitialHR - 1.0 <= data[n - 3].heartRate < InitialHR + 1.0;
    assert InitialHR - 1.0 <= data[n - 8].heartRate < InitialHR + 1.0;
    assert InitialHR - 1.0 <= data[n - 9].heartRate < InitialHR + 1.0;
    assert InitialHR - 1.0 <= data[n - 10].heartRate < InitialHR + 1.0;
  }

  /** The hook's state: the history, whether the interval is running, the
      scenario, the elapsed seconds shown, and the tick counter
      (`elapsedRef.current`).  `dataRef` always holds the same list as the
      history and is not a separate field. */
  class VitalSimulator {
    var data: seq<VitalData>
    var isRunning: bool
    var scenario: Scenario
    var elapsed: int
    var elapsedRef: int

    ghost predicate Valid()
      reads this
    {
      |data| <= HistoryCap && 0 <= elapsed <= TickLimit && elapsed <= elapsedRef
    }

    /** The hook's initial state before the mount effect runs `reset`. */
    constructor ()
      ensures Valid()
      ensures data == [] && !isRunning && scenario == A && elapsed == 0 && elapsedRef == 0
    {
      data := [];
      isRunning := false;
      scenario := A;
      elapsed := 0;
      elapsedRef := 0;
    }

    /** `reset`: stop, zero both counters and seed twenty samples around 75;
      `rs` are the twenty results of `Math.random()`. */
    method Reset(rs: seq<real>)
      requires |rs| == SeedLength && UnitInterval(rs)
      modifies this
      ensures Valid()
      ensures data == SeedHistory(rs) && |data| == SeedLength
      ensures !isRunning && elapsed == 0 && elapsedRef == 0 && scenario == old(scenario)
    {
      isRunning := false;
      elapsed := 0;
      elapsedRef := 0;
      data := SeedHistory(rs);
    }

    method SetRunning(running: bool)
      modifies this
      ensures isRunning == running
      ensures data == old(data) && scenario == old(scenario)
      ensures elapsed == old(elapsed) && elapsedRef == old(elapsedRef)
    {
      isRunning := running;
    }

    method SetScenario(s: Scenario)
      modifies this
      ensures scenario == s
      ensures data == old(data) && isRunning == old(isRunning)
      ensures elapsed == old(elapsed) && elapsedRef == old(elapsedRef)
    {
      scenario := s;
    }

    /** One interval callback, `r` being `Math.random()`'s result.  The tick
      counter always advances; on reaching 30 the simulation stops with 30
      seconds shown and no sample appended; before that one sample is
      appended, the history keeps its 30 most recent samples and the shown
      time follows the counter. */
    method Tick(r: real)
      requires Valid() && isRunning && 0.0 <= r < 1.0
      modifies this
      ensures Valid()
      ensures elapsedRef == old(elapsedRef) + 1 && scenario == old(scenario)
      ensures elapsedRef >= TickLimit ==>
        !isRunning && elapsed == TickLimit && data == old(data)
      ensures elapsedRef < TickLimit ==>
        isRunning && elapsed == elapsedRef &&
        data == Append(old(data), VitalData(NewHeartRate(scenario, elapsedRef, r), 0.0))
    {
      elapsedRef := elapsedRef + 1;
      var currentTime := elapsedRef;
      if currentTime >= TickLimit {
        isRunning := false;
        elapsed := TickLimit;
        return;
      }
      var baseHR := BaseHR(scenario, currentTime);
      var noise := Noise(scenario, r);
      var newHR := RoundTenth(baseHR + noise);
      var newDataPoint := VitalData(newHR, 0.0);
      data := Seqs.Last(data + [newDataPoint], HistoryCap);
      elapsed := currentTime;
    }
  }
}
