/** The two-hypothesis Bayes fusion of the monitoring core
    (`BayesianNetwork.calculateRisk` in app/lib/algorithms.ts): per-channel
    likelihoods of heart rate (HR) and mean arterial pressure (MAP) under
    "sepsis" and "healthy", combined under an independence assumption and
    turned into a posterior with a 10% prior.  The logistic function of the
    source is a parameter of the model: any function whose results lie
    strictly between 0 and 1. */
module Risk {

  import opened Reals

  type Open01 = r: real | 0.0 < r < 1.0 witness 0.5

  /** The baseline sepsis prior P(sepsis). */
  const SepsisPrior: real := 0.10

  /** `Math.min(Math.max(r, 0), 1)` */
  function Clamp01(r: real): (c: real)
    ensures 0.0 <= c <= 1.0
    ensures 0.0 <= r <= 1.0 ==> c == r
    ensures r < 0.0 ==> c == 0.0
    ensures r > 1.0 ==> c == 1.0
  {
    var lo := if r > 0.0 then r else 0.0;
    if lo < 1.0 then lo else 1.0
  }

  /** A monotonically increasing logistic, as `1 / (1 + exp(-t))` is. */
  ghost predicate Increasing(sigmoid: real -> Open01) {
    forall a: real, b: real :: a <= b ==> sigmoid(a) <= sigmoid(b)
  }

  /** P(HR | sepsis), P(HR | healthy), P(MAP | sepsis), P(MAP | healthy). */
  datatype Likelihoods = Likelihoods(hrSepsis: real, hrHealthy: real, mapSepsis: real, mapHealthy: real)

  /** The per-channel likelihood curves: HR above 90 points to sepsis, HR
      below 85 to health, MAP below 75 to sepsis, MAP above 80 to health,
      each with scale 8. Every one of them is a probability strictly
      between 0 and 1. */
  function ChannelLikelihoods(sigmoid: real -> Open01, hr: real, mp: real): (l: Likelihoods)
    ensures 0.0 < l.hrSepsis < 1.0 && 0.0 < l.hrHealthy < 1.0
    ensures 0.0 < l.mapSepsis < 1.0 && 0.0 < l.mapHealthy < 1.0
  {
    Likelihoods(
      sigmoid((hr - 90.0) / 8.0),
      1.0 - sigmoid((hr - 85.0) / 8.0),
      1.0 - sigmoid((mp - 75.0) / 8.0),
      sigmoid((mp - 80.0) / 8.0))
  }

  /** P(data) = L_s * p + L_h * (1 - p). */
  function Evidence(ls: real, lh: real, p: real): real {
    ls * p + lh * (1.0 - p)
  }

  /** Bayes' rule with the source's guard and clamp: 0 when the evidence is
      0, otherwise L_s * p / P(data) clamped to [0, 1]. */
  function Posterior(ls: real, lh: real, p: real): (r: real)
    ensures 0.0 <= r <= 1.0
    ensures Evidence(ls, lh, p) == 0.0 ==> r == 0.0
  {
    var evidence := Evidence(ls, lh, p);
    if evidence == 0.0 then 0.0 else Clamp01(ls * p / evidence)
  }

  /** `calculateRisk(hr, map)`: the posterior probability of sepsis, always
      a probability. */
  function CalculateRisk(sigmoid: real -> Open01, hr: real, mp: real): (risk: real)
    ensures 0.0 <= risk <= 1.0
  {
    Fuse(Combine(ChannelLikelihoods(sigmoid, hr, mp)))
  }

  /** The joint likelihood L_s of the data under sepsis and L_h under health. */
  datatype Joint = Joint(sepsis: real, healthy: real)

  /** The channels combined as independent evidence:
      L_s = P(HR | sepsis) * P(MAP | sepsis), L_h = P(HR | healthy) * P(MAP | healthy). */
  function Combine(l: Likelihoods): (j: Joint)
    ensures Probabilities(l) ==> 0.0 < j.sepsis < 1.0 && 0.0 < j.healthy < 1.0
  {
    MulOpenUnitIf(l.hrSepsis, l.mapSepsis);
    MulOpenUnitIf(l.hrHealthy, l.mapHealthy);
    Joint(l.hrSepsis * l.mapSepsis, l.hrHealthy * l.mapHealthy)
  }

  /** The posterior of the joint likelihoods under the sepsis prior. */
  function Fuse(j: Joint): (risk: real)
    ensures 0.0 <= risk <= 1.0
  {
    Posterior(j.sepsis, j.healthy, SepsisPrior)
  }

  predicate Probabilities(l: Likelihoods) {
    0.0 < l.hrSepsis < 1.0 && 0.0 < l.hrHealthy < 1.0 && 0.0 < l.mapSepsis < 1.0 && 0.0 < l.mapHealthy < 1.0
  }

  lemma MulOpenUnitIf(a: real, b: real)
    ensures 0.0 < a < 1.0 && 0.0 < b < 1.0 ==> 0.0 < a * b < 1.0
  {
    if 0.0 < a < 1.0 && 0.0 < b < 1.0 {
      MulOpenUnit(a, b);
    }
  }

  // ---------------------------------------------------------------------
  // Properties

  /** For probabilities as likelihoods and a prior in [0, 1], the clamp never
      changes a posterior with non-zero evidence: it is exactly Bayes' rule. */
  lemma PosteriorIsBayes(ls: real, lh: real, p: real)
    requires ls >= 0.0 && lh >= 0.0 && 0.0 <= p <= 1.0
    requires Evidence(ls, lh, p) != 0.0
    ensures Evidence(ls, lh, p) > 0.0
    ensures Posterior(ls, lh, p) == ls * p / Evidence(ls, lh, p)
  {
    var a, e := ls * p, Evidence(ls, lh, p);
    MulMonotone(0.0, ls, 0.0, p);
    MulMonotone(0.0, lh, 0.0, 1.0 - p);
    assert 0.0 <= a <= e;
    assert 0.0 <= a / e <= 1.0 by {
      DivideMonotone(a, e, e, e);
      DivideMonotone(0.0, e, a, e);
    }
  }

  /** Equally likely evidence under both hypotheses leaves the prior as it is. */
  lemma PosteriorOfUninformativeEvidence(l: real, p: real)
    requires l > 0.0 && 0.0 <= p <= 1.0
    ensures Posterior(l, l, p) == p
  {
    assert Evidence(l, l, p) == l;
    PosteriorIsBayes(l, l, p);
  }

  /** Larger sepsis likelihood and smaller healthy likelihood never lower the
      posterior. */
  lemma PosteriorMonotone(ls1: real, lh1: real, ls2: real, lh2: real, p: real)
    requires 0.0 <= ls1 <= ls2 && 0.0 <= lh2 <= lh1 && 0.0 <= p <= 1.0
    requires Evidence(ls1, lh1, p) != 0.0 && Evidence(ls2, lh2, p) != 0.0
    ensures Posterior(ls1, lh1, p) <= Posterior(ls2, lh2, p)
  {
    PosteriorIsBayes(ls1, lh1, p);
    PosteriorIsBayes(ls2, lh2, p);
    var a, c, s1, s2 := ls1 * p, ls2 * p, lh1 * (1.0 - p), lh2 * (1.0 - p);
    MulMonotone(ls1, ls2, p, p);
    MulMonotone(lh2, lh1, 1.0 - p, 1.0 - p);
    CrossLe(a, c, s1, s2);
    DivideMonotone(a, a + s1, c, c + s2);
  }

  /** Evidence that favours health more than sepsis (L_s <= L_h) leaves the
      risk at or below the prior; evidence that favours sepsis leaves it at
      or above the prior. */
  lemma PosteriorAgainstPrior(ls: real, lh: real, p: real)
    requires ls > 0.0 && lh > 0.0 && 0.0 <= p <= 1.0
    ensures ls <= lh ==> Posterior(ls, lh, p) <= p
    ensures lh <= ls ==> p <= Posterior(ls, lh, p)
  {
    EvidencePositive(ls, lh, p);
    if ls <= lh {
      assert Evidence(lh, lh, p) == lh;
      PosteriorMonotone(ls, lh, lh, lh, p);
      PosteriorOfUninformativeEvidence(lh, p);
    }
    if lh <= ls {
      assert Evidence(ls, ls, p) == ls;
      PosteriorMonotone(ls, ls, ls, lh, p);
      PosteriorOfUninformativeEvidence(ls, p);
    }
  }

  /** Positive likelihoods under a prior in [0, 1] give positive evidence. */
  lemma EvidencePositive(ls: real, lh: real, p: real)
    requires ls > 0.0 && lh > 0.0 && 0.0 <= p <= 1.0
    ensures Evidence(ls, lh, p) > 0.0
  {
    var lo := if ls < lh then ls else lh;
    MulMonotone(lo, ls, p, p);
    MulMonotone(lo, lh, 1.0 - p, 1.0 - p);
    assert lo * p + lo * (1.0 - p) == lo;
    assert lo * p <= ls * p && lo * (1.0 - p) <= lh * (1.0 - p);
    assert Evidence(ls, lh, p) == ls * p + lh * (1.0 - p);
  }

  lemma CrossLe(a: real, c: real, s1: real, s2: real)
    requires 0.0 <= a <= c && 0.0 <= s2 <= s1
    ensures a * (c + s2) <= c * (a + s1)
  {
    MulMonotone(a, c, s2, s1);
  }

  /** With both joint likelihoods strictly inside (0, 1) the evidence is
      positive, so the zero-evidence guard is never taken and the fused risk
      is Bayes' rule itself, strictly between 0 and 1. */
  lemma FuseIsBayes(j: Joint)
    requires 0.0 < j.sepsis < 1.0 && 0.0 < j.healthy < 1.0
    ensures Evidence(j.sepsis, j.healthy, SepsisPrior) > 0.0
    ensures Fuse(j) == j.sepsis * SepsisPrior / Evidence(j.sepsis, j.healthy, SepsisPrior)
    ensures 0.0 < Fuse(j) < 1.0
  {
    var a, s := j.sepsis * SepsisPrior, j.healthy * (1.0 - SepsisPrior);
    PosteriorIsBayes(j.sepsis, j.healthy, SepsisPrior);
    assert 0.0 < a / (a + s) < 1.0 by {
      DivideMonotone(0.0, a + s, a, a + s);
    }
  }

  /** A larger sepsis likelihood and a smaller healthy likelihood never
      lower the fused risk. */
  lemma FuseMonotone(j1: Joint, j2: Joint)
    requires 0.0 < j1.sepsis <= j2.sepsis && 0.0 < j2.healthy <= j1.healthy
    ensures Fuse(j1) <= Fuse(j2)
  {
    PosteriorMonotone(j1.sepsis, j1.healthy, j2.sepsis, j2.healthy, SepsisPrior);
  }

  /** Stronger sepsis evidence and weaker healthy evidence on each channel
      give a stronger joint sepsis likelihood and a weaker joint healthy one. */
  lemma CombineMonotone(l1: Likelihoods, l2: Likelihoods)
    requires Probabilities(l1) && Probabilities(l2)
    requires l1.hrSepsis <= l2.hrSepsis && l1.mapSepsis <= l2.mapSepsis
    requires l2.hrHealthy <= l1.hrHealthy && l2.mapHealthy <= l1.mapHealthy
    ensures 0.0 < Combine(l1).sepsis <= Combine(l2).sepsis
    ensures 0.0 < Combine(l2).healthy <= Combine(l1).healthy
  {
    MulMonotone(l1.hrSepsis, l2.hrSepsis, l1.mapSepsis, l2.mapSepsis);
    MulMonotone(l2.hrHealthy, l1.hrHealthy, l2.mapHealthy, l1.mapHealthy);
  }

  /** `calculateRisk` never takes its zero-evidence branch: the risk is
      Bayes' rule L_s * p / (L_s * p + L_h * (1 - p)) over the channel
      likelihoods, strictly between 0 and 1. */
  lemma RiskIsBayes(sigmoid: real -> Open01, hr: real, mp: real)
    ensures var j := Combine(ChannelLikelihoods(sigmoid, hr, mp));
      Evidence(j.sepsis, j.healthy, SepsisPrior) > 0.0 &&
      CalculateRisk(sigmoid, hr, mp) == j.sepsis * SepsisPrior / Evidence(j.sepsis, j.healthy, SepsisPrior) &&
      0.0 < CalculateRisk(sigmoid, hr, mp) < 1.0
  {
    FuseIsBayes(Combine(ChannelLikelihoods(sigmoid, hr, mp)));
  }

  /** With an increasing logistic, a higher heart rate never lowers the risk. */
  lemma RiskMonotoneInHeartRate(sigmoid: real -> Open01, hr1: real, hr2: real, mp: real)
    requires Increasing(sigmoid)
    requires hr1 <= hr2
    ensures CalculateRisk(sigmoid, hr1, mp) <= CalculateRisk(sigmoid, hr2, mp)
  {
    var l1, l2 := ChannelLikelihoods(sigmoid, hr1, mp), ChannelLikelihoods(sigmoid, hr2, mp);
    assert (hr1 - 90.0) / 8.0 <= (hr2 - 90.0) / 8.0;
    assert (hr1 - 85.0) / 8.0 <= (hr2 - 85.0) / 8.0;
    CombineMonotone(l1, l2);
    FuseMonotone(Combine(l1), Combine(l2));
  }

  /** With an increasing logistic, a higher mean arterial pressure never
      raises the risk. */
  lemma RiskAntitoneInMap(sigmoid: real -> Open01, hr: real, mp1: real, mp2: real)
    requires Increasing(sigmoid)
    requires mp1 <= mp2
    ensures CalculateRisk(sigmoid, hr, mp2) <= CalculateRisk(sigmoid, hr, mp1)
  {
    var l1, l2 := ChannelLikelihoods(sigmoid, hr, mp1), ChannelLikelihoods(sigmoid, hr, mp2);
    assert (mp1 - 75.0) / 8.0 <= (mp2 - 75.0) / 8.0;
    assert (mp1 - 80.0) / 8.0 <= (mp2 - 80.0) / 8.0;
    CombineMonotone(l2, l1);
    FuseMonotone(Combine(l2), Combine(l1));
  }
}
