/**
 * `getRiskProps` of the newborn-analysis page: a first-match threshold
 * classifier from an optional risk score to the badge that shows its tier.
 * The score is an exact number (`real`).
 */
module NewbornRisk {
  import opened Wrappers

  /** The badge variants the classifier uses; `SuccessVariant` is the `success` variant. */
  datatype Variant = Default | Destructive | Secondary | SuccessVariant

  /** The icons the classifier uses. */
  datatype Icon = ShieldCheck | ShieldAlert

  /** What `getRiskProps` returns; `labelText` is its `label`. */
  datatype RiskProps = RiskProps(variant: Variant, icon: Icon, labelText: string)

  const UnknownRisk := RiskProps(Default, ShieldCheck, "Bilinmiyor")
  const HighRisk := RiskProps(Destructive, ShieldAlert, "Yüksek Risk")
  const MediumRisk := RiskProps(Secondary, ShieldCheck, "Orta Risk")
  const LowRisk := RiskProps(SuccessVariant, ShieldCheck, "Düşük Risk")

  /**
   * `getRiskProps(score)`: no score is unknown; then the first threshold the
   * score reaches wins, so each input falls in exactly the tier its
   * thresholds name.
   */
  function GetRiskProps(score: Option<real>): (p: RiskProps)
    ensures p == UnknownRisk <==> score.None?
    ensures p == HighRisk <==> score.Some? && score.value >= 70.0
    ensures p == MediumRisk <==> score.Some? && 40.0 <= score.value < 70.0
    ensures p == LowRisk <==> score.Some? && score.value < 40.0
  {
    if score.None? then UnknownRisk
    else if score.value >= 70.0 then HighRisk
    else if score.value >= 40.0 then MediumRisk
    else LowRisk
  }

  /** The order of the tiers: unknown, low, medium, high. */
  function Level(p: RiskProps): nat {
    if p == HighRisk then 3
    else if p == MediumRisk then 2
    else if p == LowRisk then 1
    else 0
  }

  /** A higher score never yields a lower tier, and a known score is never "unknown". */
  lemma RiskMonotone(s: real, t: real)
    requires s <= t
    ensures 1 <= Level(GetRiskProps(Some(s))) <= Level(GetRiskProps(Some(t)))
  {
  }

  /** The bands the newborn-analysis prompt documents for integer scores 0 to 100. */
  function DocumentedBand(n: int): RiskProps
    requires 0 <= n <= 100
  {
    if 70 <= n <= 100 then HighRisk
    else if 40 <= n <= 69 then MediumRisk
    else LowRisk
  }

  /** For every integer score from 0 to 100, the badge agrees with the documented band. */
  lemma RiskMatchesDocumentedBands(n: int)
    requires 0 <= n <= 100
    ensures GetRiskProps(Some(n as real)) == DocumentedBand(n)
  {
  }
}
