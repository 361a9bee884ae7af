/** The hidden risk index, the three governance tiers it selects, the red
    override, and the banner text of a tier. Q9 takes no part in any of it. */
module Tiering {
  import opened Encoding

  datatype Tier = Green | Yellow | Red

  /** Tiers ordered by strictness. */
  function Rank(t: Tier): nat
  {
    match t
    case Green => 0
    case Yellow => 1
    case Red => 2
  }

  /** The weighted sum before the floor at zero: consequence and formal impact
      count double, review strength is subtracted. */
  function RawIndex(c: Codes): int
  {
    2 * (c.q2 + c.q4) + (c.q3 + c.q5 + c.q6) - c.q8
  }

  /** The internal risk index R, floored at zero; it never exceeds 14. */
  function RiskIndex(c: Codes): (r: nat)
    ensures r <= 14
    ensures r >= RawIndex(c) && (r == 0 || r == RawIndex(c))
  {
    var raw := RawIndex(c);
    if raw >= 0 then raw else 0
  }

  /** Q1, Q7 and Q9 have no weight in R. */
  lemma RiskIndexIgnoresQ1Q7Q9(c: Codes, x: Level, y: Level, z: Level)
    ensures RiskIndex(c.(q1 := x, q7 := y, q9 := z)) == RiskIndex(c)
  {
  }

  /** `d` is at least as risky as `c` answer by answer: no weighted severity
      lower and no stronger review. */
  predicate AtLeastAsRisky(c: Codes, d: Codes)
  {
    c.q2 <= d.q2 && c.q3 <= d.q3 && c.q4 <= d.q4 && c.q5 <= d.q5 && c.q6 <= d.q6 && d.q8 <= c.q8
  }

  /** Raising a severity or weakening review never lowers R. */
  lemma RiskIndexMonotone(c: Codes, d: Codes)
    requires AtLeastAsRisky(c, d)
    ensures RiskIndex(c) <= RiskIndex(d)
  {
  }

  /** The threshold tier of an index: green up to 4, yellow from 5 to 8, red from 9. */
  function TierFromInternal(r: int): (t: Tier)
    ensures t == Green <==> r <= 4
    ensures t == Yellow <==> 5 <= r <= 8
    ensures t == Red <==> 9 <= r
  {
    if r <= 4 then Green
    else if r <= 8 then Yellow
    else Red
  }

  /** A higher index never selects a less strict tier. */
  lemma TierFromInternalMonotone(r1: int, r2: int)
    requires r1 <= r2
    ensures Rank(TierFromInternal(r1)) <= Rank(TierFromInternal(r2))
  {
  }

  /** High consequence, direct formal decision and minimal review together. */
  predicate OverrideRed(c: Codes)
  {
    c.q2 == 2 && c.q4 == 2 && c.q8 == 0
  }

  /** Read on the answers, the override is Q2 = C, Q4 = C and Q8 = C
      (minimal review), and it only applies where R is already at least 8. */
  lemma OverrideReadsAnswers(c: Codes)
    ensures OverrideRed(c) <==> Decode(c).q2 == "C" && Decode(c).q4 == "C" && Decode(c).q8 == "C"
    ensures OverrideRed(c) ==> RiskIndex(c) >= 8
  {
  }

  /** The tier: the threshold tier, forced to red by the override. */
  function FinalTier(c: Codes): (t: Tier)
    ensures Rank(TierFromInternal(RiskIndex(c))) <= Rank(t)
  {
    var t := TierFromInternal(RiskIndex(c));
    if OverrideRed(c) then Red else t
  }

  /** Under the override the tier is red whatever the other answers are;
      otherwise it is the threshold tier. */
  lemma OverrideDecidesTier(c: Codes)
    ensures OverrideRed(c) ==> FinalTier(c) == Red
    ensures !OverrideRed(c) ==> FinalTier(c) == TierFromInternal(RiskIndex(c))
  {
  }

  /** The override changes the outcome exactly when it applies and R is 8,
      which happens when Q3, Q5 and Q6 are all A. */
  lemma OverrideDecisiveOnlyAtEight(c: Codes)
    ensures FinalTier(c) != TierFromInternal(RiskIndex(c)) <==> OverrideRed(c) && RiskIndex(c) == 8
    ensures OverrideRed(c) ==> (RiskIndex(c) == 8 <==> c.q3 == 0 && c.q5 == 0 && c.q6 == 0)
  {
  }

  /** Q9 changes neither the override nor the tier. */
  lemma TierIgnoresQ9(c: Codes, x: Level)
    ensures OverrideRed(c.(q9 := x)) == OverrideRed(c)
    ensures FinalTier(c.(q9 := x)) == FinalTier(c)
  {
  }

  /** The banner text of a tier; only the red banner mentions the override. */
  function TierLabel(t: Tier, overrideApplied: bool): (s: string)
    ensures |s| > |OverrideSuffix| && s[0] == TierMark(t)
    ensures s[|s| - 1] == ')' <==> t == Red && overrideApplied
    ensures s[|s| - |OverrideSuffix|..] == OverrideSuffix <==> t == Red && overrideApplied
  {
    var headline := match t
      case Green => " Tier 1 \U{2014} Standard governance sufficient"
      case Yellow => " Tier 2 \U{2014} Enhanced governance recommended"
      case Red => " Tier 3 \U{2014} Formal governance required";
    [TierMark(t)] + headline + (if t == Red && overrideApplied then OverrideSuffix else "")
  }

  const OverrideSuffix := " (override)"

  /** The coloured mark that opens the banner of a tier. */
  function TierMark(t: Tier): char
  {
    match t
    case Green => '\U{1F7E2}'
    case Yellow => '\U{1F7E1}'
    case Red => '\U{1F534}'
  }

  /** The banner names the tier unambiguously, and whether the override was
      applied when the tier is red. */
  lemma TierLabelDistinguishes(t1: Tier, o1: bool, t2: Tier, o2: bool)
    requires TierLabel(t1, o1) == TierLabel(t2, o2)
    ensures t1 == t2
    ensures t1 == Red ==> o1 == o2
  {
  }
}
