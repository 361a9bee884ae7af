/** The whole checkpoint: nine answers in, the governance outcome out — the
    tier and its banner, the override, the flags and their labels, gate
    mode, the three checklists and the rationale, as lines and as the text
    shown. */
module Checkpoint {
  import opened Encoding
  import opened Tiering
  import opened Flagging
  import opened Dedup
  import opened Recommendations
  import opened Rationale

  /** Everything the checkpoint reports for one set of answers. */
  datatype Assessment = Assessment(
    tier: Tier,
    overrideRed: bool,
    banner: string,
    flags: Flags,
    flagLabels: seq<string>,
    gateMode: bool,
    doNow: seq<Item>,
    doNext: seq<Item>,
    consider: seq<Item>,
    rationale: seq<string>,
    rationaleText: string)

  /** The outcome for the coded answers `c`. */
  function Assess(c: Codes): Assessment
  {
    var t := FinalTier(c);
    var f := DeriveFlags(c);
    Assessment(
      tier := t,
      overrideRed := OverrideRed(c),
      banner := TierLabel(t, OverrideRed(c)),
      flags := f,
      flagLabels := FlagLabels(f),
      gateMode := GateMode(f),
      doNow := Checklist(t, f, DoNow),
      doNext := Checklist(t, f, DoNext),
      consider := Checklist(t, f, Consider),
      rationale := RationaleLines(OverrideRed(c), GateMode(f), FlagLabels(f)),
      rationaleText := Join("\n", RationaleLines(OverrideRed(c), GateMode(f), FlagLabels(f))))
  }

  /** What every outcome satisfies: red exactly when the index reaches 9 or
      the override applies; gate mode never comes without a flag label;
      traceability always opens the do-next list; the rationale always
      carries the Q9 note. */
  lemma AssessSpec(c: Codes)
    ensures Assess(c).tier == Red <==> RiskIndex(c) >= 9 || OverrideRed(c)
    ensures Assess(c).overrideRed ==> Assess(c).tier == Red
    ensures Assess(c).gateMode ==> Assess(c).flagLabels != []
    ensures |Assess(c).doNext| > 0 && Assess(c).doNext[0] == TraceabilityItem
    ensures Q9Line in Assess(c).rationale
  {
    var f := DeriveFlags(c);
    if GateMode(f) {
      GateModeHasLabel(f);
    }
    TraceabilityFirst(FinalTier(c), f);
    RationaleLinesSpec(OverrideRed(c), GateMode(f), FlagLabels(f));
  }

  /** Codes the answers, then computes the index, the tier with its
      override, the flags and their labels, gate mode, the checklists, the
      banner and the rationale, in that order. An answer other than A, B or C stops the
      evaluation with the first such key. */
  method Evaluate(a: Answers) returns (r: Result<Assessment>)
    ensures r.Err? <==> Encode(a).Err?
    ensures r.Err? ==> r.error == Encode(a).error
    ensures r.Ok? ==> r.value == Assess(Encode(a).value)
  {
    var c :- Encode(a);
    var index := RiskIndex(c);
    var overrideRed := OverrideRed(c);
    var tier := TierFromInternal(index);
    if overrideRed {
      tier := Red;
    }
    var flags := DeriveFlags(c);
    var flagLabels := BuildFlagLabels(flags);
    var gateMode := GateMode(flags);
    var doNow, doNext, consider := BuildChecklist(tier, flags);
    var banner := TierLabel(tier, overrideRed);
    var lines, text := BuildRationale(overrideRed, gateMode, flagLabels);
    r := Ok(Assessment(tier, overrideRed, banner, flags, flagLabels, gateMode, doNow, doNext, consider, lines, text));
  }

  /** Changing Q9 alone leaves the tier, the banner, the override and gate
      mode as they were. */
  lemma Q9KeepsTier(c: Codes, x: Level)
    ensures Assess(c.(q9 := x)).tier == Assess(c).tier
    ensures Assess(c.(q9 := x)).banner == Assess(c).banner
    ensures Assess(c.(q9 := x)).overrideRed == Assess(c).overrideRed
    ensures Assess(c.(q9 := x)).gateMode == Assess(c).gateMode
  {
    TierIgnoresQ9(c, x);
    GateModeIgnoresQ9(c, x);
  }

  /** Changing Q9 alone adds or removes no checklist item other than the
      two documentation items: every other item is on a list for the new
      answer exactly when it was for the old one (its position may shift as
      a documentation item comes or goes). */
  lemma Q9OnlyTogglesDocumentation(c: Codes, x: Level, b: Bucket, act: Action)
    requires act != DocumentationBaseline && act != DocumentAiUse
    ensures ItemOf(act) in Checklist(Assess(c.(q9 := x)).tier, Assess(c.(q9 := x)).flags, b)
        <==> ItemOf(act) in Checklist(Assess(c).tier, Assess(c).flags, b)
  {
    TierIgnoresQ9(c, x);
    GateModeIgnoresQ9(c, x);
    GapSteersOnlyDocumentation(FinalTier(c), DeriveFlags(c), x != 0, b, act);
  }

  /** Under the override (high consequence, direct formal decision, minimal
      review) the outcome is red, the banner says so, human review, a
      decision record and stronger review are all to be done now, and the
      rationale opens with the override line. */
  lemma OverrideOutcome(c: Codes)
    requires OverrideRed(c)
    ensures Assess(c).tier == Red
    ensures Assess(c).banner[|Assess(c).banner| - |OverrideSuffix|..] == OverrideSuffix
    ensures HumanReviewItem in Assess(c).doNow
    ensures DecisionRecordItem in Assess(c).doNow
    ensures IncreaseReviewItem in Assess(c).doNow
    ensures Assess(c).rationale[0] == OverrideLine
  {
    var f := DeriveFlags(c);
    OneTierItem(Red, f);
    IncreaseReviewWhen(Red, f);
    ChecklistMembers(Red, f, DoNow);
    assert DecisionRecordItem == ItemOf(DecisionRecord);
    RationaleLinesSpec(true, GateMode(f), FlagLabels(f));
  }

  // Four worked examples. Each fixes an answer sheet and its codes, then
  // the outcome those codes give.

  const LowestRiskAnswers := Answers("A", "A", "A", "A", "A", "A", "A", "A", "A")
  const LowestRiskCodes := Codes(0, 0, 0, 0, 0, 0, 0, 2, 0)
  const SevereAnswers := Answers("C", "C", "C", "C", "A", "A", "C", "C", "C")
  const SevereCodes := Codes(2, 2, 2, 2, 0, 0, 2, 0, 2)
  const ThoroughAnswers := Answers("A", "C", "A", "A", "A", "A", "A", "A", "A")
  const ThoroughCodes := Codes(0, 2, 0, 0, 0, 0, 0, 2, 0)
  const ModerateAnswers := Answers("A", "B", "B", "B", "B", "B", "A", "B", "A")
  const ModerateCodes := Codes(0, 1, 1, 1, 1, 1, 0, 1, 0)

  /** The four example sheets are accepted, with these codes. */
  lemma ExampleSheetsEncode()
    ensures Encode(LowestRiskAnswers) == Ok(LowestRiskCodes)
    ensures Encode(SevereAnswers) == Ok(SevereCodes)
    ensures Encode(ThoroughAnswers) == Ok(ThoroughCodes)
    ensures Encode(ModerateAnswers) == Ok(ModerateCodes)
  {
    EncodeDecode(LowestRiskCodes);
    assert Decode(LowestRiskCodes) == LowestRiskAnswers;
    EncodeDecode(SevereCodes);
    assert Decode(SevereCodes) == SevereAnswers;
    EncodeDecode(ThoroughCodes);
    assert Decode(ThoroughCodes) == ThoroughAnswers;
    EncodeDecode(ModerateCodes);
    assert Decode(ModerateCodes) == ModerateAnswers;
  }

  const NoFlags := Flags(false, false, false, false, false, false, false, false, false)

  /** All answers A: R is 0, green, no flag, only traceability to do next
      and a sanity check to consider. */
  lemma AllLowestRisk()
    ensures RiskIndex(LowestRiskCodes) == 0 && FinalTier(LowestRiskCodes) == Green
    ensures DeriveFlags(LowestRiskCodes) == NoFlags && !GateMode(NoFlags) && FlagLabels(NoFlags) == []
    ensures Checklist(Green, NoFlags, DoNow) == []
    ensures Checklist(Green, NoFlags, DoNext) == [TraceabilityItem]
    ensures Checklist(Green, NoFlags, Consider) == [SanityCheckItem]
  {
    DoNowAsAppended(Green, NoFlags);
    DoNextAsAppended(Green, NoFlags);
    ConsiderAsAppended(Green, NoFlags);
  }

  const SevereFlags := Flags(true, true, true, true, true, true, false, false, true)

  /** Severe answers with minimal review: R is 10, red by threshold and by
      override, gate mode, and six flag labels in display order with the
      documentation gap last. */
  lemma SevereWithMinimalReview()
    ensures RiskIndex(SevereCodes) == 10 && TierFromInternal(10) == Red
    ensures OverrideRed(SevereCodes) && FinalTier(SevereCodes) == Red
    ensures DeriveFlags(SevereCodes) == SevereFlags && GateMode(SevereFlags)
    ensures FlagLabels(SevereFlags) ==
      [AuthorityLabel, WideDistributionLabel, PiiLabel, FormalDecisionLabel,
       HighConsequenceLabel, DocumentationGapLabel]
  {
  }

  /** High consequence alone under thorough review stays green: R is 2, and
      the override needs a direct formal decision and minimal review too. */
  lemma HighConsequenceThoroughReview()
    ensures RiskIndex(ThoroughCodes) == 2
    ensures !OverrideRed(ThoroughCodes) && FinalTier(ThoroughCodes) == Green
  {
    assert !OverrideRed(ThoroughCodes);
    OverrideDecidesTier(ThoroughCodes);
  }

  /** Moderate answers with basic review: R is 6, yellow. */
  lemma ModerateBasicReview()
    ensures RiskIndex(ModerateCodes) == 6 && FinalTier(ModerateCodes) == Yellow
  {
  }
}
