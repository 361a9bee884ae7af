/** The action checklist: rules that append (title, detail) items to three
    lists — do now, do next, consider — from the tier and the flags, after
    which each list drops repeated titles. */
module Recommendations {
  import opened Sequences
  import opened Tiering
  import opened Flagging
  import opened Dedup

  /** The checklist rules, one per item they can append. */
  datatype Action =
    | Traceability | HumanReview | SubstantiveReview | SanityCheck
    | DecisionRecord | DocumentationBaseline | DocumentAiUse
    | PrivacyProtection | BiasCheck | CopyrightCheck | IncreaseReview

  /** The three lists of the checklist. */
  datatype Bucket = DoNow | DoNext | Consider

  /** Rank of a rule in the order the rules are applied. */
  function RuleRank(a: Action): int
  {
    match a
    case Traceability => 0
    case HumanReview => 1
    case SubstantiveReview => 2
    case SanityCheck => 3
    case DecisionRecord => 4
    case DocumentationBaseline => 5
    case DocumentAiUse => 6
    case PrivacyProtection => 7
    case BiasCheck => 8
    case CopyrightCheck => 9
    case IncreaseReview => 10
  }

  /** The list each rule appends to. */
  function BucketOf(a: Action): Bucket
  {
    match a
    case HumanReview | DecisionRecord | DocumentationBaseline
       | PrivacyProtection | CopyrightCheck | IncreaseReview => DoNow
    case Traceability | SubstantiveReview | DocumentAiUse | BiasCheck => DoNext
    case SanityCheck => Consider
  }

  /** The flags under which a documentation gap calls for a documentation
      baseline rather than a suggestion; personal data is not among them. */
  predicate DocumentationDriver(f: Flags)
  {
    f.highConsequence || f.formalDecision || f.authority || f.wideDistribution
  }

  /** The condition under which each rule appends its item. */
  predicate Fires(a: Action, t: Tier, f: Flags)
  {
    match a
    case Traceability => true
    case HumanReview => t == Red
    case SubstantiveReview => t == Yellow
    case SanityCheck => t == Green
    case DecisionRecord => GateMode(f)
    case DocumentationBaseline => DocumentationDriver(f) && f.transparencyGap
    case DocumentAiUse => f.transparencyGap && !DocumentationDriver(f)
    case PrivacyProtection => f.pii
    case BiasCheck => f.identity
    case CopyrightCheck => f.copyright
    case IncreaseReview => f.weakReview && (t == Yellow || t == Red)
  }

  /** The rules that can append to list `b`, in the order they are applied. */
  function RulesOf(b: Bucket): seq<Action>
  {
    match b
    case DoNow => [HumanReview, DecisionRecord, DocumentationBaseline, PrivacyProtection, CopyrightCheck, IncreaseReview]
    case DoNext => [Traceability, SubstantiveReview, DocumentAiUse, BiasCheck]
    case Consider => [SanityCheck]
  }

  /** Each rule is listed for its own list and no other, and every list
      follows the order in which the rules are applied. */
  lemma RulesOfBucket(b: Bucket)
    ensures forall a :: a in RulesOf(b) <==> BucketOf(a) == b
    ensures InRuleOrder(RulesOf(b))
  {
    forall a | BucketOf(a) == b
      ensures a in RulesOf(b)
    {
      match a
      case HumanReview => assert RulesOf(b)[0] == a;
      case DecisionRecord => assert RulesOf(b)[1] == a;
      case DocumentationBaseline => assert RulesOf(b)[2] == a;
      case PrivacyProtection => assert RulesOf(b)[3] == a;
      case CopyrightCheck => assert RulesOf(b)[4] == a;
      case IncreaseReview => assert RulesOf(b)[5] == a;
      case Traceability => assert RulesOf(b)[0] == a;
      case SubstantiveReview => assert RulesOf(b)[1] == a;
      case DocumentAiUse => assert RulesOf(b)[2] == a;
      case BiasCheck => assert RulesOf(b)[3] == a;
      case SanityCheck => assert RulesOf(b)[0] == a;
    }
  }

  /** The rules of `rules` that fire, in the order of `rules`. */
  function Fired(t: Tier, f: Flags, rules: seq<Action>): seq<Action>
  {
    if rules == [] then []
    else
      var last := rules[|rules| - 1];
      Fired(t, f, rules[..|rules| - 1]) + When(Fires(last, t, f), last)
  }

  /** Applying one more rule of a prefix appends it when it fires. */
  lemma FiredStep(t: Tier, f: Flags, rules: seq<Action>, n: nat)
    requires 0 < n <= |rules|
    ensures Fired(t, f, rules[..n]) == Fired(t, f, rules[..n - 1]) + When(Fires(rules[n - 1], t, f), rules[n - 1])
  {
    assert rules[..n][..n - 1] == rules[..n - 1];
  }

  /** A rule is kept exactly when it is listed and fires. */
  lemma {:induction false} FiredMembers(t: Tier, f: Flags, rules: seq<Action>)
    ensures forall a :: a in Fired(t, f, rules) <==> a in rules && Fires(a, t, f)
  {
    if rules != [] {
      var init := rules[..|rules| - 1];
      FiredMembers(t, f, init);
      assert rules == init + [rules[|rules| - 1]];
    }
  }

  /** Rules listed in strictly increasing order of application. */
  ghost predicate InRuleOrder(rules: seq<Action>)
  {
    forall i, j :: 0 <= i < j < |rules| ==> RuleRank(rules[i]) < RuleRank(rules[j])
  }

  /** Keeping the rules that fire keeps their order. */
  lemma {:induction false} FiredInOrder(t: Tier, f: Flags, rules: seq<Action>)
    requires InRuleOrder(rules)
    ensures InRuleOrder(Fired(t, f, rules))
  {
    if rules != [] {
      var init := rules[..|rules| - 1];
      assert InRuleOrder(init);
      FiredInOrder(t, f, init);
      FiredMembers(t, f, init);
      var r := Fired(t, f, rules);
      var prefix := Fired(t, f, init);
      forall i, j | 0 <= i < j < |r|
        ensures RuleRank(r[i]) < RuleRank(r[j])
      {
        if j >= |prefix| {
          assert r[i] in init;
          var m :| 0 <= m < |init| && init[m] == r[i];
          assert rules[m] == r[i];
        }
      }
    }
  }

  /** The rules that put an item on list `b`, in the order they are applied. */
  function Actions(t: Tier, f: Flags, b: Bucket): seq<Action>
  {
    Fired(t, f, RulesOf(b))
  }

  const TraceabilityItem := Item("Keep traceability artifacts",
    "Save key AI inputs/outputs (prompts, drafts) for later review.")
  const HumanReviewItem := Item("Human review required",
    "Mandatory human review with a named reviewer before use.")
  const SubstantiveReviewItem := Item("Substantive review",
    "Do fact-checking and edits before use.")
  const SanityCheckItem := Item("Quick sanity check",
    "Brief read-through for obvious issues before sharing.")
  const DecisionRecordItem := Item("Decision record",
    "Document purpose, audience, what AI did, what was changed, date/version.")
  const DocumentationBaselineItem := Item("Documentation baseline",
    "At minimum: document AI use internally; for public-facing/official, add disclosure where appropriate.")
  const DocumentAiUseItem := Item("Document AI use",
    "Consider internal documentation even if you do not publicly disclose.")
  const PrivacyProtectionItem := Item("Privacy protection",
    "Minimize/anonymize identifiers; avoid sensitive data; follow institutional privacy policy.")
  const BiasCheckItem := Item("Bias check",
    "Scan for stereotyping; consider equity-focused review for identity-related content.")
  const CopyrightCheckItem := Item("Copyright check",
    "Confirm rights; use short excerpts or licensed/public-domain sources.")
  const IncreaseReviewItem := Item("Increase review level",
    "Current review level is insufficient\U{2014}upgrade review before deployment.")

  /** The item a rule appends. */
  function ItemOf(a: Action): Item
  {
    match a
    case Traceability => TraceabilityItem
    case HumanReview => HumanReviewItem
    case SubstantiveReview => SubstantiveReviewItem
    case SanityCheck => SanityCheckItem
    case DecisionRecord => DecisionRecordItem
    case DocumentationBaseline => DocumentationBaselineItem
    case DocumentAiUse => DocumentAiUseItem
    case PrivacyProtection => PrivacyProtectionItem
    case BiasCheck => BiasCheckItem
    case CopyrightCheck => CopyrightCheckItem
    case IncreaseReview => IncreaseReviewItem
  }

  /** No two rules share a title. */
  lemma TitleInjective(a1: Action, a2: Action)
    requires ItemOf(a1).title == ItemOf(a2).title
    ensures a1 == a2
  {
  }

  /** The items of a sequence of rules. */
  function Items(acts: seq<Action>): (r: seq<Item>)
    ensures |r| == |acts|
  {
    seq(|acts|, i requires 0 <= i < |acts| => ItemOf(acts[i]))
  }

  lemma ItemsAppendWhen(acts: seq<Action>, b: bool, a: Action)
    ensures Items(acts + When(b, a)) == Items(acts) + When(b, ItemOf(a))
  {
    if b {
      assert Items(acts + [a]) == Items(acts) + [ItemOf(a)];
    } else {
      assert acts + [] == acts;
    }
  }

  /** The checklist list `b` for tier `t` and flags `f`: the items of the
      rules that fire for it, in the order the rules are applied. */
  function Checklist(t: Tier, f: Flags, b: Bucket): seq<Item>
  {
    Items(Actions(t, f, b))
  }

  /** An item is on list `b` exactly when its rule belongs to `b` and fires. */
  lemma ChecklistMembers(t: Tier, f: Flags, b: Bucket)
    ensures forall a :: ItemOf(a) in Checklist(t, f, b) <==> BucketOf(a) == b && Fires(a, t, f)
  {
    var acts := Actions(t, f, b);
    FiredMembers(t, f, RulesOf(b));
    RulesOfBucket(b);
    forall a
      ensures ItemOf(a) in Checklist(t, f, b) <==> BucketOf(a) == b && Fires(a, t, f)
    {
      if ItemOf(a) in Checklist(t, f, b) {
        var i :| 0 <= i < |acts| && Items(acts)[i] == ItemOf(a);
        TitleInjective(acts[i], a);
        assert acts[i] in acts;
      }
      if BucketOf(a) == b && Fires(a, t, f) {
        assert a in acts;
        var i :| 0 <= i < |acts| && acts[i] == a;
        assert Items(acts)[i] == ItemOf(a);
      }
    }
  }

  /** Each list follows the order in which the rules are applied, and no
      title occurs twice in it. */
  lemma ChecklistOrdered(t: Tier, f: Flags, b: Bucket)
    ensures InRuleOrder(Actions(t, f, b))
    ensures DistinctTitles(Checklist(t, f, b))
  {
    RulesOfBucket(b);
    FiredInOrder(t, f, RulesOf(b));
    var acts := Actions(t, f, b);
    forall i, j | 0 <= i < j < |acts|
      ensures Checklist(t, f, b)[i].title != Checklist(t, f, b)[j].title
    {
      if ItemOf(acts[i]).title == ItemOf(acts[j]).title {
        TitleInjective(acts[i], acts[j]);
      }
    }
  }

  /** Dropping repeated titles leaves every list as the rules built it. */
  lemma ChecklistDedupeNoOp(t: Tier, f: Flags, b: Bucket)
    ensures FirstOccurrences(Checklist(t, f, b)) == Checklist(t, f, b)
  {
    ChecklistOrdered(t, f, b);
    FirstOccurrencesOfDistinct(Checklist(t, f, b));
  }

  /** The traceability item always opens the do-next list. */
  lemma TraceabilityFirst(t: Tier, f: Flags)
    ensures |Checklist(t, f, DoNext)| > 0 && Checklist(t, f, DoNext)[0] == TraceabilityItem
  {
    NextActionsAsAppended(t, f);
    assert Actions(t, f, DoNext)[0] == Traceability;
  }

  /** Exactly one tier item is given: human review (do now) for red,
      substantive review (do next) for yellow, a sanity check (consider)
      for green; the consider list holds nothing else. */
  lemma OneTierItem(t: Tier, f: Flags)
    ensures HumanReviewItem in Checklist(t, f, DoNow) <==> t == Red
    ensures SubstantiveReviewItem in Checklist(t, f, DoNext) <==> t == Yellow
    ensures SanityCheckItem in Checklist(t, f, Consider) <==> t == Green
    ensures forall it :: it in Checklist(t, f, Consider) ==> it == SanityCheckItem
  {
    ChecklistMembers(t, f, DoNow);
    ChecklistMembers(t, f, DoNext);
    ChecklistMembers(t, f, Consider);
    assert HumanReviewItem == ItemOf(HumanReview);
    assert SubstantiveReviewItem == ItemOf(SubstantiveReview);
    assert SanityCheckItem == ItemOf(SanityCheck);
    forall it | it in Checklist(t, f, Consider)
      ensures it == SanityCheckItem
    {
      var acts := Actions(t, f, Consider);
      var i :| 0 <= i < |acts| && Items(acts)[i] == it;
      FiredMembers(t, f, RulesOf(Consider));
      assert acts[i] in acts;
    }
  }

  /** A documentation gap always produces exactly one documentation item:
      a baseline to do now when a documentation driver is set, otherwise a
      suggestion to do next; without a gap there is neither, and the two
      never appear together. */
  lemma DocumentationItems(t: Tier, f: Flags)
    ensures DocumentationBaselineItem in Checklist(t, f, DoNow) <==> DocumentationDriver(f) && f.transparencyGap
    ensures DocumentAiUseItem in Checklist(t, f, DoNext) <==> f.transparencyGap && !DocumentationDriver(f)
    ensures !(DocumentationBaselineItem in Checklist(t, f, DoNow) && DocumentAiUseItem in Checklist(t, f, DoNext))
  {
    ChecklistMembers(t, f, DoNow);
    ChecklistMembers(t, f, DoNext);
    assert DocumentationBaselineItem == ItemOf(DocumentationBaseline);
    assert DocumentAiUseItem == ItemOf(DocumentAiUse);
  }

  /** Review must be raised exactly when it is minimal and the tier is not green. */
  lemma IncreaseReviewWhen(t: Tier, f: Flags)
    ensures IncreaseReviewItem in Checklist(t, f, DoNow) <==> f.weakReview && t != Green
  {
    ChecklistMembers(t, f, DoNow);
    assert IncreaseReviewItem == ItemOf(IncreaseReview);
  }

  /** Personal data asks both for privacy protection and, through gate mode,
      for a decision record. */
  lemma PrivacyNeedsDecisionRecord(t: Tier, f: Flags)
    requires f.pii
    ensures PrivacyProtectionItem in Checklist(t, f, DoNow)
    ensures DecisionRecordItem in Checklist(t, f, DoNow)
  {
    ChecklistMembers(t, f, DoNow);
    assert PrivacyProtectionItem == ItemOf(PrivacyProtection);
    assert DecisionRecordItem == ItemOf(DecisionRecord);
  }

  /** The documentation gap steers only the two documentation items: every
      other item is on a list for one value of the gap flag exactly when it
      is for the other. */
  lemma GapSteersOnlyDocumentation(t: Tier, f: Flags, gap: bool, b: Bucket, a: Action)
    requires a != DocumentationBaseline && a != DocumentAiUse
    ensures ItemOf(a) in Checklist(t, f.(transparencyGap := gap), b) <==> ItemOf(a) in Checklist(t, f, b)
  {
    ChecklistMembers(t, f, b);
    ChecklistMembers(t, f.(transparencyGap := gap), b);
  }

  // Chain-splitting steps. The lemmas and functions from here to the
  // methods restate each list as the append chain the rules produce (first
  // as rules, then as items), a few rules at a time, only so that every proof
  // stays small; they add nothing beyond `ChecklistMembers` and
  // `ChecklistOrdered`, and connect the methods below to `Checklist`.

  lemma FiredNone(t: Tier, f: Flags, b: Bucket)
    ensures Fired(t, f, RulesOf(b)[..0]) == []
  {
    assert RulesOf(b)[..0] == [];
  }

  lemma NowActionsUpToThree(t: Tier, f: Flags)
    ensures Fired(t, f, RulesOf(DoNow)[..3]) ==
      []
      + When(t == Red, HumanReview)
      + When(GateMode(f), DecisionRecord)
      + When(DocumentationDriver(f) && f.transparencyGap, DocumentationBaseline)
  {
    FiredNone(t, f, DoNow);
    FiredStep(t, f, RulesOf(DoNow), 1);
    FiredStep(t, f, RulesOf(DoNow), 2);
    FiredStep(t, f, RulesOf(DoNow), 3);
  }

  lemma NowActionsUpToFive(t: Tier, f: Flags)
    ensures Fired(t, f, RulesOf(DoNow)[..5]) ==
      []
      + When(t == Red, HumanReview)
      + When(GateMode(f), DecisionRecord)
      + When(DocumentationDriver(f) && f.transparencyGap, DocumentationBaseline)
      + When(f.pii, PrivacyProtection)
      + When(f.copyright, CopyrightCheck)
  {
    NowActionsUpToThree(t, f);
    FiredStep(t, f, RulesOf(DoNow), 4);
    FiredStep(t, f, RulesOf(DoNow), 5);
  }

  /** The do-now rules, one conditional rule at a time, starting empty. */
  lemma NowActionsAsAppended(t: Tier, f: Flags)
    ensures Actions(t, f, DoNow) ==
      []
      + When(t == Red, HumanReview)
      + When(GateMode(f), DecisionRecord)
      + When(DocumentationDriver(f) && f.transparencyGap, DocumentationBaseline)
      + When(f.pii, PrivacyProtection)
      + When(f.copyright, CopyrightCheck)
      + When(f.weakReview && (t == Yellow || t == Red), IncreaseReview)
  {
    NowActionsUpToFive(t, f);
    FiredStep(t, f, RulesOf(DoNow), 6);
    assert RulesOf(DoNow)[..6] == RulesOf(DoNow);
  }

  /** The do-next rules, one conditional rule at a time, starting empty. */
  lemma NextActionsAsAppended(t: Tier, f: Flags)
    ensures Actions(t, f, DoNext) ==
      []
      + When(true, Traceability)
      + When(t == Yellow, SubstantiveReview)
      + When(f.transparencyGap && !DocumentationDriver(f), DocumentAiUse)
      + When(f.identity, BiasCheck)
  {
    FiredNone(t, f, DoNext);
    FiredStep(t, f, RulesOf(DoNext), 1);
    FiredStep(t, f, RulesOf(DoNext), 2);
    FiredStep(t, f, RulesOf(DoNext), 3);
    FiredStep(t, f, RulesOf(DoNext), 4);
    assert RulesOf(DoNext)[..4] == RulesOf(DoNext);
  }

  /** The consider rules: the sanity check alone. */
  lemma ConsiderActionsAsAppended(t: Tier, f: Flags)
    ensures Actions(t, f, Consider) == [] + When(t == Green, SanityCheck)
  {
    FiredNone(t, f, Consider);
    FiredStep(t, f, RulesOf(Consider), 1);
    assert RulesOf(Consider)[..1] == RulesOf(Consider);
  }

  /** The do-now list as the rules append it, starting empty. */
  function AppendedDoNow(t: Tier, f: Flags): seq<Item>
  {
    []
    + When(t == Red, HumanReviewItem)
    + When(GateMode(f), DecisionRecordItem)
    + When(DocumentationDriver(f) && f.transparencyGap, DocumentationBaselineItem)
    + When(f.pii, PrivacyProtectionItem)
    + When(f.copyright, CopyrightCheckItem)
    + When(f.weakReview && (t == Yellow || t == Red), IncreaseReviewItem)
  }

  /** The do-next list as the rules append it, starting empty. */
  function AppendedDoNext(t: Tier, f: Flags): seq<Item>
  {
    []
    + When(true, TraceabilityItem)
    + When(t == Yellow, SubstantiveReviewItem)
    + When(f.transparencyGap && !DocumentationDriver(f), DocumentAiUseItem)
    + When(f.identity, BiasCheckItem)
  }

  /** The items of the first three do-now rules, as appended. */
  lemma DoNowItemsUpToThree(t: Tier, f: Flags)
    ensures Items([] + When(t == Red, HumanReview) + When(GateMode(f), DecisionRecord)
                  + When(DocumentationDriver(f) && f.transparencyGap, DocumentationBaseline))
         == [] + When(t == Red, HumanReviewItem) + When(GateMode(f), DecisionRecordItem)
                  + When(DocumentationDriver(f) && f.transparencyGap, DocumentationBaselineItem)
  {
    var c0: seq<Action> := [];
    var c1 := c0 + When(t == Red, HumanReview);
    var c2 := c1 + When(GateMode(f), DecisionRecord);
    assert Items(c0) == [];
    ItemsAppendWhen(c0, t == Red, HumanReview);
    ItemsAppendWhen(c1, GateMode(f), DecisionRecord);
    ItemsAppendWhen(c2, DocumentationDriver(f) && f.transparencyGap, DocumentationBaseline);
  }

  /** The items of the first five do-now rules, as appended. */
  lemma DoNowItemsUpToFive(t: Tier, f: Flags)
    ensures Items([] + When(t == Red, HumanReview) + When(GateMode(f), DecisionRecord)
                  + When(DocumentationDriver(f) && f.transparencyGap, DocumentationBaseline)
                  + When(f.pii, PrivacyProtection) + When(f.copyright, CopyrightCheck))
         == [] + When(t == Red, HumanReviewItem) + When(GateMode(f), DecisionRecordItem)
                  + When(DocumentationDriver(f) && f.transparencyGap, DocumentationBaselineItem)
                  + When(f.pii, PrivacyProtectionItem) + When(f.copyright, CopyrightCheckItem)
  {
    DoNowItemsUpToThree(t, f);
    var c3 := [] + When(t == Red, HumanReview) + When(GateMode(f), DecisionRecord)
      + When(DocumentationDriver(f) && f.transparencyGap, DocumentationBaseline);
    var c4 := c3 + When(f.pii, PrivacyProtection);
    ItemsAppendWhen(c3, f.pii, PrivacyProtection);
    ItemsAppendWhen(c4, f.copyright, CopyrightCheck);
  }

  lemma DoNowAsAppended(t: Tier, f: Flags)
    ensures AppendedDoNow(t, f) == Checklist(t, f, DoNow)
  {
    NowActionsAsAppended(t, f);
    DoNowItemsUpToFive(t, f);
    var c5 := [] + When(t == Red, HumanReview) + When(GateMode(f), DecisionRecord)
      + When(DocumentationDriver(f) && f.transparencyGap, DocumentationBaseline)
      + When(f.pii, PrivacyProtection) + When(f.copyright, CopyrightCheck);
    ItemsAppendWhen(c5, f.weakReview && (t == Yellow || t == Red), IncreaseReview);
  }

  lemma DoNextAsAppended(t: Tier, f: Flags)
    ensures AppendedDoNext(t, f) == Checklist(t, f, DoNext)
  {
    NextActionsAsAppended(t, f);
    var c0: seq<Action> := [];
    var c1 := c0 + When(true, Traceability);
    var c2 := c1 + When(t == Yellow, SubstantiveReview);
    var c3 := c2 + When(f.transparencyGap && !DocumentationDriver(f), DocumentAiUse);
    assert Items(c0) == [];
    ItemsAppendWhen(c0, true, Traceability);
    ItemsAppendWhen(c1, t == Yellow, SubstantiveReview);
    ItemsAppendWhen(c2, f.transparencyGap && !DocumentationDriver(f), DocumentAiUse);
    ItemsAppendWhen(c3, f.identity, BiasCheck);
  }

  lemma ConsiderAsAppended(t: Tier, f: Flags)
    ensures [] + When(t == Green, SanityCheckItem) == Checklist(t, f, Consider)
  {
    ConsiderActionsAsAppended(t, f);
    var c0: seq<Action> := [];
    assert Items(c0) == [];
    ItemsAppendWhen(c0, t == Green, SanityCheck);
  }

  /** The tier-driven rule: one review item, on the list the tier selects. */
  method AddTierItem(t: Tier, doNow: seq<Item>, doNext: seq<Item>, consider: seq<Item>)
    returns (doNow': seq<Item>, doNext': seq<Item>, consider': seq<Item>)
    ensures doNow' == doNow + When(t == Red, HumanReviewItem)
    ensures doNext' == doNext + When(t == Yellow, SubstantiveReviewItem)
    ensures consider' == consider + When(t == Green, SanityCheckItem)
  {
    doNow', doNext', consider' := doNow, doNext, consider;
    if t == Red {
      doNow' := doNow' + [HumanReviewItem];
    } else if t == Yellow {
      doNext' := doNext' + [SubstantiveReviewItem];
    } else {
      consider' := consider' + [SanityCheckItem];
    }
  }

  /** The gate-mode rule and the documentation rules, the one lever of Q9:
      a baseline to do now when a documentation driver is set, otherwise a
      suggestion to do next. */
  method AddRecordItems(f: Flags, doNow: seq<Item>, doNext: seq<Item>) returns (doNow': seq<Item>, doNext': seq<Item>)
    ensures doNow' == doNow + When(GateMode(f), DecisionRecordItem)
      + When(DocumentationDriver(f) && f.transparencyGap, DocumentationBaselineItem)
    ensures doNext' == doNext + When(f.transparencyGap && !DocumentationDriver(f), DocumentAiUseItem)
  {
    doNow', doNext' := doNow, doNext;
    if GateMode(f) {
      doNow' := doNow' + [DecisionRecordItem];
    }
    AppendedWhen(doNow, GateMode(f), DecisionRecordItem, doNow');
    ghost var now1 := doNow';
    if DocumentationDriver(f) && f.transparencyGap {
      doNow' := doNow' + [DocumentationBaselineItem];
    } else if f.transparencyGap {
      doNext' := doNext' + [DocumentAiUseItem];
    }
    AppendedWhen(now1, DocumentationDriver(f) && f.transparencyGap, DocumentationBaselineItem, doNow');
  }

  /** The topic-specific rules. */
  method AddTopicItems(t: Tier, f: Flags, doNow: seq<Item>, doNext: seq<Item>) returns (doNow': seq<Item>, doNext': seq<Item>)
    ensures doNow' == doNow + When(f.pii, PrivacyProtectionItem) + When(f.copyright, CopyrightCheckItem)
      + When(f.weakReview && (t == Yellow || t == Red), IncreaseReviewItem)
    ensures doNext' == doNext + When(f.identity, BiasCheckItem)
  {
    doNow', doNext' := doNow, doNext;
    if f.pii {
      doNow' := doNow' + [PrivacyProtectionItem];
    }
    AppendedWhen(doNow, f.pii, PrivacyProtectionItem, doNow');
    if f.identity {
      doNext' := doNext' + [BiasCheckItem];
    }
    ghost var now1 := doNow';
    if f.copyright {
      doNow' := doNow' + [CopyrightCheckItem];
    }
    AppendedWhen(now1, f.copyright, CopyrightCheckItem, doNow');
    ghost var now2 := doNow';
    if f.weakReview && (t == Yellow || t == Red) {
      doNow' := doNow' + [IncreaseReviewItem];
    }
    AppendedWhen(now2, f.weakReview && (t == Yellow || t == Red), IncreaseReviewItem, doNow');
  }

  /** Applies the rules in order to three empty lists. */
  method ApplyRules(t: Tier, f: Flags) returns (doNow: seq<Item>, doNext: seq<Item>, consider: seq<Item>)
    ensures doNow == AppendedDoNow(t, f)
    ensures doNext == AppendedDoNext(t, f)
    ensures consider == [] + When(t == Green, SanityCheckItem)
  {
    doNow, doNext, consider := [], [], [];
    doNext := doNext + [TraceabilityItem];
    AppendedWhen([], true, TraceabilityItem, doNext);
    doNow, doNext, consider := AddTierItem(t, doNow, doNext, consider);
    doNow, doNext := AddRecordItems(f, doNow, doNext);
    doNow, doNext := AddTopicItems(t, f, doNow, doNext);
  }

  /** The checklist: the rules applied in order, then repeated titles
      dropped from each list. */
  method BuildChecklist(t: Tier, f: Flags) returns (doNow: seq<Item>, doNext: seq<Item>, consider: seq<Item>)
    ensures doNow == Checklist(t, f, DoNow)
    ensures doNext == Checklist(t, f, DoNext)
    ensures consider == Checklist(t, f, Consider)
  {
    doNow, doNext, consider := ApplyRules(t, f);
    DoNowAsAppended(t, f);
    DoNextAsAppended(t, f);
    ConsiderAsAppended(t, f);
    ChecklistDedupeNoOp(t, f, DoNow);
    ChecklistDedupeNoOp(t, f, DoNext);
    ChecklistDedupeNoOp(t, f, Consider);
    doNow := Dedupe(doNow);
    doNext := Dedupe(doNext);
    consider := Dedupe(consider);
  }
}
