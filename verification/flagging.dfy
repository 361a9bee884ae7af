/** Diagnostic flags derived from the codes, the ordered list of their
    labels, and gate mode (a decision record is required). */
module Flagging {
  import opened Encoding
  import opened Sequences

  /** The nine boolean diagnostics. */
  datatype Flags = Flags(
    authority: bool,
    wideDistribution: bool,
    transparencyGap: bool,
    highConsequence: bool,
    formalDecision: bool,
    pii: bool,
    identity: bool,
    copyright: bool,
    weakReview: bool)

  /** Each flag tests one code: the most severe answer, except the
      documentation gap (Q9 anything but A) and weak review (Q8 strength 0). */
  function DeriveFlags(c: Codes): Flags
  {
    Flags(
      authority := c.q1 == 2,
      wideDistribution := c.q7 == 2,
      transparencyGap := c.q9 != 0,
      highConsequence := c.q2 == 2,
      formalDecision := c.q4 == 2,
      pii := c.q3 == 2,
      identity := c.q5 == 2,
      copyright := c.q6 == 2,
      weakReview := c.q8 == 0)
  }

  /** Gate mode: any of high consequence, formal decision, authority, wide
      distribution or personal data. */
  predicate GateMode(f: Flags)
  {
    f.highConsequence || f.formalDecision || f.authority || f.wideDistribution || f.pii
  }

  /** Gate mode holds exactly when one of Q1, Q2, Q3, Q4, Q7 has the most
      severe answer. */
  lemma GateModeIff(c: Codes)
    ensures GateMode(DeriveFlags(c)) <==> c.q2 == 2 || c.q4 == 2 || c.q1 == 2 || c.q7 == 2 || c.q3 == 2
  {
  }

  /** Q9 changes only the documentation-gap flag, so never gate mode. */
  lemma GateModeIgnoresQ9(c: Codes, x: Level)
    ensures DeriveFlags(c.(q9 := x)) == DeriveFlags(c).(transparencyGap := x != 0)
    ensures GateMode(DeriveFlags(c.(q9 := x))) == GateMode(DeriveFlags(c))
  {
  }

  /** Read on the answers, every flag but the documentation gap is answer C
      of its question; the gap is any answer to Q9 but A. Weak review is
      Q8 = C, minimal review. */
  lemma FlagsReadAnswers(c: Codes)
    ensures DeriveFlags(c).authority <==> Decode(c).q1 == "C"
    ensures DeriveFlags(c).highConsequence <==> Decode(c).q2 == "C"
    ensures DeriveFlags(c).pii <==> Decode(c).q3 == "C"
    ensures DeriveFlags(c).formalDecision <==> Decode(c).q4 == "C"
    ensures DeriveFlags(c).identity <==> Decode(c).q5 == "C"
    ensures DeriveFlags(c).copyright <==> Decode(c).q6 == "C"
    ensures DeriveFlags(c).wideDistribution <==> Decode(c).q7 == "C"
    ensures DeriveFlags(c).weakReview <==> Decode(c).q8 == "C"
    ensures DeriveFlags(c).transparencyGap <==> Decode(c).q9 != "A"
  {
  }

  /** The flags that carry a label (weak review carries none). */
  datatype FlagKind =
    | Authority | WideDistribution | Pii | FormalDecision
    | HighConsequence | Identity | Copyright | DocumentationGap

  /** The display order of the labels. */
  const LabelOrder: seq<FlagKind> :=
    [Authority, WideDistribution, Pii, FormalDecision, HighConsequence, Identity, Copyright, DocumentationGap]

  /** Place of a kind in the display order. */
  function Position(k: FlagKind): (p: nat)
    ensures p < |LabelOrder| && LabelOrder[p] == k
  {
    match k
    case Authority => 0
    case WideDistribution => 1
    case Pii => 2
    case FormalDecision => 3
    case HighConsequence => 4
    case Identity => 5
    case Copyright => 6
    case DocumentationGap => 7
  }

  predicate IsSet(f: Flags, k: FlagKind)
  {
    match k
    case Authority => f.authority
    case WideDistribution => f.wideDistribution
    case Pii => f.pii
    case FormalDecision => f.formalDecision
    case HighConsequence => f.highConsequence
    case Identity => f.identity
    case Copyright => f.copyright
    case DocumentationGap => f.transparencyGap
  }

  const AuthorityLabel := "Authority / official representation"
  const WideDistributionLabel := "Wide distribution / public-facing"
  const PiiLabel := "Identifiable personal data"
  const FormalDecisionLabel := "Formal status / evaluation impact"
  const HighConsequenceLabel := "High institutional consequence"
  const IdentityLabel := "Identity-related topic"
  const CopyrightLabel := "Copyright / licensed materials"
  const DocumentationGapLabel := "Documentation/disclosure not confirmed (Q9)"

  /** The label text of a flag. */
  function Label(k: FlagKind): string
  {
    match k
    case Authority => AuthorityLabel
    case WideDistribution => WideDistributionLabel
    case Pii => PiiLabel
    case FormalDecision => FormalDecisionLabel
    case HighConsequence => HighConsequenceLabel
    case Identity => IdentityLabel
    case Copyright => CopyrightLabel
    case DocumentationGap => DocumentationGapLabel
  }

  /** The kinds of `kinds` whose flag is set in `f`, in the order of `kinds`. */
  function SetKinds(f: Flags, kinds: seq<FlagKind>): seq<FlagKind>
  {
    if kinds == [] then []
    else
      var last := kinds[|kinds| - 1];
      SetKinds(f, kinds[..|kinds| - 1]) + When(IsSet(f, last), last)
  }

  /** Filtering one more kind of a prefix appends it when its flag is set. */
  lemma SetKindsStep(f: Flags, kinds: seq<FlagKind>, n: nat)
    requires 0 < n <= |kinds|
    ensures SetKinds(f, kinds[..n]) == SetKinds(f, kinds[..n - 1]) + When(IsSet(f, kinds[n - 1]), kinds[n - 1])
  {
    assert kinds[..n][..n - 1] == kinds[..n - 1];
  }

  /** A kind survives the filter exactly when it is listed and set. */
  lemma {:induction false} SetKindsMembers(f: Flags, kinds: seq<FlagKind>)
    ensures forall k :: k in SetKinds(f, kinds) <==> k in kinds && IsSet(f, k)
  {
    if kinds != [] {
      var init := kinds[..|kinds| - 1];
      SetKindsMembers(f, init);
      assert kinds == init + [kinds[|kinds| - 1]];
    }
  }

  /** Kinds listed in strictly increasing display position. */
  ghost predicate InDisplayOrder(kinds: seq<FlagKind>)
  {
    forall i, j :: 0 <= i < j < |kinds| ==> Position(kinds[i]) < Position(kinds[j])
  }

  /** Filtering keeps display order. */
  lemma {:induction false} SetKindsInOrder(f: Flags, kinds: seq<FlagKind>)
    requires InDisplayOrder(kinds)
    ensures InDisplayOrder(SetKinds(f, kinds))
  {
    if kinds != [] {
      var init := kinds[..|kinds| - 1];
      assert InDisplayOrder(init);
      SetKindsInOrder(f, init);
      SetKindsMembers(f, init);
      var r := SetKinds(f, kinds);
      var prefix := SetKinds(f, init);
      forall i, j | 0 <= i < j < |r|
        ensures Position(r[i]) < Position(r[j])
      {
        if j >= |prefix| {
          assert r[i] in init;
          var m :| 0 <= m < |init| && init[m] == r[i];
          assert kinds[m] == r[i];
        }
      }
    }
  }

  /** The kinds of the set flags, in display order. */
  function FlagKinds(f: Flags): seq<FlagKind>
  {
    SetKinds(f, LabelOrder)
  }

  /** The label texts of a sequence of kinds. */
  function Labels(kinds: seq<FlagKind>): (r: seq<string>)
    ensures |r| == |kinds|
  {
    seq(|kinds|, i requires 0 <= i < |kinds| => Label(kinds[i]))
  }

  lemma LabelsAppendWhen(kinds: seq<FlagKind>, b: bool, k: FlagKind)
    ensures Labels(kinds + When(b, k)) == Labels(kinds) + When(b, Label(k))
  {
    if b {
      assert Labels(kinds + [k]) == Labels(kinds) + [Label(k)];
    } else {
      assert kinds + [] == kinds;
    }
  }

  /** The flag labels as the rules append them: one conditional label per
      flag, the documentation gap last. */
  function FlagLabels(f: Flags): seq<string>
  {
    []
    + When(f.authority, AuthorityLabel)
    + When(f.wideDistribution, WideDistributionLabel)
    + When(f.pii, PiiLabel)
    + When(f.formalDecision, FormalDecisionLabel)
    + When(f.highConsequence, HighConsequenceLabel)
    + When(f.identity, IdentityLabel)
    + When(f.copyright, CopyrightLabel)
    + When(f.transparencyGap, DocumentationGapLabel)
  }

  // Chain-splitting steps. `LabelsUpTo(f, n)` is the label list after the
  // first `n` rules; the lemmas below take it a few rules at a time only so
  // that each proof stays small, and say nothing beyond `FlagLabelsOfKinds`.

  /** The labels of the set kinds among the first `n` of the display order. */
  function LabelsUpTo(f: Flags, n: nat): seq<string>
    requires n <= |LabelOrder|
  {
    Labels(SetKinds(f, LabelOrder[..n]))
  }

  lemma LabelsUpToStep(f: Flags, n: nat)
    requires 0 < n <= |LabelOrder|
    ensures LabelsUpTo(f, n) == LabelsUpTo(f, n - 1) + When(IsSet(f, LabelOrder[n - 1]), Label(LabelOrder[n - 1]))
  {
    SetKindsStep(f, LabelOrder, n);
    LabelsAppendWhen(SetKinds(f, LabelOrder[..n - 1]), IsSet(f, LabelOrder[n - 1]), LabelOrder[n - 1]);
  }

  /** The first rule appends the authority label when that flag is set. */
  lemma LabelsUpToOne(f: Flags)
    ensures LabelsUpTo(f, 1) == [] + When(f.authority, AuthorityLabel)
  {
    assert LabelOrder[..0] == [];
    assert Labels([]) == [];
    LabelsUpToStep(f, 1);
  }

  lemma LabelsUpToTwo(f: Flags)
    ensures LabelsUpTo(f, 2) == [] + When(f.authority, AuthorityLabel) + When(f.wideDistribution, WideDistributionLabel)
  {
    LabelsUpToOne(f);
    LabelsUpToStep(f, 2);
  }

  /** The first four rules append the labels of the set flags among the
      first four kinds. */
  lemma LabelsUpToFour(f: Flags)
    ensures LabelsUpTo(f, 4) == [] + When(f.authority, AuthorityLabel) + When(f.wideDistribution, WideDistributionLabel) + When(f.pii, PiiLabel) + When(f.formalDecision, FormalDecisionLabel)
  {
    LabelsUpToTwo(f);
    LabelsUpToStep(f, 3);
    LabelsUpToStep(f, 4);
  }

  lemma LabelsUpToSix(f: Flags)
    ensures LabelsUpTo(f, 6) == [] + When(f.authority, AuthorityLabel) + When(f.wideDistribution, WideDistributionLabel) + When(f.pii, PiiLabel) + When(f.formalDecision, FormalDecisionLabel)
      + When(f.highConsequence, HighConsequenceLabel) + When(f.identity, IdentityLabel)
  {
    LabelsUpToFour(f);
    LabelsUpToStep(f, 5);
    LabelsUpToStep(f, 6);
  }

  /** The rules append the labels of exactly the set flags, in display order. */
  lemma FlagLabelsOfKinds(f: Flags)
    ensures FlagLabels(f) == Labels(FlagKinds(f))
  {
    LabelsUpToSix(f);
    LabelsUpToStep(f, 7);
    LabelsUpToStep(f, 8);
    assert LabelOrder[..8] == LabelOrder;
  }

  /** No two flags share a label text. */
  lemma LabelInjective(k1: FlagKind, k2: FlagKind)
    requires Label(k1) == Label(k2)
    ensures k1 == k2
  {
  }

  /** The display order lists every kind once, in increasing position. */
  lemma LabelOrderInDisplayOrder()
    ensures InDisplayOrder(LabelOrder)
    ensures forall k :: k in LabelOrder
  {
    forall k ensures k in LabelOrder {
      assert LabelOrder[Position(k)] == k;
    }
    forall i | 0 <= i < |LabelOrder| ensures Position(LabelOrder[i]) == i {
      assert LabelOrder[Position(LabelOrder[i])] == LabelOrder[i];
    }
  }

  /** The set kinds are exactly the kinds whose flag is set, in display
      order, with the documentation gap last when it is set. */
  lemma FlagKindsSpec(f: Flags)
    ensures forall k :: k in FlagKinds(f) <==> IsSet(f, k)
    ensures InDisplayOrder(FlagKinds(f))
    ensures f.transparencyGap ==> FlagKinds(f)[|FlagKinds(f)| - 1] == DocumentationGap
  {
    LabelOrderInDisplayOrder();
    SetKindsMembers(f, LabelOrder);
    SetKindsInOrder(f, LabelOrder);
    if f.transparencyGap {
      SetKindsStep(f, LabelOrder, 8);
      assert LabelOrder[..8] == LabelOrder;
    }
  }

  /** A label occurs in the labels of `kinds` exactly when its kind does. */
  lemma LabelsMembers(kinds: seq<FlagKind>)
    ensures forall k :: Label(k) in Labels(kinds) <==> k in kinds
  {
    forall k
      ensures Label(k) in Labels(kinds) <==> k in kinds
    {
      if Label(k) in Labels(kinds) {
        var i :| 0 <= i < |kinds| && Labels(kinds)[i] == Label(k);
        LabelInjective(kinds[i], k);
      }
      if k in kinds {
        var i :| 0 <= i < |kinds| && kinds[i] == k;
        assert Labels(kinds)[i] == Label(k);
      }
    }
  }

  /** The label list holds the label of each set flag and no other, one
      label per set kind in display order, and the documentation-gap label
      comes last. */
  lemma FlagLabelsSpec(f: Flags)
    ensures forall k :: Label(k) in FlagLabels(f) <==> IsSet(f, k)
    ensures |FlagLabels(f)| == |FlagKinds(f)|
    ensures forall i :: 0 <= i < |FlagLabels(f)| ==> FlagLabels(f)[i] == Label(FlagKinds(f)[i])
    ensures f.transparencyGap ==> FlagLabels(f)[|FlagLabels(f)| - 1] == DocumentationGapLabel
  {
    FlagLabelsOfKinds(f);
    FlagKindsSpec(f);
    LabelsMembers(FlagKinds(f));
  }

  /** Every flag of gate mode carries a label, so gate mode never comes
      without a flag label. */
  lemma GateModeHasLabel(f: Flags)
    requires GateMode(f)
    ensures FlagLabels(f) != []
  {
    FlagLabelsSpec(f);
    if f.authority {
      assert Label(Authority) in FlagLabels(f);
    } else if f.wideDistribution {
      assert Label(WideDistribution) in FlagLabels(f);
    } else if f.pii {
      assert Label(Pii) in FlagLabels(f);
    } else if f.formalDecision {
      assert Label(FormalDecision) in FlagLabels(f);
    } else {
      assert Label(HighConsequence) in FlagLabels(f);
    }
  }

  /** Builds the label list by one conditional append per flag. */
  method BuildFlagLabels(f: Flags) returns (labels: seq<string>)
    ensures labels == FlagLabels(f)
  {
    labels := [];
    ghost var prev0 := labels;
    if f.authority {
      labels := labels + [AuthorityLabel];
    }
    AppendedWhen(prev0, f.authority, AuthorityLabel, labels);
    ghost var prev1 := labels;
    if f.wideDistribution {
      labels := labels + [WideDistributionLabel];
    }
    AppendedWhen(prev1, f.wideDistribution, WideDistributionLabel, labels);
    ghost var prev2 := labels;
    if f.pii {
      labels := labels + [PiiLabel];
    }
    AppendedWhen(prev2, f.pii, PiiLabel, labels);
    ghost var prev3 := labels;
    if f.formalDecision {
      labels := labels + [FormalDecisionLabel];
    }
    AppendedWhen(prev3, f.formalDecision, FormalDecisionLabel, labels);
    ghost var prev4 := labels;
    if f.highConsequence {
      labels := labels + [HighConsequenceLabel];
    }
    AppendedWhen(prev4, f.highConsequence, HighConsequenceLabel, labels);
    ghost var prev5 := labels;
    if f.identity {
      labels := labels + [IdentityLabel];
    }
    AppendedWhen(prev5, f.identity, IdentityLabel, labels);
    ghost var prev6 := labels;
    if f.copyright {
      labels := labels + [CopyrightLabel];
    }
    AppendedWhen(prev6, f.copyright, CopyrightLabel, labels);
    ghost var prev7 := labels;
    if f.transparencyGap {
      labels := labels + [DocumentationGapLabel];
    }
    AppendedWhen(prev7, f.transparencyGap, DocumentationGapLabel, labels);
  }
}
