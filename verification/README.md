# Responsible AI use checkpoint — verified model of the engine

The checkpoint asks nine multiple-choice questions (answers A, B or C) about a
planned use of generative AI. It then answers with a governance outcome and
never shows a numeric score. This project models, in Dafny, the engine behind
that outcome. The engine has six parts:

- **Ordinal codes.** Every answer except Q8 is coded by severity: A, B and C
  become 0, 1 and 2. Q8, the level of human review, is coded by review
  strength: A (thorough), B (basic) and C (minimal) become 2, 1 and 0.
- **The hidden risk index.** R is `2·(Q2+Q4) + (Q3+Q5+Q6) − Q8`, floored at
  zero. Q1, Q7 and Q9 carry no weight.
- **The tier.** R ≤ 4 gives green, R ≤ 8 gives yellow, and anything higher
  gives red.
- **The override.** The tier is forced to red when Q2 and Q4 are most severe
  and review is minimal.
- **Flags.**
  - nine boolean flags;
  - an ordered list of labels for the flags that are set, with the Q9
    documentation label last;
  - **gate mode**, which requires a decision record.
- **Recommendations.**
  - Three checklists (do now, do next, consider) are built by a fixed
    sequence of append rules. Each list then drops items whose title was
    already seen.
  - A short rationale, and the banner text of the tier.

Modules, one per file:

| file | module | models |
|---|---|---|
| encoding.dfy | `Encoding` | `sev`, `review_strength`, the coding of the nine answers, the error of an invalid key |
| tiering.dfy | `Tiering` | R, `tier_from_internal`, the override, the final tier, `tier_label` |
| flagging.dfy | `Flagging` | the nine flags, the label list (built by a method), gate mode |
| dedup.dfy | `Dedup` | `dedupe` (a loop with a `seen` set), proved against a functional specification |
| recommendations.dfy | `Recommendations` | the checklist rules (built by methods) and their de-duplication |
| rationale.dfy | `Rationale` | the rationale lines (built by a method) and the text joining them |
| checkpoint.dfy | `Checkpoint` | the whole evaluation, from nine answers to the outcome record |
| sequences.dfy | `Sequences` | `When`, the conditional one-element append that the rules share |

Each list the source grows by `append` is built by a method with exactly that
sequence of `if`s. The method is proved equal to a specification function.
The properties are then proved about that function:

- the label list holds exactly the labels of the set flags, in display order;
- each checklist item appears exactly when its rule fires, with no repeated
  title and in rule order;
- the rationale always carries the Q9 note, the override line exactly under
  the override, and the gate line exactly in gate mode.

`Dedupe` is the source's loop, with invariants. It is proved equal to
`FirstOccurrences`, which keeps the first item of each title. Properties of
`FirstOccurrences`:

- it keeps every title, and never keeps one twice;
- it yields a subsequence of its input;
- applying it twice is the same as applying it once.

`Checkpoint.Evaluate` runs the whole pipeline in the source's order. It is
proved to fail exactly on an invalid answer, naming the first invalid key in
lookup order. Otherwise it is proved to return `Assess` of the codes.

Minimal review is Q8's answer C (strength 0), so the override reads
Q2 = C, Q4 = C, Q8 = C, and the weak-review flag is Q8 = C. The code has nine
boolean flags; weak review has no label.

## Model

| member | source | states |
|---|---|---|
| Encoding.Sev | app.py:94-96 | accepts exactly A, B, C; the level it returns names back the same letter; any other key fails with that key |
| Encoding.ReviewStrength | app.py:98-100 | accepts exactly A, B, C with strength 2, 1, 0 (A thorough, C minimal); any other key fails with that key |
| Encoding.SevRoundTrip | app.py:94-96 | coding the letter of a severity level gives the level back |
| Encoding.StrengthMirrorsSeverity | app.py:94-100 | review strength accepts the same keys as severity and equals 2 minus the severity |
| Encoding.Encode | app.py:242-250 | succeeds exactly when every answer is A, B or C; decoding its codes gives back the answers |
| Encoding.EncodeDecode | app.py:242-250 | every code record is produced by exactly one answer sheet (decode then encode is the identity) |
| Encoding.EncodeReportsFirstInvalid | app.py:242-250 | a failure names the first invalid answer in lookup order Q1–Q7, Q9, Q8 |
| Tiering.RiskIndex | app.py:252-253 | R is never negative, never above 14, and equals the weighted sum unless that sum is negative |
| Tiering.RiskIndexIgnoresQ1Q7Q9 | app.py:252-253 | Q1, Q7 and Q9 have no influence on R |
| Tiering.RiskIndexMonotone | app.py:252-253 | raising any weighted severity or weakening review never lowers R |
| Tiering.TierFromInternal | app.py:110-116 | green exactly for R ≤ 4, yellow exactly for 5 ≤ R ≤ 8, red exactly for R ≥ 9 |
| Tiering.TierFromInternalMonotone | app.py:110-116 | a higher index never selects a less strict tier |
| Tiering.OverrideReadsAnswers | app.py:255-256 | `OverrideRed`: the override is exactly Q2 = C, Q4 = C, Q8 = C, and applies only where R is already at least 8 |
| Tiering.FinalTier | app.py:255-260 | the final tier is never less strict than the threshold tier (the override only escalates) |
| Tiering.OverrideDecidesTier | app.py:255-260 | under the override the tier is red whatever the other answers; otherwise it is the threshold tier |
| Tiering.OverrideDecisiveOnlyAtEight | app.py:252-260 | the override changes the outcome exactly when it applies and R is 8, i.e. Q3, Q5, Q6 are all A |
| Tiering.TierIgnoresQ9 | app.py:252-260 | Q9 changes neither the override nor the tier |
| Tiering.TierLabel | app.py:118-123 | the banner opens with the tier's coloured mark and ends in the override suffix exactly for red under the override |
| Tiering.TierLabelDistinguishes | app.py:118-123 | equal banners mean equal tiers, and for red the same override state |
| Flagging.FlagsReadAnswers | app.py:265-274 | `DeriveFlags`: each of the nine flags read on the answers — authority Q1 = C, high consequence Q2 = C, personal data Q3 = C, formal decision Q4 = C, identity Q5 = C, copyright Q6 = C, wide distribution Q7 = C, weak review Q8 = C, documentation gap Q9 ≠ A |
| Flagging.GateModeIff | app.py:265-302 | gate mode holds exactly when one of Q2, Q4, Q1, Q7, Q3 is most severe |
| Flagging.GateModeIgnoresQ9 | app.py:265-302 | Q9 changes only the documentation-gap flag and never gate mode |
| Flagging.SetKindsMembers | app.py:276-294 | a flag kind survives the filter exactly when it is listed and set |
| Flagging.SetKindsInOrder | app.py:276-294 | filtering the set kinds keeps display order |
| Flagging.FlagLabelsOfKinds | app.py:276-294 | the appended labels are the labels of the set kinds taken in display order |
| Flagging.LabelInjective | app.py:276-294 | no two flags share a label text |
| Flagging.LabelOrderInDisplayOrder | app.py:276-294 | the display order lists every labelled flag, at strictly increasing positions |
| Flagging.FlagKindsSpec | app.py:276-294 | the set kinds are exactly the set flags, in display order, the documentation gap last when set |
| Flagging.LabelsMembers | app.py:276-294 | a label occurs exactly when its kind does |
| Flagging.FlagLabelsSpec | app.py:276-294 | a label is listed exactly when its flag is set; one label per set kind in display order; the Q9 label last when set |
| Flagging.GateModeHasLabel | app.py:276-302 | `GateMode`: every gate-mode flag carries a label, so gate mode never comes with an empty label list |
| Flagging.BuildFlagLabels | app.py:276-294 | the step-by-step appends produce exactly the specified label list |
| Dedup.FirstOccurrencesTitles | app.py:342-349 | every title of the input is kept |
| Dedup.FirstOccurrencesDistinct | app.py:342-349 | no title is kept twice |
| Dedup.FirstOccurrencesMembers | app.py:342-349 | an item is kept exactly when it is the first of its title in the input |
| Dedup.FirstOccurrencesSubsequence | app.py:342-349 | the kept items sit at strictly increasing input positions, each the first of its title |
| Dedup.FirstOccurrencesOfDistinct | app.py:342-349 | a list without repeated titles is left unchanged |
| Dedup.FirstOccurrencesIdempotent | app.py:342-349 | de-duplicating twice gives the same as once |
| Dedup.Dedupe | app.py:342-349 | the loop with its `seen` set returns exactly the first occurrence of each title, in input order |
| Recommendations.RulesOfBucket | app.py:307-340 | each rule belongs to one list only, and each list follows the order the rules are applied |
| Recommendations.FiredMembers | app.py:307-340 | a rule's item is appended exactly when the rule is listed and its condition holds |
| Recommendations.FiredInOrder | app.py:307-340 | appending only the rules that fire keeps their order |
| Recommendations.TitleInjective | app.py:307-340 | no two rules share an item title |
| Recommendations.ChecklistMembers | app.py:307-340 | an item is on a list exactly when its rule appends to that list and fires |
| Recommendations.ChecklistOrdered | app.py:307-340 | each list is in rule order and has no repeated title |
| Recommendations.ChecklistDedupeNoOp | app.py:342-353 | de-duplicating the lists the rules build changes nothing |
| Recommendations.TraceabilityFirst | app.py:311-312 | "Keep traceability artifacts" always opens the do-next list |
| Recommendations.OneTierItem | app.py:314-320 | exactly one tier item: human review for red, substantive review for yellow, a sanity check for green; consider holds nothing else |
| Recommendations.DocumentationItems | app.py:326-330 | a Q9 gap yields a documentation baseline (with a documentation driver) or a documentation suggestion (without), never both, and neither without a gap |
| Recommendations.IncreaseReviewWhen | app.py:339-340 | "Increase review level" appears exactly when review is minimal and the tier is yellow or red |
| Recommendations.PrivacyNeedsDecisionRecord | app.py:322-334 | personal data asks for privacy protection and, through gate mode, for a decision record |
| Recommendations.GapSteersOnlyDocumentation | app.py:326-330 | the documentation gap flag adds or removes no item other than the two documentation items, in any list |
| Recommendations.AddTierItem | app.py:314-320 | the tier rule appends its one item to the list the tier selects |
| Recommendations.AddRecordItems | app.py:322-330 | the gate and documentation rules append the decision record, then the baseline or the suggestion |
| Recommendations.AddTopicItems | app.py:332-340 | the topic rules append privacy, bias, copyright and increase-review items under their flags |
| Recommendations.ApplyRules | app.py:307-340 | the rules, applied in order to empty lists, build the three lists as specified |
| Recommendations.BuildChecklist | app.py:307-353 | the built and de-duplicated lists equal the specified checklists |
| Rationale.Join | app.py:405-406 | `str.join`: the joined text is as long as its parts and the separators between them |
| Rationale.JoinPlacement | app.py:403-406 | every part appears at its offset in the joined text, in order |
| Rationale.JoinSeparator | app.py:405-406 | between two consecutive parts the joined text holds exactly the separator ("; " between flag labels, a line break between rationale lines) |
| Rationale.Line | app.py:397-405 | a rationale line starts with its heading |
| Rationale.FlagsLine | app.py:404-405 | the flags line starts with "Flags: ", ends with a full stop, and holds every label, in order, at its offset in the "; "-joined text after the heading |
| Rationale.FlagsLineHoldsLabels | app.py:404-405 | the heading "Flags: " is followed by every label at its place in the joined labels |
| Rationale.RationaleLinesSpec | app.py:397-405 | the Q9 note is always present; the override line comes first exactly under the override; the gate line exactly in gate mode; the flags line last exactly when a label exists |
| Rationale.BuildRationale | app.py:397-406 | the appended lines equal the specified lines, and the text is them joined by line breaks |
| Checkpoint.Evaluate | app.py:242-406 | fails exactly on an invalid answer, with the key the lookups reject first; otherwise returns the outcome `Assess` specifies, rationale lines and joined text included |
| Checkpoint.AssessSpec | app.py:242-406 | `Assess`: red exactly when R ≥ 9 or the override applies; the override implies red; gate mode implies a flag label; traceability opens do-next; the rationale carries the Q9 note |
| Checkpoint.Q9KeepsTier | app.py:240-302 | changing only Q9 keeps the tier, banner, override and gate mode |
| Checkpoint.Q9OnlyTogglesDocumentation | app.py:307-340 | changing only Q9 adds or removes no checklist item except the two documentation items (positions may shift) |
| Checkpoint.OverrideOutcome | app.py:255-340 | under the override: red, the override banner, human review, decision record and increased review to do now, and the override line first in the rationale |
| Checkpoint.ExampleSheetsEncode | app.py:242-250 | four sample answer sheets are accepted with the expected codes |
| Checkpoint.AllLowestRisk | app.py:252-340 | all A: R = 0, green, no flags, traceability to do next and a sanity check to consider |
| Checkpoint.SevereWithMinimalReview | app.py:252-294 | severe answers with minimal review: R = 10, red, override, gate mode, six labels with the Q9 label last |
| Checkpoint.HighConsequenceThoroughReview | app.py:252-260 | high consequence alone under thorough review: R = 2, no override, green |
| Checkpoint.ModerateBasicReview | app.py:252-260 | moderate answers with basic review: R = 6, yellow |

## Left out

- The Streamlit interface is not modelled: page setup, titles, columns and their width ratios, and the `radio_abc` widgets. The nine answers are the model's inputs, as strings.
- Presentation markup is not modelled: the CSS string, `banner_html`, and the HTML rendering of the flags and checklists (app.py:358-394). The model keeps the data they display.
- The rationale text is computed, but its markdown rendering by `st.write` is not modelled.
- Python's `KeyError` on an invalid answer becomes an `Err(InvalidAnswer(key))` result. The evaluation stops at that point, as the script does.
- Tiers are a three-valued datatype rather than strings. `tier_label`'s fall-through to the red banner for any other string therefore has no counterpart.
