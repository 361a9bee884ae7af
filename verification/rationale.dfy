/** The rationale: a few plain-text lines explaining the outcome without a
    score, joined by line breaks. */
module Rationale {
  import opened Sequences

  /** Where part `i` starts in the joined text: after every earlier part and
      its separator. */
  function Offset(sep: string, parts: seq<string>, i: nat): nat
    requires i <= |parts|
  {
    if i == 0 then 0 else Offset(sep, parts, i - 1) + |parts[i - 1]| + |sep|
  }

  lemma OffsetOfPrefix(sep: string, parts: seq<string>, n: nat, i: nat)
    requires i <= n <= |parts|
    ensures Offset(sep, parts[..n], i) == Offset(sep, parts, i)
  {
    if i > 0 {
      OffsetOfPrefix(sep, parts, n, i - 1);
    }
  }

  /** The parts joined by `sep`, as Python's `str.join` does: the text is as
      long as the parts and the separators between them. */
  function Join(sep: string, parts: seq<string>): (r: string)
    ensures |parts| > 0 ==> |r| == Offset(sep, parts, |parts| - 1) + |parts[|parts| - 1]|
  {
    if |parts| == 0 then ""
    else if |parts| == 1 then parts[0]
    else
      OffsetOfPrefix(sep, parts, |parts| - 1, |parts| - 2);
      Join(sep, parts[..|parts| - 1]) + sep + parts[|parts| - 1]
  }

  /** Each part appears at its offset: the joined text keeps every part,
      in order. */
  lemma {:induction false} JoinPlacement(sep: string, parts: seq<string>, i: nat)
    requires i < |parts|
    ensures Offset(sep, parts, i) + |parts[i]| <= |Join(sep, parts)|
    ensures Join(sep, parts)[Offset(sep, parts, i)..Offset(sep, parts, i) + |parts[i]|] == parts[i]
  {
    if |parts| > 1 {
      var init := parts[..|parts| - 1];
      var j := Join(sep, init);
      OffsetOfPrefix(sep, parts, |parts| - 1, |init| - 1);
      assert Join(sep, parts) == j + sep + parts[|parts| - 1];
      if i < |init| {
        JoinPlacement(sep, init, i);
        OffsetOfPrefix(sep, parts, |parts| - 1, i);
        assert init[i] == parts[i];
        var o := Offset(sep, parts, i);
        assert Join(sep, parts)[o..o + |parts[i]|] == j[o..o + |parts[i]|];
      } else {
        assert Offset(sep, parts, i) == |j| + |sep|;
      }
    }
  }

  /** Between part `i` and part `i + 1` the joined text holds exactly the
      separator. */
  lemma {:induction false} JoinSeparator(sep: string, parts: seq<string>, i: nat)
    requires i + 1 < |parts|
    ensures Offset(sep, parts, i + 1) <= |Join(sep, parts)|
    ensures Join(sep, parts)[Offset(sep, parts, i) + |parts[i]|..Offset(sep, parts, i + 1)] == sep
  {
    var init := parts[..|parts| - 1];
    var j := Join(sep, init);
    OffsetOfPrefix(sep, parts, |parts| - 1, |init| - 1);
    assert Join(sep, parts) == j + sep + parts[|parts| - 1];
    var o := Offset(sep, parts, i) + |parts[i]|;
    if i + 1 < |init| {
      JoinSeparator(sep, init, i);
      OffsetOfPrefix(sep, parts, |parts| - 1, i + 1);
      OffsetOfPrefix(sep, parts, |parts| - 1, i);
      assert init[i] == parts[i];
      assert Join(sep, parts)[o..Offset(sep, parts, i + 1)] == j[o..Offset(sep, parts, i + 1)];
    } else {
      assert o == |j|;
    }
  }

  /** From position `start` on, `text` holds every part at its offset: the
      parts as joined by `sep`. */
  ghost predicate PartsAt(text: string, start: nat, sep: string, parts: seq<string>)
  {
    forall i :: 0 <= i < |parts| ==>
      start + Offset(sep, parts, i) + |parts[i]| <= |text| &&
      text[start + Offset(sep, parts, i)..start + Offset(sep, parts, i) + |parts[i]|] == parts[i]
  }

  /** The joined text holds every part at its offset. */
  lemma JoinPlacementAll(sep: string, parts: seq<string>)
    ensures PartsAt(Join(sep, parts), 0, sep, parts)
  {
    forall i | 0 <= i < |parts|
      ensures Offset(sep, parts, i) + |parts[i]| <= |Join(sep, parts)|
      ensures Join(sep, parts)[Offset(sep, parts, i)..Offset(sep, parts, i) + |parts[i]|] == parts[i]
    {
      JoinPlacement(sep, parts, i);
    }
  }

  /** A slice of `s` is the same slice of `s` wrapped between `pre` and `post`,
      shifted by `|pre|`. */
  lemma SliceOfWrapped(pre: string, s: string, post: string, o: nat, n: nat)
    requires o + n <= |s|
    ensures (pre + s + post)[|pre| + o..|pre| + o + n] == s[o..o + n]
  {
    var w := pre + s + post;
    assert forall k :: o <= k < o + n ==> w[|pre| + k] == s[k];
  }

  /** Wrapping a text between `pre` and `post` shifts its parts by `|pre|`. */
  lemma PartsAtWrapped(pre: string, s: string, post: string, sep: string, parts: seq<string>)
    requires PartsAt(s, 0, sep, parts)
    ensures PartsAt(pre + s + post, |pre|, sep, parts)
  {
    var w := pre + s + post;
    forall i | 0 <= i < |parts|
      ensures |pre| + Offset(sep, parts, i) + |parts[i]| <= |w|
      ensures w[|pre| + Offset(sep, parts, i)..|pre| + Offset(sep, parts, i) + |parts[i]|] == parts[i]
    {
      var o := Offset(sep, parts, i);
      assert s[o..o + |parts[i]|] == parts[i];
      SliceOfWrapped(pre, s, post, o, |parts[i]|);
    }
  }

  /** A rationale line: a short heading, a colon, then the explanation. */
  function Line(heading: string, body: string): (line: string)
    requires |heading| > 0
    ensures |line| > |heading| && line[..|heading|] == heading && line[0] == heading[0]
  {
    heading + ": " + body
  }

  const OverrideLine := Line("Override applied", "high consequence + formal decision + minimal review.")
  const GateLine := Line("Gate mode", "decision record required prior to deployment.")
  const Q9Line := Line("Q9 note", "documentation/disclosure choices affect actions only, not tier.")

  /** The flags line holds its heading and then every label at its place. */
  lemma FlagsLineHoldsLabels(labels: seq<string>)
    ensures var line := Line("Flags", Join("; ", labels) + ".");
      |line| >= 7 && line[..7] == "Flags: " && PartsAt(line, 7, "; ", labels)
  {
    var text := Join("; ", labels);
    var line := Line("Flags", text + ".");
    assert line == "Flags: " + text + ".";
    JoinPlacementAll("; ", labels);
    PartsAtWrapped("Flags: ", text, ".", "; ", labels);
  }

  /** The line listing the flag labels: the heading "Flags: ", then every
      label at its place in the semicolon-separated text, then a full stop. */
  function FlagsLine(labels: seq<string>): (line: string)
    ensures |line| > 0 && line[0] == 'F' && line[|line| - 1] == '.'
    ensures |line| >= 7 && line[..7] == "Flags: "
    ensures PartsAt(line, 7, "; ", labels)
  {
    FlagsLineHoldsLabels(labels);
    Line("Flags", Join("; ", labels) + ".")
  }

  /** The rationale lines, appended in order, starting empty. */
  function RationaleLines(overrideRed: bool, gateMode: bool, flagLabels: seq<string>): seq<string>
  {
    []
    + When(overrideRed, OverrideLine)
    + When(gateMode, GateLine)
    + When(true, Q9Line)
    + When(flagLabels != [], FlagsLine(flagLabels))
  }

  /** The Q9 note is always given; the override line comes first exactly
      when the override applied; the gate line exactly when gate mode holds;
      the flags line, last, exactly when a flag is raised. */
  lemma RationaleLinesSpec(overrideRed: bool, gateMode: bool, flagLabels: seq<string>)
    ensures var lines := RationaleLines(overrideRed, gateMode, flagLabels);
      && |lines| == (if overrideRed then 1 else 0) + (if gateMode then 1 else 0) + 1 + (if flagLabels != [] then 1 else 0)
      && (lines[0] == OverrideLine <==> overrideRed)
      && (GateLine in lines <==> gateMode)
      && lines[(if overrideRed then 1 else 0) + (if gateMode then 1 else 0)] == Q9Line
      && (lines[|lines| - 1] == Q9Line <==> flagLabels == [])
      && (flagLabels != [] ==> lines[|lines| - 1] == FlagsLine(flagLabels))
  {
    var lines := RationaleLines(overrideRed, gateMode, flagLabels);
    assert OverrideLine[0] == 'O' && GateLine[0] == 'G' && Q9Line[0] == 'Q';
    if GateLine in lines {
      var k :| 0 <= k < |lines| && lines[k] == GateLine;
      assert lines[k][0] == 'G';
    }
  }

  /** Appends the rationale lines in order and joins them with line breaks. */
  method BuildRationale(overrideRed: bool, gateMode: bool, flagLabels: seq<string>)
    returns (lines: seq<string>, text: string)
    ensures lines == RationaleLines(overrideRed, gateMode, flagLabels)
    ensures text == Join("\n", lines)
  {
    lines := [];
    ghost var prev0 := lines;
    if overrideRed {
      lines := lines + [OverrideLine];
    }
    AppendedWhen(prev0, overrideRed, OverrideLine, lines);
    ghost var prev1 := lines;
    if gateMode {
      lines := lines + [GateLine];
    }
    AppendedWhen(prev1, gateMode, GateLine, lines);
    ghost var prev2 := lines;
    lines := lines + [Q9Line];
    AppendedWhen(prev2, true, Q9Line, lines);
    ghost var prev3 := lines;
    if flagLabels != [] {
      lines := lines + [FlagsLine(flagLabels)];
    }
    AppendedWhen(prev3, flagLabels != [], FlagsLine(flagLabels), lines);
    text := Join("\n", lines);
  }
}
