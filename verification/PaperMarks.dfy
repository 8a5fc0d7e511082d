/** The paper printed behind the ink: which lines a page shows in a viewport.
    Coordinates are reals. */
module PaperMarks {
  import opened Protocol

  const RULE_SPACING_NARROW: real := 96.0
  const RULE_SPACING_WIDE: real := 144.0
  const GRID_SPACING_SMALL: real := RULE_SPACING_NARROW
  const GRID_SPACING_LARGE: real := RULE_SPACING_WIDE
  const MARGIN_X: real := 288.0
  const RULE_LINE_WIDTH: real := 1.5
  const MARGIN_LINE_WIDTH: real := 2.0
  const RULE_COLOR := "#B0C4DE"
  const MARGIN_COLOR := "#E06C6C"
  const MIN_PAPER_MARK_DEVICE_PITCH: real := 4.0
  const MIN_PAPER_MARK_DEVICE_WIDTH: real := 1.0
  const MAX_PAPER_MARKS_PER_AXIS: nat := 4096

  function RuleSpacing(paper: Paper): Option<real> {
    match paper
    case BlankPaper => None
    case RuledMarginNarrow => Some(RULE_SPACING_NARROW)
    case RuledNarrow => Some(RULE_SPACING_NARROW)
    case RuledMarginWide => Some(RULE_SPACING_WIDE)
    case RuledWide => Some(RULE_SPACING_WIDE)
    case SquaredSmall => Some(GRID_SPACING_SMALL)
    case SquaredLarge => Some(GRID_SPACING_LARGE)
  }

  function ColumnSpacing(paper: Paper): Option<real> {
    match paper
    case SquaredSmall => Some(GRID_SPACING_SMALL)
    case SquaredLarge => Some(GRID_SPACING_LARGE)
    case _ => None
  }

  predicate HasMargin(paper: Paper) { paper.RuledMarginNarrow? || paper.RuledMarginWide? }

  datatype MarkKind = Rule | Column | Margin {
    predicate IsHorizontal() { Rule? }

    function WorldWidth(): real { if Margin? then MARGIN_LINE_WIDTH else RULE_LINE_WIDTH }

    function Color(): string { if Margin? then MARGIN_COLOR else RULE_COLOR }
  }

  /** A line across the viewport: at world y `position` for a rule, at world x
      otherwise. */
  datatype PaperMark = PaperMark(kind: MarkKind, position: real)

  datatype WorldViewport = WorldViewport(minX: real, minY: real, maxX: real, maxY: real, scale: real) {
    predicate IsDrawable() { scale > 0.0 && maxX >= minX && maxY >= minY }
  }

  predicate FamilyVisible(pitch: real, scale: real) {
    pitch > 0.0 && scale > 0.0 && pitch * scale >= MIN_PAPER_MARK_DEVICE_PITCH
  }

  function DeviceWidth(worldWidth: real, scale: real): real {
    MaxReal(worldWidth * scale, MIN_PAPER_MARK_DEVICE_WIDTH)
  }

  // ---- Multiples of a pitch -----------------------------------------------

  function Ceil(x: real): (n: int)
    ensures n as real - 1.0 < x <= n as real
  {
    -((-x).Floor)
  }

  function Times(k: int, pitch: real): real { k as real * pitch }

  /** `x` is an integer multiple of the pitch inside `[min, max]`. */
  ghost predicate IsMultipleIn(x: real, pitch: real, min: real, max: real) {
    min <= x <= max && exists k: int :: x == Times(k, pitch)
  }

  /** The first `count` multiples from `first * pitch` up. */
  function Steps(first: int, pitch: real, count: nat): (s: seq<real>)
    ensures |s| == count
    ensures forall i :: 0 <= i < count ==> s[i] == Times(first + i, pitch)
  {
    if count == 0 then [] else Steps(first, pitch, count - 1) + [Times(first + count - 1, pitch)]
  }

  /** How many multiples are visited, and from which. */
  function Extent(pitch: real, min: real, max: real): (int, nat)
    requires pitch > 0.0
  {
    var first, last := Ceil(min / pitch), (max / pitch).Floor;
    (first, if last < first then 0
            else if last - first < MAX_PAPER_MARKS_PER_AXIS - 1 then last - first + 1
            else MAX_PAPER_MARKS_PER_AXIS)
  }

  function Multiples(pitch: real, min: real, max: real): seq<real> {
    if pitch <= 0.0 || max < min then []
    else var (first, count) := Extent(pitch, min, max); Steps(first, pitch, count)
  }

  method VisitMultiples(pitch: real, min: real, max: real) returns (visited: seq<real>)
    ensures visited == Multiples(pitch, min, max)
  {
    visited := [];
    if pitch <= 0.0 || max < min { return; }
    var first, last := Ceil(min / pitch), (max / pitch).Floor;
    if last < first { return; }
    var span: nat := if last - first < MAX_PAPER_MARKS_PER_AXIS - 1 then last - first else MAX_PAPER_MARKS_PER_AXIS - 1;
    var step: nat := 0;
    while step < span + 1
      invariant 0 <= step <= span + 1
      invariant visited == Steps(first, pitch, step)
    {
      visited := visited + [Times(first + step, pitch)];
      step := step + 1;
    }
  }

  lemma DivideAndMultiply(x: real, pitch: real, k: int)
    requires pitch > 0.0
    ensures x <= Times(k, pitch) <==> x / pitch <= k as real
    ensures Times(k, pitch) <= x <==> k as real <= x / pitch
  {
    var q := x / pitch;
    assert q * pitch == x;
    if q <= k as real { assert q * pitch <= k as real * pitch; }
    if q > k as real { assert q * pitch > k as real * pitch; }
    if q >= k as real { assert q * pitch >= k as real * pitch; }
    if q < k as real { assert q * pitch < k as real * pitch; }
  }

  /** A multiple is in range exactly when its factor is between the first and the
      last. */
  lemma FactorRange(pitch: real, min: real, max: real, k: int)
    requires pitch > 0.0
    ensures min <= Times(k, pitch) <= max <==> Ceil(min / pitch) <= k <= (max / pitch).Floor
  {
    DivideAndMultiply(min, pitch, k);
    DivideAndMultiply(max, pitch, k);
  }

  /** The number of multiples in range, however many that is. */
  function HowMany(pitch: real, min: real, max: real): nat
    requires pitch > 0.0
  {
    var first, last := Ceil(min / pitch), (max / pitch).Floor;
    if last < first then 0 else last - first + 1
  }

  lemma TimesAscend(i: int, j: int, pitch: real)
    requires pitch > 0.0 && i < j
    ensures Times(i, pitch) < Times(j, pitch)
  {
    assert (j as real - i as real) * pitch > 0.0;
  }

  lemma VisitedAreInRange(pitch: real, min: real, max: real, x: real)
    requires x in Multiples(pitch, min, max)
    ensures IsMultipleIn(x, pitch, min, max)
  {
    var visited := Multiples(pitch, min, max);
    var first := Extent(pitch, min, max).0;
    var i :| 0 <= i < |visited| && visited[i] == x;
    assert x == Times(first + i, pitch);
    FactorRange(pitch, min, max, first + i);
  }

  lemma InRangeIsVisitedOrBeyond(pitch: real, min: real, max: real, x: real)
    requires pitch > 0.0 && min <= max && IsMultipleIn(x, pitch, min, max)
    ensures var visited := Multiples(pitch, min, max);
            x in visited || (|visited| == MAX_PAPER_MARKS_PER_AXIS && x > visited[|visited| - 1])
  {
    var visited := Multiples(pitch, min, max);
    var (first, count) := Extent(pitch, min, max);
    var k: int :| x == Times(k, pitch);
    FactorRange(pitch, min, max, k);
    if k - first < count {
      assert visited[k - first] == Times(k, pitch);
    } else {
      TimesAscend(first + count - 1, k, pitch);
    }
  }

  /** Only multiples in range are visited, each once and in ascending order, and
      they are an unbroken run from the least one: all of them when at most 4096
      fit, and the first 4096 otherwise. */
  lemma MultiplesAreExact(pitch: real, min: real, max: real)
    requires pitch > 0.0 && min <= max
    ensures var visited := Multiples(pitch, min, max);
            && |visited| == Min(HowMany(pitch, min, max), MAX_PAPER_MARKS_PER_AXIS)
            && (forall i, j :: 0 <= i < j < |visited| ==> visited[i] < visited[j])
            && (forall x :: x in visited ==> IsMultipleIn(x, pitch, min, max))
            && (forall x :: IsMultipleIn(x, pitch, min, max) ==>
                  x in visited || (|visited| == MAX_PAPER_MARKS_PER_AXIS && x > visited[|visited| - 1]))
  {
    var visited := Multiples(pitch, min, max);
    var first := Extent(pitch, min, max).0;
    forall i, j | 0 <= i < j < |visited| ensures visited[i] < visited[j] {
      TimesAscend(first + i, first + j, pitch);
    }
    forall x | x in visited ensures IsMultipleIn(x, pitch, min, max) {
      VisitedAreInRange(pitch, min, max, x);
    }
    forall x | IsMultipleIn(x, pitch, min, max)
      ensures x in visited || (|visited| == MAX_PAPER_MARKS_PER_AXIS && x > visited[|visited| - 1])
    {
      InRangeIsVisitedOrBeyond(pitch, min, max, x);
    }
  }

  /** Up to the cap nothing in range is missing. */
  lemma NoneMissing(pitch: real, min: real, max: real, x: real)
    requires pitch > 0.0 && min <= max && HowMany(pitch, min, max) <= MAX_PAPER_MARKS_PER_AXIS
    ensures x in Multiples(pitch, min, max) <==> IsMultipleIn(x, pitch, min, max)
  {
    if x in Multiples(pitch, min, max) {
      VisitedAreInRange(pitch, min, max, x);
    }
    if IsMultipleIn(x, pitch, min, max) {
      var k: int :| x == Times(k, pitch);
      FactorRange(pitch, min, max, k);
      var first := Extent(pitch, min, max).0;
      assert Multiples(pitch, min, max)[k - first] == x;
    }
  }

  // ---- Marks --------------------------------------------------------------

  function MarksAt(kind: MarkKind, positions: seq<real>): (marks: seq<PaperMark>)
    ensures |marks| == |positions|
    ensures forall i :: 0 <= i < |marks| ==> marks[i] == PaperMark(kind, positions[i])
  {
    if positions == [] then []
    else MarksAt(kind, positions[..|positions| - 1]) + [PaperMark(kind, positions[|positions| - 1])]
  }

  /** One family's positions: every multiple of its pitch, unless the lines would
      be too dense to tell apart. */
  function Family(spacing: Option<real>, min: real, max: real, scale: real): seq<real> {
    if spacing.Some? && FamilyVisible(spacing.value, scale) then Multiples(spacing.value, min, max) else []
  }

  function RulesOf(paper: Paper, v: WorldViewport): seq<real> {
    if v.IsDrawable() then Family(RuleSpacing(paper), v.minY, v.maxY, v.scale) else []
  }

  function ColumnsOf(paper: Paper, v: WorldViewport): seq<real> {
    if v.IsDrawable() then Family(ColumnSpacing(paper), v.minX, v.maxX, v.scale) else []
  }

  function MarginOf(paper: Paper, v: WorldViewport): seq<real> {
    if v.IsDrawable() && HasMargin(paper) && v.minX <= MARGIN_X <= v.maxX then [MARGIN_X] else []
  }

  function Marks(paper: Paper, v: WorldViewport): seq<PaperMark> {
    MarksAt(Rule, RulesOf(paper, v)) + MarksAt(Column, ColumnsOf(paper, v)) + MarksAt(Margin, MarginOf(paper, v))
  }

  method VisitFamily(kind: MarkKind, pitch: real, min: real, max: real) returns (marks: seq<PaperMark>)
    ensures marks == MarksAt(kind, Multiples(pitch, min, max))
  {
    var positions := VisitMultiples(pitch, min, max);
    marks := [];
    var i := 0;
    while i < |positions|
      invariant 0 <= i <= |positions|
      invariant marks == MarksAt(kind, positions[..i])
    {
      marks := marks + [PaperMark(kind, positions[i])];
      assert positions[..i + 1][..i] == positions[..i];
      i := i + 1;
    }
    assert positions[..i] == positions;
  }

  method VisitPaperMarks(paper: Paper, v: WorldViewport) returns (marks: seq<PaperMark>)
    ensures marks == Marks(paper, v)
  {
    marks := [];
    if paper.BlankPaper? || !v.IsDrawable() { return; }
    var rules := RuleSpacing(paper);
    if rules.Some? && FamilyVisible(rules.value, v.scale) {
      marks := VisitFamily(Rule, rules.value, v.minY, v.maxY);
    }
    var columns := ColumnSpacing(paper);
    if columns.Some? && FamilyVisible(columns.value, v.scale) {
      var more := VisitFamily(Column, columns.value, v.minX, v.maxX);
      marks := marks + more;
    }
    if HasMargin(paper) && v.minX <= MARGIN_X && MARGIN_X <= v.maxX {
      marks := marks + [PaperMark(Margin, MARGIN_X)];
    }
  }

  predicate IsNarrow(paper: Paper) { paper in {RuledMarginNarrow, RuledNarrow, SquaredSmall} }

  predicate IsSquared(paper: Paper) { paper in {SquaredSmall, SquaredLarge} }

  /** The distance of a paper's lines in world units. */
  function Pitch(paper: Paper): real { if IsNarrow(paper) then 96.0 else 144.0 }

  /** A family's lines are the multiples of its pitch in view, unless that is less
      than four pixels on screen. */
  lemma FamilyStandsAtItsPitch(spacing: Option<real>, min: real, max: real, scale: real, x: real)
    requires min <= max && scale > 0.0 && (spacing.Some? ==> spacing.value > 0.0)
    requires spacing.Some? ==> HowMany(spacing.value, min, max) <= MAX_PAPER_MARKS_PER_AXIS
    ensures x in Family(spacing, min, max, scale)
       <==> spacing.Some? && spacing.value * scale >= 4.0 && IsMultipleIn(x, spacing.value, min, max)
  {
    if spacing.Some? { NoneMissing(spacing.value, min, max, x); }
  }

  lemma SpacingIsPitch(paper: Paper)
    ensures RuleSpacing(paper) == if paper.BlankPaper? then None else Some(Pitch(paper))
    ensures ColumnSpacing(paper) == if IsSquared(paper) then Some(Pitch(paper)) else None
  {
  }

  /** Every paper but the blank one has rules at the multiples of 96 or 144 in view,
      up to the cap, and none once they are less than four pixels apart. */
  lemma RulesStandAtTheirPitch(paper: Paper, v: WorldViewport, y: real)
    requires v.IsDrawable() && HowMany(Pitch(paper), v.minY, v.maxY) <= MAX_PAPER_MARKS_PER_AXIS
    ensures y in RulesOf(paper, v)
       <==> !paper.BlankPaper? && Pitch(paper) * v.scale >= 4.0 && IsMultipleIn(y, Pitch(paper), v.minY, v.maxY)
  {
    SpacingIsPitch(paper);
    FamilyStandsAtItsPitch(RuleSpacing(paper), v.minY, v.maxY, v.scale, y);
  }

  /** Squared papers alone have columns, as far apart as their rules. */
  lemma ColumnsStandAtTheirPitch(paper: Paper, v: WorldViewport, x: real)
    requires v.IsDrawable() && HowMany(Pitch(paper), v.minX, v.maxX) <= MAX_PAPER_MARKS_PER_AXIS
    ensures x in ColumnsOf(paper, v)
       <==> IsSquared(paper) && Pitch(paper) * v.scale >= 4.0 && IsMultipleIn(x, Pitch(paper), v.minX, v.maxX)
  {
    SpacingIsPitch(paper);
    FamilyStandsAtItsPitch(ColumnSpacing(paper), v.minX, v.maxX, v.scale, x);
  }

  /** The two ruled papers with a margin have it at 288, wherever that is in view
      and however dense the rules. */
  lemma MarginStandsAt(paper: Paper, v: WorldViewport)
    requires v.IsDrawable()
    ensures MarginOf(paper, v)
         == if paper in {RuledMarginNarrow, RuledMarginWide} && v.minX <= 288.0 <= v.maxX then [288.0] else []
  {
  }

  /** A squared paper has the very rules of its ruled counterparts. */
  lemma SquaredKeepsTheRules(v: WorldViewport)
    ensures RulesOf(SquaredSmall, v) == RulesOf(RuledNarrow, v) == RulesOf(RuledMarginNarrow, v)
    ensures RulesOf(SquaredLarge, v) == RulesOf(RuledWide, v) == RulesOf(RuledMarginWide, v)
    ensures forall paper :: RulesOf(paper, v) != [] ==>
              RulesOf(paper, v) == RulesOf(RuledNarrow, v) || RulesOf(paper, v) == RulesOf(RuledWide, v)
  {
  }

  /** A column stands exactly where the ruled papers have their margin, when that
      is in view, the columns are drawn and the cap is not reached. */
  lemma ColumnAtTheMargin(paper: Paper, v: WorldViewport)
    requires paper.SquaredSmall? || paper.SquaredLarge?
    requires v.IsDrawable() && HowMany(ColumnSpacing(paper).value, v.minX, v.maxX) <= MAX_PAPER_MARKS_PER_AXIS
    ensures MARGIN_X in ColumnsOf(paper, v)
       <==> v.minX <= MARGIN_X <= v.maxX && FamilyVisible(ColumnSpacing(paper).value, v.scale)
  {
    var pitch := ColumnSpacing(paper).value;
    assert MARGIN_X == Times(if paper.SquaredSmall? then 3 else 2, pitch);
    NoneMissing(pitch, v.minX, v.maxX, MARGIN_X);
  }

  // ---- The palette swatch -------------------------------------------------

  const PREVIEW_ROWS: real := 4.0
  const PREVIEW_CULL_HEADROOM: real := 1.25

  function PreviewViewport(paper: Paper, widthPx: real, heightPx: real): WorldViewport {
    var width, height := MaxReal(widthPx, 0.0), MaxReal(heightPx, 0.0);
    var pitch := if RuleSpacing(paper).Some? then RuleSpacing(paper).value else RULE_SPACING_NARROW;
    var scale := MaxReal(height / (pitch * PREVIEW_ROWS), MIN_PAPER_MARK_DEVICE_PITCH * PREVIEW_CULL_HEADROOM / pitch);
    WorldViewport(0.0, -pitch / 2.0, width / scale, -pitch / 2.0 + height / scale, scale)
  }

  /** A swatch at least twenty pixels high shows four rows of its paper, from half a
      row above the first rule; a lower one keeps its rules five pixels apart. */
  lemma SwatchShowsFourRows(paper: Paper, widthPx: real, heightPx: real)
    requires !paper.BlankPaper? && widthPx >= 0.0 && heightPx >= 0.0
    ensures var v := PreviewViewport(paper, widthPx, heightPx);
      && v.minX == 0.0 && v.minY == -Pitch(paper) / 2.0
      && v.maxX * v.scale == widthPx && (v.maxY - v.minY) * v.scale == heightPx
      && (heightPx >= 20.0 ==> v.maxY - v.minY == 4.0 * Pitch(paper))
      && (heightPx <= 20.0 ==> Pitch(paper) * v.scale == 5.0)
  {
    var pitch := Pitch(paper);
    assert RuleSpacing(paper) == Some(pitch);
    PreviewScale(pitch, heightPx, PreviewViewport(paper, widthPx, heightPx).scale);
  }

  lemma PreviewScale(pitch: real, height: real, scale: real)
    requires pitch == 96.0 || pitch == 144.0
    requires scale == MaxReal(height / (pitch * 4.0), 5.0 / pitch) && height >= 0.0
    ensures scale > 0.0
    ensures height >= 20.0 ==> height / scale == 4.0 * pitch
    ensures height <= 20.0 ==> pitch * scale == 5.0
  {
  }

  /** However small, a swatch is drawable and dense enough to keep its lines, and
      one at least half a pitch high shows its first rule. */
  lemma SwatchIsNeverCulled(paper: Paper, widthPx: real, heightPx: real)
    requires !paper.BlankPaper?
    ensures var v := PreviewViewport(paper, widthPx, heightPx);
            && v.IsDrawable()
            && FamilyVisible(RuleSpacing(paper).value, v.scale)
            && (v.maxY >= 0.0 ==> 0.0 in RulesOf(paper, v))
  {
    var v, pitch := PreviewViewport(paper, widthPx, heightPx), RuleSpacing(paper).value;
    assert MaxReal(widthPx, 0.0) / v.scale >= 0.0 && MaxReal(heightPx, 0.0) / v.scale >= 0.0;
    if v.maxY >= 0.0 {
      MultiplesAreExact(pitch, v.minY, v.maxY);
      assert Times(0, pitch) == 0.0;
    }
  }
}
