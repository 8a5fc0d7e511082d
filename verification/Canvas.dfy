/** What a page's drawing puts on the canvas: the context's own behaviour, the
    elided setters and grouped paths that drive it, and the culling of strokes
    out of view. Coordinates are reals; a canvas is what it was told to ink. */
module Canvas {
  import opened Protocol
  import opened PaperMarks

  const MIN_RENDERED_STROKE_WIDTH: real := 0.75
  const PRESSURE_WIDTH_STEP: real := 0.125

  datatype Point = Point(x: real, y: real)

  datatype Cap = Butt | Round

  /** A line inked from one point to another, with the style it was inked in. */
  datatype Segment = Segment(from: Point, to: Point, color: string, width: real, cap: Cap)

  datatype Paint = Colored(color: string) | GrainPattern

  /** A rectangle filled from the corner, over the first `over` segments inked. */
  datatype Fill = Fill(paint: Paint, width: real, height: real, over: nat)

  // ---- The context --------------------------------------------------------

  /** A 2D context: the style in force, the current path with its end point, and
      all that has been filled and inked, with how many strokes it took. */
  datatype Context = Context(
    color: string, width: real, cap: Cap, roundJoins: bool, path: seq<(Point, Point)>, at: Option<Point>,
    fills: seq<Fill>, ink: seq<Segment>, strokes: nat)

  function Styled(path: seq<(Point, Point)>, color: string, width: real, cap: Cap): (s: seq<Segment>)
    ensures |s| == |path|
  {
    if path == [] then []
    else
      var last := path[|path| - 1];
      Styled(path[..|path| - 1], color, width, cap) + [Segment(last.0, last.1, color, width, cap)]
  }

  class CanvasContext {
    var state: Context

    constructor (state: Context)
      ensures this.state == state
    {
      this.state := state;
    }

    method SetStrokeStyle(color: string)
      modifies this
      ensures state == old(state).(color := color)
    {
      state := state.(color := color);
    }

    method SetLineWidth(width: real)
      modifies this
      ensures state == old(state).(width := width)
    {
      state := state.(width := width);
    }

    method SetLineCap(cap: Cap)
      modifies this
      ensures state == old(state).(cap := cap)
    {
      state := state.(cap := cap);
    }

    method SetRoundJoins()
      modifies this
      ensures state == old(state).(roundJoins := true)
    {
      state := state.(roundJoins := true);
    }

    method FillRect(paint: Paint, width: real, height: real)
      modifies this
      ensures state == old(state).(fills := old(state).fills + [Fill(paint, width, height, |old(state).ink|)])
    {
      state := state.(fills := state.fills + [Fill(paint, width, height, |state.ink|)]);
    }

    method BeginPath()
      modifies this
      ensures state == old(state).(path := [], at := None)
    {
      state := state.(path := [], at := None);
    }

    method MoveTo(p: Point)
      modifies this
      ensures state == old(state).(at := Some(p))
    {
      state := state.(at := Some(p));
    }

    /** With no point to start from, a line only sets one. */
    method LineTo(p: Point)
      modifies this
      ensures var was := old(state);
              state == was.(path := was.path + (if was.at.Some? then [(was.at.value, p)] else []), at := Some(p))
    {
      if state.at.Some? {
        state := state.(path := state.path + [(state.at.value, p)]);
      }
      state := state.(at := Some(p));
    }

    /** Inks the current path in the style now in force; the path stays. */
    method Stroke()
      modifies this
      ensures var was := old(state);
              state == was.(ink := was.ink + Styled(was.path, was.color, was.width, was.cap),
                            strokes := was.strokes + 1)
    {
      var inked := Styled(state.path, state.color, state.width, state.cap);
      state := state.(ink := state.ink + inked, strokes := state.strokes + 1);
    }
  }

  // ---- The pen ------------------------------------------------------------

  class Pen {
    var color: Option<string>
    var width: Option<real>

    /** What the pen remembers sending is what is in force. */
    ghost predicate InForce(state: Context)
      reads this
    {
      (color.Some? ==> state.color == color.value) && (width.Some? ==> state.width == width.value)
    }

    constructor ()
      ensures forall state :: InForce(state)
      ensures color.None? && width.None?
    {
      color, width := None, None;
    }

    method Color(context: CanvasContext, color: string)
      requires InForce(context.state)
      modifies this`color, context
      ensures InForce(context.state) && this.color == Some(color)
      ensures context.state == old(context.state).(color := color)
    {
      if this.color != Some(color) {
        context.SetStrokeStyle(color);
        this.color := Some(color);
      }
    }

    method Width(context: CanvasContext, width: real)
      requires InForce(context.state)
      modifies this`width, context
      ensures InForce(context.state) && this.width == Some(width)
      ensures context.state == old(context.state).(width := width)
    {
      if this.width != Some(width) {
        context.SetLineWidth(width);
        this.width := Some(width);
      }
    }
  }

  // ---- Ink ----------------------------------------------------------------

  datatype View = View(offsetX: real, offsetY: real, scale: real) {
    function ToCss(p: StrokePoint): Point {
      Point(p.x * scale + offsetX, p.y * scale + offsetY)
    }
  }

  /** Rounds to the nearest whole number, halves away from zero. */
  function Rounded(x: real): int {
    if x >= 0.0 then (x + 0.5).Floor else -((-x + 0.5).Floor)
  }

  function SegmentWidth(style: StrokeStyle, a: Option<real>, b: Option<real>, scale: real): real {
    Snapped(OnScreen((style.RenderedWidth(a) + style.RenderedWidth(b)) / 2.0, scale))
  }

  function OnScreen(worldWidth: real, scale: real): real { worldWidth * scale }

  /** A width to the nearest step, and no less than the floor. */
  function Snapped(width: real): real {
    MaxReal(Rounded(width / PRESSURE_WIDTH_STEP) as real * PRESSURE_WIDTH_STEP, MIN_RENDERED_STROKE_WIDTH)
  }

  function WidthAt(stroke: Stroke, i: nat, scale: real): real
    requires i + 1 < |stroke.points|
  {
    SegmentWidth(stroke.style, stroke.points[i].pressure, stroke.points[i + 1].pressure, scale)
  }

  /** A stroke's `i`th segment, stroked by itself. */
  function SegmentAt(stroke: Stroke, view: View, i: nat): Segment
    requires i + 1 < |stroke.points|
  {
    Segment(view.ToCss(stroke.points[i]), view.ToCss(stroke.points[i + 1]),
            stroke.style.color, WidthAt(stroke, i, view.scale), Round)
  }

  /** The first `n` segments of a stroke, each stroked by itself in its own
      width: what the grouped drawing must put on the canvas. */
  function OneByOne(stroke: Stroke, view: View, n: nat): seq<Segment>
    requires n == 0 || n < |stroke.points|
  {
    if n == 0 then []
    else OneByOne(stroke, view, n - 1) + [SegmentAt(stroke, view, n - 1)]
  }

  function SegmentCount(stroke: Stroke): nat { if stroke.points == [] then 0 else |stroke.points| - 1 }

  /** How many runs of equal widths the first `n` segments make. */
  function WidthRuns(stroke: Stroke, scale: real, n: nat): nat
    requires n == 0 || n < |stroke.points|
  {
    if n == 0 then 0
    else WidthRuns(stroke, scale, n - 1)
         + if n == 1 || WidthAt(stroke, n - 1, scale) != WidthAt(stroke, n - 2, scale) then 1 else 0
  }

  lemma StyledMore(path: seq<(Point, Point)>, from: Point, to: Point, color: string, width: real, cap: Cap)
    ensures Styled(path + [(from, to)], color, width, cap)
         == Styled(path, color, width, cap) + [Segment(from, to, color, width, cap)]
  {
    assert (path + [(from, to)])[..|path|] == path;
  }

  /** Nothing was filled, and lines end and join as before. */
  predicate SameGround(c: Context, before: Context) {
    c.fills == before.fills && c.cap == before.cap && c.roundJoins == before.roundJoins
  }

  /** What the context would have inked if it stroked its path now. */
  function Inking(c: Context): seq<Segment> { c.ink + Styled(c.path, c.color, c.width, c.cap) }

  method StartRun(context: CanvasContext, pen: Pen, underWay: bool, width: real, from: Point)
    requires pen.InForce(context.state)
    modifies context, pen`width
    ensures pen.InForce(context.state)
    ensures context.state.width == width && context.state.color == old(context.state.color)
    ensures SameGround(context.state, old(context.state)) && context.state.at == Some(from)
    ensures Inking(context.state) == if underWay then old(Inking(context.state)) else old(context.state.ink)
    ensures context.state.strokes == old(context.state.strokes) + if underWay then 1 else 0
  {
    if underWay { context.Stroke(); }
    context.BeginPath();
    pen.Width(context, width);
    context.MoveTo(from);
  }

  method ExtendRun(context: CanvasContext, to: Point)
    requires context.state.at.Some?
    modifies context
    ensures context.state.color == old(context.state.color) && context.state.width == old(context.state.width)
    ensures SameGround(context.state, old(context.state))
    ensures context.state.strokes == old(context.state.strokes) && context.state.at == Some(to)
    ensures var was := old(context.state);
            Inking(context.state) == Inking(was) + [Segment(was.at.value, to, was.color, was.width, was.cap)]
  {
    ghost var was := context.state;
    StyledMore(was.path, was.at.value, to, was.color, was.width, was.cap);
    context.LineTo(to);
  }

  /** The first `n` segments are inked or on the path, and the path is the run of
      the last of them. */
  ghost predicate RunSoFar(c: Context, before: Context, stroke: Stroke, view: View, n: nat, runWidth: Option<real>)
    requires n == 0 || n < |stroke.points|
  {
    && c.color == stroke.style.color
    && SameGround(c, before) && c.cap == Round
    && if n == 0 then runWidth.None? && c.ink == before.ink && c.strokes == before.strokes
       else && runWidth == Some(c.width)
            && c.width == WidthAt(stroke, n - 1, view.scale)
            && c.at == Some(view.ToCss(stroke.points[n]))
            && Inking(c) == before.ink + OneByOne(stroke, view, n)
            && c.strokes + 1 == before.strokes + WidthRuns(stroke, view.scale, n)
  }

  method DrawSegment(context: CanvasContext, pen: Pen, stroke: Stroke, view: View, n: nat, runWidth: Option<real>,
                     ghost before: Context)
    returns (run: Option<real>)
    requires n + 1 < |stroke.points| && pen.InForce(context.state)
    requires RunSoFar(context.state, before, stroke, view, n, runWidth)
    modifies context, pen`width
    ensures pen.InForce(context.state) && RunSoFar(context.state, before, stroke, view, n + 1, run)
  {
    var width := WidthAt(stroke, n, view.scale);
    run := runWidth;
    if run != Some(width) {
      StartRun(context, pen, run.Some?, width, view.ToCss(stroke.points[n]));
      run := Some(width);
    }
    ExtendRun(context, view.ToCss(stroke.points[n + 1]));
  }

  /** Runs of segments of one width go down as one path each, and ink exactly
      what stroking every segment by itself would, in the same order. */
  method DrawPressureStroke(context: CanvasContext, pen: Pen, stroke: Stroke, view: View)
    requires pen.InForce(context.state) && context.state.color == stroke.style.color && context.state.cap == Round
    modifies context, pen`width
    ensures pen.InForce(context.state) && SameGround(context.state, old(context.state))
    ensures context.state.ink == old(context.state.ink) + OneByOne(stroke, view, SegmentCount(stroke))
    ensures context.state.strokes == old(context.state.strokes) + WidthRuns(stroke, view.scale, SegmentCount(stroke))
  {
    ghost var before := context.state;
    var runWidth: Option<real> := None;
    var segment := 0;
    while segment + 1 < |stroke.points|
      invariant 0 <= segment && (segment == 0 || segment < |stroke.points|)
      invariant pen.InForce(context.state) && RunSoFar(context.state, before, stroke, view, segment, runWidth)
    {
      runWidth := DrawSegment(context, pen, stroke, view, segment, runWidth, before);
      segment := segment + 1;
    }
    if runWidth.Some? {
      context.Stroke();
    }
  }

  method DrawStroke(context: CanvasContext, pen: Pen, stroke: Stroke, view: View)
    requires pen.InForce(context.state) && context.state.cap == Round
    modifies context, pen
    ensures pen.InForce(context.state) && SameGround(context.state, old(context.state))
    ensures context.state.ink == old(context.state.ink) + OneByOne(stroke, view, SegmentCount(stroke))
    ensures context.state.strokes == old(context.state.strokes) + WidthRuns(stroke, view.scale, SegmentCount(stroke))
  {
    pen.Color(context, stroke.style.color);
    DrawPressureStroke(context, pen, stroke, view);
  }

  // ---- Paper --------------------------------------------------------------

  datatype Style = Style(color: string, worldWidth: real)

  function StyleOf(mark: PaperMark): Style { Style(mark.kind.Color(), mark.kind.WorldWidth()) }

  function MarkFrom(mark: PaperMark, v: WorldViewport, view: View): Point {
    if mark.kind.IsHorizontal()
    then Point(v.minX * view.scale + view.offsetX, mark.position * view.scale + view.offsetY)
    else Point(mark.position * view.scale + view.offsetX, v.minY * view.scale + view.offsetY)
  }

  function MarkTo(mark: PaperMark, v: WorldViewport, view: View): Point {
    if mark.kind.IsHorizontal()
    then Point(v.maxX * view.scale + view.offsetX, mark.position * view.scale + view.offsetY)
    else Point(mark.position * view.scale + view.offsetX, v.maxY * view.scale + view.offsetY)
  }

  /** Each mark as its own line, in its own colour and floored width. */
  function MarkByMark(marks: seq<PaperMark>, v: WorldViewport, view: View): seq<Segment> {
    if marks == [] then []
    else
      var last := marks[|marks| - 1];
      MarkByMark(marks[..|marks| - 1], v, view)
      + [Segment(MarkFrom(last, v, view), MarkTo(last, v, view),
                 StyleOf(last).color, DeviceWidth(StyleOf(last).worldWidth, view.scale), Butt)]
  }

  /** How many runs of one style the marks make. */
  function StyleRuns(marks: seq<PaperMark>): nat {
    if marks == [] then 0
    else
      var n := |marks| - 1;
      StyleRuns(marks[..n]) + if n == 0 || StyleOf(marks[n]) != StyleOf(marks[n - 1]) then 1 else 0
  }

  method StartBatch(context: CanvasContext, underWay: bool, style: Style, scale: real)
    modifies context
    ensures context.state.color == style.color && context.state.width == DeviceWidth(style.worldWidth, scale)
    ensures SameGround(context.state, old(context.state))
    ensures Inking(context.state) == if underWay then old(Inking(context.state)) else old(context.state.ink)
    ensures context.state.strokes == old(context.state.strokes) + if underWay then 1 else 0
  {
    if underWay { context.Stroke(); }
    context.BeginPath();
    context.SetStrokeStyle(style.color);
    context.SetLineWidth(DeviceWidth(style.worldWidth, scale));
  }

  ghost predicate BatchSoFar(c: Context, before: Context, marks: seq<PaperMark>, v: WorldViewport, view: View,
                             batch: Option<Style>) {
    if marks == [] then batch.None? && c == before
    else
      && SameGround(c, before) && c.cap == Butt
      && batch == Some(StyleOf(marks[|marks| - 1]))
      && c.color == batch.value.color && c.width == DeviceWidth(batch.value.worldWidth, view.scale)
      && Inking(c) == before.ink + MarkByMark(marks, v, view)
      && c.strokes + 1 == before.strokes + StyleRuns(marks)
  }

  method DrawMark(context: CanvasContext, mark: PaperMark, v: WorldViewport, view: View, batch: Option<Style>,
                  ghost done: seq<PaperMark>, ghost before: Context)
    returns (next: Option<Style>)
    requires BatchSoFar(context.state, before, done, v, view, batch) && context.state.cap == Butt
    modifies context
    ensures BatchSoFar(context.state, before, done + [mark], v, view, next)
  {
    assert (done + [mark])[..|done|] == done;
    next := batch;
    if next != Some(StyleOf(mark)) {
      StartBatch(context, next.Some?, StyleOf(mark), view.scale);
      next := Some(StyleOf(mark));
    }
    context.MoveTo(MarkFrom(mark, v, view));
    ExtendRun(context, MarkTo(mark, v, view));
  }

  method DrawMarks(context: CanvasContext, marks: seq<PaperMark>, v: WorldViewport, view: View)
    returns (batch: Option<Style>)
    requires context.state.cap == Butt
    modifies context
    ensures BatchSoFar(context.state, old(context.state), marks, v, view, batch)
  {
    ghost var before := context.state;
    batch := None;
    var i := 0;
    while i < |marks|
      invariant 0 <= i <= |marks|
      invariant BatchSoFar(context.state, before, marks[..i], v, view, batch) && context.state.cap == Butt
    {
      assert marks[..i] + [marks[i]] == marks[..i + 1];
      batch := DrawMark(context, marks[i], v, view, batch, marks[..i], before);
      i := i + 1;
    }
    assert marks[..i] == marks;
  }

  /** The marks go down in one path per run of a style, and ink what each mark
      drawn by itself would, with ends cut off square. */
  method DrawPaper(context: CanvasContext, paper: Paper, v: WorldViewport, view: View)
    modifies context
    ensures context.state.ink == old(context.state.ink) + MarkByMark(Marks(paper, v), v, view)
    ensures context.state.strokes == old(context.state.strokes) + StyleRuns(Marks(paper, v))
    ensures context.state.fills == old(context.state.fills)
  {
    if paper.BlankPaper? { return; }
    context.SetLineCap(Butt);
    var marks := VisitPaperMarks(paper, v);
    var batch := DrawMarks(context, marks, v, view);
    if batch.Some? {
      context.Stroke();
    }
  }

  lemma {:induction false} MarkByMarkAt(marks: seq<PaperMark>, v: WorldViewport, view: View, i: nat)
    requires i < |marks|
    ensures |MarkByMark(marks, v, view)| == |marks|
    ensures MarkByMark(marks, v, view)[i]
         == Segment(MarkFrom(marks[i], v, view), MarkTo(marks[i], v, view),
                    StyleOf(marks[i]).color, DeviceWidth(StyleOf(marks[i]).worldWidth, view.scale), Butt)
    decreases |marks|
  {
    if |marks| > 1 {
      MarkByMarkAt(marks[..|marks| - 1], v, view, if i < |marks| - 1 then i else 0);
    }
  }

  lemma AtTheEdge(edge: real, offset: real, scale: real)
    requires scale > 0.0
    ensures (edge - offset) / scale * scale + offset == edge
  {
  }

  /** Across the canvas: from the left edge to the right one, or from the top to the
      bottom. */
  function Span(mark: PaperMark, cssWidth: real, cssHeight: real, view: View): (Point, Point) {
    if mark.kind.Rule? then
      var y := mark.position * view.scale + view.offsetY;
      (Point(0.0, y), Point(cssWidth, y))
    else
      var x := mark.position * view.scale + view.offsetX;
      (Point(x, 0.0), Point(x, cssHeight))
  }

  lemma MarkSpans(mark: PaperMark, cssWidth: real, cssHeight: real, view: View)
    requires view.scale > 0.0
    ensures MarkFrom(mark, ViewportOf(cssWidth, cssHeight, view), view) == Span(mark, cssWidth, cssHeight, view).0
    ensures MarkTo(mark, ViewportOf(cssWidth, cssHeight, view), view) == Span(mark, cssWidth, cssHeight, view).1
  {
    AtTheEdge(0.0, view.offsetX, view.scale);
    AtTheEdge(cssWidth, view.offsetX, view.scale);
    AtTheEdge(0.0, view.offsetY, view.scale);
    AtTheEdge(cssHeight, view.offsetY, view.scale);
  }

  lemma MarkIsStyled(mark: PaperMark, scale: real)
    ensures StyleOf(mark).color == if mark.kind.Margin? then "#E06C6C" else "#B0C4DE"
    ensures DeviceWidth(StyleOf(mark).worldWidth, scale)
         == MaxReal(OnScreen(if mark.kind.Margin? then 2.0 else 1.5, scale), 1.0)
  {
  }

  /** On screen each mark spans the canvas at its own place, in its family's colour
      and width, but never thinner than a pixel, and with square ends. */
  lemma MarksSpanTheCanvas(marks: seq<PaperMark>, cssWidth: real, cssHeight: real, view: View, i: nat)
    requires view.scale > 0.0 && i < |marks|
    ensures |MarkByMark(marks, ViewportOf(cssWidth, cssHeight, view), view)| == |marks|
    ensures var (from, to) := Span(marks[i], cssWidth, cssHeight, view);
      var (color, width) := if marks[i].kind.Margin? then ("#E06C6C", 2.0) else ("#B0C4DE", 1.5);
      MarkByMark(marks, ViewportOf(cssWidth, cssHeight, view), view)[i]
        == Segment(from, to, color, MaxReal(OnScreen(width, view.scale), 1.0), Butt)
  {
    MarkByMarkAt(marks, ViewportOf(cssWidth, cssHeight, view), view, i);
    MarkSpans(marks[i], cssWidth, cssHeight, view);
    MarkIsStyled(marks[i], view.scale);
  }

  ghost predicate AllInStyle(marks: seq<PaperMark>, style: Style) {
    forall i :: 0 <= i < |marks| ==> StyleOf(marks[i]) == style
  }

  lemma {:induction false} OneStyleIsOneRun(marks: seq<PaperMark>, style: Style)
    requires AllInStyle(marks, style)
    ensures StyleRuns(marks) == if marks == [] then 0 else 1
  {
    if marks != [] {
      OneStyleIsOneRun(marks[..|marks| - 1], style);
    }
  }

  lemma OneMoreRun(lines: seq<PaperMark>, more: seq<PaperMark>)
    requires |more| <= 1
    ensures StyleRuns(lines + more) <= StyleRuns(lines) + 1
  {
    if more == [] {
      assert lines + more == lines;
    } else {
      assert (lines + more)[..|lines|] == lines;
    }
  }

  /** However dense the paper, its lines cost two strokes of the canvas at most:
      rules and columns share a style, and the margin has its own. */
  lemma PaperTakesTwoStrokes(paper: Paper, v: WorldViewport)
    ensures StyleRuns(Marks(paper, v)) <= 2
  {
    var lines := MarksAt(Rule, RulesOf(paper, v)) + MarksAt(Column, ColumnsOf(paper, v));
    var style := StyleOf(PaperMark(Rule, 0.0));
    assert AllInStyle(lines, style);
    OneStyleIsOneRun(lines, style);
    OneMoreRun(lines, MarksAt(Margin, MarginOf(paper, v)));
  }

  // ---- The reference drawing ----------------------------------------------

  /** Every segment is there, once, in order, with its own width. */
  lemma {:induction false} OneByOneAt(stroke: Stroke, view: View, n: nat, i: nat)
    requires i < n < |stroke.points|
    ensures |OneByOne(stroke, view, n)| == n
    ensures OneByOne(stroke, view, n)[i] == SegmentAt(stroke, view, i)
  {
    if n > 1 {
      OneByOneAt(stroke, view, n - 1, if i < n - 1 then i else 0);
    }
  }

  /** Ink that carries no pressure goes down as a single path. */
  lemma {:induction false} WithoutPressureOnePath(stroke: Stroke, scale: real, n: nat)
    requires 0 < n < |stroke.points|
    requires forall i :: 0 <= i < |stroke.points| ==> stroke.points[i].pressure.None?
    ensures WidthRuns(stroke, scale, n) == 1
  {
    if n > 1 {
      WithoutPressureOnePath(stroke, scale, n - 1);
    }
  }

  // ---- The width of ink ---------------------------------------------------

  /** Full pressure, or none recorded, inks the preset width; no pressure at all
      the thinnest nib, 1.5 unless the preset is thinner. */
  lemma PressureEnds(style: StrokeStyle, pressure: Option<real>)
    ensures pressure.None? || pressure.value >= 1.0 ==> style.RenderedWidth(pressure) == style.width
    ensures pressure.Some? && pressure.value <= 0.0 ==>
              style.RenderedWidth(pressure) == if style.width < 1.5 then style.width else 1.5
  {
  }

  /** In between, the width is on the straight line from one end to the other. */
  lemma PressureIsLinear(style: StrokeStyle, p: real)
    requires 0.0 <= p <= 1.0
    ensures var thin := style.RenderedWidth(Some(0.0));
            style.RenderedWidth(Some(p)) == thin + p * (style.width - thin)
  {
    PressureEnds(style, Some(0.0));
  }

  lemma Steeper(span: real, p: real, q: real)
    requires span >= 0.0 && p <= q
    ensures span * p <= span * q
  {
    assert span * (q - p) >= 0.0;
  }

  /** More pressure never inks thinner. */
  lemma PressureWidens(style: StrokeStyle, p: real, q: real)
    requires p <= q
    ensures style.RenderedWidth(Some(p)) <= style.RenderedWidth(Some(q)) <= style.RenderedWidth(None)
  {
    var span := style.width - MinReal(MIN_PRESSURE_WIDTH, style.width);
    Steeper(span, ClampUnit(p), ClampUnit(q));
    Steeper(span, ClampUnit(q), 1.0);
  }

  /** On screen a width is within half a step of an eighth, but for the floor of
      three quarters. */
  lemma SnappedIsNearest(width: real)
    ensures Snapped(width) >= 0.75
    ensures Snapped(width) == 0.75 || -0.0625 <= Snapped(width) - width <= 0.0625
    ensures Snapped(width) == 0.75 ==> width <= 0.75 + 0.0625
    ensures exists eighths: int :: Snapped(width) == Eighths(eighths)
  {
    var steps := width / PRESSURE_WIDTH_STEP;
    assert steps * PRESSURE_WIDTH_STEP == width;
    assert steps - 0.5 <= Rounded(steps) as real <= steps + 0.5;
    assert Snapped(width) == Eighths(Rounded(steps)) || Snapped(width) == Eighths(6);
  }

  function Eighths(n: int): real { n as real / 8.0 }

  lemma RoundedAscends(x: real, y: real)
    requires x <= y
    ensures Rounded(x) <= Rounded(y)
  {
  }

  lemma SnappedAscends(thin: real, wide: real)
    requires thin <= wide
    ensures Snapped(thin) <= Snapped(wide)
  {
    RoundedAscends(thin / PRESSURE_WIDTH_STEP, wide / PRESSURE_WIDTH_STEP);
  }

  lemma OnScreenAscends(thin: real, wide: real, scale: real)
    requires thin <= wide && scale >= 0.0
    ensures OnScreen(thin, scale) <= OnScreen(wide, scale)
  {
    assert (wide - thin) * scale >= 0.0;
  }

  /** The nib a segment is inked with, in world units: the mean of its ends'. */
  function MeanWidth(stroke: Stroke, i: nat): real
    requires i + 1 < |stroke.points|
  {
    var a, b := stroke.points[i].pressure, stroke.points[i + 1].pressure;
    (stroke.style.RenderedWidth(a) + stroke.style.RenderedWidth(b)) / 2.0
  }

  /** Each segment that the drawing inks is as wide as the mean of its ends'
      pressures asks for, brought to the screen, to the nearest eighth. */
  lemma InkedAsWideAsPressed(stroke: Stroke, view: View, i: nat)
    requires i + 1 < |stroke.points|
    ensures var inked := OneByOne(stroke, view, SegmentCount(stroke));
      && i < |inked|
      && inked[i].width >= 0.75
      && (inked[i].width == 0.75 || -0.0625 <= inked[i].width - OnScreen(MeanWidth(stroke, i), view.scale) <= 0.0625)
      && (inked[i].width == 0.75 ==> OnScreen(MeanWidth(stroke, i), view.scale) <= 0.75 + 0.0625)
  {
    OneByOneAt(stroke, view, SegmentCount(stroke), i);
    SnappedIsNearest(OnScreen(MeanWidth(stroke, i), view.scale));
  }

  predicate PressedNoHarder(a: Option<real>, b: Option<real>) {
    b.None? || (a.Some? && a.value <= b.value)
  }

  /** A segment pressed harder at both its ends is never inked thinner. */
  lemma PressedHarderInksWider(style: StrokeStyle, a: Option<real>, b: Option<real>, c: Option<real>, d: Option<real>,
                               scale: real)
    requires scale >= 0.0 && PressedNoHarder(a, c) && PressedNoHarder(b, d)
    ensures SegmentWidth(style, a, b, scale) <= SegmentWidth(style, c, d, scale)
  {
    EndWidens(style, a, c);
    EndWidens(style, b, d);
    var thin := (style.RenderedWidth(a) + style.RenderedWidth(b)) / 2.0;
    var wide := (style.RenderedWidth(c) + style.RenderedWidth(d)) / 2.0;
    OnScreenAscends(thin, wide, scale);
    SnappedAscends(OnScreen(thin, scale), OnScreen(wide, scale));
  }

  lemma EndWidens(style: StrokeStyle, a: Option<real>, b: Option<real>)
    requires PressedNoHarder(a, b)
    ensures style.RenderedWidth(a) <= style.RenderedWidth(b)
  {
    if a.Some? { PressureWidens(style, a.value, if b.Some? then b.value else a.value); }
  }

  // ---- Culling ------------------------------------------------------------

  datatype Box = Box(minX: real, minY: real, maxX: real, maxY: real)

  function Around(b: Box, p: StrokePoint): Box {
    Box(MinReal(b.minX, p.x), MinReal(b.minY, p.y), MaxReal(b.maxX, p.x), MaxReal(b.maxY, p.y))
  }

  function Bounds(points: seq<StrokePoint>): (b: Box)
    requires points != []
    ensures forall i :: 0 <= i < |points| ==> b.minX <= points[i].x <= b.maxX && b.minY <= points[i].y <= b.maxY
  {
    if |points| == 1 then Box(points[0].x, points[0].y, points[0].x, points[0].y)
    else Around(Bounds(points[..|points| - 1]), points[|points| - 1])
  }

  function Pad(stroke: Stroke, scale: real): real
    requires scale > 0.0
  {
    stroke.style.width / 2.0 + MIN_RENDERED_STROKE_WIDTH / scale
  }

  function MayBeVisible(stroke: Stroke, v: WorldViewport): bool
    requires v.scale > 0.0
  {
    && stroke.points != []
    && var (b, pad) := (Bounds(stroke.points), Pad(stroke, v.scale));
       b.maxX + pad >= v.minX && b.minX - pad <= v.maxX && b.maxY + pad >= v.minY && b.minY - pad <= v.maxY
  }

  method StrokeMayBeVisible(stroke: Stroke, v: WorldViewport) returns (visible: bool)
    requires v.scale > 0.0
    ensures visible == MayBeVisible(stroke, v)
  {
    if stroke.points == [] { return false; }
    var first := stroke.points[0];
    var minX, minY, maxX, maxY := first.x, first.y, first.x, first.y;
    var i := 1;
    while i < |stroke.points|
      invariant 1 <= i <= |stroke.points|
      invariant Box(minX, minY, maxX, maxY) == Bounds(stroke.points[..i])
    {
      var point := stroke.points[i];
      minX, minY := MinReal(minX, point.x), MinReal(minY, point.y);
      maxX, maxY := MaxReal(maxX, point.x), MaxReal(maxY, point.y);
      assert stroke.points[..i + 1][..i] == stroke.points[..i];
      i := i + 1;
    }
    assert stroke.points[..i] == stroke.points;
    var pad := Pad(stroke, v.scale);
    visible := maxX + pad >= v.minX && minX - pad <= v.maxX && maxY + pad >= v.minY && minY - pad <= v.maxY;
  }

  /** The world rectangle a canvas of the given CSS size shows. */
  function ViewportOf(cssWidth: real, cssHeight: real, view: View): WorldViewport
    requires view.scale > 0.0
  {
    WorldViewport((0.0 - view.offsetX) / view.scale, (0.0 - view.offsetY) / view.scale,
                  (cssWidth - view.offsetX) / view.scale, (cssHeight - view.offsetY) / view.scale, view.scale)
  }

  /** `p` is in the round-capped band of the segment, near its point at `t`. */
  predicate Covers(s: Segment, t: real, p: Point) {
    0.0 <= t <= 1.0 && Near(p.x - Along(s.from.x, s.to.x, t), p.y - Along(s.from.y, s.to.y, t), s.width / 2.0)
  }

  function Along(a: real, b: real, t: real): real { a + t * (b - a) }

  predicate Near(dx: real, dy: real, radius: real) { dx * dx + dy * dy <= radius * radius }

  predicate InView(p: Point, cssWidth: real, cssHeight: real) {
    0.0 <= p.x <= cssWidth && 0.0 <= p.y <= cssHeight
  }

  lemma RenderedWithinPreset(style: StrokeStyle, pressure: Option<real>)
    requires style.width >= 0.0
    ensures 0.0 <= style.RenderedWidth(pressure) <= style.width
  {
    var p := ClampUnit(if pressure.Some? then pressure.value else 1.0);
    var floor := MinReal(MIN_PRESSURE_WIDTH, style.width);
    var span := style.width - floor;
    Scaled(span, p);
    var part := span * p;
    assert style.RenderedWidth(pressure) == floor + part;
  }

  lemma Scaled(span: real, p: real)
    requires span >= 0.0 && 0.0 <= p <= 1.0
    ensures 0.0 <= span * p <= span
  {
    assert span * (1.0 - p) >= 0.0;
  }

  /** Snapping and the floor widen a nib by less than the padding allows. */
  lemma SnappedWidens(width: real)
    requires width >= 0.0
    ensures 0.0 < Snapped(width) <= width + MIN_RENDERED_STROKE_WIDTH
  {
    assert Rounded(width / PRESSURE_WIDTH_STEP) as real <= width / PRESSURE_WIDTH_STEP + 0.5;
  }

  lemma MeanNib(stroke: Stroke, i: nat, scale: real) returns (mean: real)
    requires stroke.style.width >= 0.0 && i + 1 < |stroke.points|
    ensures 0.0 <= mean <= stroke.style.width
    ensures WidthAt(stroke, i, scale) == Snapped(OnScreen(mean, scale))
  {
    var a, b := stroke.points[i].pressure, stroke.points[i + 1].pressure;
    mean := MeanWidth(stroke, i);
    RenderedWithinPreset(stroke.style, a);
    RenderedWithinPreset(stroke.style, b);
  }

  lemma HalfWidthWithinPad(stroke: Stroke, i: nat, scale: real)
    requires scale > 0.0 && stroke.style.width >= 0.0 && i + 1 < |stroke.points|
    ensures 0.0 < WidthAt(stroke, i, scale) / 2.0 <= OnScreen(Pad(stroke, scale), scale)
  {
    var mean := MeanNib(stroke, i, scale);
    PadCovers(mean, stroke.style.width, scale);
  }

  lemma PadCovers(mean: real, preset: real, scale: real)
    requires 0.0 <= mean <= preset && scale > 0.0
    ensures 0.0 < Snapped(OnScreen(mean, scale)) / 2.0
    ensures Snapped(OnScreen(mean, scale)) / 2.0 <= OnScreen(preset / 2.0 + MIN_RENDERED_STROKE_WIDTH / scale, scale)
  {
    assert (preset - mean) * scale >= 0.0;
    assert mean * scale >= 0.0;
    SnappedWidens(OnScreen(mean, scale));
    PadOnScreen(preset, scale);
  }

  lemma PadOnScreen(preset: real, scale: real)
    requires scale > 0.0
    ensures (preset / 2.0 + MIN_RENDERED_STROKE_WIDTH / scale) * scale
         == preset * scale / 2.0 + MIN_RENDERED_STROKE_WIDTH
  {
    assert MIN_RENDERED_STROKE_WIDTH / scale * scale == MIN_RENDERED_STROKE_WIDTH;
  }

  lemma WithinHalf(dx: real, dy: real, h: real)
    requires h >= 0.0 && Near(dx, dy, h)
    ensures -h <= dx <= h && -h <= dy <= h
  {
    assert dx * dx >= 0.0 && dy * dy >= 0.0;
    if dx > h { SquareGrows(dx, h); }
    if dx < -h { SquareGrows(-dx, h); }
    if dy > h { SquareGrows(dy, h); }
    if dy < -h { SquareGrows(-dy, h); }
  }

  lemma Positive(a: real, b: real)
    requires a > 0.0 && b > 0.0
    ensures a * b > 0.0
  {
  }

  lemma SquareGrows(a: real, h: real)
    requires a > h >= 0.0
    ensures a * a > h * h
  {
    Positive(a, a - h);
    assert a * (a - h) == a * a - a * h;
    assert h * (a - h) >= 0.0 && h * (a - h) == h * a - h * h;
  }

  lemma Between(a: real, b: real, t: real, lo: real, hi: real)
    requires 0.0 <= t <= 1.0 && lo <= a <= hi && lo <= b <= hi
    ensures lo <= a + t * (b - a) <= hi
  {
    assert a + t * (b - a) == (1.0 - t) * a + t * b;
    assert (1.0 - t) * (a - lo) >= 0.0 && t * (b - lo) >= 0.0;
    assert (1.0 - t) * (hi - a) >= 0.0 && t * (hi - b) >= 0.0;
  }

  /** On one axis: ink around a point of `[lo, hi]` in the world stays within the
      padded range on the screen. */
  lemma AxisBand(a: real, b: real, t: real, lo: real, hi: real, scale: real, offset: real, pad: real, half: real,
                 p: real)
    requires scale > 0.0 && 0.0 <= t <= 1.0 && lo <= a <= hi && lo <= b <= hi
    requires half <= OnScreen(pad, scale)
    requires -half <= p - Along(a * scale + offset, b * scale + offset, t) <= half
    ensures (lo - pad) * scale + offset <= p <= (hi + pad) * scale + offset
  {
    Between(a, b, t, lo, hi);
    var w := a + t * (b - a);
    assert Along(a * scale + offset, b * scale + offset, t) == w * scale + offset;
    assert (hi - w) * scale >= 0.0 && (w - lo) * scale >= 0.0;
  }

  lemma OutsideOnScreen(edge: real, bound: real, scale: real, offset: real)
    requires scale > 0.0
    ensures bound < (edge - offset) / scale ==> bound * scale + offset < edge
    ensures bound > (edge - offset) / scale ==> bound * scale + offset > edge
  {
    var q := (edge - offset) / scale;
    assert q * scale == edge - offset;
    if bound < q { assert (q - bound) * scale > 0.0; }
    if bound > q { assert (bound - q) * scale > 0.0; }
  }

  lemma BandIsWithinReach(s: Segment, t: real, p: Point)
    requires Covers(s, t, p) && s.width >= 0.0
    ensures -s.width / 2.0 <= p.x - Along(s.from.x, s.to.x, t) <= s.width / 2.0
    ensures -s.width / 2.0 <= p.y - Along(s.from.y, s.to.y, t) <= s.width / 2.0
  {
    WithinHalf(p.x - Along(s.from.x, s.to.x, t), p.y - Along(s.from.y, s.to.y, t), s.width / 2.0);
  }

  predicate MissesOn(lo: real, hi: real, pad: real, offset: real, size: real, scale: real)
    requires scale > 0.0
  {
    hi + pad < (0.0 - offset) / scale || lo - pad > (size - offset) / scale
  }

  /** Padded bounds that miss the viewport on one axis keep the band off the
      screen on that axis. */
  lemma AxisMiss(a: real, b: real, t: real, lo: real, hi: real, scale: real, offset: real, pad: real, half: real,
                 p: real, size: real)
    requires scale > 0.0 && 0.0 <= t <= 1.0 && lo <= a <= hi && lo <= b <= hi
    requires half <= OnScreen(pad, scale)
    requires -half <= p - Along(a * scale + offset, b * scale + offset, t) <= half
    requires MissesOn(lo, hi, pad, offset, size, scale)
    ensures !(0.0 <= p <= size)
  {
    AxisBand(a, b, t, lo, hi, scale, offset, pad, half, p);
    OutsideOnScreen(0.0, hi + pad, scale, offset);
    OutsideOnScreen(size, lo - pad, scale, offset);
  }

  predicate Misses(box: Box, pad: real, view: View, cssWidth: real, cssHeight: real)
    requires view.scale > 0.0
  {
    || MissesOn(box.minX, box.maxX, pad, view.offsetX, cssWidth, view.scale)
    || MissesOn(box.minY, box.maxY, pad, view.offsetY, cssHeight, view.scale)
  }

  /** A stroke is culled exactly when it has no point or the box of its points,
      widened by half its width and three quarters of a pixel, is off the canvas. */
  lemma CulledIff(stroke: Stroke, view: View, cssWidth: real, cssHeight: real)
    requires view.scale > 0.0
    ensures !MayBeVisible(stroke, ViewportOf(cssWidth, cssHeight, view))
       <==> || stroke.points == []
            || Misses(Bounds(stroke.points), stroke.style.width / 2.0 + 0.75 / view.scale, view, cssWidth, cssHeight)
  {
  }

  lemma CulledMisses(stroke: Stroke, view: View, cssWidth: real, cssHeight: real)
    requires view.scale > 0.0 && stroke.points != []
    requires !MayBeVisible(stroke, ViewportOf(cssWidth, cssHeight, view))
    ensures Misses(Bounds(stroke.points), Pad(stroke, view.scale), view, cssWidth, cssHeight)
  {
  }

  predicate Inside(p: StrokePoint, box: Box) {
    box.minX <= p.x <= box.maxX && box.minY <= p.y <= box.maxY
  }

  lemma PaddedBoxMisses(a: StrokePoint, b: StrokePoint, view: View, s: Segment, box: Box, pad: real, t: real, p: Point,
                        cssWidth: real, cssHeight: real)
    requires view.scale > 0.0 && s.from == view.ToCss(a) && s.to == view.ToCss(b)
    requires Inside(a, box) && Inside(b, box) && 0.0 <= s.width / 2.0 <= OnScreen(pad, view.scale)
    requires Covers(s, t, p) && Misses(box, pad, view, cssWidth, cssHeight)
    ensures !InView(p, cssWidth, cssHeight)
  {
    BandIsWithinReach(s, t, p);
    if MissesOn(box.minX, box.maxX, pad, view.offsetX, cssWidth, view.scale) {
      MissX(a, b, view, s, box, pad, t, p, cssWidth);
    } else {
      MissY(a, b, view, s, box, pad, t, p, cssHeight);
    }
  }

  /** The segment's half width and the padding that covers it. */
  lemma Reach(stroke: Stroke, view: View, i: nat, cssWidth: real, cssHeight: real) returns (half: real, pad: real)
    requires view.scale > 0.0 && stroke.style.width >= 0.0 && i + 1 < |stroke.points|
    requires !MayBeVisible(stroke, ViewportOf(cssWidth, cssHeight, view))
    ensures half == WidthAt(stroke, i, view.scale) / 2.0 && 0.0 <= half <= OnScreen(pad, view.scale)
    ensures Misses(Bounds(stroke.points), pad, view, cssWidth, cssHeight)
  {
    CulledMisses(stroke, view, cssWidth, cssHeight);
    HalfWidthWithinPad(stroke, i, view.scale);
    half, pad := WidthAt(stroke, i, view.scale) / 2.0, Pad(stroke, view.scale);
  }

  /** A stroke is only left out when none of its ink is on the canvas. */
  lemma CulledInkIsOutOfView(stroke: Stroke, view: View, cssWidth: real, cssHeight: real, i: nat, t: real, p: Point)
    requires view.scale > 0.0 && stroke.style.width >= 0.0 && i + 1 < |stroke.points|
    requires !MayBeVisible(stroke, ViewportOf(cssWidth, cssHeight, view))
    requires Covers(SegmentAt(stroke, view, i), t, p)
    ensures !InView(p, cssWidth, cssHeight)
  {
    var half, pad := Reach(stroke, view, i, cssWidth, cssHeight);
    var s := SegmentAt(stroke, view, i);
    assert s.width / 2.0 == half;
    PaddedBoxMisses(
      stroke.points[i], stroke.points[i + 1], view, s, Bounds(stroke.points), pad, t, p, cssWidth, cssHeight);
  }

  lemma MissX(a: StrokePoint, b: StrokePoint, view: View, s: Segment, box: Box, pad: real, t: real, p: Point,
              size: real)
    requires view.scale > 0.0 && 0.0 <= t <= 1.0 && s.from == view.ToCss(a) && s.to == view.ToCss(b)
    requires box.minX <= a.x <= box.maxX && box.minX <= b.x <= box.maxX && s.width / 2.0 <= OnScreen(pad, view.scale)
    requires -s.width / 2.0 <= p.x - Along(s.from.x, s.to.x, t) <= s.width / 2.0
    requires MissesOn(box.minX, box.maxX, pad, view.offsetX, size, view.scale)
    ensures !(0.0 <= p.x <= size)
  {
    AxisMiss(a.x, b.x, t, box.minX, box.maxX, view.scale, view.offsetX, pad, s.width / 2.0, p.x, size);
  }

  lemma MissY(a: StrokePoint, b: StrokePoint, view: View, s: Segment, box: Box, pad: real, t: real, p: Point,
              size: real)
    requires view.scale > 0.0 && 0.0 <= t <= 1.0 && s.from == view.ToCss(a) && s.to == view.ToCss(b)
    requires box.minY <= a.y <= box.maxY && box.minY <= b.y <= box.maxY && s.width / 2.0 <= OnScreen(pad, view.scale)
    requires -s.width / 2.0 <= p.y - Along(s.from.y, s.to.y, t) <= s.width / 2.0
    requires MissesOn(box.minY, box.maxY, pad, view.offsetY, size, view.scale)
    ensures !(0.0 <= p.y <= size)
  {
    AxisMiss(a.y, b.y, t, box.minY, box.maxY, view.scale, view.offsetY, pad, s.width / 2.0, p.y, size);
  }

  // ---- The page's ink -----------------------------------------------------

  function StrokesOf(batches: seq<StrokeBatch>): seq<Stroke> {
    if batches == [] then [] else StrokesOf(batches[..|batches| - 1]) + batches[|batches| - 1].strokes
  }

  /** The strokes the drawing keeps: those with a segment that may be in view. */
  function Drawable(strokes: seq<Stroke>, v: WorldViewport): seq<Stroke>
    requires v.scale > 0.0
  {
    if strokes == [] then []
    else
      var last := strokes[|strokes| - 1];
      Drawable(strokes[..|strokes| - 1], v) + if |last.points| >= 2 && MayBeVisible(last, v) then [last] else []
  }

  function InkOf(strokes: seq<Stroke>, view: View): seq<Segment> {
    if strokes == [] then []
    else
      var last := strokes[|strokes| - 1];
      InkOf(strokes[..|strokes| - 1], view) + OneByOne(last, view, SegmentCount(last))
  }

  method KeepDrawable(strokes: seq<Stroke>, v: WorldViewport) returns (kept: seq<Stroke>)
    requires v.scale > 0.0
    ensures kept == Drawable(strokes, v)
  {
    kept := [];
    var i := 0;
    while i < |strokes|
      invariant 0 <= i <= |strokes|
      invariant kept == Drawable(strokes[..i], v)
    {
      assert strokes[..i + 1][..i] == strokes[..i];
      if |strokes[i].points| >= 2 {
        var visible := StrokeMayBeVisible(strokes[i], v);
        if visible { kept := kept + [strokes[i]]; }
      }
      i := i + 1;
    }
    assert strokes[..i] == strokes;
  }

  method DrawStrokes(context: CanvasContext, pen: Pen, strokes: seq<Stroke>, view: View)
    requires pen.InForce(context.state) && context.state.cap == Round
    modifies context, pen
    ensures pen.InForce(context.state) && SameGround(context.state, old(context.state))
    ensures context.state.ink == old(context.state.ink) + InkOf(strokes, view)
  {
    var i := 0;
    while i < |strokes|
      invariant 0 <= i <= |strokes| && pen.InForce(context.state) && SameGround(context.state, old(context.state))
      invariant context.state.ink == old(context.state.ink) + InkOf(strokes[..i], view)
    {
      assert strokes[..i + 1][..i] == strokes[..i];
      DrawStroke(context, pen, strokes[i], view);
      i := i + 1;
    }
    assert strokes[..i] == strokes;
  }

  const WHITE := Colored("#ffffff")

  /** White, and over it the grain if the paper has one and its tile could be
      built. */
  method LayGround(context: CanvasContext, paper: Paper, tileBuilt: bool, cssWidth: real, cssHeight: real)
    modifies context
    ensures var over := |old(context.state.ink)|;
            context.state == old(context.state).(fills := old(context.state.fills)
              + [Fill(Colored("#ffffff"), cssWidth, cssHeight, over)]
              + if paper.BlankPaper? || !tileBuilt then [] else [Fill(GrainPattern, cssWidth, cssHeight, over)])
  {
    context.FillRect(WHITE, cssWidth, cssHeight);
    if !paper.BlankPaper? && tileBuilt {
      context.FillRect(GrainPattern, cssWidth, cssHeight);
    }
  }

  /** White and the grain under everything, then the paper's lines, then the ink
      over them with round ends and joins. */
  method DrawCanvas(context: CanvasContext, batches: seq<StrokeBatch>, paper: Paper, tileBuilt: bool,
                    cssWidth: real, cssHeight: real, view: View)
    requires view.scale > 0.0
    modifies context
    ensures var over := |old(context.state.ink)|;
            context.state.fills == old(context.state.fills)
              + [Fill(Colored("#ffffff"), cssWidth, cssHeight, over)]
              + if paper.BlankPaper? || !tileBuilt then [] else [Fill(GrainPattern, cssWidth, cssHeight, over)]
    ensures context.state.cap == Round && context.state.roundJoins
    ensures var v := ViewportOf(cssWidth, cssHeight, view);
            context.state.ink == old(context.state.ink) + MarkByMark(Marks(paper, v), v, view)
                               + InkOf(Drawable(StrokesOf(batches), v), view)
  {
    LayGround(context, paper, tileBuilt, cssWidth, cssHeight);
    var v := ViewportOf(cssWidth, cssHeight, view);
    DrawPaper(context, paper, v, view);
    context.SetLineCap(Round);
    context.SetRoundJoins();
    var pen := new Pen();
    var kept := KeepDrawable(StrokesOf(batches), v);
    DrawStrokes(context, pen, kept, view);
  }

  // ---- What lies over what ------------------------------------------------

  /** Of two lists of batches the ink of the second lies over that of the first:
      what is drawn keeps the order of batches, strokes and segments. */
  lemma LaterInkIsOnTop(below: seq<StrokeBatch>, above: seq<StrokeBatch>, v: WorldViewport, view: View)
    requires v.scale > 0.0
    ensures InkOf(Drawable(StrokesOf(below + above), v), view)
         == InkOf(Drawable(StrokesOf(below), v), view) + InkOf(Drawable(StrokesOf(above), v), view)
  {
    StrokesOfConcat(below, above);
    DrawableConcat(StrokesOf(below), StrokesOf(above), v);
    InkOfConcat(Drawable(StrokesOf(below), v), Drawable(StrokesOf(above), v), view);
  }

  lemma StrokesOfMore(batches: seq<StrokeBatch>, batch: StrokeBatch)
    ensures StrokesOf(batches + [batch]) == StrokesOf(batches) + batch.strokes
  {
    assert (batches + [batch])[..|batches|] == batches;
  }

  lemma Regrouped(a: seq<Stroke>, b: seq<Stroke>, c: seq<Stroke>)
    ensures (a + b) + c == a + (b + c)
  {
  }

  lemma {:induction false} StrokesOfConcat(a: seq<StrokeBatch>, b: seq<StrokeBatch>)
    ensures StrokesOf(a + b) == StrokesOf(a) + StrokesOf(b)
    decreases |b|
  {
    if b == [] {
      assert a + b == a;
    } else {
      var rest, last := b[..|b| - 1], b[|b| - 1];
      StrokesOfConcat(a, rest);
      StrokesOfMore(a + rest, last);
      Regrouped(StrokesOf(a), StrokesOf(rest), last.strokes);
      assert a + b == (a + rest) + [last];
    }
  }

  lemma {:induction false} DrawableConcat(a: seq<Stroke>, b: seq<Stroke>, v: WorldViewport)
    requires v.scale > 0.0
    ensures Drawable(a + b, v) == Drawable(a, v) + Drawable(b, v)
  {
    if b == [] {
      assert a + b == a;
    } else {
      DrawableConcat(a, b[..|b| - 1], v);
      assert (a + b)[..|a + b| - 1] == a + b[..|b| - 1];
    }
  }

  lemma {:induction false} InkOfConcat(a: seq<Stroke>, b: seq<Stroke>, view: View)
    ensures InkOf(a + b, view) == InkOf(a, view) + InkOf(b, view)
  {
    if b == [] {
      assert a + b == a;
    } else {
      InkOfConcat(a, b[..|b| - 1], view);
      assert (a + b)[..|a + b| - 1] == a + b[..|b| - 1];
    }
  }

  lemma StrokesOfOne(batch: StrokeBatch)
    ensures StrokesOf([batch]) == batch.strokes
  {
    assert [batch][..0] == [];
  }

  lemma DrawableOne(stroke: Stroke, v: WorldViewport)
    requires v.scale > 0.0
    ensures Drawable([stroke], v) == if |stroke.points| >= 2 && MayBeVisible(stroke, v) then [stroke] else []
  {
    assert [stroke][..0] == [];
  }

  lemma InkOfOne(stroke: Stroke, view: View)
    ensures InkOf([stroke], view) == OneByOne(stroke, view, SegmentCount(stroke))
  {
    assert [stroke][..0] == [];
  }

  /** And a stroke is drawn whole or, with fewer than two points or out of view, not
      at all. */
  lemma OneStrokeIsDrawnWhole(batch: StrokeBatch, stroke: Stroke, v: WorldViewport, view: View)
    requires v.scale > 0.0 && batch.strokes == [stroke]
    ensures InkOf(Drawable(StrokesOf([batch]), v), view)
         == if |stroke.points| >= 2 && MayBeVisible(stroke, v) then OneByOne(stroke, view, |stroke.points| - 1) else []
  {
    StrokesOfOne(batch);
    DrawableOne(stroke, v);
    InkOfOne(stroke, view);
  }

  lemma {:induction false} VisibleIsKept(strokes: seq<Stroke>, v: WorldViewport, k: nat)
    requires v.scale > 0.0 && k < |strokes| && |strokes[k].points| >= 2 && MayBeVisible(strokes[k], v)
    ensures strokes[k] in Drawable(strokes, v)
  {
    if k < |strokes| - 1 {
      VisibleIsKept(strokes[..|strokes| - 1], v, k);
    }
  }

  lemma {:induction false} KeptIsInked(strokes: seq<Stroke>, view: View, stroke: Stroke, s: Segment)
    requires stroke in strokes && s in OneByOne(stroke, view, SegmentCount(stroke))
    ensures s in InkOf(strokes, view)
  {
    var n := |strokes| - 1;
    if stroke != strokes[n] {
      assert strokes == strokes[..n] + [strokes[n]];
      KeptIsInked(strokes[..n], view, stroke, s);
    }
  }

  lemma InViewIsVisible(stroke: Stroke, view: View, cssWidth: real, cssHeight: real, i: nat, t: real, p: Point)
    requires view.scale > 0.0 && stroke.style.width >= 0.0 && i + 1 < |stroke.points|
    requires Covers(SegmentAt(stroke, view, i), t, p) && InView(p, cssWidth, cssHeight)
    ensures MayBeVisible(stroke, ViewportOf(cssWidth, cssHeight, view))
  {
    if !MayBeVisible(stroke, ViewportOf(cssWidth, cssHeight, view)) {
      CulledInkIsOutOfView(stroke, view, cssWidth, cssHeight, i, t, p);
    }
  }

  /** Every segment with any ink in view is drawn, as it would be by itself. */
  lemma InkInViewIsDrawn(
      strokes: seq<Stroke>, view: View, cssWidth: real, cssHeight: real, k: nat, i: nat, t: real, p: Point)
    requires view.scale > 0.0 && k < |strokes| && i + 1 < |strokes[k].points| && strokes[k].style.width >= 0.0
    requires Covers(SegmentAt(strokes[k], view, i), t, p) && InView(p, cssWidth, cssHeight)
    ensures SegmentAt(strokes[k], view, i)
         in InkOf(Drawable(strokes, ViewportOf(cssWidth, cssHeight, view)), view)
  {
    var v := ViewportOf(cssWidth, cssHeight, view);
    InViewIsVisible(strokes[k], view, cssWidth, cssHeight, i, t, p);
    VisibleIsKept(strokes, v, k);
    OneByOneAt(strokes[k], view, SegmentCount(strokes[k]), i);
    KeptIsInked(Drawable(strokes, v), view, strokes[k], SegmentAt(strokes[k], view, i));
  }
}
