/**
  The foot heatmap: the heat colour of a load, the drawing commands the
  canvas effect issues, and a small model of the 2D context (the drawing
  state, its save/restore stack, the clip, the current path) that tells what
  each fill and text was painted with.
*/
module Heatmap {
  import opened Domain

  /** A CSS hsla() colour (CSS Color Module Level 3, section 4.2.5): hue in
      degrees, saturation and lightness in percent, alpha in [0,1]. */
  datatype Hsla = Hsla(hue: real, saturation: real, lightness: real, alpha: real)

  /** getHeatColor: 0 is blue (240 degrees), 1 is red (0 degrees), affine
      in between and beyond, with no clamp. */
  function HeatColor(value: real, alpha: real): (c: Hsla)
    ensures c.saturation == 100.0 && c.lightness == 50.0 && c.alpha == alpha
    ensures 0.0 <= c.hue <= 240.0 <==> 0.0 <= value <= 1.0
    ensures value < 0.0 ==> c.hue > 240.0
    ensures value > 1.0 ==> c.hue < 0.0
    ensures c.hue / 240.0 + value == 1.0
  {
    Hsla((1.0 - value) * 240.0, 100.0, 50.0, alpha)
  }

  /** The hue strictly decreases as the load grows, whatever the alphas. */
  lemma HueStrictlyDecreasing(v: real, w: real, a: real, b: real)
    requires v < w
    ensures HeatColor(v, a).hue > HeatColor(w, b).hue
  {
  }

  /** The three swatches of the legend: low, medium, high. */
  function Legend(): (swatches: seq<Hsla>)
    ensures |swatches| == 3
    ensures swatches[0].hue == 240.0 && swatches[1].hue == 120.0 && swatches[2].hue == 0.0
    ensures forall i :: 0 <= i < 3 ==> swatches[i].alpha == 1.0
  {
    [HeatColor(0.0, 1.0), HeatColor(0.5, 1.0), HeatColor(1.0, 1.0)]
  }

  // ---------------------------------------------------------------------------
  // Drawing commands

  datatype Shape =
    | Ellipse(cx: real, cy: real, rx: real, ry: real)
    | RoundRect(x: real, y: real, w: real, h: real, radius: real)

  datatype ColorStop = ColorStop(offset: real, color: Hsla)

  /** createRadialGradient(x0, y0, r0, x1, y1, r1) with its colour stops. */
  datatype Gradient = RadialGradient(x0: real, y0: real, r0: real, x1: real, y1: real, r1: real, stops: seq<ColorStop>)

  datatype Paint = CssColor(css: string) | GradientPaint(gradient: Gradient)

  /** Text of fillText: a zone's load as a percentage with one decimal, or a caption. */
  datatype Text = PercentOf(load: real) | Caption(caption: string)

  /** The context calls the effect makes.  FillOutline, StrokeOutline and
      ClipOutline take the foot outline path. */
  datatype DrawCmd =
    | ClearRect(x: real, y: real, w: real, h: real)
    | SetFillStyle(fill: Paint)
    | SetStrokeStyle(stroke: string)
    | SetLineWidth(lineWidth: real)
    | SetFont(font: string)
    | SetTextAlign(align: string)
    | SetTextBaseline(baseline: string)
    | FillOutline
    | StrokeOutline
    | Save
    | ClipOutline
    | Restore
    | BeginPath
    | AddShape(shape: Shape)
    | Fill
    | FillText(text: Text, x: real, y: real)

  const OutlineFill := "#1a1f2e"
  const Cyan := "#22d3ee"
  const White := "#ffffff"
  const PercentFont := "bold 14px monospace"
  const LabelFont := "12px monospace"

  datatype Zone = Forefoot | Midfoot | Rearfoot

  /** Vertical anchor of a zone's gradient and percentage text. */
  function Anchor(z: Zone, h: real): real {
    match z
    case Forefoot => h * 0.15
    case Midfoot => h * 0.50
    case Rearfoot => h * 0.85
  }

  function ZoneShape(z: Zone, w: real, h: real): Shape {
    match z
    case Forefoot => Ellipse(w * 0.5, h * 0.15, w * 0.25, h * 0.12)
    case Midfoot => RoundRect(w * 0.28, h * 0.38, w * 0.44, h * 0.26, 40.0)
    case Rearfoot => Ellipse(w * 0.5, h * 0.85, w * 0.2, h * 0.12)
  }

  function ZoneLoad(z: Zone, loads: PredictedLoads): real {
    match z
    case Forefoot => loads.forefoot
    case Midfoot => loads.midfoot
    case Rearfoot => loads.rearfoot
  }

  function ZoneCaption(z: Zone): string {
    match z
    case Forefoot => "Forefoot"
    case Midfoot => "Midfoot"
    case Rearfoot => "Rearfoot"
  }

  /** The gradient of a zone: centred on the zone's anchor, radii 0.05w and
      0.35w, the load's heat colour at alpha 0.9 inside and 0.3 outside. */
  function ZoneGradient(w: real, y: real, load: real): (g: Gradient)
    ensures |g.stops| == 2 && g.stops[0].offset == 0.0 && g.stops[1].offset == 1.0
    ensures g.stops[0].color.hue == g.stops[1].color.hue == HeatColor(load, 1.0).hue
    ensures g.stops[0].color.alpha == 0.9 && g.stops[1].color.alpha == 0.3
    ensures g.x0 == g.x1 == w * 0.5 && g.y0 == g.y1 == y
  {
    RadialGradient(w * 0.5, y, w * 0.05, w * 0.5, y, w * 0.35,
                   [ColorStop(0.0, HeatColor(load, 0.9)), ColorStop(1.0, HeatColor(load, 0.3))])
  }

  /** The outline's fill colour, stroke colour and line width. */
  function OutlineStyle(): seq<DrawCmd> {
    [SetFillStyle(CssColor(OutlineFill)), SetStrokeStyle(Cyan), SetLineWidth(2.0)]
  }

  /** Clear the canvas, then fill and stroke the foot outline. */
  function OutlineCommands(w: real, h: real): seq<DrawCmd> {
    [ClearRect(0.0, 0.0, w, h)] + OutlineStyle() + [FillOutline, StrokeOutline]
  }

  /** The first half of drawZone: save, clip to the outline, select the gradient. */
  function ClipToOutline(paint: Paint): seq<DrawCmd> {
    [Save, ClipOutline, SetFillStyle(paint)]
  }

  /** The draw callback handed to drawZone: a fresh path holding the zone's shape, filled. */
  function FillShape(shape: Shape): seq<DrawCmd> {
    [BeginPath, AddShape(shape), Fill]
  }

  /** The text style of a zone's percentage. */
  function PercentStyle(): seq<DrawCmd> {
    [SetFillStyle(CssColor(White)), SetFont(PercentFont), SetTextAlign("center")]
  }

  function PercentText(load: real, x: real, y: real): seq<DrawCmd> {
    [SetTextBaseline("middle"), FillText(PercentOf(load), x, y)]
  }

  /** The clipped half of drawZone: the shape filled with `paint` inside the outline clip. */
  function ClippedFill(paint: Paint, shape: Shape): seq<DrawCmd> {
    ClipToOutline(paint) + FillShape(shape) + [Restore]
  }

  /** The text half of drawZone: the load as a percentage at (x, y). */
  function PercentCommands(load: real, x: real, y: real): seq<DrawCmd> {
    PercentStyle() + PercentText(load, x, y)
  }

  /** drawZone: the clipped gradient fill of the shape, then the percentage. */
  function ZoneCommands(w: real, y: real, load: real, shape: Shape): seq<DrawCmd> {
    ClippedFill(GradientPaint(ZoneGradient(w, y, load)), shape) + PercentCommands(load, w * 0.5, y)
  }

  function DrawZoneCommands(z: Zone, w: real, h: real, loads: PredictedLoads): seq<DrawCmd> {
    ZoneCommands(w, Anchor(z, h), ZoneLoad(z, loads), ZoneShape(z, w, h))
  }

  function LabelStyle(): seq<DrawCmd> {
    [SetFillStyle(CssColor(Cyan)), SetFont(LabelFont), SetTextAlign("left")]
  }

  function Captions(w: real, h: real): seq<DrawCmd> {
    [FillText(Caption("Forefoot"), w * 0.85, h * 0.15),
     FillText(Caption("Midfoot"), w * 0.85, h * 0.5),
     FillText(Caption("Rearfoot"), w * 0.85, h * 0.85)]
  }

  /** The side captions, at x = 0.85w and each zone's anchor height. */
  function LabelCommands(w: real, h: real): seq<DrawCmd> {
    LabelStyle() + Captions(w, h)
  }

  /** The three drawZone calls, from the toes to the heel. */
  function ZonesCommands(w: real, h: real, loads: PredictedLoads): seq<DrawCmd> {
    DrawZoneCommands(Forefoot, w, h, loads)
    + DrawZoneCommands(Midfoot, w, h, loads)
    + DrawZoneCommands(Rearfoot, w, h, loads)
  }

  /** Everything the effect draws on a canvas of the given size. */
  function HeatmapCommands(w: real, h: real, loads: PredictedLoads): seq<DrawCmd> {
    OutlineCommands(w, h) + ZonesCommands(w, h, loads) + LabelCommands(w, h)
  }

  // ---------------------------------------------------------------------------
  // The 2D context

  /** The parts of the canvas drawing state the effect touches; `clipped`
      says the foot outline clip is in force. */
  datatype DrawingState = DrawingState(
    fill: Paint, stroke: string, lineWidth: real, font: string, align: string, baseline: string, clipped: bool)

  /** What reached the pixels, and with which drawing state. */
  datatype MarkKind =
    | Cleared(x: real, y: real, w: real, h: real)
    | OutlineFilled
    | OutlineStroked
    | PathFilled(path: seq<Shape>)
    | TextFilled(text: Text, x: real, y: real)

  datatype Mark = Mark(kind: MarkKind, st: DrawingState)

  /** A context: the current drawing state, the save stack, the current path
      (not part of the drawing state), and the marks painted so far. */
  datatype Context = Context(cur: DrawingState, saved: seq<DrawingState>, path: seq<Shape>, marks: seq<Mark>)

  function Paint1(g: Context, kind: MarkKind): Context {
    g.(marks := g.marks + [Mark(kind, g.cur)])
  }

  function Exec(g: Context, c: DrawCmd): Context {
    match c
    case ClearRect(x, y, w, h) => Paint1(g, Cleared(x, y, w, h))
    case SetFillStyle(p) => g.(cur := g.cur.(fill := p))
    case SetStrokeStyle(s) => g.(cur := g.cur.(stroke := s))
    case SetLineWidth(lw) => g.(cur := g.cur.(lineWidth := lw))
    case SetFont(f) => g.(cur := g.cur.(font := f))
    case SetTextAlign(a) => g.(cur := g.cur.(align := a))
    case SetTextBaseline(b) => g.(cur := g.cur.(baseline := b))
    case FillOutline => Paint1(g, OutlineFilled)
    case StrokeOutline => Paint1(g, OutlineStroked)
    case Save => g.(saved := g.saved + [g.cur])
    case ClipOutline => g.(cur := g.cur.(clipped := true))
    case Restore =>
      // restore() with an empty stack does nothing
      if g.saved == [] then g else g.(cur := g.saved[|g.saved| - 1], saved := g.saved[..|g.saved| - 1])
    case BeginPath => g.(path := [])
    case AddShape(s) => g.(path := g.path + [s])
    case Fill => Paint1(g, PathFilled(g.path))
    case FillText(t, x, y) => Paint1(g, TextFilled(t, x, y))
  }

  function Replay(g: Context, cmds: seq<DrawCmd>): Context
    decreases |cmds|
  {
    if cmds == [] then g else Replay(Exec(g, cmds[0]), cmds[1..])
  }

  lemma {:induction false} ReplayAppend(g: Context, a: seq<DrawCmd>, b: seq<DrawCmd>)
    ensures Replay(g, a + b) == Replay(Replay(g, a), b)
    decreases |a|
  {
    if a == [] {
      assert a + b == b;
    } else {
      assert (a + b)[1..] == a[1..] + b;
      ReplayAppend(Exec(g, a[0]), a[1..], b);
    }
  }

  lemma ReplayOne(g: Context, c: DrawCmd)
    ensures Replay(g, [c]) == Exec(g, c)
  {
    assert [c][1..] == [];
  }

  lemma ReplayTwo(g: Context, c: DrawCmd, d: DrawCmd)
    ensures Replay(g, [c, d]) == Exec(Exec(g, c), d)
  {
    assert [c, d][1..] == [d];
    ReplayOne(Exec(g, c), d);
  }

  lemma ReplayThree(g: Context, c: DrawCmd, d: DrawCmd, e: DrawCmd)
    ensures Replay(g, [c, d, e]) == Exec(Exec(Exec(g, c), d), e)
  {
    assert [c, d, e][1..] == [d, e];
    ReplayTwo(Exec(g, c), d, e);
  }


  // ---------------------------------------------------------------------------
  // What each block of commands does to the context

  /** The drawing state after the outline style is set. */
  function OutlineState(s: DrawingState): DrawingState {
    s.(fill := CssColor(OutlineFill), stroke := Cyan, lineWidth := 2.0)
  }

  /** The drawing state inside drawZone's clip. */
  function ClipState(s: DrawingState, paint: Paint): DrawingState {
    s.(fill := paint, clipped := true)
  }

  /** The drawing state of a zone's percentage text. */
  function PercentState(s: DrawingState): DrawingState {
    s.(fill := CssColor(White), font := PercentFont, align := "center", baseline := "middle")
  }

  /** The drawing state of the side captions. */
  function LabelState(s: DrawingState): DrawingState {
    s.(fill := CssColor(Cyan), font := LabelFont, align := "left")
  }

  lemma ClearReplay(g: Context, w: real, h: real)
    ensures Replay(g, [ClearRect(0.0, 0.0, w, h)]) == g.(marks := g.marks + [Mark(Cleared(0.0, 0.0, w, h), g.cur)])
  {
    ReplayOne(g, ClearRect(0.0, 0.0, w, h));
  }

  lemma OutlineStyleReplay(g: Context)
    ensures Replay(g, OutlineStyle()) == g.(cur := OutlineState(g.cur))
  {
    ReplayThree(g, SetFillStyle(CssColor(OutlineFill)), SetStrokeStyle(Cyan), SetLineWidth(2.0));
  }

  lemma OutlinePaintReplay(g: Context)
    ensures Replay(g, [FillOutline, StrokeOutline]) == g.(marks := g.marks + [Mark(OutlineFilled, g.cur), Mark(OutlineStroked, g.cur)])
  {
    ReplayTwo(g, FillOutline, StrokeOutline);
    assert g.marks + [Mark(OutlineFilled, g.cur)] + [Mark(OutlineStroked, g.cur)]
        == g.marks + [Mark(OutlineFilled, g.cur), Mark(OutlineStroked, g.cur)];
  }

  function OutlineMarks(s: DrawingState, w: real, h: real): seq<Mark> {
    [Mark(Cleared(0.0, 0.0, w, h), s), Mark(OutlineFilled, OutlineState(s)), Mark(OutlineStroked, OutlineState(s))]
  }

  /** The outline: the canvas is cleared with the incoming state, then the
      outline is filled and stroked in the outline style. */
  lemma OutlineReplay(g: Context, w: real, h: real)
    ensures Replay(g, OutlineCommands(w, h))
         == g.(cur := OutlineState(g.cur), marks := g.marks + OutlineMarks(g.cur, w, h))
  {
    var a := [ClearRect(0.0, 0.0, w, h)];
    ReplayAppend(g, a + OutlineStyle(), [FillOutline, StrokeOutline]);
    ReplayAppend(g, a, OutlineStyle());
    ClearReplay(g, w, h);
    var g1 := g.(marks := g.marks + [Mark(Cleared(0.0, 0.0, w, h), g.cur)]);
    OutlineStyleReplay(g1);
    OutlinePaintReplay(g1.(cur := OutlineState(g.cur)));
    assert g1.marks + [Mark(OutlineFilled, OutlineState(g.cur)), Mark(OutlineStroked, OutlineState(g.cur))]
        == g.marks + OutlineMarks(g.cur, w, h);
  }

  lemma ClipReplay(g: Context, paint: Paint)
    ensures Replay(g, ClipToOutline(paint)) == g.(cur := ClipState(g.cur, paint), saved := g.saved + [g.cur])
  {
    ReplayThree(g, Save, ClipOutline, SetFillStyle(paint));
  }

  lemma FillShapeReplay(g: Context, shape: Shape)
    ensures Replay(g, FillShape(shape)) == g.(path := [shape], marks := g.marks + [Mark(PathFilled([shape]), g.cur)])
  {
    ReplayThree(g, BeginPath, AddShape(shape), Fill);
    assert [] + [shape] == [shape];
  }

  /** restore() pops the state pushed last. */
  lemma RestoreReplay(g: Context, top: DrawingState)
    ensures Replay(g.(saved := g.saved + [top]), [Restore]) == g.(cur := top)
  {
    var g1 := g.(saved := g.saved + [top]);
    ReplayOne(g1, Restore);
    assert g1.saved[..|g1.saved| - 1] == g.saved;
  }

  /** The clipped half of drawZone: save, clip to the outline, fill the
      shape with the given paint, restore.  One mark, painted inside the clip;
      afterwards the drawing state and the save stack are as before. */
  lemma ClippedFillReplay(g: Context, paint: Paint, shape: Shape)
    ensures Replay(g, ClippedFill(paint, shape))
         == g.(path := [shape], marks := g.marks + [Mark(PathFilled([shape]), ClipState(g.cur, paint))])
  {
    ReplayAppend(g, ClipToOutline(paint) + FillShape(shape), [Restore]);
    ReplayAppend(g, ClipToOutline(paint), FillShape(shape));
    ClipReplay(g, paint);
    var g3 := g.(cur := ClipState(g.cur, paint), saved := g.saved + [g.cur]);
    FillShapeReplay(g3, shape);
    var g5 := g.(cur := ClipState(g.cur, paint), path := [shape], marks := g.marks + [Mark(PathFilled([shape]), ClipState(g.cur, paint))]);
    assert Replay(g3, FillShape(shape)) == g5.(saved := g.saved + [g.cur]);
    RestoreReplay(g5, g.cur);
  }

  lemma PercentStyleReplay(g: Context)
    ensures Replay(g, PercentStyle()) == g.(cur := g.cur.(fill := CssColor(White), font := PercentFont, align := "center"))
  {
    ReplayThree(g, SetFillStyle(CssColor(White)), SetFont(PercentFont), SetTextAlign("center"));
  }

  lemma PercentTextReplay(g: Context, load: real, x: real, y: real)
    ensures Replay(g, PercentText(load, x, y))
         == g.(cur := g.cur.(baseline := "middle"),
               marks := g.marks + [Mark(TextFilled(PercentOf(load), x, y), g.cur.(baseline := "middle"))])
  {
    ReplayTwo(g, SetTextBaseline("middle"), FillText(PercentOf(load), x, y));
  }

  /** The text half of drawZone: white, bold 14px, centred, middle baseline. */
  lemma PercentReplay(g: Context, load: real, x: real, y: real)
    ensures Replay(g, PercentCommands(load, x, y))
         == g.(cur := PercentState(g.cur), marks := g.marks + [Mark(TextFilled(PercentOf(load), x, y), PercentState(g.cur))])
  {
    ReplayAppend(g, PercentStyle(), PercentText(load, x, y));
    PercentStyleReplay(g);
    PercentTextReplay(Replay(g, PercentStyle()), load, x, y);
  }

  function ZoneMarks(s: DrawingState, w: real, y: real, load: real, shape: Shape): seq<Mark> {
    [Mark(PathFilled([shape]), ClipState(s, GradientPaint(ZoneGradient(w, y, load)))),
     Mark(TextFilled(PercentOf(load), w * 0.5, y), PercentState(s))]
  }

  /** drawZone paints exactly two marks: the shape, filled with the zone's
      gradient inside the outline clip, and then, with the clip released,
      the percentage at the anchor.  The drawing state ends as the percentage
      text left it and the save stack is as before. */
  lemma ZoneReplay(g: Context, w: real, y: real, load: real, shape: Shape)
    ensures Replay(g, ZoneCommands(w, y, load, shape))
         == Context(PercentState(g.cur), g.saved, [shape], g.marks + ZoneMarks(g.cur, w, y, load, shape))
  {
    var paint := GradientPaint(ZoneGradient(w, y, load));
    ReplayAppend(g, ClippedFill(paint, shape), PercentCommands(load, w * 0.5, y));
    ClippedFillReplay(g, paint, shape);
    var g1 := g.(path := [shape], marks := g.marks + [Mark(PathFilled([shape]), ClipState(g.cur, paint))]);
    PercentReplay(g1, load, w * 0.5, y);
    assert g1.marks + [Mark(TextFilled(PercentOf(load), w * 0.5, y), PercentState(g.cur))]
        == g.marks + ZoneMarks(g.cur, w, y, load, shape);
  }

  lemma LabelStyleReplay(g: Context)
    ensures Replay(g, LabelStyle()) == g.(cur := LabelState(g.cur))
  {
    ReplayThree(g, SetFillStyle(CssColor(Cyan)), SetFont(LabelFont), SetTextAlign("left"));
  }

  function LabelMarks(s: DrawingState, w: real, h: real): seq<Mark> {
    [Mark(TextFilled(Caption("Forefoot"), w * 0.85, h * 0.15), s),
     Mark(TextFilled(Caption("Midfoot"), w * 0.85, h * 0.5), s),
     Mark(TextFilled(Caption("Rearfoot"), w * 0.85, h * 0.85), s)]
  }

  lemma CaptionsReplay(g: Context, w: real, h: real)
    ensures Replay(g, Captions(w, h)) == g.(marks := g.marks + LabelMarks(g.cur, w, h))
  {
    ReplayThree(g, FillText(Caption("Forefoot"), w * 0.85, h * 0.15),
                FillText(Caption("Midfoot"), w * 0.85, h * 0.5),
                FillText(Caption("Rearfoot"), w * 0.85, h * 0.85));
    var ms := LabelMarks(g.cur, w, h);
    assert g.marks + [ms[0]] + [ms[1]] + [ms[2]] == g.marks + ms;
  }

  /** The labels: three captions in the label style. */
  lemma LabelReplay(g: Context, w: real, h: real)
    ensures Replay(g, LabelCommands(w, h))
         == g.(cur := LabelState(g.cur), marks := g.marks + LabelMarks(LabelState(g.cur), w, h))
  {
    ReplayAppend(g, LabelStyle(), Captions(w, h));
    LabelStyleReplay(g);
    CaptionsReplay(g.(cur := LabelState(g.cur)), w, h);
  }

  /** The marks of one drawZone call. */
  function DrawZoneMarks(z: Zone, s: DrawingState, w: real, h: real, loads: PredictedLoads): seq<Mark> {
    ZoneMarks(s, w, Anchor(z, h), ZoneLoad(z, loads), ZoneShape(z, w, h))
  }

  lemma DrawZoneReplay(g: Context, z: Zone, w: real, h: real, loads: PredictedLoads)
    ensures Replay(g, DrawZoneCommands(z, w, h, loads))
         == Context(PercentState(g.cur), g.saved, [ZoneShape(z, w, h)], g.marks + DrawZoneMarks(z, g.cur, w, h, loads))
  {
    ZoneReplay(g, w, Anchor(z, h), ZoneLoad(z, loads), ZoneShape(z, w, h));
  }

  /** The marks of the three zones; the first zone starts from `s`, the
      others from the percentage style the previous zone left behind. */
  function ZonesMarks(s: DrawingState, w: real, h: real, loads: PredictedLoads): seq<Mark> {
    DrawZoneMarks(Forefoot, s, w, h, loads)
    + DrawZoneMarks(Midfoot, PercentState(s), w, h, loads)
    + DrawZoneMarks(Rearfoot, PercentState(s), w, h, loads)
  }

  lemma ZonesReplay(g: Context, w: real, h: real, loads: PredictedLoads)
    ensures Replay(g, ZonesCommands(w, h, loads))
         == Context(PercentState(g.cur), g.saved, [ZoneShape(Rearfoot, w, h)], g.marks + ZonesMarks(g.cur, w, h, loads))
  {
    var f := DrawZoneCommands(Forefoot, w, h, loads);
    var m := DrawZoneCommands(Midfoot, w, h, loads);
    ReplayAppend(g, f + m, DrawZoneCommands(Rearfoot, w, h, loads));
    ReplayAppend(g, f, m);
    DrawZoneReplay(g, Forefoot, w, h, loads);
    var p := PercentState(g.cur);
    var g1 := Context(p, g.saved, [ZoneShape(Forefoot, w, h)], g.marks + DrawZoneMarks(Forefoot, g.cur, w, h, loads));
    DrawZoneReplay(g1, Midfoot, w, h, loads);
    assert PercentState(p) == p;
    var g2 := Context(p, g.saved, [ZoneShape(Midfoot, w, h)], g1.marks + DrawZoneMarks(Midfoot, p, w, h, loads));
    DrawZoneReplay(g2, Rearfoot, w, h, loads);
    assert g2.marks + DrawZoneMarks(Rearfoot, p, w, h, loads) == g.marks + ZonesMarks(g.cur, w, h, loads);
  }

  /** Everything the effect paints, from the incoming drawing state `s`. */
  function HeatmapMarks(s: DrawingState, w: real, h: real, loads: PredictedLoads): seq<Mark> {
    OutlineMarks(s, w, h)
    + ZonesMarks(OutlineState(s), w, h, loads)
    + LabelMarks(LabelState(PercentState(OutlineState(s))), w, h)
  }

  /** The whole effect: twelve marks, in the order of HeatmapMarks, and the
      save stack is left as it was found. */
  lemma HeatmapReplay(g: Context, w: real, h: real, loads: PredictedLoads)
    ensures Replay(g, HeatmapCommands(w, h, loads))
         == Context(LabelState(PercentState(OutlineState(g.cur))), g.saved, [ZoneShape(Rearfoot, w, h)],
                    g.marks + HeatmapMarks(g.cur, w, h, loads))
  {
    var o := OutlineCommands(w, h);
    var zs := ZonesCommands(w, h, loads);
    ReplayAppend(g, o + zs, LabelCommands(w, h));
    ReplayAppend(g, o, zs);
    OutlineReplay(g, w, h);
    var s := OutlineState(g.cur);
    var g0 := g.(cur := s, marks := g.marks + OutlineMarks(g.cur, w, h));
    ZonesReplay(g0, w, h, loads);
    var g1 := Context(PercentState(s), g.saved, [ZoneShape(Rearfoot, w, h)], g0.marks + ZonesMarks(s, w, h, loads));
    LabelReplay(g1, w, h);
    assert g1.marks + LabelMarks(LabelState(PercentState(s)), w, h) == g.marks + HeatmapMarks(g.cur, w, h, loads);
  }

  /** Zones are anchored from the toes (top) to the heel (bottom). */
  lemma AnchorsTopToBottom(h: real)
    requires h > 0.0
    ensures Anchor(Forefoot, h) < Anchor(Midfoot, h) < Anchor(Rearfoot, h)
  {
  }

  function ZoneIndex(z: Zone): nat {
    match z
    case Forefoot => 0
    case Midfoot => 1
    case Rearfoot => 2
  }

  /** What the effect paints for zone `z` among its twelve marks `ms`: the
      gradient fill of the zone's shape inside the clip, the percentage in
      white at the zone's anchor, and the caption in cyan beside it. */
  predicate ZonePainted(ms: seq<Mark>, z: Zone, w: real, h: real, loads: PredictedLoads)
    requires |ms| == 12
  {
    var fill := ms[3 + 2 * ZoneIndex(z)];
    var text := ms[4 + 2 * ZoneIndex(z)];
    var side := ms[9 + ZoneIndex(z)];
    && fill.kind == PathFilled([ZoneShape(z, w, h)])
    && fill.st.fill == GradientPaint(ZoneGradient(w, Anchor(z, h), ZoneLoad(z, loads)))
    && fill.st.clipped
    && text.kind == TextFilled(PercentOf(ZoneLoad(z, loads)), w * 0.5, Anchor(z, h))
    && text.st.fill == CssColor(White) && text.st.font == PercentFont
    && text.st.align == "center" && text.st.baseline == "middle"
    && side.kind == TextFilled(Caption(ZoneCaption(z)), w * 0.85, Anchor(z, h))
    && side.st.fill == CssColor(Cyan) && side.st.font == LabelFont && side.st.align == "left"
  }

  /** The twelve marks of the effect, one by one. */
  lemma HeatmapMarksInOrder(s: DrawingState, w: real, h: real, loads: PredictedLoads)
    ensures var ms := HeatmapMarks(s, w, h, loads);
      && |ms| == 12
      && ms[0].kind == Cleared(0.0, 0.0, w, h)
      && ms[1].kind == OutlineFilled && ms[1].st.fill == CssColor(OutlineFill)
      && ms[2].kind == OutlineStroked && ms[2].st.stroke == Cyan && ms[2].st.lineWidth == 2.0
      && (forall z :: ZonePainted(ms, z, w, h, loads))
      && (forall i :: 0 <= i < 12 ==> (ms[i].st.clipped <==> ms[i].kind.PathFilled? || s.clipped))
  {
    var ms := HeatmapMarks(s, w, h, loads);
    var zs := ZonesMarks(OutlineState(s), w, h, loads);
    assert |zs| == 6;
    assert ms[..3] == OutlineMarks(s, w, h);
    assert ms[3..9] == zs;
    assert ms[9..] == LabelMarks(LabelState(PercentState(OutlineState(s))), w, h);
  }

  /** Replaying the effect on any context: the marks already there are kept,
      twelve are added in the order above, the fills are the only marks
      painted inside the clip (when the canvas starts unclipped) and the save
      stack is balanced. */
  lemma HeatmapPainting(g: Context, w: real, h: real, loads: PredictedLoads)
    ensures var r := Replay(g, HeatmapCommands(w, h, loads));
      && r.saved == g.saved
      && |r.marks| == |g.marks| + 12
      && r.marks[..|g.marks|] == g.marks
      && r.marks[|g.marks|..] == HeatmapMarks(g.cur, w, h, loads)
  {
    HeatmapReplay(g, w, h, loads);
    var r := Replay(g, HeatmapCommands(w, h, loads));
    assert r.marks == g.marks + HeatmapMarks(g.cur, w, h, loads);
  }
}
