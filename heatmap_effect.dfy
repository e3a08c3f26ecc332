/**
  The canvas effect of FootHeatmap as the imperative code it is: a 2D
  context object that records every call made on it, a canvas that may or
  may not hand out a context, and the effect body issuing its calls one by
  one.  Each method is proved to issue exactly the commands Heatmap
  describes, so the facts proved there about the replayed context apply to
  what the effect does.
*/
module HeatmapEffect {
  import opened Domain
  import opened Heatmap

  /** A 2D rendering context; `log` holds the calls made on it, in order. */
  class RenderingContext {
    var log: seq<DrawCmd>

    constructor ()
      ensures log == []
    {
      log := [];
    }

    method Issue(c: DrawCmd)
      modifies this
      ensures log == old(log) + [c]
    {
      log := log + [c];
    }
  }

  /** An HTML canvas: its pixel size and the 2D context getContext("2d")
      returns, or null when the browser has none. */
  class Canvas {
    const width: nat
    const height: nat
    var context: RenderingContext?

    constructor (width: nat, height: nat, context: RenderingContext?)
      ensures this.width == width && this.height == height && this.context == context
    {
      this.width := width;
      this.height := height;
      this.context := context;
    }
  }

  lemma AppendThree<T>(s: seq<T>, a: seq<T>, b: seq<T>, c: seq<T>)
    ensures s + a + b + c == s + (a + b + c)
  {
  }

  lemma AppendTwo<T>(s: seq<T>, a: seq<T>, b: seq<T>)
    ensures s + a + b == s + (a + b)
  {
  }

  /** clearRect, then the outline filled and stroked. */
  method DrawOutline(ctx: RenderingContext, w: real, h: real)
    modifies ctx
    ensures ctx.log == old(ctx.log) + OutlineCommands(w, h)
  {
    ctx.Issue(ClearRect(0.0, 0.0, w, h));
    ctx.Issue(SetFillStyle(CssColor(OutlineFill)));
    ctx.Issue(SetStrokeStyle(Cyan));
    ctx.Issue(SetLineWidth(2.0));
    ctx.Issue(FillOutline);
    ctx.Issue(StrokeOutline);
  }

  /** The draw callback of one zone: a fresh path holding the shape, filled. */
  method TraceShape(ctx: RenderingContext, shape: Shape)
    modifies ctx
    ensures ctx.log == old(ctx.log) + FillShape(shape)
  {
    ctx.Issue(BeginPath);
    ctx.Issue(AddShape(shape));
    ctx.Issue(Fill);
  }

  /** drawZone: the gradient fill inside the clip, then the percentage. */
  method DrawZone(ctx: RenderingContext, w: real, shape: Shape, load: real, textY: real)
    modifies ctx
    ensures ctx.log == old(ctx.log) + ZoneCommands(w, textY, load, shape)
  {
    var paint := GradientPaint(ZoneGradient(w, textY, load));
    ctx.Issue(Save);
    ctx.Issue(ClipOutline);
    ctx.Issue(SetFillStyle(paint));
    TraceShape(ctx, shape);
    ctx.Issue(Restore);
    AppendTwo(old(ctx.log), ClipToOutline(paint), FillShape(shape) + [Restore]);
    ghost var filled := ctx.log;
    ctx.Issue(SetFillStyle(CssColor(White)));
    ctx.Issue(SetFont(PercentFont));
    ctx.Issue(SetTextAlign("center"));
    ctx.Issue(SetTextBaseline("middle"));
    ctx.Issue(FillText(PercentOf(load), w * 0.5, textY));
    assert ctx.log == filled + PercentCommands(load, w * 0.5, textY);
    AppendTwo(old(ctx.log), ClippedFill(paint, shape), PercentCommands(load, w * 0.5, textY));
  }

  method DrawLabels(ctx: RenderingContext, w: real, h: real)
    modifies ctx
    ensures ctx.log == old(ctx.log) + LabelCommands(w, h)
  {
    ctx.Issue(SetFillStyle(CssColor(Cyan)));
    ctx.Issue(SetFont(LabelFont));
    ctx.Issue(SetTextAlign("left"));
    ctx.Issue(FillText(Caption("Forefoot"), w * 0.85, h * 0.15));
    ctx.Issue(FillText(Caption("Midfoot"), w * 0.85, h * 0.5));
    ctx.Issue(FillText(Caption("Rearfoot"), w * 0.85, h * 0.85));
  }

  /** The three drawZone calls, with the shape each one's callback traces,
      its load and the height of its gradient centre and text. */
  method DrawZones(ctx: RenderingContext, w: real, h: real, loads: PredictedLoads)
    modifies ctx
    ensures ctx.log == old(ctx.log) + ZonesCommands(w, h, loads)
  {
    DrawZone(ctx, w, ZoneShape(Forefoot, w, h), loads.forefoot, h * 0.15);
    DrawZone(ctx, w, ZoneShape(Midfoot, w, h), loads.midfoot, h * 0.50);
    DrawZone(ctx, w, ZoneShape(Rearfoot, w, h), loads.rearfoot, h * 0.85);
    AppendThree(old(ctx.log), DrawZoneCommands(Forefoot, w, h, loads),
                DrawZoneCommands(Midfoot, w, h, loads), DrawZoneCommands(Rearfoot, w, h, loads));
  }

  /** Everything the effect draws once it holds a context. */
  method Draw(ctx: RenderingContext, w: real, h: real, loads: PredictedLoads)
    modifies ctx
    ensures ctx.log == old(ctx.log) + HeatmapCommands(w, h, loads)
  {
    ghost var start := ctx.log;
    DrawOutline(ctx, w, h);
    DrawZones(ctx, w, h, loads);
    DrawLabels(ctx, w, h);
    AppendThree(start, OutlineCommands(w, h), ZonesCommands(w, h, loads), LabelCommands(w, h));
  }

  /** The effect body.  Without a canvas or without a context nothing is
      drawn; otherwise the context receives exactly the commands determined
      by the canvas size and the loads. */
  method DrawHeatmap(canvas: Canvas?, loads: PredictedLoads)
    modifies if canvas != null && canvas.context != null then {canvas.context} else {}
    ensures canvas != null && canvas.context != null ==>
      canvas.context.log == old(canvas.context.log) + HeatmapCommands(canvas.width as real, canvas.height as real, loads)
  {
    if canvas == null {
      return;
    }
    var ctx := canvas.context;
    if ctx == null {
      return;
    }
    var w := canvas.width as real;
    var h := canvas.height as real;
    Draw(ctx, w, h, loads);
  }
}
