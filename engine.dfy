/** The step-interpolation engine of transformToy.js: `doTransform` renders a
    transform list at a real progress value, blending each command from the
    identity towards its full effect, keeping a private save/restore stack of
    transforms, and building a highlighted pseudocode trace. */
module Engine {
  import opened Commands
  import opened JsMath
  import G = Geometry
  import S = Surface

  /** The pseudocode of one trace line; number formatting is not modelled. */
  datatype Code =
    | Call(op: G.Op)                    // context.translate / rotate / scale / transform with the blended arguments
    | FillStyle(color: string)
    | FillRectCall(x: real, y: real, w: real, h: real)
    | TriangleCall(x: real, y: real)
    | SaveCall
    | RestoreCall

  datatype TraceLine = TraceLine(code: Code, highlight: Highlight)

  /** What one render has produced so far: the context's transform, the
      engine's private stack, the painted marks and the trace. */
  datatype Frame = Frame(ops: seq<G.Op>, stack: seq<seq<G.Op>>, marks: seq<S.Mark>, trace: seq<TraceLine>)

  /** The effect of the command at index `i` with the play head at `eff`:
      what it does to the context and the stack, and the lines it writes. */
  function Step(f: Frame, cmd: Command, i: nat, eff: real): Frame
  {
    Effect(f, cmd, Amt(i, eff)).(trace := f.trace + Lines(cmd, i, eff))
  }

  /** What a command blended by `amt` does to the transform, the private
      stack and the painted marks. Nothing happens to the stack or the marks
      before the command has started. */
  function Effect(f: Frame, cmd: Command, amt: real): Frame
  {
    match cmd
    case Translate(_, _) | Rotate(_) | Scale(_, _) | Transform(_) =>
      f.(ops := f.ops + [Lerp(cmd, amt)])
    case FillRect(x, y, w, h, color) =>
      f.(marks := if amt > 0.0 then f.marks + [S.Fill(S.Rect(x, y, w, h), ColorName(color), f.ops)] else f.marks)
    case Triangle(x, y, color) =>
      f.(marks := if amt > 0.0 then f.marks + [S.Fill(S.Triangle, ColorName(color), f.ops + [G.Translate(x, y)])] else f.marks)
    case Save =>
      f.(stack := if amt > 0.0 then f.stack + [f.ops] else f.stack)
    case Restore =>
      if amt > 0.0 && f.stack != [] then f.(ops := f.stack[|f.stack| - 1], stack := f.stack[..|f.stack| - 1])
      else f
    case Unknown(_) => f
  }

  /** The trace lines of the command at index `i`, all with the highlight of
      that index: the blended call, the fill style and the fill call, the
      save or restore call, and nothing for an unknown command. */
  function Lines(cmd: Command, i: nat, eff: real): seq<TraceLine>
  {
    var hl := HighlightOf(eff, i);
    match cmd
    case Translate(_, _) | Rotate(_) | Scale(_, _) | Transform(_) =>
      [TraceLine(Call(Lerp(cmd, Amt(i, eff))), hl)]
    case FillRect(x, y, w, h, color) =>
      [TraceLine(FillStyle(ColorName(color)), hl), TraceLine(FillRectCall(x, y, w, h), hl)]
    case Triangle(x, y, color) =>
      [TraceLine(FillStyle(ColorName(color)), hl), TraceLine(TriangleCall(x, y), hl)]
    case Save => [TraceLine(SaveCall, hl)]
    case Restore => [TraceLine(RestoreCall, hl)]
    case Unknown(_) => []
  }

  /** The first `k` commands of `list`, processed in list order. */
  function Run(f: Frame, list: seq<Command>, eff: real, k: nat): Frame
    requires k <= |list|
  {
    if k == 0 then f else Step(Run(f, list, eff, k - 1), list[k - 1], k - 1, eff)
  }

  /** A whole render on a context holding `ops` and `marks`: the private stack
      and the trace start empty. */
  function Render(ops: seq<G.Op>, marks: seq<S.Mark>, list: seq<Command>, param: real, direction: int): Frame
  {
    Run(Frame(ops, [], marks, []), list, Effective(param, direction, |list|), |list|)
  }

  method DoTransform(c: S.Context, list: seq<Command>, param: real, direction: int) returns (html: seq<TraceLine>)
    modifies c
    ensures var r := Render(old(c.ops), old(c.marks), list, param, direction);
            c.ops == r.ops && c.marks == r.marks && html == r.trace
    ensures c.saved == old(c.saved)
  {
    html := [];
    var transformStack: seq<seq<G.Op>> := [];
    var effectiveParam := if direction >= 0 then param else |list| as real - param;
    ghost var start := Frame(c.ops, [], c.marks, []);
    var i := 0;
    while i < |list|
      invariant 0 <= i <= |list|
      invariant Run(start, list, effectiveParam, i) == Frame(c.ops, transformStack, c.marks, html)
      invariant c.saved == old(c.saved)
    {
      transformStack, html := Process(c, list[i], i, effectiveParam, transformStack, html);
      i := i + 1;
    }
  }

  /** The body of the loop of doTransform: one command at index `i`. */
  method Process(c: S.Context, t: Command, i: nat, effectiveParam: real, stack: seq<seq<G.Op>>, html: seq<TraceLine>)
    returns (stack': seq<seq<G.Op>>, html': seq<TraceLine>)
    modifies c
    ensures Frame(c.ops, stack', c.marks, html') == Step(Frame(old(c.ops), stack, old(c.marks), html), t, i, effectiveParam)
    ensures c.saved == old(c.saved)
  {
    var amt := if i as real >= effectiveParam then 0.0 else Min(1.0, effectiveParam - i as real);
    var hl := HighlightOf(effectiveParam, i);
    assert amt == Amt(i, effectiveParam);
    if t.IsGeometric() {
      stack' := stack;
      html' := ProcessGeometric(c, t, amt, hl, html);
    } else if t.FillRect? || t.Triangle? {
      stack' := stack;
      html' := ProcessFill(c, t, amt, hl, html);
    } else if t.IsStackCommand() {
      stack', html' := ProcessStack(c, t, amt, hl, stack, html);
    } else {
      stack', html' := stack, html;
    }
  }

  /** translate, rotate, scale and transform: the blended operation is applied
      to the context and shown in the trace. */
  method ProcessGeometric(c: S.Context, t: Command, amt: real, hl: Highlight, html: seq<TraceLine>)
    returns (html': seq<TraceLine>)
    requires t.IsGeometric()
    modifies c
    ensures c.ops == old(c.ops) + [Lerp(t, amt)] && c.marks == old(c.marks) && c.saved == old(c.saved)
    ensures html' == html + [TraceLine(Call(Lerp(t, amt)), hl)]
  {
    var op;
    match t {
      case Translate(_, _) =>
        op := G.Translate(t.dx * amt, t.dy * amt);
      case Rotate(_) =>
        op := G.Rotate(t.degrees * amt);
      case Scale(_, _) =>
        op := G.Scale(amt * t.sx + (1.0 - amt), amt * t.sy + (1.0 - amt));
      case Transform(m) =>
        op := G.Transform(G.Affine(amt * m.a + (1.0 - amt), amt * m.b, amt * m.c,
                                   amt * m.d + (1.0 - amt), amt * m.e, amt * m.f));
    }
    assert op == Lerp(t, amt);
    c.Apply(op);
    html' := html + [TraceLine(Call(op), hl)];
  }

  /** fillRect and triangle: painted only once the command has started, and
      always shown in the trace as a fill style and a fill call. */
  method ProcessFill(c: S.Context, t: Command, amt: real, hl: Highlight, html: seq<TraceLine>)
    returns (html': seq<TraceLine>)
    requires t.FillRect? || t.Triangle?
    modifies c
    ensures c.ops == old(c.ops) && c.saved == old(c.saved)
    ensures var shape := if t.FillRect? then S.Rect(t.x, t.y, t.w, t.h) else S.Triangle;
            var under := if t.FillRect? then old(c.ops) else old(c.ops) + [G.Translate(t.x, t.y)];
            c.marks == if amt > 0.0 then old(c.marks) + [S.Fill(shape, ColorName(t.color), under)] else old(c.marks)
    ensures var call := if t.FillRect? then FillRectCall(t.x, t.y, t.w, t.h) else TriangleCall(t.x, t.y);
            html' == html + [TraceLine(FillStyle(ColorName(t.color)), hl), TraceLine(call, hl)]
  {
    match t {
      case FillRect(x, y, w, h, color) =>
        if amt > 0.0 {
          c.Save();
          c.Paint(S.Fill(S.Rect(x, y, w, h), ColorName(color), c.ops));
          c.Restore();
        }
        html' := html + [TraceLine(FillStyle(ColorName(color)), hl)];
        html' := html' + [TraceLine(FillRectCall(x, y, w, h), hl)];
      case Triangle(x, y, color) =>
        if amt > 0.0 {
          c.Save();
          c.Apply(G.Translate(x, y));
          c.Paint(S.Fill(S.Triangle, ColorName(color), c.ops));
          c.Restore();
        }
        html' := html + [TraceLine(FillStyle(ColorName(color)), hl)];
        html' := html' + [TraceLine(TriangleCall(x, y), hl)];
    }
  }

  /** save and restore on the renderer's private stack of transforms. */
  method ProcessStack(c: S.Context, t: Command, amt: real, hl: Highlight, stack: seq<seq<G.Op>>, html: seq<TraceLine>)
    returns (stack': seq<seq<G.Op>>, html': seq<TraceLine>)
    requires t.IsStackCommand()
    modifies c
    ensures c.marks == old(c.marks) && c.saved == old(c.saved)
    ensures t.Save? ==> c.ops == old(c.ops) && stack' == (if amt > 0.0 then stack + [old(c.ops)] else stack)
                        && html' == html + [TraceLine(SaveCall, hl)]
    ensures t.Restore? ==> html' == html + [TraceLine(RestoreCall, hl)]
                           && if amt > 0.0 && stack != [] then c.ops == stack[|stack| - 1] && stack' == stack[..|stack| - 1]
                              else c.ops == old(c.ops) && stack' == stack
  {
    stack' := stack;
    if t.Save? {
      if amt > 0.0 {
        stack' := stack' + [c.ops];
      }
      html' := html + [TraceLine(SaveCall, hl)];
    } else {
      if amt > 0.0 && |stack'| > 0 {
        c.SetTransform(stack'[|stack'| - 1]);
        stack' := stack'[..|stack'| - 1];
      }
      html' := html + [TraceLine(RestoreCall, hl)];
    }
  }

  const CanvasScale: real := 2.0

  /** The draw function made by makeDraw: clear, centre the origin, apply the
      display scale, optionally draw the original coordinate system, render the
      list, optionally draw the final coordinate system, and restore. The
      context's transform and save stack end as they started, whatever
      save/restore commands the list holds. */
  method Draw(c: S.Context, list: seq<Command>, param: real, reverse: bool,
              showOriginal: bool, showFinal: bool, width: real, height: real)
    returns (html: seq<TraceLine>)
    modifies c
    ensures c.ops == old(c.ops) && c.saved == old(c.saved)
    ensures var base := old(c.ops) + [G.Translate(width / 2.0, height / 2.0), G.Scale(CanvasScale, CanvasScale)];
            var r := Render(base, if showOriginal then [S.Csys("black", base)] else [], list, param, if reverse then -1 else 1);
            html == r.trace && c.marks == r.marks + (if showFinal then [S.Csys("#7F0000", r.ops)] else [])
  {
    c.Clear();
    c.Save();
    c.Apply(G.Translate(width / 2.0, height / 2.0));
    c.Apply(G.Scale(CanvasScale, CanvasScale));
    if showOriginal {
      c.Paint(S.Csys("black", c.ops));
    }
    var direction := if reverse then -1 else 1;
    ghost var base := c.ops;
    ghost var before := c.marks;
    assert base == old(c.ops) + [G.Translate(width / 2.0, height / 2.0), G.Scale(CanvasScale, CanvasScale)];
    assert before == if showOriginal then [S.Csys("black", base)] else [];
    html := DoTransform(c, list, param, direction);
    ghost var r := Render(base, before, list, param, direction);
    assert c.ops == r.ops && c.marks == r.marks;
    if showFinal {
      c.Paint(S.Csys("#7F0000", c.ops));
    }
    c.Restore();
  }

  /** hideDirTog: the reverse-direction toggle is disabled exactly when the
      list holds a save or a restore. */
  method ReverseDisabled(list: seq<Command>) returns (disabled: bool)
    ensures disabled <==> exists i :: 0 <= i < |list| && list[i].IsStackCommand()
  {
    var i := 0;
    while i < |list|
      invariant 0 <= i <= |list|
      invariant forall j :: 0 <= j < i ==> !list[j].IsStackCommand()
    {
      if list[i].Save? || list[i].Restore? {
        return true;
      }
      i := i + 1;
    }
    return false;
  }
}
