/** The command vocabulary of the transform toy and the per-command
    blending rules of its step-interpolation engine (transformToy.js). */
module Commands {
  import opened Geometry
  import opened JsMath

  /** The fill colour of fillRect and triangle: the optional trailing entry of
      the command array, "blue" when it is absent. */
  datatype Color = DefaultColor | Named(name: string)

  function ColorName(c: Color): string
  {
    match c
    case DefaultColor => "blue"
    case Named(n) => n
  }

  /** One entry of a transform list, `["translate", x, y]` and so on.
      `Unknown` stands for an array whose first entry names no command: the
      renderer logs it and skips it. */
  datatype Command =
    | Translate(dx: real, dy: real)
    | Rotate(degrees: real)
    | Scale(sx: real, sy: real)
    | Transform(m: Affine)
    | FillRect(x: real, y: real, w: real, h: real, color: Color)
    | Triangle(x: real, y: real, color: Color)
    | Save
    | Restore
    | Unknown(name: string)
  {
    predicate IsGeometric()
    {
      Translate? || Rotate? || Scale? || Transform?
    }

    predicate IsStackCommand()
    {
      Save? || Restore?
    }
  }

  /** The progress the engine works with: the slider value going forward,
      counted from the end when running in reverse. */
  function Effective(param: real, direction: int, n: nat): (eff: real)
    ensures 0.0 <= param <= n as real ==> 0.0 <= eff <= n as real
    ensures direction < 0 ==> (eff == 0.0 <==> param == n as real) && (eff == n as real <==> param == 0.0)
    ensures direction >= 0 ==> eff == param
  {
    if direction >= 0 then param else n as real - param
  }

  /** Counting from the end twice gives the slider value back, and a larger
      slider value is a smaller progress in reverse. */
  lemma ReverseTwice(param: real, n: nat)
    ensures Effective(Effective(param, -1, n), -1, n) == param
    ensures forall q :: param < q ==> Effective(q, -1, n) < Effective(param, -1, n)
  {
  }

  /** The blend amount of the command at index `i`. */
  function Amt(i: nat, eff: real): (amt: real)
    ensures 0.0 <= amt <= 1.0
    ensures amt == 0.0 <==> eff <= i as real
    ensures eff >= i as real + 1.0 ==> amt == 1.0
    ensures i as real < eff < i as real + 1.0 ==> amt == eff - i as real
  {
    if i as real >= eff then 0.0 else Min(1.0, eff - i as real)
  }

  /** The blend of a command never decreases as the progress grows. */
  lemma AmtMonotone(i: nat, eff1: real, eff2: real)
    requires eff1 <= eff2
    ensures Amt(i, eff1) <= Amt(i, eff2)
  {
  }

  /** Forward progress `p`: commands wholly behind the play head are fully
      applied, the one under it by the fractional part of `p`, the rest not at all. */
  lemma AmtForward(i: nat, p: real)
    requires p >= 0.0
    ensures i < p.Floor ==> Amt(i, p) == 1.0
    ensures i == p.Floor ==> Amt(i, p) == p - p.Floor as real
    ensures i > p.Floor ==> Amt(i, p) == 0.0
  {
  }

  /** The operation a geometric command stands for when fully applied. */
  function FullOp(cmd: Command): Op
    requires cmd.IsGeometric()
  {
    match cmd
    case Translate(dx, dy) => Op.Translate(dx, dy)
    case Rotate(deg) => Op.Rotate(deg)
    case Scale(sx, sy) => Op.Scale(sx, sy)
    case Transform(m) => Op.Transform(m)
  }

  /** The interpolated operation a geometric command applies at blend `amt`:
      a straight line from the identity to the command's own operation. */
  function Lerp(cmd: Command, amt: real): (op: Op)
    requires cmd.IsGeometric()
    ensures amt == 0.0 ==> IsIdentityOp(op)
    ensures amt == 1.0 ==> op == FullOp(cmd)
    ensures op.Translate? == cmd.Translate? && op.Rotate? == cmd.Rotate?
    ensures op.Scale? == cmd.Scale? && op.Transform? == cmd.Transform?
  {
    match cmd
    case Translate(dx, dy) => Op.Translate(dx * amt, dy * amt)
    case Rotate(deg) => Op.Rotate(deg * amt)
    case Scale(sx, sy) => Op.Scale(amt * sx + (1.0 - amt), amt * sy + (1.0 - amt))
    case Transform(m) =>
      Op.Transform(Affine(amt * m.a + (1.0 - amt), amt * m.b, amt * m.c,
                          amt * m.d + (1.0 - amt), amt * m.e, amt * m.f))
  }

  /** Every coordinate of a blended operation lies between the identity's and
      the full operation's (for a blend in [0, 1]). */
  predicate Between(x: real, lo: real, hi: real)
  {
    (lo <= x <= hi) || (hi <= x <= lo)
  }

  lemma LerpBetween(cmd: Command, amt: real)
    requires cmd.IsGeometric() && 0.0 <= amt <= 1.0
    ensures cmd.Translate? ==> Between(Lerp(cmd, amt).x, 0.0, cmd.dx) && Between(Lerp(cmd, amt).y, 0.0, cmd.dy)
    ensures cmd.Rotate? ==> Between(Lerp(cmd, amt).degrees, 0.0, cmd.degrees)
    ensures cmd.Scale? ==> Between(Lerp(cmd, amt).x, 1.0, cmd.sx) && Between(Lerp(cmd, amt).y, 1.0, cmd.sy)
  {
    match cmd
    case Translate(dx, dy) =>
      var op := Lerp(cmd, amt);
      assert op.x == dx * amt && op.y == dy * amt;
      Towards(dx, amt, 0.0);
      Towards(dy, amt, 0.0);
    case Rotate(deg) =>
      var op := Lerp(cmd, amt);
      assert op.degrees == deg * amt;
      Towards(deg, amt, 0.0);
    case Scale(sx, sy) =>
      var op := Lerp(cmd, amt);
      assert op.x == amt * sx + (1.0 - amt) && op.y == amt * sy + (1.0 - amt);
      Towards(sx, amt, 1.0);
      Towards(sy, amt, 1.0);
    case Transform(_) =>
  }

  /** Moving from `base` towards `v` by the fraction `amt` stays between the two. */
  lemma Towards(v: real, amt: real, base: real)
    requires 0.0 <= amt <= 1.0
    ensures base == 0.0 ==> Between(v * amt, base, v)
    ensures base == 1.0 ==> Between(amt * v + (1.0 - amt), base, v)
  {
    var step := amt * (v - base);
    assert (v - base) - step == (1.0 - amt) * (v - base);
    if v >= base {
      MulNonNegative(1.0 - amt, v - base);
      MulNonNegative(amt, v - base);
    } else {
      MulNonNegative(1.0 - amt, base - v);
      MulNonNegative(amt, base - v);
    }
    assert v * amt == amt * v;
    assert amt * v + (1.0 - amt) * base == base + step;
  }

  lemma MulNonNegative(x: real, y: real)
    requires x >= 0.0 && y >= 0.0
    ensures x * y >= 0.0
  {
  }

  /** The colour of a trace line: `Red(k)` is `rgb(k, 0, 0)`, `Plain` has no colour. */
  datatype Highlight = Plain | Red(level: int)

  const Epsilon: real := 0.001

  /** The highlight of the trace line of instruction `i` with the play head at `eff`. */
  function HighlightOf(eff: real, i: nat): (h: Highlight)
    ensures h.Red? ==> 0 <= h.level <= 255
    ensures h.Red? <==> Abs(eff - i as real) < 1.0
    ensures Abs(eff - i as real) < Epsilon ==> h == Red(255)
  {
    var distance := Abs(eff - i as real);
    if distance < Epsilon then Red(255)
    else if distance < 1.0 then Red(((255.0 * (1.0 - distance)).Floor))
    else Plain
  }

  /** The red ramp falls off with the distance from the play head. */
  lemma HighlightRamp(eff: real, i: nat, j: nat)
    requires Abs(eff - i as real) <= Abs(eff - j as real) < 1.0
    ensures HighlightOf(eff, i).level >= HighlightOf(eff, j).level
  {
  }
}
