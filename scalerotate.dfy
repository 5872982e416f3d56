/** The scale-then-rotate demonstration of scaleRotate.js: one slider value
    `u` from 0 to 6 drives a rotation, a stretch along x and a rotation back,
    and decides which code lines and which coordinate systems are shown.
    Angles are kept in degrees; the code lines are records, not formatted
    text. */
module ScaleRotate {
  import opened Wrappers
  import opened JsMath
  import opened Geometry
  import opened Surface
  import opened Runner

  /** The first rotation, in degrees: a quarter of a right angle reached
      between u = 1 and u = 2. It is applied only when u > 1. */
  function FirstRotation(u: real): real
  {
    45.0 * Min(u - 1.0, 1.0)
  }

  /** The stretch along x: none before u = 2, then growing to 2 at u = 3. */
  function Stretch(u: real): real
  {
    if u < 2.0 then 1.0 else Min(2.0, u - 1.0)
  }

  /** The rotation back, in degrees: none before u = 3, then down to -45 at u = 4. */
  function SecondRotation(u: real): real
  {
    if u < 3.0 then 0.0 else -45.0 * Min(1.0, u - 3.0)
  }

  /** One line of the code shown beside the canvas. */
  datatype ExpLine =
    | DegreesNote                 // "angles shown in degrees"
    | RotateLine(degrees: real)
    | ScaleLine(sx: real)
    | StretchedSpaceNote          // the rotation happens in the stretched space
    | NotRigidNote                // so it is not rigid on the screen

  /** The code lines of the transformed part, written only when u > 1. */
  function TurnedLines(u: real): seq<ExpLine>
  {
    var a1 := FirstRotation(u);
    var s2 := Stretch(u);
    var a2 := SecondRotation(u);
    (if a1 > 0.0 then [RotateLine(a1)] else [])
    + (if s2 > 1.0 then [ScaleLine(s2)] else [])
    + (if a2 < 0.0 then [RotateLine(a2), StretchedSpaceNote, NotRigidNote] else [])
  }

  /** The code lines for `u`, in the order `drawExp` writes them. */
  function ExpTrace(u: real): seq<ExpLine>
  {
    [DegreesNote] + if u > 1.0 then TurnedLines(u) else []
  }

  /** A JavaScript value passed as `drawBlock` is truthy: present and not "". */
  predicate Truthy(block: Option<string>)
  {
    block.Some? && block.value != ""
  }

  /** What `drawCsys` paints under the transform `under`: the block first,
      when one is given, then the grid and axes. */
  function CsysMarks(color: string, block: Option<string>, under: seq<Op>): seq<Mark>
  {
    (if Truthy(block) then [Fill(Square(20.0), block.value, under)] else []) + [Csys(color, under)]
  }

  /** The transform after the canvas centre is moved to the origin. */
  function Centered(ops: seq<Op>, width: real, height: real): seq<Op>
  {
    ops + [Translate(width / 2.0, height / 2.0)]
  }

  /** The transform of the red coordinate system. */
  function Turned(u: real, base: seq<Op>): seq<Op>
  {
    base + [Rotate(FirstRotation(u)), Scale(Stretch(u), 1.0), Rotate(SecondRotation(u))]
  }

  /** Everything `drawExp` paints, on a context holding `ops`. */
  function ExpMarks(u: real, width: real, height: real, ops: seq<Op>): seq<Mark>
  {
    var base := Centered(ops, width, height);
    CsysMarks("#000000", if u < 1.0 then Some("#80000080") else None, base)
    + (if u > 1.0 then CsysMarks("#FF0000", Some(if u > 4.0 then "#FF000080" else "underfined"), Turned(u, base)) else [])
    + (if u > 5.0 then CsysMarks("#00000000", Some("#800000"), base) else [])
  }

  /** `drawCsys`: the context's transform and stack are as before. */
  method DrawCsys(c: Context, color: string, block: Option<string>)
    modifies c
    ensures c.marks == old(c.marks) + CsysMarks(color, block, old(c.ops))
    ensures c.ops == old(c.ops) && c.saved == old(c.saved)
  {
    c.Save();
    if Truthy(block) {
      c.Paint(Fill(Square(20.0), block.value, c.ops));
    }
    c.Paint(Csys(color, c.ops));
    c.Restore();
  }

  /** `drawExp(canvas, u)` on a canvas of the given size. */
  method DrawExp(c: Context, u: real, width: real, height: real) returns (html: seq<ExpLine>)
    modifies c
    ensures html == ExpTrace(u)
    ensures c.marks == ExpMarks(u, width, height, old(c.ops))
    ensures c.ops == old(c.ops) && c.saved == old(c.saved)
  {
    c.Save();
    c.Clear();
    c.Apply(Translate(width / 2.0, height / 2.0));
    DrawCsys(c, "#000000", if u < 1.0 then Some("#80000080") else None);
    html := [DegreesNote];
    if u > 1.0 {
      var lines := DrawTurned(c, u);
      html := html + lines;
    }
    if u > 5.0 {
      DrawCsys(c, "#00000000", Some("#800000"));
    }
    c.Restore();
  }

  /** The `if (u > 1)` part of `drawExp`: the red coordinate system under
      the three transforms, and their code lines. */
  method DrawTurned(c: Context, u: real) returns (lines: seq<ExpLine>)
    modifies c
    ensures lines == TurnedLines(u)
    ensures c.marks == old(c.marks) + CsysMarks("#FF0000", Some(if u > 4.0 then "#FF000080" else "underfined"), Turned(u, old(c.ops)))
    ensures c.ops == old(c.ops) && c.saved == old(c.saved)
  {
    ghost var base := c.ops;
    c.Save();
    var a1 := FirstRotation(u);
    c.Apply(Rotate(a1));
    lines := [];
    if a1 > 0.0 {
      lines := lines + [RotateLine(a1)];
    }
    var s2 := Stretch(u);
    c.Apply(Scale(s2, 1.0));
    if s2 > 1.0 {
      lines := lines + [ScaleLine(s2)];
    }
    var a2 := SecondRotation(u);
    c.Apply(Rotate(a2));
    if a2 < 0.0 {
      lines := lines + [RotateLine(a2), StretchedSpaceNote, NotRigidNote];
    }
    assert c.ops == Turned(u, base);
    DrawCsys(c, "#FF0000", Some(if u > 4.0 then "#FF000080" else "underfined"));
    c.Restore();
  }

  /** `test`: a slider without looping whose draw callback is `drawExp`, set
      to 0 while it still has the default range, then given the range 0 to 6
      in steps of 0.02. */
  method Setup() returns (rc: RunCanvas)
    ensures fresh(rc)
    ensures rc.Config() == Settings(0.0, 6.0, 0.02, true)
    ensures rc.State() == Slider(0.0, Some(0.0), false, [0.0])
  {
    rc := new RunCanvas(true);
    rc.SetValue(0.0);
    rc.SetupSlider(0.0, 6.0, 0.02);
  }

  /** The first rotation is positive exactly when it is applied, is at most
      45 degrees, reaches 45 at u = 2 and never decreases. */
  lemma FirstRotationRange(u: real, v: real)
    requires 1.0 <= u <= v
    ensures 0.0 <= FirstRotation(u) <= 45.0
    ensures FirstRotation(u) > 0.0 <==> u > 1.0
    ensures u >= 2.0 ==> FirstRotation(u) == 45.0
    ensures FirstRotation(u) <= FirstRotation(v)
  {
  }

  /** The stretch lies in [1, 2], stretches exactly after u = 2, reaches 2 at
      u = 3 and never decreases. */
  lemma StretchRange(u: real, v: real)
    requires u <= v
    ensures 1.0 <= Stretch(u) <= 2.0
    ensures Stretch(u) > 1.0 <==> u > 2.0
    ensures u >= 3.0 ==> Stretch(u) == 2.0
    ensures Stretch(u) <= Stretch(v)
  {
  }

  /** The rotation back lies in [-45, 0], turns exactly after u = 3, reaches
      -45 at u = 4 and never increases. */
  lemma SecondRotationRange(u: real, v: real)
    requires u <= v
    ensures -45.0 <= SecondRotation(u) <= 0.0
    ensures SecondRotation(u) < 0.0 <==> u > 3.0
    ensures u >= 4.0 ==> SecondRotation(u) == -45.0
    ensures SecondRotation(v) <= SecondRotation(u)
  {
  }

  /** The code lines by stage: the note always; the first rotation after
      u = 1; the stretch after u = 2; the rotation back and its two warnings
      after u = 3. */
  lemma TraceByStage(u: real)
    ensures ExpTrace(u) == [DegreesNote]
                           + (if u > 1.0 then [RotateLine(FirstRotation(u))] else [])
                           + (if u > 2.0 then [ScaleLine(Stretch(u))] else [])
                           + (if u > 3.0 then [RotateLine(SecondRotation(u)), StretchedSpaceNote, NotRigidNote] else [])
  {
    if u > 1.0 {
      FirstRotationRange(u, u);
      StretchRange(u, u);
      SecondRotationRange(u, u);
    }
  }

  /** Up to u = 1 nothing transformed is drawn: the trace is the note alone
      and only the black system appears, with its block before u = 1. */
  lemma NothingTransformedAtFirst(u: real, width: real, height: real, ops: seq<Op>)
    requires u <= 1.0
    ensures ExpTrace(u) == [DegreesNote]
    ensures ExpMarks(u, width, height, ops)
            == CsysMarks("#000000", if u < 1.0 then Some("#80000080") else None, Centered(ops, width, height))
  {
  }

  /** After u = 1 the red system always has a block, since the misspelt
      colour "underfined" is a non-empty string; it is the translucent red
      one only after u = 4. */
  lemma RedBlockAlwaysPainted(u: real, width: real, height: real, ops: seq<Op>)
    requires u > 1.0
    ensures var base := Centered(ops, width, height);
            var block := Fill(Square(20.0), if u > 4.0 then "#FF000080" else "underfined", Turned(u, base));
            block in ExpMarks(u, width, height, ops)
  {
    var base := Centered(ops, width, height);
    var red := CsysMarks("#FF0000", Some(if u > 4.0 then "#FF000080" else "underfined"), Turned(u, base));
    var black := CsysMarks("#000000", if u < 1.0 then Some("#80000080") else None, base);
    assert red[0] == ExpMarks(u, width, height, ops)[|black|];
  }

  /** The final dark square is painted exactly after u = 5. */
  lemma FinalSquare(u: real, width: real, height: real, ops: seq<Op>)
    ensures Fill(Square(20.0), "#800000", Centered(ops, width, height)) in ExpMarks(u, width, height, ops)
            <==> u > 5.0
  {
    var base := Centered(ops, width, height);
    var marks := ExpMarks(u, width, height, ops);
    var head := CsysMarks("#000000", if u < 1.0 then Some("#80000080") else None, base)
                + (if u > 1.0 then CsysMarks("#FF0000", Some(if u > 4.0 then "#FF000080" else "underfined"), Turned(u, base)) else []);
    if u > 5.0 {
      assert marks[|head|] == Fill(Square(20.0), "#800000", base);
    } else {
      assert marks == head;
      assert "#800000" != "#80000080" && "#800000" != "#FF000080" && "#800000" != "underfined";
    }
  }

  /** Between u = 1 and u = 2 the stretch and the rotation back are not yet
      under way: the red system is the black one turned by the first
      rotation alone. */
  lemma OnlyTurnedAtFirst(u: real, base: seq<Op>, rot: real -> Affine)
    requires 1.0 < u <= 2.0 && rot(0.0) == Identity
    ensures MatrixOf(Turned(u, base), rot) == MatrixOf(base + [Rotate(FirstRotation(u))], rot)
  {
    var extra := [Scale(Stretch(u), 1.0), Rotate(SecondRotation(u))];
    assert Turned(u, base) == (base + [Rotate(FirstRotation(u))]) + extra;
    AppendIdentityOps(base + [Rotate(FirstRotation(u))], extra, rot);
  }
}
