/** What the step-interpolation engine guarantees, stated over the
    specification `Engine.Run` that `Engine.DoTransform` is proved against. */
module EngineProperties {
  import opened Commands
  import opened Engine
  import G = Geometry
  import S = Surface

  predicate NoStackCommands(list: seq<Command>, k: nat)
    requires k <= |list|
  {
    forall j :: 0 <= j < k ==> !list[j].IsStackCommand()
  }

  /** Reference meaning of the first `k` commands without save/restore: the
      blended operation of each geometric command, in list order. */
  function BlendedOps(list: seq<Command>, eff: real, k: nat): seq<G.Op>
    requires k <= |list|
  {
    if k == 0 then []
    else BlendedOps(list, eff, k - 1) + BlendedOp(list[k - 1], k - 1, eff)
  }

  /** The blended operation of the command at index `i`, if it is geometric. */
  function BlendedOp(cmd: Command, i: nat, eff: real): seq<G.Op>
  {
    if cmd.IsGeometric() then [Lerp(cmd, Amt(i, eff))] else []
  }

  /** The operations of each geometric command applied in full. */
  function FullOps(list: seq<Command>, k: nat): seq<G.Op>
    requires k <= |list|
  {
    if k == 0 then []
    else FullOps(list, k - 1) + (if list[k - 1].IsGeometric() then [FullOp(list[k - 1])] else [])
  }

  /** The operations shown by the `Call` lines of a trace, in order. */
  function CalledOps(trace: seq<TraceLine>): seq<G.Op>
  {
    if trace == [] then []
    else CallIn(trace[0]) + CalledOps(trace[1..])
  }

  /** The operation a trace line calls, if it is a call. */
  function CallIn(line: TraceLine): seq<G.Op>
  {
    if line.code.Call? then [line.code.op] else []
  }

  lemma CalledOpsAppend(t: seq<TraceLine>, u: seq<TraceLine>)
    ensures CalledOps(t + u) == CalledOps(t) + CalledOps(u)
  {
    if t == [] {
      assert t + u == u;
    } else {
      assert (t + u)[1..] == t[1..] + u;
      CalledOpsAppend(t[1..], u);
    }
  }

  /** Without save/restore the render appends exactly the blended operations of
      the geometric commands to the context, and the private stack stays as it was. */
  lemma {:induction false} NoStackReference(f: Frame, list: seq<Command>, eff: real, k: nat)
    requires k <= |list| && NoStackCommands(list, k)
    ensures Run(f, list, eff, k).ops == f.ops + BlendedOps(list, eff, k)
    ensures Run(f, list, eff, k).stack == f.stack
  {
    if k > 0 {
      NoStackReference(f, list, eff, k - 1);
      PlainStep(Run(f, list, eff, k - 1), list[k - 1], k - 1, eff);
      var last := BlendedOp(list[k - 1], k - 1, eff);
      assert f.ops + BlendedOps(list, eff, k - 1) + last == f.ops + (BlendedOps(list, eff, k - 1) + last);
    }
  }

  /** The pseudocode trace shows exactly the blended geometric operations, in
      order, whatever the list holds. */
  lemma TraceShowsBlendedOps(f: Frame, list: seq<Command>, eff: real, k: nat)
    requires k <= |list|
    ensures CalledOps(Run(f, list, eff, k).trace) == CalledOps(f.trace) + BlendedOps(list, eff, k)
  {
    RunIsLines(f, list, eff, k);
    CalledOpsAppend(f.trace, AllLines(list, eff, k));
    LinesCalls(list, eff, k);
  }

  /** The lines written for the first `k` commands, in order. */
  function AllLines(list: seq<Command>, eff: real, k: nat): seq<TraceLine>
    requires k <= |list|
  {
    if k == 0 then [] else AllLines(list, eff, k - 1) + Lines(list[k - 1], k - 1, eff)
  }

  lemma {:induction false} RunIsLines(f: Frame, list: seq<Command>, eff: real, k: nat)
    requires k <= |list|
    ensures Run(f, list, eff, k).trace == f.trace + AllLines(list, eff, k)
  {
    if k > 0 {
      RunIsLines(f, list, eff, k - 1);
      RunTrace(f, list, eff, k);
      Chain(Run(f, list, eff, k).trace, Run(f, list, eff, k - 1).trace,
            f.trace, AllLines(list, eff, k - 1), Lines(list[k - 1], k - 1, eff));
    } else {
      assert f.trace + [] == f.trace;
    }
  }

  lemma {:induction false} LinesCalls(list: seq<Command>, eff: real, k: nat)
    requires k <= |list|
    ensures CalledOps(AllLines(list, eff, k)) == BlendedOps(list, eff, k)
  {
    if k > 0 {
      LinesCalls(list, eff, k - 1);
      LinesCallsStep(list, eff, k);
    } else {
      assert AllLines(list, eff, k) == [];
    }
  }

  lemma LinesCallsStep(list: seq<Command>, eff: real, k: nat)
    requires 0 < k <= |list|
    ensures CalledOps(AllLines(list, eff, k)) == CalledOps(AllLines(list, eff, k - 1)) + BlendedOp(list[k - 1], k - 1, eff)
  {
    AddedCalls(list[k - 1], k - 1, eff);
    ConcatCalls(AllLines(list, eff, k - 1), Lines(list[k - 1], k - 1, eff),
                CalledOps(AllLines(list, eff, k - 1)), BlendedOp(list[k - 1], k - 1, eff));
  }

  lemma ConcatCalls(t: seq<TraceLine>, u: seq<TraceLine>, a: seq<G.Op>, b: seq<G.Op>)
    requires CalledOps(t) == a && CalledOps(u) == b
    ensures CalledOps(t + u) == a + b
  {
    CalledOpsAppend(t, u);
  }

  lemma Chain<T>(x: seq<T>, y: seq<T>, a: seq<T>, b: seq<T>, c: seq<T>)
    requires x == y + c && y == a + b
    ensures x == a + (b + c)
  {
  }

  /** The last step of a run adds the call of its command, if it is geometric. */
  lemma RunCalls(f: Frame, list: seq<Command>, eff: real, k: nat)
    requires 0 < k <= |list|
    ensures CalledOps(Run(f, list, eff, k).trace)
            == CalledOps(Run(f, list, eff, k - 1).trace)
               + BlendedOp(list[k - 1], k - 1, eff)
  {
    StepCalls(Run(f, list, eff, k - 1), list[k - 1], k - 1, eff);
  }

  lemma StepCalls(g: Frame, cmd: Command, i: nat, eff: real)
    ensures CalledOps(Step(g, cmd, i, eff).trace)
            == CalledOps(g.trace) + BlendedOp(cmd, i, eff)
  {
    CalledOpsAppend(g.trace, Lines(cmd, i, eff));
    AddedCalls(cmd, i, eff);
  }

  /** Only the line of a geometric command is a call of an operation. */
  lemma AddedCalls(cmd: Command, i: nat, eff: real)
    ensures CalledOps(Lines(cmd, i, eff)) == BlendedOp(cmd, i, eff)
  {
    var added := Lines(cmd, i, eff);
    match cmd
    case FillRect(_, _, _, _, _) | Triangle(_, _, _) =>
      var rest := added[1..];
      assert rest[0] == added[1] && rest[1..] == [];
      assert CalledOps(rest) == [];
      assert CalledOps(added) == CallIn(added[0]) + CalledOps(rest);
    case Unknown(_) =>
    case _ =>
      assert added[1..] == [];
  }

  /** A command other than save/restore leaves the stack alone and adds its
      blended operation to the transform when it is geometric. */
  lemma PlainStep(g: Frame, cmd: Command, i: nat, eff: real)
    requires !cmd.IsStackCommand()
    ensures Step(g, cmd, i, eff).ops == g.ops + BlendedOp(cmd, i, eff)
    ensures Step(g, cmd, i, eff).stack == g.stack
  {
    if !cmd.IsGeometric() {
      assert g.ops + [] == g.ops;
    }
  }

  /** A command the play head has not reached changes neither the stack nor
      the marks, and the transform only by an operation blended by 0. */
  lemma InertStep(g: Frame, cmd: Command, i: nat, eff: real)
    requires Amt(i, eff) == 0.0
    ensures Step(g, cmd, i, eff).ops == g.ops + (if cmd.IsGeometric() then [Lerp(cmd, 0.0)] else [])
    ensures Step(g, cmd, i, eff).stack == g.stack && Step(g, cmd, i, eff).marks == g.marks
  {
    if !cmd.IsGeometric() {
      assert g.ops + [] == g.ops;
    }
  }

  /** The lines of a command: as many as its width, all with its highlight. */
  lemma LinesShape(cmd: Command, i: nat, eff: real)
    ensures |Lines(cmd, i, eff)| == TraceWidth(cmd)
    ensures forall l :: l in Lines(cmd, i, eff) ==> l.highlight == HighlightOf(eff, i)
  {
  }

  /** With the play head at or past the end every geometric command is applied
      with exactly its own arguments. */
  lemma {:induction false} FullyAppliedAtEnd(list: seq<Command>, eff: real, k: nat)
    requires k <= |list| && eff >= k as real
    ensures BlendedOps(list, eff, k) == FullOps(list, k)
  {
    if k > 0 {
      FullyAppliedAtEnd(list, eff, k - 1);
    }
  }

  /** Forward at `param = |list|` a save/restore-free list leaves the context
      with every geometric command applied in full, after what it held before. */
  lemma FinalRender(ops: seq<G.Op>, marks: seq<S.Mark>, list: seq<Command>)
    requires NoStackCommands(list, |list|)
    ensures Render(ops, marks, list, |list| as real, 1).ops == ops + FullOps(list, |list|)
  {
    NoStackReference(Frame(ops, [], marks, []), list, |list| as real, |list|);
    FullyAppliedAtEnd(list, |list| as real, |list|);
  }

  lemma {:induction false} StackKeptBetween(f: Frame, list: seq<Command>, eff: real, s: nat, e: nat)
    requires s <= e <= |list|
    requires forall j :: s <= j < e ==> !list[j].IsStackCommand()
    ensures Run(f, list, eff, e).stack == Run(f, list, eff, s).stack
  {
    if e > s {
      StackKeptBetween(f, list, eff, s, e - 1);
      PlainStep(Run(f, list, eff, e - 1), list[e - 1], e - 1, eff);
    }
  }

  /** A save at `s` and a restore at `e`, both reached by the play head, with
      no save/restore between them, undo everything the commands between did
      to the transform and leave the stack as it was before the save. */
  lemma BracketUndone(f: Frame, list: seq<Command>, eff: real, s: nat, e: nat)
    requires s < e < |list| && list[s] == Save && list[e] == Restore
    requires forall j :: s < j < e ==> !list[j].IsStackCommand()
    requires e as real < eff
    ensures Run(f, list, eff, e + 1).ops == Run(f, list, eff, s).ops
    ensures Run(f, list, eff, e + 1).stack == Run(f, list, eff, s).stack
  {
    var before := Run(f, list, eff, s);
    assert Amt(s, eff) > 0.0;
    assert Run(f, list, eff, s + 1).stack == before.stack + [before.ops];
    StackKeptBetween(f, list, eff, s + 1, e);
    assert Amt(e, eff) > 0.0;
  }

  /** `[save, translate(10,0), restore, translate(5,0)]` at progress 4 ends as a
      translation by (5, 0) alone. */
  lemma SaveRestoreExample(ops: seq<G.Op>, marks: seq<S.Mark>)
    ensures Render(ops, marks, [Save, Translate(10.0, 0.0), Restore, Translate(5.0, 0.0)], 4.0, 1).ops
            == ops + [G.Translate(5.0, 0.0)]
  {
    var list := [Save, Translate(10.0, 0.0), Restore, Translate(5.0, 0.0)];
    var f := Frame(ops, [], marks, []);
    BracketUndone(f, list, 4.0, 0, 2);
    assert Run(f, list, 4.0, 0).ops == ops;
    assert Amt(3, 4.0) == 1.0;
  }

  /** Commands at or past the play head have no effect on the transform (as a
      matrix), the stack or the painted marks: only their trace lines appear. */
  lemma InertTail(f: Frame, list: seq<Command>, eff: real, k: nat, n: nat, rot: real -> G.Affine)
    requires rot(0.0) == G.Identity
    requires k <= n <= |list| && eff <= k as real
    ensures G.MatrixOf(Run(f, list, eff, n).ops, rot) == G.MatrixOf(Run(f, list, eff, k).ops, rot)
    ensures Run(f, list, eff, n).stack == Run(f, list, eff, k).stack
    ensures Run(f, list, eff, n).marks == Run(f, list, eff, k).marks
  {
    InertOps(f, list, eff, k, n);
    var before := Run(f, list, eff, k).ops;
    var after := Run(f, list, eff, n).ops;
    assert after == before + after[|before|..];
    G.AppendIdentityOps(before, after[|before|..], rot);
  }

  /** Past the play head the transform only grows by identity operations, and
      the stack and the marks stay as they are. */
  lemma {:induction false} InertOps(f: Frame, list: seq<Command>, eff: real, k: nat, n: nat)
    requires k <= n <= |list| && eff <= k as real
    ensures Run(f, list, eff, k).ops <= Run(f, list, eff, n).ops
    ensures forall j :: |Run(f, list, eff, k).ops| <= j < |Run(f, list, eff, n).ops| ==> G.IsIdentityOp(Run(f, list, eff, n).ops[j])
    ensures Run(f, list, eff, n).stack == Run(f, list, eff, k).stack
    ensures Run(f, list, eff, n).marks == Run(f, list, eff, k).marks
  {
    if n > k {
      InertOps(f, list, eff, k, n - 1);
      assert Amt(n - 1, eff) == 0.0;
      InertStep(Run(f, list, eff, n - 1), list[n - 1], n - 1, eff);
    }
  }

  /** At progress 0 going forward nothing is painted and the transform is
      unchanged as a matrix. */
  lemma NothingAtStart(ops: seq<G.Op>, marks: seq<S.Mark>, list: seq<Command>, rot: real -> G.Affine)
    requires rot(0.0) == G.Identity
    ensures G.MatrixOf(Render(ops, marks, list, 0.0, 1).ops, rot) == G.MatrixOf(ops, rot)
    ensures Render(ops, marks, list, 0.0, 1).marks == marks
  {
    InertTail(Frame(ops, [], marks, []), list, 0.0, 0, |list|, rot);
  }

  /** Number of trace lines a command contributes. */
  function TraceWidth(cmd: Command): nat
  {
    match cmd
    case FillRect(_, _, _, _, _) => 2
    case Triangle(_, _, _) => 2
    case Unknown(_) => 0
    case _ => 1
  }

  function TotalWidth(list: seq<Command>, k: nat): nat
    requires k <= |list|
  {
    if k == 0 then 0 else TotalWidth(list, k - 1) + TraceWidth(list[k - 1])
  }

  /** One trace line per command, two for the fills, none for an unknown
      command; the lines of command `i` carry the highlight of index `i`. */
  lemma {:induction false} TraceShape(f: Frame, list: seq<Command>, eff: real, k: nat)
    requires k <= |list|
    ensures |Run(f, list, eff, k).trace| == |f.trace| + TotalWidth(list, k)
    ensures f.trace <= Run(f, list, eff, k).trace
    ensures k > 0 ==> forall j :: |f.trace| + TotalWidth(list, k - 1) <= j < |Run(f, list, eff, k).trace|
                                 ==> Run(f, list, eff, k).trace[j].highlight == HighlightOf(eff, k - 1)
  {
    if k > 0 {
      TraceShape(f, list, eff, k - 1);
      var before := Run(f, list, eff, k - 1).trace;
      var after := Run(f, list, eff, k).trace;
      var added := Lines(list[k - 1], k - 1, eff);
      RunTrace(f, list, eff, k);
      LinesShape(list[k - 1], k - 1, eff);
      assert before <= after;
      forall j | |f.trace| + TotalWidth(list, k - 1) <= j < |after|
        ensures after[j].highlight == HighlightOf(eff, k - 1)
      {
        assert after[j] == added[j - |before|];
      }
    }
  }

  /** Step `k` of a run appends the lines of command `k - 1` to the trace. */
  lemma RunTrace(f: Frame, list: seq<Command>, eff: real, k: nat)
    requires 0 < k <= |list|
    ensures Run(f, list, eff, k).trace == Run(f, list, eff, k - 1).trace + Lines(list[k - 1], k - 1, eff)
  {
  }

  /** Running in reverse is running forward from the other end: only the
      amounts change, never the order in which commands are applied. */
  lemma ReverseIsComplementedProgress(ops: seq<G.Op>, marks: seq<S.Mark>, list: seq<Command>, param: real)
    ensures Render(ops, marks, list, param, -1) == Render(ops, marks, list, |list| as real - param, 1)
  {
  }

  /** With 3 commands, progress 1 in reverse gives the blends of progress 2
      forward ([1, 1, 0]), not their end-to-end mirror ([0, 1, 1]). */
  lemma ReverseIsNotMirrored()
    ensures Amt(0, Effective(1.0, -1, 3)) == 1.0 && Amt(1, Effective(1.0, -1, 3)) == 1.0
    ensures Amt(2, Effective(1.0, -1, 3)) == 0.0
    ensures Amt(0, Effective(1.0, -1, 3)) != Amt(2, Effective(2.0, 1, 3))
  {
  }

  /** `[rotate(90), scale(2,1)]` at progress 0.5: the rotation is half applied
      (45 degrees), the scale is the identity, and both trace lines are half
      highlighted (the scale line is half a step from the play head too). */
  lemma RotateScaleScenario()
    ensures Render([], [], [Rotate(90.0), Scale(2.0, 1.0)], 0.5, 1)
            == Frame([G.Rotate(45.0), G.Scale(1.0, 1.0)], [], [],
                     [TraceLine(Call(G.Rotate(45.0)), Red(127)), TraceLine(Call(G.Scale(1.0, 1.0)), Red(127))])
  {
    var list := [Rotate(90.0), Scale(2.0, 1.0)];
    assert Amt(0, 0.5) == 0.5 && Amt(1, 0.5) == 0.0;
    assert (255.0 * (1.0 - 0.5)).Floor == 127;
    assert HighlightOf(0.5, 0) == Red(127) && HighlightOf(0.5, 1) == Red(127);
    var f := Frame([], [], [], []);
    assert Lerp(list[0], 0.5) == G.Rotate(45.0);
    assert Run(f, list, 0.5, 1) == Frame([G.Rotate(45.0)], [], [], [TraceLine(Call(G.Rotate(45.0)), Red(127))]);
    assert Lerp(list[1], 0.0) == G.Scale(1.0, 1.0);
  }
}
