/** The drawing surface the renderers paint on: a canvas 2D context reduced to
    its current transform, its own save/restore stack and the list of things
    painted so far. Pixels are not modelled: a painted shape is recorded with
    its colour and the transform it was painted under. */
module Surface {
  import opened Geometry

  datatype Shape =
    | Rect(x: real, y: real, w: real, h: real)    // the path traced by a fillRect command
    | Triangle                                    // the fixed triangle (0,0), (10,0), (0,20)
    | Square(r: real)                             // the block of a coordinate-system drawing

  datatype Mark =
    | Fill(shape: Shape, color: string, under: seq<Op>)
    | Csys(color: string, under: seq<Op>)         // grid lines, axes and arrows

  class Context {
    var ops: seq<Op>           // the current transform, as the operations applied so far
    var saved: seq<seq<Op>>    // the context's own save/restore stack
    var marks: seq<Mark>       // what has been painted since the last clear

    constructor ()
      ensures ops == [] && saved == [] && marks == []
    {
      ops, saved, marks := [], [], [];
    }

    method Apply(op: Op)
      modifies this
      ensures ops == old(ops) + [op] && saved == old(saved) && marks == old(marks)
    {
      ops := ops + [op];
    }

    method Save()
      modifies this
      ensures saved == old(saved) + [old(ops)] && ops == old(ops) && marks == old(marks)
    {
      saved := saved + [ops];
    }

    /** Restoring with an empty stack does nothing, as on a canvas. */
    method Restore()
      modifies this
      ensures old(saved) == [] ==> saved == [] && ops == old(ops)
      ensures old(saved) != [] ==> saved == old(saved)[..|old(saved)| - 1] && ops == old(saved)[|old(saved)| - 1]
      ensures marks == old(marks)
    {
      if saved != [] {
        ops := saved[|saved| - 1];
        saved := saved[..|saved| - 1];
      }
    }

    method SetTransform(t: seq<Op>)
      modifies this
      ensures ops == t && saved == old(saved) && marks == old(marks)
    {
      ops := t;
    }

    method Paint(m: Mark)
      modifies this
      ensures marks == old(marks) + [m] && ops == old(ops) && saved == old(saved)
    {
      marks := marks + [m];
    }

    method Clear()
      modifies this
      ensures marks == [] && ops == old(ops) && saved == old(saved)
    {
      marks := [];
    }
  }
}
