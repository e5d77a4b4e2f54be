/**
  The fast-path / slow-path emission mode around block statements. Lowering a block switches
  to the fast path, lowers the statements in order and then switches to the slow path; the
  prior mode is not restored. A nested block therefore leaves the rest of its enclosing
  block in the slow path.
*/
module BlockMode {

  datatype Mode = FastPath | SlowPath

  /** A statement inside a block: `Block` is a block statement, `Plain` any statement
      whose lowering does not lower a block. */
  datatype Stmt = Plain | Block(body: seq<Stmt>)

  /** The mode each statement was entered in, shaped like the statements. */
  datatype Entered = PlainIn(mode: Mode) | BlockIn(mode: Mode, body: seq<Entered>)

  /** The result of lowering statements: how each was entered, and the mode at the end. */
  datatype Lowered = Lowered(entered: seq<Entered>, exit: Mode)

  /** Lower the statements of a block one after another, starting in mode `m`. */
  function LowerStatements(m: Mode, ss: seq<Stmt>): (r: Lowered)
    ensures |r.entered| == |ss|
    decreases ss, 0
  {
    if ss == [] then Lowered([], m)
    else
      var first :=
        match ss[0]
        case Plain => Lowered([PlainIn(m)], m)
        case Block(body) =>
          var inner := WriteBlockStatement(m, body);
          Lowered([BlockIn(m, inner.entered)], inner.exit);
      var rest := LowerStatements(first.exit, ss[1..]);
      Lowered(first.entered + rest.entered, rest.exit)
  }

  /** A block statement: switch to the fast path, lower the block, switch to the slow path. */
  function WriteBlockStatement(m: Mode, body: seq<Stmt>): (r: Lowered)
    ensures r.exit == SlowPath && |r.entered| == |body|
    decreases body, 1
  {
    var inner := LowerStatements(FastPath, body);
    Lowered(inner.entered, SlowPath)
  }

  /** Some statement before position `i` is a block statement. */
  predicate BlockBefore(ss: seq<Stmt>, i: int) {
    exists j :: 0 <= j < i && j < |ss| && ss[j].Block?
  }

  /**
    Statement `i` is entered in the mode the sequence started in until the first block
    statement has been lowered, and in the slow path from then on; the sequence ends in the
    slow path exactly when it holds a block statement.
  */
  lemma {:induction false} LowerStatementsModes(m: Mode, ss: seq<Stmt>)
    ensures var r := LowerStatements(m, ss);
      && (forall i | 0 <= i < |ss| :: r.entered[i].mode == (if BlockBefore(ss, i) then SlowPath else m))
      && r.exit == (if BlockBefore(ss, |ss|) then SlowPath else m)
    decreases |ss|
  {
    if ss != [] {
      var r := LowerStatements(m, ss);
      var first :=
        match ss[0]
        case Plain => Lowered([PlainIn(m)], m)
        case Block(body) =>
          var inner := WriteBlockStatement(m, body);
          Lowered([BlockIn(m, inner.entered)], inner.exit);
      var rest := LowerStatements(first.exit, ss[1..]);
      LowerStatementsModes(first.exit, ss[1..]);
      assert r.entered == first.entered + rest.entered;
      forall i | 0 <= i <= |ss|
        ensures BlockBefore(ss, i) <==> (i > 0 && (ss[0].Block? || BlockBefore(ss[1..], i - 1)))
      {
        if i > 0 && BlockBefore(ss[1..], i - 1) {
          var j :| 0 <= j < i - 1 && j < |ss[1..]| && ss[1..][j].Block?;
          assert ss[j + 1].Block?;
        }
        if BlockBefore(ss, i) {
          var j :| 0 <= j < i && j < |ss| && ss[j].Block?;
          if j > 0 {
            assert ss[1..][j - 1].Block?;
          }
        }
      }
      forall i | 0 <= i < |ss|
        ensures r.entered[i].mode == (if BlockBefore(ss, i) then SlowPath else m)
      {
        if i > 0 {
          assert r.entered[i] == rest.entered[i - 1];
        }
      }
    }
  }

  /**
    Lowering a block always ends in the slow path, whatever the mode before it: the prior
    mode is not restored. The block's statements are entered in the fast path up to and
    including its first nested block statement, and in the slow path after it.
  */
  lemma BlockToggle(m: Mode, body: seq<Stmt>)
    ensures var r := WriteBlockStatement(m, body);
      && r.exit == SlowPath
      && |r.entered| == |body|
      && (forall i | 0 <= i < |body| :: r.entered[i].mode == FastPath <==> !BlockBefore(body, i))
      && (forall m' :: WriteBlockStatement(m', body) == r)
  {
    LowerStatementsModes(FastPath, body);
  }

}
