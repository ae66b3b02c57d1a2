/**
 * The rope of GPTRopeObject.py, as values: ROPE_SEGMENTS + 1 nodes hanging from the
 * pivot, each with a position and the position it had one frame earlier. One frame of
 * the solver is gravity injection, a Verlet step, then 5 ascending sweeps that pull each
 * neighbouring pair towards the rest length of a segment.
 *
 * These functions specify the in-place loops of RopeDemo.RopePendulum.
 */
module RopeSolver {
  import opened RealMath
  import opened Geometry

  datatype Option<T> = None | Some(value: T)

  const PIVOT: Vec := Vec(400.0, 100.0)
  const LENGTH: real := 300.0
  const ROPE_SEGMENTS: nat := 20
  const SEGMENT_LENGTH: real := LENGTH / ROPE_SEGMENTS as real
  const BOB_RADIUS: real := 15.0
  const GRAVITY: real := 9.8
  const TIME_STEP: real := 1.0 / 60.0
  /** The number of relaxation sweeps `constrain_nodes` runs per frame. */
  const SWEEPS: nat := 5

  datatype Node = Node(pos: Vec, prevPos: Vec)

  // ---------------------------------------------------------------------------
  // Initialisation

  /** Node i of the initial rope: i segments straight below the pivot, at rest (prev_pos == pos). */
  function InitialNode(i: nat): Node {
    var p := Vec(PIVOT.x, PIVOT.y + i as real * SEGMENT_LENGTH);
    Node(p, p)
  }

  /** Every pair of neighbours is exactly at rest length. */
  ghost predicate AtRestLength(nodes: seq<Node>) {
    forall j :: 0 <= j < |nodes| - 1 ==>
      SquaredDistance(nodes[j + 1].pos, nodes[j].pos) == SEGMENT_LENGTH * SEGMENT_LENGTH
  }

  /** The initial rope hangs straight down from the pivot, every segment at rest length, the bob LENGTH below the pivot. */
  lemma InitialRopeHangsStraight(nodes: seq<Node>)
    requires |nodes| == ROPE_SEGMENTS + 1
    requires forall j :: 0 <= j < |nodes| ==> nodes[j] == InitialNode(j)
    ensures nodes[0] == Node(PIVOT, PIVOT)
    ensures nodes[ROPE_SEGMENTS].pos == Vec(PIVOT.x, PIVOT.y + LENGTH)
    ensures AtRestLength(nodes)
  {
    forall j | 0 <= j < |nodes| - 1
      ensures SquaredDistance(nodes[j + 1].pos, nodes[j].pos) == SEGMENT_LENGTH * SEGMENT_LENGTH
    {
      var a, b := nodes[j].pos, nodes[j + 1].pos;
      assert b.x - a.x == 0.0;
      assert b.y - a.y == (j + 1) as real * SEGMENT_LENGTH - j as real * SEGMENT_LENGTH == SEGMENT_LENGTH;
    }
  }

  // ---------------------------------------------------------------------------
  // apply_gravity and verlet_integration

  /** A node pushed down by GRAVITY * TIME_STEP. */
  function Fallen(n: Node): Node {
    n.(pos := n.pos.(y := n.pos.y + GRAVITY * TIME_STEP))
  }

  /** `apply_gravity`: every node but the pivot (index 0) is pushed down. */
  function Gravity(nodes: seq<Node>): seq<Node> {
    seq(|nodes|, j requires 0 <= j < |nodes| => if j == 0 then nodes[j] else Fallen(nodes[j]))
  }

  /** Gravity moves nothing but the y of the non-pivot nodes, each by exactly GRAVITY * TIME_STEP. */
  lemma GravityMovesOnlyDown(nodes: seq<Node>)
    ensures |Gravity(nodes)| == |nodes|
    ensures |nodes| > 0 ==> Gravity(nodes)[0] == nodes[0]
    ensures forall j :: 0 <= j < |nodes| ==>
      Gravity(nodes)[j].prevPos == nodes[j].prevPos && Gravity(nodes)[j].pos.x == nodes[j].pos.x
    ensures forall j :: 1 <= j < |nodes| ==> Gravity(nodes)[j].pos.y == nodes[j].pos.y + GRAVITY * TIME_STEP
  {
  }

  /** One node's Verlet step: pos += pos - prev_pos, and prev_pos becomes the old pos. */
  function VerletNode(n: Node): Node {
    Node(Vec(n.pos.x + (n.pos.x - n.prevPos.x), n.pos.y + (n.pos.y - n.prevPos.y)), n.pos)
  }

  /** `verlet_integration` over every node, the pivot included. */
  function Verlet(nodes: seq<Node>): seq<Node> {
    seq(|nodes|, j requires 0 <= j < |nodes| => VerletNode(nodes[j]))
  }

  /** A Verlet step carries the node's velocity (pos - prev_pos) over unchanged; a node at rest stays put. */
  lemma VerletKeepsVelocity(n: Node)
    ensures VerletNode(n).pos.x - VerletNode(n).prevPos.x == n.pos.x - n.prevPos.x
    ensures VerletNode(n).pos.y - VerletNode(n).prevPos.y == n.pos.y - n.prevPos.y
    ensures VerletNode(n).prevPos == n.pos
    ensures n.pos == n.prevPos ==> VerletNode(n) == n
  {
  }

  // ---------------------------------------------------------------------------
  // constrain_nodes

  /**
   * One pair (a, b) = (nodes[i], nodes[i + 1]) of `constrain_nodes`, with diff =
   * (dist - SEGMENT_LENGTH) / dist. When `pinned` (i == 0) only b moves, by half the
   * correction; otherwise a and b each move half of it towards each other. None when the
   * two positions coincide: dist is 0 and the division raises ZeroDivisionError.
   */
  function CorrectPair(m: MathLib, a: Node, b: Node, pinned: bool): Option<(Node, Node)> {
    var dx := b.pos.x - a.pos.x;
    var dy := b.pos.y - a.pos.y;
    var dist := Distance(m, b.pos, a.pos);
    if dist == 0.0 then None
    else
      var diff := (dist - SEGMENT_LENGTH) / dist;
      var b' := b.(pos := Vec(b.pos.x - dx * 0.5 * diff, b.pos.y - dy * 0.5 * diff));
      if pinned then Some((a, b'))
      else Some((a.(pos := Vec(a.pos.x + dx * 0.5 * diff, a.pos.y + dy * 0.5 * diff)), b'))
  }

  /** Given sqrt is a square root, a pair fails exactly when its two positions coincide. */
  lemma CorrectPairFailsIffCoincident(m: MathLib, a: Node, b: Node, pinned: bool)
    requires SqrtIsRoot(m)
    ensures CorrectPair(m, a, b, pinned) == None <==> a.pos == b.pos
  {
    var dx, dy := b.pos.x - a.pos.x, b.pos.y - a.pos.y;
    SqrtZero(m, SquaredDistance(b.pos, a.pos));
    if SquaredDistance(b.pos, a.pos) == 0.0 {
      SquareAtMost(0.0, Abs(dx));
      SquareAtMost(0.0, Abs(dy));
      assert dx * dx == 0.0 && dy * dy == 0.0;
      if dx != 0.0 {
        SquareBelow(0.0, Abs(dx));
      }
      if dy != 0.0 {
        SquareBelow(0.0, Abs(dy));
      }
    }
  }

  /** A pair never touches the previous positions, and a pinned pair never moves its first node. */
  lemma CorrectPairFrame(m: MathLib, a: Node, b: Node, pinned: bool)
    requires CorrectPair(m, a, b, pinned).Some?
    ensures CorrectPair(m, a, b, pinned).value.0.prevPos == a.prevPos
    ensures CorrectPair(m, a, b, pinned).value.1.prevPos == b.prevPos
    ensures pinned ==> CorrectPair(m, a, b, pinned).value.0 == a
  {
  }

  /** An unpinned pair moves its ends by opposite vectors, so the pair's midpoint stays where it was. */
  lemma CorrectPairKeepsMidpoint(m: MathLib, a: Node, b: Node)
    requires CorrectPair(m, a, b, false).Some?
    ensures CorrectPair(m, a, b, false).value.0.pos.x + CorrectPair(m, a, b, false).value.1.pos.x == a.pos.x + b.pos.x
    ensures CorrectPair(m, a, b, false).value.0.pos.y + CorrectPair(m, a, b, false).value.1.pos.y == a.pos.y + b.pos.y
  {
  }

  /** (u * r)^2 + (v * r)^2 = (u^2 + v^2) * r^2 */
  lemma ScaledSquares(u: real, v: real, r: real)
    ensures (u * r) * (u * r) + (v * r) * (v * r) == (u * u + v * v) * (r * r)
  {
  }

  /**
   * The pair's new offset is the old offset (dx, dy) scaled by `scale`, where
   * scale = 1 - diff for an unpinned pair and 1 - diff / 2 for the pinned one.
   */
  lemma CorrectPairScalesOffset(m: MathLib, a: Node, b: Node, pinned: bool)
    requires CorrectPair(m, a, b, pinned).Some?
    ensures var dist := Distance(m, b.pos, a.pos);
      var diff := (dist - SEGMENT_LENGTH) / dist;
      var scale := if pinned then 1.0 - 0.5 * diff else 1.0 - diff;
      var p := CorrectPair(m, a, b, pinned).value;
      p.1.pos.x - p.0.pos.x == (b.pos.x - a.pos.x) * scale &&
      p.1.pos.y - p.0.pos.y == (b.pos.y - a.pos.y) * scale
  {
  }

  /**
   * Given sqrt is a square root, an unpinned pair ends exactly at rest length: its new
   * squared distance is SEGMENT_LENGTH^2.
   */
  lemma CorrectPairRestoresRestLength(m: MathLib, a: Node, b: Node)
    requires SqrtIsRoot(m)
    requires CorrectPair(m, a, b, false).Some?
    ensures var p := CorrectPair(m, a, b, false).value;
      SquaredDistance(p.1.pos, p.0.pos) == SEGMENT_LENGTH * SEGMENT_LENGTH
  {
    var p := CorrectPair(m, a, b, false).value;
    var q := SquaredDistance(b.pos, a.pos);
    var dist := Distance(m, b.pos, a.pos);
    assert SqrtAt(m, q);
    assert dist * dist == q;
    var diff := (dist - SEGMENT_LENGTH) / dist;
    var r := SEGMENT_LENGTH / dist;
    assert 1.0 - diff == r;
    CorrectPairScalesOffset(m, a, b, false);
    var dx, dy := b.pos.x - a.pos.x, b.pos.y - a.pos.y;
    ScaledSquares(dx, dy, r);
    assert SquaredDistance(p.1.pos, p.0.pos) == q * (r * r);
    assert q * (r * r) == (dist * r) * (dist * r);
    assert dist * r == SEGMENT_LENGTH;
  }

  /**
   * Given sqrt is a square root, the pinned pair (the pivot and node 1) closes only half the
   * gap: node 1 ends at the average of its old distance and the rest length.
   */
  lemma CorrectPairPinnedHalvesGap(m: MathLib, a: Node, b: Node)
    requires SqrtIsRoot(m)
    requires CorrectPair(m, a, b, true).Some?
    ensures var p := CorrectPair(m, a, b, true).value;
      var target := (Distance(m, b.pos, a.pos) + SEGMENT_LENGTH) / 2.0;
      SquaredDistance(p.1.pos, p.0.pos) == target * target
  {
    var p := CorrectPair(m, a, b, true).value;
    var q := SquaredDistance(b.pos, a.pos);
    var dist := Distance(m, b.pos, a.pos);
    assert SqrtAt(m, q);
    assert dist * dist == q;
    var diff := (dist - SEGMENT_LENGTH) / dist;
    var r := (dist + SEGMENT_LENGTH) / (2.0 * dist);
    assert 1.0 - 0.5 * diff == r;
    CorrectPairScalesOffset(m, a, b, true);
    var dx, dy := b.pos.x - a.pos.x, b.pos.y - a.pos.y;
    ScaledSquares(dx, dy, r);
    assert SquaredDistance(p.1.pos, p.0.pos) == q * (r * r);
    assert q * (r * r) == (dist * r) * (dist * r);
    assert dist * r == (dist + SEGMENT_LENGTH) / 2.0;
  }

  /** Given sqrt is a square root, a pair already at rest length is left exactly as it is. */
  lemma CorrectPairAtRest(m: MathLib, a: Node, b: Node, pinned: bool)
    requires SqrtIsRoot(m)
    requires SquaredDistance(b.pos, a.pos) == SEGMENT_LENGTH * SEGMENT_LENGTH
    ensures CorrectPair(m, a, b, pinned) == Some((a, b))
  {
    SqrtOfSquare(m, SEGMENT_LENGTH);
    assert Distance(m, b.pos, a.pos) == SEGMENT_LENGTH;
  }

  /** Pair i of a sweep, applied to the rope; i == 0 is the pinned pivot pair. */
  function RelaxPair(m: MathLib, nodes: seq<Node>, i: nat): Option<seq<Node>>
    requires i + 1 < |nodes|
  {
    match CorrectPair(m, nodes[i], nodes[i + 1], i == 0)
    case None => None
    case Some(p) => Some(nodes[i := p.0][i + 1 := p.1])
  }

  /** The pairs (i, i + 1), (i + 1, i + 2), ... of one sweep, in ascending order, each seeing the previous ones' moves. */
  function SweepFrom(m: MathLib, nodes: seq<Node>, i: nat): Option<seq<Node>>
    decreases |nodes| - i
  {
    if i + 1 >= |nodes| then Some(nodes)
    else match RelaxPair(m, nodes, i)
      case None => None
      case Some(next) => SweepFrom(m, next, i + 1)
  }

  /** A sweep from pair i whose pair i corrects to (a', b') goes on from pair i + 1 with those two nodes written. */
  lemma SweepFromPair(m: MathLib, nodes: seq<Node>, i: nat, a': Node, b': Node)
    requires i + 1 < |nodes|
    requires CorrectPair(m, nodes[i], nodes[i + 1], i == 0) == Some((a', b'))
    ensures SweepFrom(m, nodes, i) == SweepFrom(m, nodes[i := a'][i + 1 := b'], i + 1)
  {
  }

  /** `constrain_nodes` with `sweeps` sweeps left; it runs SWEEPS of them. */
  function Relax(m: MathLib, nodes: seq<Node>, sweeps: nat): Option<seq<Node>>
    decreases sweeps
  {
    if sweeps == 0 then Some(nodes)
    else match SweepFrom(m, nodes, 0)
      case None => None
      case Some(next) => Relax(m, next, sweeps - 1)
  }

  /** `after` has as many nodes as `before`, the same node 0 and the same previous position at every index. */
  ghost predicate SameFrame(before: seq<Node>, after: seq<Node>) {
    |after| == |before| &&
    (|before| > 0 ==> after[0] == before[0]) &&
    forall j :: 0 <= j < |before| ==> after[j].prevPos == before[j].prevPos
  }

  /** A sweep keeps the node count, never moves node 0 and never touches any prev_pos. */
  lemma {:induction false} SweepFromKeepsFrame(m: MathLib, nodes: seq<Node>, i: nat)
    requires SweepFrom(m, nodes, i).Some?
    ensures SameFrame(nodes, SweepFrom(m, nodes, i).value)
    decreases |nodes| - i
  {
    if i + 1 < |nodes| {
      var next := RelaxPair(m, nodes, i).value;
      CorrectPairFrame(m, nodes[i], nodes[i + 1], i == 0);
      assert SameFrame(nodes, next);
      SweepFromKeepsFrame(m, next, i + 1);
    }
  }

  /** `constrain_nodes` keeps the node count, never moves node 0 and never touches any prev_pos. */
  lemma {:induction false} RelaxKeepsFrame(m: MathLib, nodes: seq<Node>, sweeps: nat)
    requires Relax(m, nodes, sweeps).Some?
    ensures SameFrame(nodes, Relax(m, nodes, sweeps).value)
    decreases sweeps
  {
    if sweeps > 0 {
      var next := SweepFrom(m, nodes, 0).value;
      SweepFromKeepsFrame(m, nodes, 0);
      RelaxKeepsFrame(m, next, sweeps - 1);
    }
  }

  /** Given sqrt is a square root, a sweep over a rope at rest length changes nothing. */
  lemma {:induction false} SweepFromAtRest(m: MathLib, nodes: seq<Node>, i: nat)
    requires SqrtIsRoot(m)
    requires AtRestLength(nodes)
    ensures SweepFrom(m, nodes, i) == Some(nodes)
    decreases |nodes| - i
  {
    if i + 1 < |nodes| {
      CorrectPairAtRest(m, nodes[i], nodes[i + 1], i == 0);
      assert nodes[i := nodes[i]][i + 1 := nodes[i + 1]] == nodes;
      SweepFromAtRest(m, nodes, i + 1);
    }
  }

  /** Given sqrt is a square root, a rope at rest length is a fixed point of `constrain_nodes`. */
  lemma {:induction false} RelaxAtRest(m: MathLib, nodes: seq<Node>, sweeps: nat)
    requires SqrtIsRoot(m)
    requires AtRestLength(nodes)
    ensures Relax(m, nodes, sweeps) == Some(nodes)
    decreases sweeps
  {
    if sweeps > 0 {
      SweepFromAtRest(m, nodes, 0);
      RelaxAtRest(m, nodes, sweeps - 1);
    }
  }
}
