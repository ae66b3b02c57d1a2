/**
 * GPTRopeObject.py as a stateful object: the `nodes` list changed in place by the three
 * solver loops, the bob, its free-fall velocity and the `dragging` / `free_fall` flags.
 *
 * `bob_position` is bound once to `nodes[-1]["pos"]` and that list is only ever mutated
 * in place (the Verlet step copies the old position into `prev_pos`, never rebinds `pos`),
 * so the bob and the last node's position are one location for the whole run: the model
 * keeps a single copy, `nodes[ROPE_SEGMENTS].pos`.
 */
module RopeDemo {
  import opened RealMath
  import opened Geometry
  import opened RopeSolver

  class RopePendulum {
    const m: MathLib
    const nodes: array<Node>
    var bobVelocity: Vec
    var dragging: bool
    var freeFall: bool

    /** The rope has its ROPE_SEGMENTS + 1 nodes, the pivot node rests at PIVOT, and the flags exclude each other. */
    ghost predicate Valid()
      reads this, nodes
    {
      nodes.Length == ROPE_SEGMENTS + 1 &&
      nodes[0] == Node(PIVOT, PIVOT) &&
      !(dragging && freeFall)
    }

    /** `bob_position`, the last node's position. */
    function Bob(): Vec
      reads this, nodes
      requires nodes.Length == ROPE_SEGMENTS + 1
    {
      nodes[ROPE_SEGMENTS].pos
    }

    /** Lay the rope straight down from the pivot, at rest; the bob starts still and not held. */
    constructor(m: MathLib)
      ensures Valid() && fresh(nodes)
      ensures this.m == m
      ensures forall j :: 0 <= j < nodes.Length ==> nodes[j] == InitialNode(j)
      ensures bobVelocity == Vec(0.0, 0.0) && !dragging && !freeFall
    {
      this.m := m;
      var rope := new Node[ROPE_SEGMENTS + 1];
      for i := 0 to ROPE_SEGMENTS + 1
        invariant forall j :: 0 <= j < i ==> rope[j] == InitialNode(j)
      {
        rope[i] := InitialNode(i);
      }
      nodes := rope;
      bobVelocity := Vec(0.0, 0.0);
      dragging := false;
      freeFall := false;
    }

    /** `apply_gravity`: push every node but the pivot down, in place. */
    method ApplyGravity()
      requires nodes.Length == ROPE_SEGMENTS + 1
      modifies nodes
      ensures nodes[..] == Gravity(old(nodes[..]))
    {
      for i := 1 to nodes.Length
        invariant nodes[0] == old(nodes[0])
        invariant forall j :: 1 <= j < i ==> nodes[j] == Fallen(old(nodes[j]))
        invariant forall j :: i <= j < nodes.Length ==> nodes[j] == old(nodes[j])
      {
        nodes[i] := Fallen(nodes[i]);
      }
    }

    /** `verlet_integration`: one Verlet step for every node, in place. */
    method VerletIntegration()
      modifies nodes
      ensures nodes[..] == Verlet(old(nodes[..]))
    {
      for i := 0 to nodes.Length
        invariant forall j :: 0 <= j < i ==> nodes[j] == VerletNode(old(nodes[j]))
        invariant forall j :: i <= j < nodes.Length ==> nodes[j] == old(nodes[j])
      {
        var node := nodes[i];
        var tempPos := node.pos;
        var pos := Vec(node.pos.x + (node.pos.x - node.prevPos.x), node.pos.y + (node.pos.y - node.prevPos.y));
        nodes[i] := Node(pos, tempPos);
      }
    }

    /**
     * `constrain_nodes`: SWEEPS ascending sweeps over the pairs (i, i + 1), in place. `ok` is
     * false where the script raises ZeroDivisionError (two neighbours at the same position);
     * the nodes are then left part-way through. Each pair's arithmetic is RopeSolver.CorrectPair;
     * node 0 is never written.
     */
    method ConstrainNodes() returns (ok: bool)
      modifies nodes
      ensures ok == Relax(m, old(nodes[..]), SWEEPS).Some?
      ensures ok ==> nodes[..] == Relax(m, old(nodes[..]), SWEEPS).value
      ensures nodes.Length > 0 ==> nodes[0] == old(nodes[0])
    {
      ghost var start := nodes[..];
      var sweep := 0;
      while sweep < SWEEPS
        invariant 0 <= sweep <= SWEEPS
        invariant Relax(m, start, SWEEPS) == Relax(m, nodes[..], SWEEPS - sweep)
        invariant nodes.Length > 0 ==> nodes[0] == start[0]
      {
        ghost var before := nodes[..];
        assert Relax(m, start, SWEEPS) == Relax(m, before, SWEEPS - sweep);
        var i := 0;
        while i + 1 < nodes.Length
          invariant 0 <= i && (nodes.Length > 0 ==> i < nodes.Length)
          invariant SweepFrom(m, before, 0) == SweepFrom(m, nodes[..], i)
          invariant nodes.Length > 0 ==> nodes[0] == start[0]
        {
          ghost var current := nodes[..];
          match CorrectPair(m, nodes[i], nodes[i + 1], i == 0)
          case None =>
            assert SweepFrom(m, before, 0) == None;
            return false;
          case Some(pair) =>
            SweepFromPair(m, current, i, pair.0, pair.1);
            if i != 0 {
              nodes[i] := pair.0;
            }
            nodes[i + 1] := pair.1;
            assert nodes[..] == current[i := pair.0][i + 1 := pair.1];
            i := i + 1;
        }
        assert SweepFrom(m, before, 0) == Some(nodes[..]);
        sweep := sweep + 1;
      }
      return true;
    }

    /** MOUSEBUTTONDOWN: a press within BOB_RADIUS (inclusive) of the bob starts a drag and ends any free fall. */
    method Press(mouse: Vec)
      requires Valid()
      modifies this
      ensures Valid()
      ensures bobVelocity == old(bobVelocity)
      ensures Distance(m, mouse, Bob()) <= BOB_RADIUS ==> dragging && !freeFall
      ensures Distance(m, mouse, Bob()) > BOB_RADIUS ==> dragging == old(dragging) && freeFall == old(freeFall)
    {
      if Distance(m, mouse, Bob()) <= BOB_RADIUS {
        dragging := true;
        freeFall := false;
      }
    }

    /**
     * MOUSEBUTTONUP: always ends the drag, held or not; if the bob is then further than LENGTH
     * from the pivot it starts falling from rest.
     */
    method Release()
      requires Valid()
      modifies this
      ensures Valid()
      ensures !dragging
      ensures Distance(m, Bob(), PIVOT) > LENGTH ==> freeFall && bobVelocity == Vec(0.0, 0.0)
      ensures Distance(m, Bob(), PIVOT) <= LENGTH ==> freeFall == old(freeFall) && bobVelocity == old(bobVelocity)
    {
      dragging := false;
      if Distance(m, Bob(), PIVOT) > LENGTH {
        freeFall := true;
        bobVelocity := Vec(0.0, 0.0);
      }
    }

    /** MOUSEMOTION: while dragging, the bob (the last node) jumps to the mouse; otherwise nothing changes. */
    method Move(mouse: Vec)
      requires Valid()
      modifies nodes
      ensures Valid()
      ensures dragging ==> nodes[..] == old(nodes[..])[ROPE_SEGMENTS := old(nodes[ROPE_SEGMENTS]).(pos := mouse)]
      ensures !dragging ==> nodes[..] == old(nodes[..])
    {
      if dragging {
        nodes[ROPE_SEGMENTS] := nodes[ROPE_SEGMENTS].(pos := mouse);
      }
    }

    /**
     * The physics of one frame. While dragging nothing moves. In free fall the bob alone
     * takes a FallStep and the fall ends once it is within LENGTH of the pivot. Otherwise the
     * rope takes gravity, a Verlet step and `constrain_nodes`; `ok` is false where that raises.
     */
    method Tick() returns (ok: bool)
      requires Valid()
      modifies this, nodes
      ensures Valid() && dragging == old(dragging)
      ensures old(dragging) ==>
        ok && nodes[..] == old(nodes[..]) && freeFall == old(freeFall) && bobVelocity == old(bobVelocity)
      ensures !old(dragging) && old(freeFall) ==>
        var fallen := FallStep(Projectile(old(nodes[ROPE_SEGMENTS].pos), old(bobVelocity)), GRAVITY, TIME_STEP);
        ok && bobVelocity == fallen.vel &&
        nodes[..] == old(nodes[..])[ROPE_SEGMENTS := old(nodes[ROPE_SEGMENTS]).(pos := fallen.pos)] &&
        freeFall == (Distance(m, fallen.pos, PIVOT) > LENGTH)
      ensures !old(dragging) && !old(freeFall) ==>
        !freeFall && bobVelocity == old(bobVelocity) &&
        ok == Relax(m, Verlet(Gravity(old(nodes[..]))), SWEEPS).Some? &&
        (ok ==> nodes[..] == Relax(m, Verlet(Gravity(old(nodes[..]))), SWEEPS).value)
    {
      ok := true;
      if !dragging {
        if freeFall {
          var fallen := FallStep(Projectile(Bob(), bobVelocity), GRAVITY, TIME_STEP);
          bobVelocity := fallen.vel;
          nodes[ROPE_SEGMENTS] := nodes[ROPE_SEGMENTS].(pos := fallen.pos);
          if Distance(m, fallen.pos, PIVOT) <= LENGTH {
            freeFall := false;
          }
        } else {
          ApplyGravity();
          VerletIntegration();
          ok := ConstrainNodes();
        }
      }
    }
  }
}
