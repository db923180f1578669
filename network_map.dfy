/**
 * The animated network map: a fixed array of drifting nodes on a canvas.
 * Each frame links every unordered pair of nodes closer than 100 units,
 * then moves every node by its velocity and turns it back at the canvas
 * edges. Coordinates are exact reals; `Math.random` results reach the
 * model as parameters.
 */
module NetworkMap {
  import opened Options

  const NodeCount: nat := 30
  /** Nodes closer than this are linked. */
  const LinkDistance: real := 100.0

  datatype Node = Node(x: real, y: real, radius: real, vx: real, vy: real, connected: bool)

  /** Six results of `Math.random`, each in [0, 1), that make one node. */
  datatype NodeDraw = NodeDraw(rx: real, ry: real, rr: real, rvx: real, rvy: real, rc: real)

  predicate Unit(r: real) { 0.0 <= r < 1.0 }

  predicate ValidNodeDraw(d: NodeDraw)
  {
    Unit(d.rx) && Unit(d.ry) && Unit(d.rr) && Unit(d.rvx) && Unit(d.rvy) && Unit(d.rc)
  }

  predicate ValidNodeDraws(draws: seq<NodeDraw>)
  {
    |draws| == NodeCount && forall i :: 0 <= i < |draws| ==> ValidNodeDraw(draws[i])
  }

  lemma NonNegativeProduct(a: real, b: real)
    requires 0.0 <= a && 0.0 <= b
    ensures 0.0 <= a * b
  {
  }

  /** A random position along an axis of the given size: in [0, size), or 0 on an empty axis. */
  function Scaled(r: real, size: nat): (p: real)
    requires Unit(r)
    ensures 0.0 <= p <= size as real
    ensures size > 0 ==> p < size as real
  {
    var w := size as real;
    NonNegativeProduct(r, w);
    NonNegativeProduct(1.0 - r, w);
    assert (1.0 - r) * w == w - r * w;
    r * w
  }

  /** A new node: anywhere on the canvas, radius in [1, 3), each velocity component in [-0.25, 0.25). */
  function Spawn(d: NodeDraw, width: nat, height: nat): (n: Node)
    requires ValidNodeDraw(d)
    ensures 0.0 <= n.x <= width as real && (width > 0 ==> n.x < width as real)
    ensures 0.0 <= n.y <= height as real && (height > 0 ==> n.y < height as real)
    ensures 1.0 <= n.radius < 3.0
    ensures -0.25 <= n.vx < 0.25 && -0.25 <= n.vy < 0.25
    ensures n.connected <==> d.rc > 0.3
  {
    Node(Scaled(d.rx, width), Scaled(d.ry, height), d.rr * 2.0 + 1.0,
         (d.rvx - 0.5) * 0.5, (d.rvy - 0.5) * 0.5, d.rc > 0.3)
  }

  // ---------------------------------------------------------------- links

  /** Squared distance between two nodes: never negative. */
  function Dist2(a: Node, b: Node): (d2: real)
    ensures 0.0 <= d2
  {
    SquareNonNegative(a.x - b.x);
    SquareNonNegative(a.y - b.y);
    (a.x - b.x) * (a.x - b.x) + (a.y - b.y) * (a.y - b.y)
  }

  lemma SquareNonNegative(d: real)
    ensures 0.0 <= d * d
  {
    if d < 0.0 {
      NonNegativeProduct(-d, -d);
      assert d * d == (-d) * (-d);
    } else {
      NonNegativeProduct(d, d);
    }
  }

  lemma SquareBelow(d: real)
    ensures d * d < LinkDistance * LinkDistance ==> -LinkDistance < d < LinkDistance
  {
    assert LinkDistance * LinkDistance == 10000.0;
    if d >= LinkDistance {
      NonNegativeProduct(d, d - LinkDistance);
    } else if d <= -LinkDistance {
      NonNegativeProduct(-d, -d - LinkDistance);
      assert d * d == (-d) * (-d);
    }
  }

  /** A squared distance below 100 * 100 keeps each axis within 100. */
  lemma NearSpan(a: Node, b: Node)
    ensures Dist2(a, b) < LinkDistance * LinkDistance ==>
      -LinkDistance < a.x - b.x < LinkDistance && -LinkDistance < a.y - b.y < LinkDistance
  {
    var dx, dy := a.x - b.x, a.y - b.y;
    SquareNonNegative(dx);
    SquareNonNegative(dy);
    SquareBelow(dx);
    SquareBelow(dy);
    assert Dist2(a, b) == dx * dx + dy * dy;
    if Dist2(a, b) < LinkDistance * LinkDistance {
      assert dx * dx < LinkDistance * LinkDistance;
      assert dy * dy < LinkDistance * LinkDistance;
    }
  }

  /**
   * Two nodes are drawn linked when their distance is below 100; a link
   * therefore spans less than 100 along each axis.
   */
  predicate Near(a: Node, b: Node)
    ensures Near(a, b) ==> -LinkDistance < a.x - b.x < LinkDistance
    ensures Near(a, b) ==> -LinkDistance < a.y - b.y < LinkDistance
  {
    NearSpan(a, b);
    Dist2(a, b) < LinkDistance * LinkDistance
  }

  lemma NearSymmetric(a: Node, b: Node)
    ensures Near(a, b) == Near(b, a)
  {
    assert (a.x - b.x) * (a.x - b.x) == (b.x - a.x) * (b.x - a.x);
    assert (a.y - b.y) * (a.y - b.y) == (b.y - a.y) * (b.y - a.y);
  }

  /**
   * Comparing squared distance with 100 * 100 decides the same as
   * comparing the square root with 100.
   */
  lemma SquareRootThreshold(d2: real, root: real)
    requires 0.0 <= root && root * root == d2
    ensures root < LinkDistance <==> d2 < LinkDistance * LinkDistance
  {
    if root < LinkDistance {
      assert root * root <= root * LinkDistance < LinkDistance * LinkDistance;
    } else {
      assert root * root >= root * LinkDistance >= LinkDistance * LinkDistance;
    }
  }

  /** A link between the nodes at two indices, the lower first. */
  type Link = (nat, nat)

  /** The links tested in row `i` up to column `j`: pairs (i, k) with i < k < j. */
  function Row(s: seq<Node>, i: nat, j: nat): (r: seq<Link>)
    requires i < j <= |s|
    ensures |r| < j - i
    decreases j
  {
    if j == i + 1 then []
    else Row(s, i, j - 1) + if Near(s[i], s[j - 1]) then [(i, j - 1)] else []
  }

  /** The links of rows 0 .. i-1, in drawing order: at most one per node per row. */
  function Before(s: seq<Node>, i: nat): (r: seq<Link>)
    requires i <= |s|
    ensures |r| <= i * |s|
  {
    if i == 0 then []
    else
      assert i * |s| == (i - 1) * |s| + |s|;
      Before(s, i - 1) + Row(s, i - 1, |s|)
  }

  /** Every link one frame draws, in the order it draws them; each joins two distinct nodes. */
  function Links(s: seq<Node>): (r: seq<Link>)
    ensures forall l :: l in r ==> l.0 < l.1 < |s|
  {
    BeforeShape(s, |s|);
    Before(s, |s|)
  }

  /** `p` is drawn before `q`: by row, then by column. */
  predicate Precedes(p: Link, q: Link)
  {
    p.0 < q.0 || (p.0 == q.0 && p.1 < q.1)
  }

  predicate Ordered(ls: seq<Link>)
  {
    forall a, b :: 0 <= a < b < |ls| ==> Precedes(ls[a], ls[b])
  }

  lemma OrderedConcat(l: seq<Link>, r: seq<Link>)
    requires Ordered(l) && Ordered(r)
    requires forall p, q :: p in l && q in r ==> Precedes(p, q)
    ensures Ordered(l + r)
  {
    forall a, b | 0 <= a < b < |l + r|
      ensures Precedes((l + r)[a], (l + r)[b])
    {
      if b < |l| {
      } else if a >= |l| {
        assert (l + r)[a] == r[a - |l|] && (l + r)[b] == r[b - |l|];
      } else {
        assert (l + r)[a] in l && (l + r)[b] in r;
      }
    }
  }

  lemma {:induction false} RowShape(s: seq<Node>, i: nat, j: nat)
    requires i < j <= |s|
    ensures forall l :: l in Row(s, i, j) ==> l.0 == i && i < l.1 < j && Near(s[i], s[l.1])
    ensures Ordered(Row(s, i, j))
    decreases j
  {
    if j > i + 1 {
      RowShape(s, i, j - 1);
      var last: seq<Link> := if Near(s[i], s[j - 1]) then [(i, j - 1)] else [];
      assert Row(s, i, j) == Row(s, i, j - 1) + last;
      OrderedConcat(Row(s, i, j - 1), last);
    }
  }

  lemma {:induction false} RowMember(s: seq<Node>, i: nat, j: nat, b: nat)
    requires i < j <= |s|
    ensures (i, b) in Row(s, i, j) <==> i < b < j && Near(s[i], s[b])
    decreases j
  {
    if j > i + 1 {
      RowMember(s, i, j - 1, b);
    }
  }

  lemma {:induction false} BeforeShape(s: seq<Node>, i: nat)
    requires i <= |s|
    ensures forall l :: l in Before(s, i) ==> l.0 < i && l.0 < l.1 < |s| && Near(s[l.0], s[l.1])
    ensures Ordered(Before(s, i))
  {
    if i > 0 {
      var earlier, row := Before(s, i - 1), Row(s, i - 1, |s|);
      BeforeShape(s, i - 1);
      RowShape(s, i - 1, |s|);
      assert forall p, q :: p in earlier && q in row ==> Precedes(p, q);
      OrderedConcat(earlier, row);
      assert Before(s, i) == earlier + row;
      assert forall l :: l in earlier + row ==> l in earlier || l in row;
    }
  }

  /** Where a near pair (i, b) sits in row i. */
  lemma {:induction false} RowIndex(s: seq<Node>, i: nat, j: nat, b: nat) returns (k: nat)
    requires i < b < j <= |s| && Near(s[i], s[b])
    ensures k < |Row(s, i, j)| && Row(s, i, j)[k] == (i, b)
    decreases j
  {
    if b == j - 1 {
      k := |Row(s, i, j - 1)|;
    } else {
      k := RowIndex(s, i, j - 1, b);
    }
  }

  /** Where a near pair (a, b) with a < i sits among the links of the first i rows. */
  lemma {:induction false} BeforeIndex(s: seq<Node>, i: nat, a: nat, b: nat) returns (k: nat)
    requires a < i <= |s| && a < b < |s| && Near(s[a], s[b])
    ensures k < |Before(s, i)| && Before(s, i)[k] == (a, b)
  {
    if a + 1 == i {
      var m := RowIndex(s, a, |s|, b);
      k := |Before(s, a)| + m;
    } else {
      k := BeforeIndex(s, i - 1, a, b);
    }
  }

  lemma BeforeMember(s: seq<Node>, i: nat, a: nat, b: nat)
    requires i <= |s|
    ensures (a, b) in Before(s, i) <==> a < i && a < b < |s| && Near(s[a], s[b])
  {
    if (a, b) in Before(s, i) {
      BeforeShape(s, i);
    }
    if a < i && a < b < |s| && Near(s[a], s[b]) {
      var k := BeforeIndex(s, i, a, b);
    }
  }

  /**
   * A frame links the pair at indices a < b exactly when those nodes are
   * closer than 100; it never links a node to itself.
   */
  lemma LinksExactly(s: seq<Node>, a: nat, b: nat)
    ensures (a, b) in Links(s) <==> a < b < |s| && Near(s[a], s[b])
  {
    BeforeMember(s, |s|, a, b);
  }

  /**
   * Whichever way round a pair is named, it is linked iff it is near;
   * and each unordered pair is drawn at most once, in row order.
   */
  lemma LinksSymmetricOnce(s: seq<Node>, a: nat, b: nat)
    requires a < |s| && b < |s|
    ensures ((a, b) in Links(s) || (b, a) in Links(s)) <==> a != b && Near(s[a], s[b])
    ensures !((a, b) in Links(s) && (b, a) in Links(s))
    ensures Ordered(Links(s))
  {
    LinksExactly(s, a, b);
    LinksExactly(s, b, a);
    NearSymmetric(s[a], s[b]);
    BeforeShape(s, |s|);
  }

  // ---------------------------------------------------------------- motion

  function Abs(r: real): real { if r < 0.0 then -r else r }

  /**
   * One node's move: the position advances by the velocity, and a
   * velocity component turns round when the new position is off the
   * canvas on that axis.
   */
  function Step(n: Node, width: nat, height: nat): (r: Node)
    ensures r.x == n.x + n.vx && r.y == n.y + n.vy
    ensures Abs(r.vx) == Abs(n.vx) && Abs(r.vy) == Abs(n.vy)
    ensures (r.x < 0.0 || r.x > width as real) ==> r.vx == -n.vx
    ensures 0.0 <= r.x <= width as real ==> r.vx == n.vx
    ensures (r.y < 0.0 || r.y > height as real) ==> r.vy == -n.vy
    ensures 0.0 <= r.y <= height as real ==> r.vy == n.vy
    ensures r.radius == n.radius && r.connected == n.connected
  {
    var x, y := n.x + n.vx, n.y + n.vy;
    n.(x := x, y := y,
       vx := if x < 0.0 || x > width as real then -n.vx else n.vx,
       vy := if y < 0.0 || y > height as real then -n.vy else n.vy)
  }

  /** Every node's move in one frame. */
  function Advance(s: seq<Node>, width: nat, height: nat): (r: seq<Node>)
    ensures |r| == |s|
  {
    seq(|s|, i requires 0 <= i < |s| => Step(s[i], width, height))
  }

  /** `k` frames on a canvas of fixed size. */
  function Frames(s: seq<Node>, width: nat, height: nat, k: nat): (r: seq<Node>)
    ensures |r| == |s|
  {
    if k == 0 then s else Advance(Frames(s, width, height, k - 1), width, height)
  }

  /**
   * Reflection keeps a node within one velocity step of the canvas on
   * each axis, heading back in whenever it is outside; the speed on each
   * axis is at most the canvas size.
   */
  predicate OnAxis(p: real, v: real, size: real)
  {
    && Abs(v) <= size
    && -Abs(v) <= p <= size + Abs(v)
    && (p < 0.0 ==> v > 0.0)
    && (p > size ==> v < 0.0)
  }

  predicate Confined(n: Node, width: nat, height: nat)
  {
    OnAxis(n.x, n.vx, width as real) && OnAxis(n.y, n.vy, height as real)
  }

  predicate AllConfined(s: seq<Node>, width: nat, height: nat)
  {
    forall i :: 0 <= i < |s| ==> Confined(s[i], width, height)
  }

  lemma StepConfined(n: Node, width: nat, height: nat)
    requires Confined(n, width, height)
    ensures Confined(Step(n, width, height), width, height)
  {
  }

  /** A node spawned on a canvas at least one unit wide and high starts confined. */
  lemma SpawnConfined(d: NodeDraw, width: nat, height: nat)
    requires ValidNodeDraw(d) && 1 <= width && 1 <= height
    ensures Confined(Spawn(d, width, height), width, height)
  {
  }

  /** The reflection invariant holds after any number of frames on an unchanged canvas. */
  lemma {:induction false} FramesConfined(s: seq<Node>, width: nat, height: nat, k: nat)
    requires AllConfined(s, width, height)
    ensures AllConfined(Frames(s, width, height, k), width, height)
  {
    if k > 0 {
      FramesConfined(s, width, height, k - 1);
      var prev := Frames(s, width, height, k - 1);
      forall i | 0 <= i < |s|
        ensures Confined(Frames(s, width, height, k)[i], width, height)
      {
        StepConfined(prev[i], width, height);
      }
    }
  }

  /** Frames never change how many nodes there are, their radii or their link style. */
  lemma {:induction false} FramesKeepNodes(s: seq<Node>, width: nat, height: nat, k: nat, i: nat)
    requires i < |s|
    ensures Frames(s, width, height, k)[i].radius == s[i].radius
    ensures Frames(s, width, height, k)[i].connected == s[i].connected
  {
    if k > 0 {
      FramesKeepNodes(s, width, height, k - 1, i);
    }
  }

  // ---------------------------------------------------------------- the canvas

  /** The canvas element: whether it yields a 2D context, and its laid-out size. */
  datatype Canvas = Canvas(hasContext: bool, offsetWidth: nat, offsetHeight: nat)

  class Simulation {
    var width: nat
    var height: nat
    const nodes: array<Node>

    ghost predicate Valid()
      reads this
    {
      nodes.Length == NodeCount
    }

    /** Sizes the canvas and pushes the nodes, one per draw. */
    constructor (offsetWidth: nat, offsetHeight: nat, draws: seq<NodeDraw>)
      requires ValidNodeDraws(draws)
      ensures Valid() && fresh(nodes)
      ensures width == offsetWidth && height == offsetHeight
      ensures forall i :: 0 <= i < NodeCount ==> nodes[i] == Spawn(draws[i], offsetWidth, offsetHeight)
    {
      width, height := offsetWidth, offsetHeight;
      var a := new Node[NodeCount];
      for i := 0 to NodeCount
        invariant forall k :: 0 <= k < i ==> a[k] == Spawn(draws[k], offsetWidth, offsetHeight)
      {
        a[i] := Spawn(draws[i], offsetWidth, offsetHeight);
      }
      nodes := a;
    }

    /**
     * Mounting the component: without a canvas, or without a 2D context
     * on it, nothing is set up.
     */
    static method Mount(canvas: Option<Canvas>, draws: seq<NodeDraw>) returns (sim: Option<Simulation>)
      requires ValidNodeDraws(draws)
      ensures canvas.None? || !canvas.value.hasContext ==> sim.None?
      ensures canvas.Some? && canvas.value.hasContext ==>
        && sim.Some? && fresh(sim.value) && fresh(sim.value.nodes) && sim.value.Valid()
        && sim.value.width == canvas.value.offsetWidth && sim.value.height == canvas.value.offsetHeight
        && forall i :: 0 <= i < NodeCount ==>
             sim.value.nodes[i] == Spawn(draws[i], canvas.value.offsetWidth, canvas.value.offsetHeight)
    {
      if canvas.None? || !canvas.value.hasContext {
        return None;
      }
      var s := new Simulation(canvas.value.offsetWidth, canvas.value.offsetHeight, draws);
      sim := Some(s);
    }

    /** A window resize: both bounds change together; no node moves. */
    method Resize(offsetWidth: nat, offsetHeight: nat)
      modifies this
      ensures width == offsetWidth && height == offsetHeight
      ensures nodes[..] == old(nodes[..])
    {
      width, height := offsetWidth, offsetHeight;
    }

    /** The links of the current frame, found by testing each pair i < j once. */
    method Connections() returns (links: seq<Link>)
      ensures links == Links(nodes[..])
    {
      ghost var s := nodes[..];
      var n := nodes.Length;
      links := [];
      var i := 0;
      while i < n
        invariant 0 <= i <= n
        invariant links == Before(s, i)
      {
        var j := i + 1;
        while j < n
          invariant i + 1 <= j <= n
          invariant links == Before(s, i) + Row(s, i, j)
        {
          if Near(nodes[i], nodes[j]) {
            links := links + [(i, j)];
          }
          j := j + 1;
        }
        i := i + 1;
      }
    }

    /** Every node takes its step, in array order, in place. */
    method Move()
      modifies nodes
      ensures nodes[..] == Advance(old(nodes[..]), width, height)
    {
      for i := 0 to nodes.Length
        invariant forall k :: 0 <= k < i ==> nodes[k] == Step(old(nodes[k]), width, height)
        invariant forall k :: i <= k < nodes.Length ==> nodes[k] == old(nodes[k])
      {
        nodes[i] := Step(nodes[i], width, height);
      }
    }

    /**
     * One animation frame: the links among the positions at the start of
     * the frame, then the moves. The reflection invariant survives it.
     */
    method Draw() returns (links: seq<Link>)
      requires Valid()
      modifies nodes
      ensures Valid()
      ensures links == Links(old(nodes[..]))
      ensures nodes[..] == Advance(old(nodes[..]), width, height)
      ensures AllConfined(old(nodes[..]), width, height) ==> AllConfined(nodes[..], width, height)
    {
      links := Connections();
      Move();
      if AllConfined(old(nodes[..]), width, height) {
        FramesConfined(old(nodes[..]), width, height, 1);
      }
    }
  }
}
