/**
 * The grid picture: a table of nodes and a list of connections between
 * node ids, both set once when the component mounts. A connection is drawn
 * only when both of its ids name a node; each node is drawn with a colour,
 * a status icon, a pulse while trading and a badge whose capacity is
 * replaced by blocks when the node is "encrypted".
 */
module Grid {
  import opened Options
  import opened Text

  datatype NodeType = Generator | Consumer | Trader
  datatype NodeStatus = Active | Idle | Trading

  /** A node; `x` and `y` are percentages of the picture's width and height. */
  datatype GridNode = GridNode(
    id: string,
    x: int,
    y: int,
    nodeType: NodeType,
    capacity: nat,
    status: NodeStatus,
    encrypted: bool)

  /** A connection `[from, to]` between two node ids. */
  type Connection = (string, string)

  function SeedNodes(): seq<GridNode> {
    [ GridNode("gen-1", 10, 20, Generator, 150, Active, false),
      GridNode("gen-2", 80, 15, Generator, 200, Trading, true),
      GridNode("con-1", 30, 60, Consumer, 80, Active, false),
      GridNode("con-2", 70, 70, Consumer, 120, Idle, true),
      GridNode("trader-1", 50, 40, Trader, 300, Trading, true),
      GridNode("trader-2", 20, 80, Trader, 250, Active, false) ]
  }

  function SeedConnections(): seq<Connection> {
    [ ("gen-1", "trader-1"),
      ("gen-2", "trader-1"),
      ("trader-1", "con-1"),
      ("trader-1", "con-2"),
      ("trader-2", "con-1") ]
  }

  // ---- colours --------------------------------------------------------------

  /** `getNodeColor`: every encrypted node in the primary colour, the others by type. */
  function NodeColor(node: GridNode): (color: string)
    ensures color == "energy-primary" <==> node.encrypted
    ensures !node.encrypted && node.nodeType == Generator ==> color == "energy-secondary"
    ensures !node.encrypted && node.nodeType == Consumer ==> color == "energy-warning"
    ensures !node.encrypted && node.nodeType == Trader ==> color == "energy-node"
  {
    if node.encrypted then "energy-primary"
    else match node.nodeType
      case Generator => "energy-secondary"
      case Consumer => "energy-warning"
      case Trader => "energy-node"
  }

  /** The legend drawn under the picture: a colour swatch and its caption. */
  const Legend: seq<(string, string)> :=
    [("energy-secondary", "Generators"), ("energy-warning", "Consumers"), ("energy-primary", "Encrypted Nodes")]

  /** The caption the legend gives a colour, if it has a swatch for it. */
  function LegendCaption(color: string): Option<string> {
    if color == Legend[0].0 then Some(Legend[0].1)
    else if color == Legend[1].0 then Some(Legend[1].1)
    else if color == Legend[2].0 then Some(Legend[2].1)
    else None
  }

  /**
   * A node's colour is explained by the legend: encrypted nodes are the
   * "Encrypted Nodes" swatch, plain generators and consumers their own;
   * plain traders have a colour the legend does not list.
   */
  lemma LegendExplainsColors(node: GridNode)
    ensures node.encrypted ==> LegendCaption(NodeColor(node)) == Some("Encrypted Nodes")
    ensures !node.encrypted && node.nodeType == Generator ==> LegendCaption(NodeColor(node)) == Some("Generators")
    ensures !node.encrypted && node.nodeType == Consumer ==> LegendCaption(NodeColor(node)) == Some("Consumers")
    ensures !node.encrypted && node.nodeType == Trader ==> LegendCaption(NodeColor(node)) == None
  {
  }

  // ---- status icons ---------------------------------------------------------

  function StatusName(s: NodeStatus): string {
    match s
    case Active => "active"
    case Idle => "idle"
    case Trading => "trading"
  }

  // The grid file stores its glyphs UTF-8 encoded and then decoded again as
  // Mac Roman, so the strings the program shows are those code points: the
  // bolt appears as U+201A U+00F6 U+00B0, the bullet as U+201A U+00C4 U+00A2
  // and a block as U+201A U+00F1 U+00E0. The model keeps them as written.

  const ActiveIcon: string := "\U{201A}\U{F6}\U{B0}"
  const TradingIcon: string := "\U{F8FF}\U{FC}\U{EE}\U{ED}"
  const IdleIcon: string := "\U{201A}\U{E8}\U{220F}\U{D4}\U{220F}\U{E8}"
  const DefaultIcon: string := "\U{201A}\U{C4}\U{A2}"

  /** `getStatusIcon`: one icon per status, and a bullet for any other string. */
  function StatusIcon(status: string): (icon: string)
    ensures StatusOfIcon(icon).Some? <==> status in {"active", "trading", "idle"}
    ensures StatusOfIcon(icon).Some? ==> StatusName(StatusOfIcon(icon).value) == status
  {
    if status == "active" then ActiveIcon
    else if status == "trading" then TradingIcon
    else if status == "idle" then IdleIcon
    else DefaultIcon
  }

  /** Reads an icon back: the status it stands for, if any. */
  function StatusOfIcon(icon: string): Option<NodeStatus> {
    if icon == ActiveIcon then Some(Active)
    else if icon == TradingIcon then Some(Trading)
    else if icon == IdleIcon then Some(Idle)
    else None
  }

  /** Each status has an icon of its own. */
  lemma StatusIconIdentifiesStatus(s: NodeStatus)
    ensures StatusOfIcon(StatusIcon(StatusName(s))) == Some(s)
  {
  }

  /** Any other string gets the bullet, which stands for no status. */
  lemma StatusIconDefault(other: string)
    requires other != "active" && other != "trading" && other != "idle"
    ensures StatusIcon(other) == DefaultIcon && StatusOfIcon(StatusIcon(other)) == None
  {
  }

  // ---- badges ---------------------------------------------------------------

  /** `node.type.toUpperCase()`. */
  function TypeLabel(t: NodeType): string {
    match t
    case Generator => "GENERATOR"
    case Consumer => "CONSUMER"
    case Trader => "TRADER"
  }

  /** Four (mis-encoded) block characters: what an encrypted node's capacity is shown as. */
  const RedactedCapacity: string :=
    "\U{201A}\U{F1}\U{E0}\U{201A}\U{F1}\U{E0}\U{201A}\U{F1}\U{E0}\U{201A}\U{F1}\U{E0}"

  /** The capacity part of the badge: blocks when encrypted, `<capacity>MW` otherwise. */
  function CapacityText(node: GridNode): (text: string)
    ensures node.encrypted <==> text == RedactedCapacity
    ensures !node.encrypted ==> text == DecimalString(node.capacity) + "MW"
  {
    if node.encrypted then RedactedCapacity
    else
      var text := DecimalString(node.capacity) + "MW";
      assert text[|text| - 1] == 'W' != RedactedCapacity[|RedactedCapacity| - 1];
      text
  }

  /** The separator between the type and the capacity: a (mis-encoded) bullet between spaces. */
  const BadgeSeparator: string := " \U{201A}\U{C4}\U{A2} "

  /** The badge text `<TYPE> • <capacity part>`. */
  function Badge(node: GridNode): string {
    TypeLabel(node.nodeType) + BadgeSeparator + CapacityText(node)
  }

  /**
   * The badge hides the capacity of an encrypted node (two such nodes that
   * differ only in capacity get the same badge), and shows a plain node's
   * capacity so that it can be read back (different capacities, different badges).
   */
  lemma BadgeShowsCapacityIffPlain(node: GridNode, capacity: nat)
    ensures node.encrypted ==> Badge(node) == Badge(node.(capacity := capacity))
    ensures !node.encrypted ==> (Badge(node) == Badge(node.(capacity := capacity)) <==> capacity == node.capacity)
  {
    if !node.encrypted && Badge(node) == Badge(node.(capacity := capacity)) {
      var head := TypeLabel(node.nodeType) + BadgeSeparator;
      var a, b := DecimalString(node.capacity), DecimalString(capacity);
      assert Badge(node) == head + (a + "MW");
      assert Badge(node.(capacity := capacity)) == head + (b + "MW");
      assert (head + (a + "MW"))[|head|..] == a + "MW";
      assert (head + (b + "MW"))[|head|..] == b + "MW";
      assert (a + "MW")[..|a|] == a;
      assert (b + "MW")[..|b|] == b;
      DecimalStringInjective(node.capacity, capacity);
    }
  }

  /** How one node is drawn. */
  datatype NodeView = NodeView(x: int, y: int, color: string, icon: string, pulse: bool, badge: string)

  function DrawNode(node: GridNode): (v: NodeView)
    ensures v.x == node.x && v.y == node.y
    ensures v.pulse <==> node.status == Trading
    ensures StatusOfIcon(v.icon) == Some(node.status)
    ensures v.color == NodeColor(node) && v.badge == Badge(node)
  {
    StatusIconIdentifiesStatus(node.status);
    NodeView(node.x, node.y, NodeColor(node), StatusIcon(StatusName(node.status)),
             node.status == Trading, Badge(node))
  }

  // ---- connections ----------------------------------------------------------

  /** `nodes.find(n => n.id === id)`: the first node with that id. */
  function FindNode(nodes: seq<GridNode>, id: string): (r: Option<GridNode>)
    ensures r.None? <==> forall k :: 0 <= k < |nodes| ==> nodes[k].id != id
    ensures r.Some? ==> r.value in nodes && r.value.id == id
    ensures r.Some? ==> exists k :: 0 <= k < |nodes| && nodes[k] == r.value &&
                                   forall j :: 0 <= j < k ==> nodes[j].id != id
  {
    if nodes == [] then None
    else if nodes[0].id == id then Some(nodes[0])
    else FindNode(nodes[1..], id)
  }

  /** A connection drawn as a line between two nodes; `index` is its place in the connection list. */
  datatype Edge = Edge(index: nat, from: GridNode, to: GridNode)

  /** Both ends name a node. */
  predicate Resolves(nodes: seq<GridNode>, c: Connection) {
    FindNode(nodes, c.0).Some? && FindNode(nodes, c.1).Some?
  }

  /** Each line comes from a later connection than the line before it. */
  predicate InOrder(edges: seq<Edge>) {
    forall i, j :: 0 <= i < j < |edges| ==> edges[i].index < edges[j].index
  }

  /** Some line was drawn for the connection at position `i`. */
  predicate Drawn(edges: seq<Edge>, i: nat) {
    exists e :: e in edges && e.index == i
  }

  /**
   * The lines drawn for `connections`, numbered from `start`: a line joins
   * the first nodes carrying its connection's two ids (what `find` returns),
   * and a connection whose ends do not both resolve draws nothing (the
   * `return null` branch).
   */
  function DrawnEdges(nodes: seq<GridNode>, connections: seq<Connection>, start: nat): (edges: seq<Edge>)
    ensures |edges| <= |connections|
    ensures |edges| == |connections| <==> forall k :: 0 <= k < |connections| ==> Resolves(nodes, connections[k])
    ensures forall e :: e in edges ==>
      start <= e.index < start + |connections| &&
      FindNode(nodes, connections[e.index - start].0) == Some(e.from) &&
      FindNode(nodes, connections[e.index - start].1) == Some(e.to)
    ensures forall i :: start <= i < start + |connections| ==>
      (Resolves(nodes, connections[i - start]) <==> Drawn(edges, i))
  {
    if connections == [] then []
    else
      var rest := DrawnEdges(nodes, connections[1..], start + 1);
      var from, to := FindNode(nodes, connections[0].0), FindNode(nodes, connections[0].1);
      var edges := if from.Some? && to.Some? then [Edge(start, from.value, to.value)] + rest else rest;
      assert forall i :: start < i ==> (Drawn(edges, i) <==> Drawn(rest, i));
      assert Drawn(edges, start) <==> from.Some? && to.Some?;
      edges
  }

  /**
   * Lines come out in the order of their connections, so no connection is
   * drawn twice.
   */
  lemma {:induction false} DrawnEdgesInOrder(nodes: seq<GridNode>, connections: seq<Connection>, start: nat)
    ensures InOrder(DrawnEdges(nodes, connections, start))
  {
    if connections != [] {
      DrawnEdgesInOrder(nodes, connections[1..], start + 1);
      var rest := DrawnEdges(nodes, connections[1..], start + 1);
      var from, to := FindNode(nodes, connections[0].0), FindNode(nodes, connections[0].1);
      if from.Some? && to.Some? {
        assert DrawnEdges(nodes, connections, start) == [Edge(start, from.value, to.value)] + rest;
        PrependInOrder(Edge(start, from.value, to.value), rest);
      }
    }
  }

  /** A line numbered before every line of an ordered list keeps it ordered. */
  lemma PrependInOrder(e: Edge, rest: seq<Edge>)
    requires InOrder(rest) && forall x :: x in rest ==> e.index < x.index
    ensures InOrder([e] + rest)
  {
    var edges := [e] + rest;
    forall i, j | 0 <= i < j < |edges| ensures edges[i].index < edges[j].index {
      assert edges[j] == rest[j - 1];
      if i > 0 {
        assert edges[i] == rest[i - 1];
      }
    }
  }

  /** No two nodes share an id. */
  predicate DistinctIds(nodes: seq<GridNode>) {
    forall i, j :: 0 <= i < j < |nodes| ==> nodes[i].id != nodes[j].id
  }

  /** With distinct ids, looking up a node's id finds that very node. */
  lemma FindNodeFindsUnique(nodes: seq<GridNode>, k: nat)
    requires DistinctIds(nodes) && k < |nodes|
    ensures FindNode(nodes, nodes[k].id) == Some(nodes[k])
  {
  }

  /**
   * The seeded tables are consistent: node ids are distinct and every
   * connection end names a seeded node, so all five lines are drawn.
   */
  lemma SeedGridConsistent()
    ensures DistinctIds(SeedNodes())
    ensures forall k :: 0 <= k < |SeedConnections()| ==> Resolves(SeedNodes(), SeedConnections()[k])
    ensures |DrawnEdges(SeedNodes(), SeedConnections(), 0)| == 5
  {
  }
}
