/** The preview pane: `buildTree`, which flattens a parsed JSON value into the
    node list and edge list of a flow diagram, and the effect that replaces the
    pane's diagram whenever a new value arrives. */
module Preview {
  import opened JsonValue

  /** Fill colours of the three kinds of node. */
  const GREEN := "#4CAF50"   // arrays
  const BLUE := "#2196F3"    // objects, and `null`
  const ORANGE := "#FF9800"  // everything else

  /** Horizontal distance between depth levels, vertical distance between the
      key nodes of one parent. */
  const X_STEP := 200
  const Y_STEP := 120

  /** The id prefix of the top-level call. */
  const ROOT_ID := "root"

  /** The y coordinate of a node: the head node of every call draws a random
      one, a key node sits in the row of its entry. */
  datatype YPos = RandomY | FixedY(y: int)

  /** A diagram node; `dataLabel` is the text ReactFlow shows, `data.label`. */
  datatype Node = Node(id: string, dataLabel: string, x: int, y: YPos, background: string)

  datatype Edge = Edge(id: string, source: string, target: string)

  datatype Graph = Graph(nodes: seq<Node>, edges: seq<Edge>)

  /** The text `String(v)` gives for a value that is not of type "object". */
  function Show(v: Json): string
    requires !IsObjectType(v)
  {
    match v
    case Bool(b) => if b then "true" else "false"
    case Num(t) => t
    case Str(s) => s
  }

  /** The label of the head node of a call: "Array" for an array, "Object"
      for an object and for `null`, and `String(v)` for everything else. */
  function Label(v: Json): string {
    if v.Arr? then "Array" else if IsObjectType(v) then "Object" else Show(v)
  }

  /** The fill colour of a node showing `v`, used for head and key nodes alike:
      green exactly for arrays, blue exactly for objects and `null`, orange
      exactly for the rest. */
  function Background(v: Json): string {
    if IsObjectType(v) then (if v.Arr? then GREEN else BLUE) else ORANGE
  }

  /** The node every call emits first, for the value itself. */
  function HeadNode(v: Json, depth: nat, id: string): Node {
    Node(id, Label(v), depth * X_STEP, RandomY, Background(v))
  }

  /** The id given to the child under `key`. */
  function ChildId(id: string, key: string): string {
    id + "-" + key
  }

  /** The extra node emitted for the `i`-th entry of a value at `depth`. */
  function KeyNode(id: string, depth: nat, i: nat, key: string, child: Json): Node {
    Node(ChildId(id, key), key, (depth + 1) * X_STEP, FixedY(i * Y_STEP), Background(child))
  }

  /** The edge from a value's node to the node of its child under `key`. */
  function EntryEdge(id: string, key: string): Edge {
    Edge(id + "-" + ChildId(id, key), id, ChildId(id, key))
  }

  /** `buildTree(v, parentId, depth, id)`: the head node, then, for each entry in
      order, its key node and the whole subtree of its value; one edge per
      entry, each followed by the edges of that entry's subtree. The list is
      never empty and starts with the node of `v` itself, with id `id`. */
  function BuildTree(v: Json, depth: nat, id: string): (g: Graph)
    ensures g.nodes != [] && g.nodes[0] == HeadNode(v, depth, id)
    ensures g.nodes[0].id == id
    decreases v, 1
  {
    var rest := if IsContainer(v) then BuildEntries(v, depth, id, EntryCount(v)) else Graph([], []);
    Graph([HeadNode(v, depth, id)] + rest.nodes, rest.edges)
  }

  /** What the `forEach` over `Object.entries(v)` has pushed after its first
      `k` rounds. */
  function BuildEntries(v: Json, depth: nat, id: string, k: nat): Graph
    requires k <= EntryCount(v)
    decreases v, 0, k
  {
    if k == 0 then Graph([], [])
    else
      var before := BuildEntries(v, depth, id, k - 1);
      var (key, child) := Entry(v, k - 1);
      var sub := BuildTree(child, depth + 1, ChildId(id, key));
      Graph(before.nodes + [KeyNode(id, depth, k - 1, key, child)] + sub.nodes,
            before.edges + [EntryEdge(id, key)] + sub.edges)
  }

  /** `buildTree` as written: a recursive call per entry, pushing onto two
      accumulators inside the loop over the entries. */
  method Build(v: Json, depth: nat, id: string) returns (nodes: seq<Node>, edges: seq<Edge>)
    ensures Graph(nodes, edges) == BuildTree(v, depth, id)
    decreases v
  {
    nodes := [HeadNode(v, depth, id)];
    edges := [];
    if IsContainer(v) {
      var i := 0;
      while i < EntryCount(v)
        invariant 0 <= i <= EntryCount(v)
        invariant nodes == [HeadNode(v, depth, id)] + BuildEntries(v, depth, id, i).nodes
        invariant edges == BuildEntries(v, depth, id, i).edges
      {
        var (key, value) := Entry(v, i);
        var childId := ChildId(id, key);
        var childNodes, childEdges := Build(value, depth + 1, childId);
        BuildRound(v, depth, id, i, nodes, edges, childNodes, childEdges);
        nodes := nodes + [KeyNode(id, depth, i, key, value)];
        edges := edges + [EntryEdge(id, key)];
        nodes := nodes + childNodes;
        edges := edges + childEdges;
        i := i + 1;
      }
    }
  }

  /** One round of the loop in `Build` extends both accumulators by the next
      round of `BuildEntries`. */
  lemma BuildRound(v: Json, depth: nat, id: string, i: nat,
                   nodes: seq<Node>, edges: seq<Edge>, childNodes: seq<Node>, childEdges: seq<Edge>)
    requires i < EntryCount(v)
    requires nodes == [HeadNode(v, depth, id)] + BuildEntries(v, depth, id, i).nodes
    requires edges == BuildEntries(v, depth, id, i).edges
    requires Graph(childNodes, childEdges) == BuildTree(Entry(v, i).1, depth + 1, ChildId(id, Entry(v, i).0))
    ensures nodes + [KeyNode(id, depth, i, Entry(v, i).0, Entry(v, i).1)] + childNodes
            == [HeadNode(v, depth, id)] + BuildEntries(v, depth, id, i + 1).nodes
    ensures edges + [EntryEdge(id, Entry(v, i).0)] + childEdges == BuildEntries(v, depth, id, i + 1).edges
  {
    EntriesStep(v, depth, id, i + 1);
  }

  /** The call for `v`, unfolded once. */
  lemma TreeUnfold(v: Json, depth: nat, id: string)
    ensures var rest := if IsContainer(v) then BuildEntries(v, depth, id, EntryCount(v)) else Graph([], []);
      BuildTree(v, depth, id) == Graph([HeadNode(v, depth, id)] + rest.nodes, rest.edges)
  {
  }

  /** One round of the loop over the entries, unfolded. */
  lemma EntriesStep(v: Json, depth: nat, id: string, k: nat)
    requires 0 < k <= EntryCount(v)
    ensures var key, child := Entry(v, k - 1).0, Entry(v, k - 1).1;
      var before := BuildEntries(v, depth, id, k - 1);
      var sub := BuildTree(child, depth + 1, ChildId(id, key));
      BuildEntries(v, depth, id, k)
        == Graph(before.nodes + [KeyNode(id, depth, k - 1, key, child)] + sub.nodes,
                 before.edges + [EntryEdge(id, key)] + sub.edges)
  {
  }

  // ---------------------------------------------------------------------------
  // Counting

  /** One edge per descendant value, and two nodes per descendant plus the
      head: every child is pushed once as a key node and once more as the
      head of its own subtree. */
  lemma {:induction false} Counts(v: Json, depth: nat, id: string)
    ensures |BuildTree(v, depth, id).edges| == Descendants(v)
    ensures |BuildTree(v, depth, id).nodes| == 1 + 2 * Descendants(v)
    decreases v, 1
  {
    TreeUnfold(v, depth, id);
    if IsContainer(v) {
      EntriesCounts(v, depth, id, EntryCount(v));
    }
  }

  lemma {:induction false} EntriesCounts(v: Json, depth: nat, id: string, k: nat)
    requires k <= EntryCount(v)
    ensures |BuildEntries(v, depth, id, k).edges| == DescendantsUpTo(v, k)
    ensures |BuildEntries(v, depth, id, k).nodes| == 2 * DescendantsUpTo(v, k)
    decreases v, 0, k
  {
    if k > 0 {
      EntriesCounts(v, depth, id, k - 1);
      var key, child := Entry(v, k - 1).0, Entry(v, k - 1).1;
      Counts(child, depth + 1, ChildId(id, key));
      EntriesStep(v, depth, id, k);
      DescendantsStep(v, k);
      CountStep(BuildEntries(v, depth, id, k - 1), KeyNode(id, depth, k - 1, key, child),
                EntryEdge(id, key), BuildTree(child, depth + 1, ChildId(id, key)),
                BuildEntries(v, depth, id, k));
    }
  }

  lemma CountStep(before: Graph, kn: Node, ed: Edge, sub: Graph, g: Graph)
    requires g == Graph(before.nodes + [kn] + sub.nodes, before.edges + [ed] + sub.edges)
    ensures |g.nodes| == |before.nodes| + 1 + |sub.nodes|
    ensures |g.edges| == |before.edges| + 1 + |sub.edges|
  {
  }

  /** A call emits no edge, and exactly one node, precisely when the value has
      no entries: a primitive, `null`, `[]` or `{}`. A primitive or `null`
      gives exactly its head node. */
  lemma Leaf(v: Json, depth: nat, id: string)
    ensures BuildTree(v, depth, id).edges == [] <==> EntryCount(v) == 0
    ensures |BuildTree(v, depth, id).nodes| == 1 <==> EntryCount(v) == 0
    ensures !IsContainer(v) ==> BuildTree(v, depth, id) == Graph([HeadNode(v, depth, id)], [])
  {
    Counts(v, depth, id);
    NoDescendantsIffNoChildren(v);
  }

  // ---------------------------------------------------------------------------
  // Where each entry ends up

  lemma PrefixTrans<T>(a: seq<T>, b: seq<T>, x: seq<T>, y: seq<T>, c: seq<T>)
    requires a <= b && c == b + x + y
    ensures a <= c
  {
    assert c[..|a|] == b[..|a|];
  }

  /** The first `k` rounds of the loop are a prefix of its first `m` rounds. */
  lemma {:induction false} EntriesPrefix(v: Json, depth: nat, id: string, k: nat, m: nat)
    requires k <= m <= EntryCount(v)
    ensures BuildEntries(v, depth, id, k).nodes <= BuildEntries(v, depth, id, m).nodes
    ensures BuildEntries(v, depth, id, k).edges <= BuildEntries(v, depth, id, m).edges
    decreases m
  {
    if k < m {
      EntriesPrefix(v, depth, id, k, m - 1);
      EntriesStep(v, depth, id, m);
      var key, child := Entry(v, m - 1).0, Entry(v, m - 1).1;
      var a := BuildEntries(v, depth, id, k);
      var b := BuildEntries(v, depth, id, m - 1);
      var sub := BuildTree(child, depth + 1, ChildId(id, key));
      PrefixTrans(a.nodes, b.nodes, [KeyNode(id, depth, m - 1, key, child)], sub.nodes,
                  BuildEntries(v, depth, id, m).nodes);
      PrefixTrans(a.edges, b.edges, [EntryEdge(id, key)], sub.edges,
                  BuildEntries(v, depth, id, m).edges);
    }
  }

  lemma ElementInPrefix<T>(pre: seq<T>, x: T, post: seq<T>, whole: seq<T>)
    requires pre + [x] + post <= whole
    ensures x in whole
  {
    assert whole[|pre|] == (pre + [x] + post)[|pre|];
  }

  lemma AdjacentAfterHead<T>(h: T, pre: seq<T>, x: T, post: seq<T>, whole: seq<T>)
    requires pre + [x] + post <= whole && post != []
    ensures |pre| + 2 < |[h] + whole|
    ensures ([h] + whole)[|pre| + 1] == x
    ensures ([h] + whole)[|pre| + 2] == post[0]
  {
    assert whole[|pre|] == (pre + [x] + post)[|pre|];
    assert whole[|pre| + 1] == (pre + [x] + post)[|pre| + 1];
  }

  /** The `i`-th entry, with key `k` and value `c`, yields the edge from `id` to
      `id-k`, and two nodes with id `id-k`: first its key node, labelled `k`,
      at column depth + 1 and row `i`, then right after it the head node of
      the subtree of `c`, in the same colour. */
  lemma EntryEmitted(v: Json, depth: nat, id: string, i: nat)
    requires i < EntryCount(v)
    ensures var g := BuildTree(v, depth, id);
      var key, child := Entry(v, i).0, Entry(v, i).1;
      && EntryEdge(id, key) in g.edges
      && exists p :: 0 < p < |g.nodes| - 1 &&
           g.nodes[p] == KeyNode(id, depth, i, key, child) &&
           g.nodes[p + 1] == HeadNode(child, depth + 1, ChildId(id, key))
  {
    var key, child := Entry(v, i).0, Entry(v, i).1;
    var n := EntryCount(v);
    TreeUnfold(v, depth, id);
    EntriesPrefix(v, depth, id, i + 1, n);
    EntriesStep(v, depth, id, i + 1);
    var before := BuildEntries(v, depth, id, i);
    var whole := BuildEntries(v, depth, id, n);
    var sub := BuildTree(child, depth + 1, ChildId(id, key));
    var g := BuildTree(v, depth, id);
    assert g.nodes == [HeadNode(v, depth, id)] + whole.nodes && g.edges == whole.edges;
    AdjacentAfterHead(HeadNode(v, depth, id), before.nodes, KeyNode(id, depth, i, key, child),
                      sub.nodes, whole.nodes);
    ElementInPrefix(before.edges, EntryEdge(id, key), sub.edges, whole.edges);
    var p := |before.nodes| + 1;
    assert 0 < p < |g.nodes| - 1;
  }

  /** The same id belongs to two nodes of the list whenever a value has an
      entry: the key node of that entry and the head of its subtree. */
  lemma DuplicateIds(v: Json, depth: nat, id: string)
    requires EntryCount(v) > 0
    ensures var g := BuildTree(v, depth, id);
      exists p :: 0 < p < |g.nodes| - 1 && g.nodes[p].id == g.nodes[p + 1].id
  {
    EntryEmitted(v, depth, id, 0);
  }

  // ---------------------------------------------------------------------------
  // Ids and edges

  /** `s` starts with `p`. */
  predicate Extends(s: string, p: string) {
    p <= s
  }

  lemma ExtendsTrans(s: string, q: string, p: string)
    requires Extends(s, q) && Extends(q, p)
    ensures Extends(s, p)
  {
    assert s[..|p|] == q[..|p|];
  }

  lemma ChildIdExtends(id: string, key: string)
    ensures Extends(ChildId(id, key), id + "-")
  {
    assert ChildId(id, key)[..|id + "-"|] == id + "-";
  }

  /** Different keys give different child ids under one parent. */
  lemma ChildIdsDistinct(id: string, a: string, b: string)
    requires a != b
    ensures ChildId(id, a) != ChildId(id, b)
  {
    assert ChildId(id, a)[|id| + 1..] == a;
    assert ChildId(id, b)[|id| + 1..] == b;
  }

  /** The children of an array get pairwise distinct ids `p-0`, `p-1`, ...:
      the id clashes of the builder never come from two entries of one array. */
  lemma ArrayChildIdsDistinct(v: Json, id: string, i: nat, j: nat)
    requires v.Arr? && i < EntryCount(v) && j < EntryCount(v) && i != j
    ensures ChildId(id, Entry(v, i).0) != ChildId(id, Entry(v, j).0)
  {
    ArrayKeysDistinct(v, i, j);
    ChildIdsDistinct(id, Entry(v, i).0, Entry(v, j).0);
  }

  /** What one entry adds besides its subtree: a key node labelled with the key,
      under the parent's id, at column depth + 1 and row `i`, in the colour of
      the entry's value; and a well-formed edge from the parent to exactly
      that key node's id. */
  lemma KeyNodeAndEdge(id: string, depth: nat, i: nat, key: string, child: Json)
    ensures var n, e := KeyNode(id, depth, i, key, child), EntryEdge(id, key);
      && Extends(n.id, id + "-") && n.dataLabel == key
      && n.x == (depth + 1) * X_STEP && n.y == FixedY(i * Y_STEP) && n.background == Background(child)
      && e.source == id && e.target == n.id && WellFormedEdge(e)
  {
    ChildIdExtends(id, key);
  }

  /** An edge's id is its source, `-` and its target, and its target extends
      its source with `-` and a key. */
  predicate WellFormedEdge(e: Edge) {
    e.id == e.source + "-" + e.target && Extends(e.target, e.source + "-")
  }

  /** Every node id starts with `id`; every edge is well formed and leaves a
      node whose id starts with `id`. */
  predicate TreeShaped(g: Graph, id: string) {
    && (forall n :: n in g.nodes ==> Extends(n.id, id))
    && (forall e :: e in g.edges ==> WellFormedEdge(e) && Extends(e.source, id))
  }

  /** The shape of the rounds of the loop: all their ids start with `id-`, and
      every edge leaves `id` itself or a node below it. */
  predicate EntriesShaped(g: Graph, id: string) {
    && (forall n :: n in g.nodes ==> Extends(n.id, id + "-"))
    && (forall e :: e in g.edges ==> WellFormedEdge(e) && (e.source == id || Extends(e.source, id + "-")))
  }

  /** Ids are built by concatenation along the path from the root: every node
      id in a call's output starts with the call's id, and every edge has the
      form `s-t` from `s` to `t`, where `t` is `s-k` for the key `k` below `s`. */
  lemma {:induction false} Shape(v: Json, depth: nat, id: string)
    ensures TreeShaped(BuildTree(v, depth, id), id)
    decreases v, 1
  {
    TreeUnfold(v, depth, id);
    if IsContainer(v) {
      EntriesShape(v, depth, id, EntryCount(v));
      ShapeHead(HeadNode(v, depth, id), BuildEntries(v, depth, id, EntryCount(v)), id);
    } else {
      ShapeHead(HeadNode(v, depth, id), Graph([], []), id);
    }
  }

  lemma ShapeHead(head: Node, rest: Graph, id: string)
    requires head.id == id && EntriesShaped(rest, id)
    ensures TreeShaped(Graph([head] + rest.nodes, rest.edges), id)
  {
    forall n | n in rest.nodes ensures Extends(n.id, id) {
      ExtendsTrans(n.id, id + "-", id);
    }
    forall e | e in rest.edges ensures Extends(e.source, id) {
      if e.source != id {
        ExtendsTrans(e.source, id + "-", id);
      }
    }
  }

  lemma {:induction false} EntriesShape(v: Json, depth: nat, id: string, k: nat)
    requires k <= EntryCount(v)
    ensures EntriesShaped(BuildEntries(v, depth, id, k), id)
    decreases v, 0, k
  {
    if k > 0 {
      EntriesShape(v, depth, id, k - 1);
      var key, child := Entry(v, k - 1).0, Entry(v, k - 1).1;
      Shape(child, depth + 1, ChildId(id, key));
      EntriesStep(v, depth, id, k);
      ShapeStep(BuildEntries(v, depth, id, k - 1), KeyNode(id, depth, k - 1, key, child),
                BuildTree(child, depth + 1, ChildId(id, key)), id, key, BuildEntries(v, depth, id, k));
    }
  }

  lemma ShapeStep(before: Graph, kn: Node, sub: Graph, id: string, key: string, g: Graph)
    requires EntriesShaped(before, id)
    requires kn.id == ChildId(id, key)
    requires TreeShaped(sub, ChildId(id, key))
    requires g == Graph(before.nodes + [kn] + sub.nodes, before.edges + [EntryEdge(id, key)] + sub.edges)
    ensures EntriesShaped(g, id)
  {
    var cid := ChildId(id, key);
    ChildIdExtends(id, key);
    forall n | n in sub.nodes ensures Extends(n.id, id + "-") {
      ExtendsTrans(n.id, cid, id + "-");
    }
    forall e | e in sub.edges ensures Extends(e.source, id + "-") {
      ExtendsTrans(e.source, cid, id + "-");
    }
  }

  /** The edges leaving `source`, in order. */
  function EdgesFrom(edges: seq<Edge>, source: string): seq<Edge> {
    if edges == [] then []
    else EdgesFrom(edges[..|edges| - 1], source)
         + (if edges[|edges| - 1].source == source then [edges[|edges| - 1]] else [])
  }

  lemma {:induction false} EdgesFromAppend(a: seq<Edge>, b: seq<Edge>, source: string)
    ensures EdgesFrom(a + b, source) == EdgesFrom(a, source) + EdgesFrom(b, source)
    decreases |b|
  {
    if b == [] {
      assert a + b == a;
    } else {
      var b' := b[..|b| - 1];
      assert (a + b)[..|a + b| - 1] == a + b';
      EdgesFromAppend(a, b', source);
    }
  }

  lemma {:induction false} EdgesFromNone(edges: seq<Edge>, source: string)
    requires forall e :: e in edges ==> e.source != source
    ensures EdgesFrom(edges, source) == []
    decreases |edges|
  {
    if edges != [] {
      EdgesFromNone(edges[..|edges| - 1], source);
    }
  }

  /** The edges of the first `k` entries, one per entry, in entry order. */
  function EntryEdges(v: Json, id: string, k: nat): seq<Edge>
    requires k <= EntryCount(v)
  {
    if k == 0 then [] else EntryEdges(v, id, k - 1) + [EntryEdge(id, Entry(v, k - 1).0)]
  }

  lemma {:induction false} EntryEdgesAt(v: Json, id: string, k: nat, i: nat)
    requires i < k <= EntryCount(v)
    ensures |EntryEdges(v, id, k)| == k
    ensures EntryEdges(v, id, k)[i] == EntryEdge(id, Entry(v, i).0)
  {
    if i < k - 1 {
      EntryEdgesAt(v, id, k - 1, i);
    } else if k > 1 {
      EntryEdgesAt(v, id, k - 1, 0);
    }
  }

  /** The edges out of a value's node are exactly one per entry, in entry order,
      each from `id` to `id-k` for the entry's key `k`: no edge of a subtree
      leaves it. */
  lemma OutEdges(v: Json, depth: nat, id: string)
    ensures var out := EdgesFrom(BuildTree(v, depth, id).edges, id);
      && |out| == EntryCount(v)
      && forall i :: 0 <= i < EntryCount(v) ==> out[i] == EntryEdge(id, Entry(v, i).0)
  {
    TreeUnfold(v, depth, id);
    var all := EntryEdges(v, id, EntryCount(v));
    if IsContainer(v) {
      EntriesOutEdges(v, depth, id, EntryCount(v));
    }
    assert EdgesFrom(BuildTree(v, depth, id).edges, id) == all;
    if EntryCount(v) > 0 {
      EntryEdgesAt(v, id, EntryCount(v), 0);
    }
    forall i | 0 <= i < EntryCount(v)
      ensures all[i] == EntryEdge(id, Entry(v, i).0)
    {
      EntryEdgesAt(v, id, EntryCount(v), i);
    }
  }

  lemma {:induction false} EntriesOutEdges(v: Json, depth: nat, id: string, k: nat)
    requires k <= EntryCount(v)
    ensures EdgesFrom(BuildEntries(v, depth, id, k).edges, id) == EntryEdges(v, id, k)
    decreases k
  {
    if k > 0 {
      EntriesOutEdges(v, depth, id, k - 1);
      EntriesStep(v, depth, id, k);
      var key, child := Entry(v, k - 1).0, Entry(v, k - 1).1;
      Shape(child, depth + 1, ChildId(id, key));
      OutEdgesStep(BuildEntries(v, depth, id, k - 1).edges, id, key,
                   BuildTree(child, depth + 1, ChildId(id, key)), BuildEntries(v, depth, id, k).edges);
    }
  }

  lemma OutEdgesStep(before: seq<Edge>, id: string, key: string, sub: Graph, all: seq<Edge>)
    requires TreeShaped(sub, ChildId(id, key))
    requires all == before + [EntryEdge(id, key)] + sub.edges
    ensures EdgesFrom(all, id) == EdgesFrom(before, id) + [EntryEdge(id, key)]
  {
    var ed := EntryEdge(id, key);
    forall e | e in sub.edges ensures e.source != id {
      ChildIdExtends(id, key);
      ExtendsTrans(e.source, ChildId(id, key), id + "-");
    }
    EdgesFromNone(sub.edges, id);
    EdgesFromAppend(before + [ed], sub.edges, id);
    EdgesFromAppend(before, [ed], id);
    assert EdgesFrom([ed], id) == [ed] by {
      assert [ed][..0] == [];
    }
  }

  /** The ids of a node list. */
  function Ids(nodes: seq<Node>): set<string> {
    set n | n in nodes :: n.id
  }

  lemma IdsAppend(a: seq<Node>, b: seq<Node>)
    ensures Ids(a + b) == Ids(a) + Ids(b)
  {
    forall x | x in Ids(a + b) ensures x in Ids(a) + Ids(b) {
      var n :| n in a + b && n.id == x;
    }
  }

  /** No edge points at or away from a node that is not in the list. */
  predicate NoDangling(g: Graph) {
    forall e :: e in g.edges ==> e.source in Ids(g.nodes) && e.target in Ids(g.nodes)
  }

  /** In the rounds of the loop, every edge ends at one of their nodes and
      leaves `id` or one of their nodes. */
  predicate LinkedBelow(g: Graph, id: string) {
    forall e :: e in g.edges ==> (e.source == id || e.source in Ids(g.nodes)) && e.target in Ids(g.nodes)
  }

  /** Every edge's source and target is the id of some node in the list. */
  lemma {:induction false} NoDanglingEdges(v: Json, depth: nat, id: string)
    ensures NoDangling(BuildTree(v, depth, id))
    decreases v, 1
  {
    TreeUnfold(v, depth, id);
    if IsContainer(v) {
      EntriesNoDangling(v, depth, id, EntryCount(v));
      LinkedHead(HeadNode(v, depth, id), BuildEntries(v, depth, id, EntryCount(v)), id);
    } else {
      LinkedHead(HeadNode(v, depth, id), Graph([], []), id);
    }
  }

  lemma LinkedHead(head: Node, rest: Graph, id: string)
    requires head.id == id && LinkedBelow(rest, id)
    ensures NoDangling(Graph([head] + rest.nodes, rest.edges))
  {
    IdsAppend([head], rest.nodes);
    assert id in Ids([head]);
  }

  lemma {:induction false} EntriesNoDangling(v: Json, depth: nat, id: string, k: nat)
    requires k <= EntryCount(v)
    ensures LinkedBelow(BuildEntries(v, depth, id, k), id)
    decreases v, 0, k
  {
    if k > 0 {
      EntriesNoDangling(v, depth, id, k - 1);
      var key, child := Entry(v, k - 1).0, Entry(v, k - 1).1;
      NoDanglingEdges(child, depth + 1, ChildId(id, key));
      EntriesStep(v, depth, id, k);
      LinkedStep(BuildEntries(v, depth, id, k - 1), id, depth, k - 1, key, child,
                 BuildTree(child, depth + 1, ChildId(id, key)), BuildEntries(v, depth, id, k));
    }
  }

  lemma LinkedStep(before: Graph, id: string, depth: nat, i: nat, key: string, child: Json,
                   sub: Graph, g: Graph)
    requires LinkedBelow(before, id)
    requires NoDangling(sub)
    requires g == Graph(before.nodes + [KeyNode(id, depth, i, key, child)] + sub.nodes,
                        before.edges + [EntryEdge(id, key)] + sub.edges)
    ensures LinkedBelow(g, id)
  {
    var kn := KeyNode(id, depth, i, key, child);
    IdsAppend(before.nodes + [kn], sub.nodes);
    IdsAppend(before.nodes, [kn]);
    assert kn.id in Ids([kn]);
  }

  // ---------------------------------------------------------------------------
  // Labels, colours and positions

  /** Labels and colours follow the kind of the value: arrays are labelled
      "Array" and green, objects and `null` "Object" and blue, everything
      else shows its own text in orange. */
  lemma Style(v: Json)
    ensures v.Arr? ==> Label(v) == "Array" && Background(v) == GREEN
    ensures (v.Obj? || v.Null?) ==> Label(v) == "Object" && Background(v) == BLUE
    ensures !IsObjectType(v) ==> Label(v) == Show(v) && Background(v) == ORANGE
    ensures Background(v) == GREEN <==> v.Arr?
    ensures Background(v) == BLUE <==> v.Obj? || v.Null?
  {
  }

  /** The colours of the palette. */
  predicate InPalette(c: string) {
    c == GREEN || c == BLUE || c == ORANGE
  }

  /** Every node sits on a column at or right of column `depth` and is filled
      with a palette colour. */
  predicate PlacedFrom(nodes: seq<Node>, depth: nat) {
    forall n :: n in nodes ==> n.x % X_STEP == 0 && n.x >= depth * X_STEP && InPalette(n.background)
  }

  /** The nodes of a call at `depth` all lie on columns at or right of its own
      and use only the three palette colours. */
  lemma {:induction false} Placement(v: Json, depth: nat, id: string)
    ensures PlacedFrom(BuildTree(v, depth, id).nodes, depth)
    decreases v, 1
  {
    TreeUnfold(v, depth, id);
    var head := HeadNode(v, depth, id);
    if IsContainer(v) {
      EntriesPlacement(v, depth, id, EntryCount(v));
      PlacedHead(head, BuildEntries(v, depth, id, EntryCount(v)).nodes, depth);
    } else {
      PlacedHead(head, [], depth);
    }
  }

  lemma PlacedHead(head: Node, rest: seq<Node>, depth: nat)
    requires head.x == depth * X_STEP && InPalette(head.background)
    requires PlacedFrom(rest, depth + 1)
    ensures PlacedFrom([head] + rest, depth)
  {
  }

  lemma {:induction false} EntriesPlacement(v: Json, depth: nat, id: string, k: nat)
    requires k <= EntryCount(v)
    ensures PlacedFrom(BuildEntries(v, depth, id, k).nodes, depth + 1)
    decreases v, 0, k
  {
    if k > 0 {
      EntriesPlacement(v, depth, id, k - 1);
      var key, child := Entry(v, k - 1).0, Entry(v, k - 1).1;
      Placement(child, depth + 1, ChildId(id, key));
      EntriesStep(v, depth, id, k);
      PlacedStep(BuildEntries(v, depth, id, k - 1).nodes, KeyNode(id, depth, k - 1, key, child),
                 BuildTree(child, depth + 1, ChildId(id, key)).nodes, depth + 1,
                 BuildEntries(v, depth, id, k).nodes);
    }
  }

  lemma PlacedStep(before: seq<Node>, kn: Node, sub: seq<Node>, depth: nat, all: seq<Node>)
    requires PlacedFrom(before, depth) && PlacedFrom(sub, depth)
    requires kn.x == depth * X_STEP && InPalette(kn.background)
    requires all == before + [kn] + sub
    ensures PlacedFrom(all, depth)
  {
  }

  // ---------------------------------------------------------------------------
  // The diagram held by the pane

  /** The node and edge state of the preview pane. */
  class Flow {
    var nodes: seq<Node>
    var edges: seq<Edge>

    /** What the pane shows is a diagram without dangling edges, headed by the
        root node when it is not empty. */
    predicate Valid()
      reads this
    {
      (nodes == [] ==> edges == [])
      && (nodes != [] ==> nodes[0].id == ROOT_ID)
      && NoDangling(Graph(nodes, edges))
    }

    /** Both lists start empty. */
    constructor ()
      ensures Valid() && nodes == [] && edges == []
    {
      nodes := [];
      edges := [];
    }

    /** The effect run when `parsedData` changes: a falsy value leaves the
        diagram as it is, a truthy one replaces it wholesale by the tree of the
        value built from the root. */
    method OnParsedData(parsedData: Json)
      requires Valid()
      modifies this
      ensures Valid()
      ensures Truthy(parsedData) ==> Graph(nodes, edges) == BuildTree(parsedData, 0, ROOT_ID)
      ensures !Truthy(parsedData) ==> nodes == old(nodes) && edges == old(edges)
    {
      if Truthy(parsedData) {
        var n, e := Build(parsedData, 0, ROOT_ID);
        NoDanglingEdges(parsedData, 0, ROOT_ID);
        nodes, edges := n, e;
      }
    }
  }
}
