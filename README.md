# JSON Tree Visualizer — a Dafny model of its tree builder and app state

The JSON Tree Visualizer is a browser tool. It parses JSON typed into a text box and
draws the value as a node-link diagram. This project models two parts of it:

* `buildTree` from `src/components/Preview.jsx`: the recursive, depth-first
  pre-order walk that flattens a parsed value into a node list and an edge
  list. The model also covers the effect that hands that pair to the diagram
  whenever the parsed value changes.
* The state of `src/App.jsx`: the theme toggle, and the "Generate" handler
  that parses the text and sets the parsed value and the error message.

It has three modules:

* `JsonValue` (`json.dfy`) is the parsed value. It is a closed datatype
  `Null | Bool | Num | Str | Arr | Obj`.
  * An object is an ordered list of entries.
  * A number keeps the text JavaScript's `String` gives it, which is the only
    thing ever shown.
  * The module also holds the views `buildTree` uses: the test behind
    `typeof v === "object"`, which `null` also passes, and
    `Object.entries`, where array keys are the indices in decimal. It also
    holds JavaScript truthiness and the count of values below a value.
* `Preview` (`preview.dfy`) holds the builder.
  * `BuildTree`/`BuildEntries` is the reference definition. It is a left fold
    over the entries, just as the `forEach` pushes into `newNodes`/`newEdges`.
  * `Build` is the imperative method, with the recursive call and the loop
    over the entries. It is proved to compute `BuildTree`.
  * The class `Flow` holds the diagram state. Its `OnParsedData` method is the
    effect's guard.
* `App` (`app.dfy`) holds the class `Session`, with the component's state
  fields and its handlers.

The proved properties:

* The first node always carries the call's id, and the list is never empty.
* A primitive or `null` gives exactly one node and no edges.
* With D the number of values below the input, there are exactly D edges and
  1 + 2·D nodes. This is because each child is pushed once as a key node and
  once more as the head of its own subtree.
* The `i`-th entry with key `k`, below a node with id `p`, gives:
  * a key node `p-k`, labelled `k`, at column depth+1 and row `i`, coloured by
    the kind of the value;
  * directly after it, the head node of the value's subtree, with the same id;
  * the edge `p-p-k` from `p` to `p-k`.
* The edges leaving `p` are exactly one per entry, in entry order.
* Every node id extends the id of its call.
* Every edge id is source, `-`, target, and every target extends its source.
* No edge dangles.
* Labels and colours follow the kind-of-value case split.
* Every x lies on the 200-pixel grid at or right of the call's column.
* The effect leaves the diagram alone for a falsy value. For a truthy value
  it replaces the diagram wholesale with the tree of the value.
* On the app side:
  * The toggle maps `light` to `dark` and anything else to `light`.
  * "Generate" yields either the parsed value with no message, or `null`
    with the fixed message. It never throws and leaves the theme and the text
    alone.
  * After "Generate" and the effect, the pane holds the tree of the parsed
    value whenever that value is truthy, which is exactly when the pane shows
    a diagram. This holds over the modelled events only; edits the user makes
    inside the diagram are not modelled (see "Left out").

Unique ids are not one of the properties. `DuplicateIds` shows the reverse:
the diagram never has unique node ids once the input has an entry. The key
node of every entry and the head node of its subtree share one id. The same
applies to an edge's target. Separately, keys that contain `-` can make ids of
different positions coincide. Ids are not dotted paths such as `user.name`,
labels are not `key: value` pairs, and x does not come from a per-depth
counter. The code builds ids such as `root-user-name`, labels
`Array`/`Object`/`String(v)`, head x = depth·200 and key y = index·120, and
the model follows it.

## Model

| member | source | states |
|---|---|---|
| `JsonValue.NatToStringValue` | src/components/Preview.jsx:43-44 | The decimal key of an array index is all digits, has no leading zero (unless it is `0`), and reads back as the index |
| `JsonValue.NatToStringInjective` | src/components/Preview.jsx:43-44 | Distinct array indices get distinct decimal keys |
| `JsonValue.IsObjectType` | src/components/Preview.jsx:24 | `typeof data === "object"`, also used at lines 28 and 53, which `null` passes (no contract of its own; `Style` states that `null` is labelled `Object` and coloured blue like an object) |
| `JsonValue.IsContainer` | src/components/Preview.jsx:42 | The recursion guard `typeof data === "object" && data !== null`, which `null` fails (no contract of its own; `Leaf` states that a primitive or `null` gives only its head node, and `EntryCount` that only containers have entries) |
| `JsonValue.NatToString` | src/components/Preview.jsx:43 | The decimal key `Object.entries` gives an array index (no contract beyond non-emptiness; `NatToStringValue` and `NatToStringInjective` state its meaning) |
| `JsonValue.Truthy` | src/components/Preview.jsx:75 | The test `if (parsedData)` (also the pane's test at line 92): `null` is falsy and every array or object, even `[]` and `{}`, is truthy; by its definition `false`, a number whose text is `"0"` (`0` and `-0`) and `""` are falsy, all other primitives truthy |
| `JsonValue.EntryCount` | src/components/Preview.jsx:42-43 | The number of entries `Object.entries` lists; only arrays and objects have any |
| `JsonValue.Entry` | src/components/Preview.jsx:43 | Entry `i` of `Object.entries`: its value is child `i`; for an array the value is an element and the key is the index in decimal, for an object the pair is one of the object's own entries |
| `JsonValue.ArrayKeysDistinct` | src/components/Preview.jsx:43 | Two different entries of one array have different keys |
| `JsonValue.NoDescendantsIffNoChildren` | src/components/Preview.jsx:42-43 | A value has values below it exactly when it has entries |
| `Preview.Show` | src/components/Preview.jsx:24 | `String(data)` for a primitive: `true`/`false` for a boolean, the number's display text, the string itself (no contract of its own; `Style` states its use) |
| `Preview.Label` | src/components/Preview.jsx:24 | The head node's label by kind (no contract of its own; `Style` states the case split) |
| `Preview.Background` | src/components/Preview.jsx:27-32 | The fill colour by kind, used for head nodes and, at lines 52-57, for key nodes (no contract of its own; `Style` states the case split) |
| `Preview.HeadNode` | src/components/Preview.jsx:21-37 | The node a call emits for its value (no contract of its own; `BuildTree` states its fields) |
| `Preview.ChildId` | src/components/Preview.jsx:44 | The child id template `${nodeId}-${key}` (no contract of its own; `KeyNodeAndEdge` and `Shape` state that child ids extend `p-`, and `ChildIdsDistinct` that different keys give different ids) |
| `Preview.KeyNode` | src/components/Preview.jsx:47-62 | The extra node pushed for entry `i` (no contract of its own; `KeyNodeAndEdge` and `EntryEmitted` state its fields) |
| `Preview.EntryEdge` | src/components/Preview.jsx:64 | The edge pushed for an entry (no contract of its own; `KeyNodeAndEdge` and `OutEdges` state it) |
| `Preview.KeyNodeAndEdge` | src/components/Preview.jsx:44-64 | The key node has an id extending `p-`, label = key, x = (depth+1)·200, y = i·120, the value's colour; the entry's edge is well formed, leaves `p` and ends at exactly the key node's id |
| `Preview.ChildIdsDistinct` | src/components/Preview.jsx:44 | Under one parent, different keys give different child ids |
| `Preview.ArrayChildIdsDistinct` | src/components/Preview.jsx:43-44 | The entries of one array get pairwise distinct child ids `p-0`, `p-1`, ... |
| `Preview.BuildEntries` | src/components/Preview.jsx:43-67 | What the `forEach` has pushed after its first k rounds (no contract of its own; `EntriesCounts`, `EntriesPrefix`, `EntriesShape`, `EntriesOutEdges`, `EntriesNoDangling`, `EntriesPlacement` and `BuildRound` state its properties) |
| `Preview.BuildTree` | src/components/Preview.jsx:20-23 | The node list is never empty, and its first node is the head node of the value: id equal to the prefix, the kind's label and colour, x = depth·200, random y |
| `Preview.Build` | src/components/Preview.jsx:20-71 | The recursive method with the loop over the entries and the two accumulators returns exactly `BuildTree` of its input |
| `Preview.BuildRound` | src/components/Preview.jsx:45-66 | One round of the loop (push key node, push edge, push the child's nodes and edges) extends both accumulators by the next entry's contribution |
| `Preview.Counts` | src/components/Preview.jsx:39-67 | Edge count = D and node count = 1 + 2·D, D being the number of values below the input |
| `Preview.EntriesCounts` | src/components/Preview.jsx:43-67 | After k rounds of the loop: edges = descendants from the first k entries, nodes = twice that |
| `Preview.Leaf` | src/components/Preview.jsx:39-42 | No edges, and exactly one node, iff the value has no entries; a primitive or `null` gives exactly its head node and no edge |
| `Preview.EntriesPrefix` | src/components/Preview.jsx:43-67 | What the first k rounds pushed is a prefix of what any later round has pushed: the loop only appends |
| `Preview.EntryEmitted` | src/components/Preview.jsx:44-64 | Entry i with key k yields edge `p-p-k` from `p` to `p-k`, and the key node (id `p-k`, label k, x = (depth+1)·200, y = i·120, colour of the value) immediately followed by the head node of the value's subtree |
| `Preview.DuplicateIds` | src/components/Preview.jsx:44-48 | Whenever the value has an entry, two consecutive nodes of the list share an id |
| `Preview.Shape` | src/components/Preview.jsx:21-64 | Every node id extends the call's id; every edge has id `source-target`, its target extends `source-`, and its source extends the call's id |
| `Preview.EntriesShape` | src/components/Preview.jsx:43-66 | The loop's nodes all have ids extending `p-`; its edges are well formed and leave `p` or a node below it |
| `Preview.OutEdges` | src/components/Preview.jsx:64 | The edges leaving the call's node are exactly one per entry, in entry order, each `p-p-k` from `p` to `p-k` |
| `Preview.EntriesOutEdges` | src/components/Preview.jsx:43-66 | After k rounds, the edges leaving `p` are exactly those of the first k entries |
| `Preview.EdgesFromAppend` | src/components/Preview.jsx:64-66 | Selecting the edges that leave a node distributes over appending edge lists |
| `Preview.NoDanglingEdges` | src/components/Preview.jsx:21-64 | Every edge's source and target is the id of a node in the returned list |
| `Preview.EntriesNoDangling` | src/components/Preview.jsx:43-66 | Every edge pushed by the loop ends at a pushed node and leaves `p` or a pushed node |
| `Preview.Style` | src/components/Preview.jsx:24-32 | Arrays: label `Array`, green; objects and `null`: label `Object`, blue; all else: `String(v)`, orange; green iff array, blue iff object or `null` |
| `Preview.Placement` | src/components/Preview.jsx:25-50 | Every node's x is a multiple of 200 and at least depth·200; every background is one of the three palette colours |
| `Preview.EntriesPlacement` | src/components/Preview.jsx:47-57 | Every node pushed by the loop lies at column depth+1 or right of it and has a palette colour |
| `Preview.Flow.constructor` | src/components/Preview.jsx:16-17 | The pane's nodes and edges start empty |
| `Preview.Flow.OnParsedData` | src/components/Preview.jsx:74-80 | A falsy value leaves nodes and edges unchanged; a truthy one replaces them wholesale by the tree of the value from `root` at depth 0; no edge dangles either way |
| `App.Toggled` | src/App.jsx:14 | The next theme is `light` or `dark`, and `dark` exactly when the current one is `light` |
| `App.ToggleTwice` | src/App.jsx:13-15 | From `light` or `dark`, toggling changes the theme and toggling twice restores it |
| `App.Outcome` | src/App.jsx:17-26 | The message is empty iff the text parses; then the parsed value is kept; otherwise the pair is (`null`, "Invalid JSON. Please check your input.") |
| `App.Session.constructor` | src/App.jsx:8-11 | Initial state: theme `light`, text "", parsed value `null`, message "", empty diagram |
| `App.Session.SetJsonData` | src/App.jsx:9 | Only the text changes |
| `App.Session.ToggleTheme` | src/App.jsx:13-15 | The theme becomes `Toggled` of the old one (always different); text, parsed value and message stay |
| `App.Session.HandleGenerate` | src/App.jsx:17-26 | (parsed value, message) becomes `Outcome` of the parser on the text, for every parser result (nothing escapes); theme and text stay |
| `App.Session.Generate` | src/App.jsx:17-26 | "Generate" then the preview's effect: the state invariant, including "a truthy parsed value has its tree in the pane", is restored; failed or falsy parses keep the old diagram |

## Left out

- `JSON.parse` (src/App.jsx:19) is a parameter `string -> Option<Json>`. `None` stands for the exception it throws. Parsing itself, per RFC 8259, belongs to the JavaScript runtime.
- The random y of every head node, `Math.random() * 400`, is the marker `RandomY`. So ids, labels, edges and x cannot depend on it. Its value is floating point and random, so it is not modelled.
- `String(data)` for numbers is not computed. A number carries its display text, because JavaScript's float-to-string rules are out of scope. The model takes that text to be always canonical `String` output (`"0"` for both `0` and `-0`, never `"0.0"` or `"-0"`), and `Truthy` depends on it: a `Num` whose text is not canonical, such as `Num("0.0")`, would be truthy although the number it stands for is falsy.
- `Object.entries` moves integer-like object keys to the front in JavaScript. The model takes an object's entries in the order given.
- The `color`, `padding` and `borderRadius` styles are presentational and left out. Only the background colour is kept.
- `buildTree`'s `parentId` parameter is never read in the source, so it is dropped.
- The `useCallback` memoisation is not modelled.
- The effect's dependency list is not modelled, only the effect body. The effect re-runs for each new parsed value, and `Generate` runs it after every press. Because `BuildTree` is deterministic, the two agree.
- Session.Valid and Flow.Valid hold over the modelled events only. The pane passes `onNodesChange`/`onEdgesChange` (src/components/Preview.jsx:16-17, 98-99) to ReactFlow, whose default handlers let the user drag nodes (new x and y), select them, and delete selected nodes with their edges, all in the same node and edge state. Those edits are not modelled, so `Synced` ("a truthy parsed value has its tree in the pane") is an invariant of the toggle, the text box, "Generate" and the effect, not of the running page, and the `requires Valid()` of `ToggleTheme`, `SetJsonData` and `HandleGenerate` does not cover states reached by such edits.
- Build always returns in the model, whereas `buildTree` spends a JavaScript stack frame and a `forEach` callback per level of nesting, so deeply nested input can throw a `RangeError` inside the effect; stack depth is not modelled.
- ReactFlow, together with MiniMap, Controls, Background and the `useNodesState`/`useEdgesState` hooks (src/components/Preview.jsx:16-17, 95-105), is third-party UI. Only the node and edge state they hold is modelled.
- The PNG download (src/components/Preview.jsx:82-87) is asynchronous I/O through foreign libraries.
- `src/components/Input.jsx` and `src/components/Toggle.jsx` are rendering only, and are not part of this model. The text box's change handler appears as `SetJsonData`.
- The footer's current year (src/App.jsx:46) is rendering only.
- Path search, highlighting and zoom buttons do not exist in the code, so they are not modelled.
