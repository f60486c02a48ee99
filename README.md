# DOT serialiser model

A Dafny model of the core of `dot_graph`, a small Rust library that writes
graphs in the Graphviz DOT language. The model covers:

- the node record (`src/node.rs`): a `Node` class with the source's fields
  (name, label, style, optional color, optional shape), its two
  constructors, its four setters, and `to_dot_string`, which pushes pieces
  onto a buffer and joins them into one line of DOT: the node id, then up to
  four bracketed attributes in the fixed order label, style, color, shape,
  then `;`;
- the graph container (`src/graph.rs`): a `Graph` class with a fixed name
  and kind, node and edge lists that only grow at their ends, and the
  serialiser that writes a header line, one indented line per node, one per
  edge, and a closing `}`, every line newline-terminated; `Kind` with its
  keyword and edge operator.

Each imperative operation is proved against a specification function:
`Nodes.Fragment` (defined from `Nodes.Segments`, the list of attributes a
node renders) for a node's line, and `Graphs.Document` (the newline-joined
`Graphs.DocumentLines`) for a whole graph. The properties the library
promises are lemmas about those functions.

Files: `wrappers.dfy` (`Option`), `vocabulary.dfy` (`Style`,
`RenderOption`, and the external formatters), `text.dfy` (joining a buffer,
writing and reading back newline-terminated lines), `node.dfy`, `graph.dfy`.

The formatting collaborators whose code is not part of this model —
`quote_string` (src/utils.rs), `Style::as_slice` (src/style.rs) and
`Edge::to_dot_string` (src/edge.rs) — are function-valued parameters: the
first two are the fields of `Vocabulary.Formatters`, the third the
`edgeFragment` argument of the graph serialiser. Nothing is assumed about
what they return.

The style attribute is written exactly when styles are not suppressed and
the style is not `Style::None` (src/node.rs:72), and the color attribute
exactly when colors are not suppressed and a color is set
(src/node.rs:79-80).

## Model

| member | source | states |
|---|---|---|
| Nodes.Node.constructor | src/node.rs:26-28 | a new node has the given name, an empty label, `Style::None`, no color and no shape |
| Nodes.Node.WithLabel | src/node.rs:30-32 | the name and the label both equal the argument; style `None`, no color, no shape |
| Nodes.Node.SetLabel | src/node.rs:34-36 | the label becomes the argument; every other field is unchanged |
| Nodes.Node.SetStyle | src/node.rs:38-40 | the style becomes the argument; every other field is unchanged |
| Nodes.Node.SetShape | src/node.rs:42-47 | `Some(s)` sets the shape to exactly `s`, `None` clears it; every other field is unchanged |
| Nodes.Node.SetColor | src/node.rs:49-51 | the color becomes the argument (set or cleared); every other field is unchanged |
| Nodes.Node.NodeId | src/node.rs:53-55 | the node id is the name, unescaped |
| Nodes.Node.ToDotString | src/node.rs:53-97 | the buffer-built line equals the node's fragment under the given options; it begins with the unescaped node id and ends with `;` |
| Nodes.SegmentPresence | src/node.rs:65-93 | label attribute present iff labels are not suppressed; style iff styles are not suppressed and the style is not `None`; color iff colors are not suppressed and a color is set; shape iff a shape is set, whatever the options; each carries the quoted label, the style keyword, the quoted color, the raw shape |
| Nodes.SegmentOrder | src/node.rs:63-96 | attributes appear in the order label, style, color, shape, each at most once |
| Nodes.FragmentLayout | src/node.rs:63-96 | a fragment is the node id, then the joined attribute text, then `;`: it starts with the id and its last character is `;` |
| Nodes.SegmentText | src/node.rs:65-93 | the attribute texts are `[label=q]`, `[style="k"]`, `[color=q]` and `[shape="s"]`; the shape is placed between literal quotes without `quote_string` |
| Nodes.LabelledFragment | src/node.rs:63-69 | rendered with no option, a fragment starts with the id followed by `[label=` quoted label `]` |
| Nodes.AllSuppressed | src/node.rs:65-95 | with all three suppression flags, a node renders as `id[shape="s"];` when it has shape `s` and as `id;` when it has none |
| Nodes.SetterOrderIrrelevant | src/node.rs:34-96 | setting label, style, color and shape in opposite orders gives the same fragment |
| Graphs.KindTables | src/graph.rs:89-102 | `Kind.Keyword` maps `Digraph` to `digraph` and `Graph` to `graph`; `Kind.EdgeOp` maps `Digraph` to `->` and `Graph` to `--`; different kinds differ in both |
| Graphs.Graph.constructor | src/graph.rs:16-18 | a new graph has the given name and kind and no nodes or edges |
| Graphs.Graph.AddNode | src/graph.rs:20-22 | the node is appended at the end, earlier nodes keep their places, edges are unchanged (name and kind are constant) |
| Graphs.Graph.AddEdge | src/graph.rs:24-26 | the edge is appended at the end, earlier edges keep their places, nodes are unchanged (name and kind are constant) |
| Graphs.Graph.ToDotString | src/graph.rs:28-75 | the text written by the two loops equals the graph's document for its current name, kind, nodes and edges; the graph is only read, so repeated calls agree |
| Graphs.DocumentLayout | src/graph.rs:56-74 | the document has `nodes + edges + 2` lines: the header `keyword name {`, each node's fragment indented by four spaces in insertion order, each edge's fragment with the kind's operator in insertion order, then `}` |
| Graphs.EmptyDigraph | src/graph.rs:56-74 | an empty directed graph named `G` serialises to exactly `digraph G {\n}\n` |
| Graphs.NodeLineLabelled | src/graph.rs:54-63 | nodes are rendered with no suppression option, so every node line starts with four spaces, the id and its label attribute |
| Graphs.DocumentReadsBack | src/graph.rs:43-74 | when no name or fragment contains a newline, splitting the document at newlines gives back exactly its `nodes + edges + 2` lines |
| Text.JoinLinesAppend | src/graph.rs:43-48 | writing one more line with `writeln` appends the line and a newline at the end of the text |
| Text.SplitJoin | src/graph.rs:43-48 | newline-terminated lines without embedded newlines read back exactly |
| Text.ConcatAppend | src/node.rs:96 | joining a buffer distributes over appending pieces to it |

## Left out

- The `io::Write` plumbing of serialisation (the byte-vector writer, `write_all`, `write!`, `read_to_string`, `io::Result` and `unwrap`, src/graph.rs:28-34 and 43-52): serialisation is string concatenation, and `Graphs.Graph.ToDotString` returns the string itself rather than `Ok` of it. The only failure path in the source is I/O on an in-memory buffer.
- The bodies of `quote_string`, `Style::as_slice` and `Edge::to_dot_string`: these live in src/utils.rs, src/style.rs and src/edge.rs, which are not part of this model; they are uninterpreted function parameters. The edge type is a type parameter of `Graphs.Graph`.
- The members of `Style` other than `None` (only `None` is distinguished by the formatter) and any members of `RenderOption` beyond the three node-suppression flags.
- The `index` field of `Node`: it is carried but never read by formatting.
- The hand-written `Clone` of `Node`: a field-by-field copy.
- The `'static` lifetime of a node's color: the color is a plain optional string.
- Ownership: `add_node` moves the node into the graph; the model stores the node's attribute values at the time of the call, so later changes to the caller's `Node` object do not reach the graph, as in Rust.
- The node method call inside the serialiser loop (src/graph.rs:60): the model calls the node fragment function `Nodes.Fragment` on each stored value rather than the `Nodes.Node.ToDotString` method, which it is proved equal to.
