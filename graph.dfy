/**
 The graph container and its serialisation to DOT text (src/graph.rs).
 */
module Graphs {
  import opened Vocabulary
  import opened Text
  import opened Nodes

  /** Whether the graph is directed (`digraph`, edges `->`) or undirected (`graph`, edges `--`). */
  datatype Kind = Digraph | Graph
  {
    /** The keyword that introduces the graph. */
    function Keyword(): string
    {
      match this
      case Digraph => "digraph"
      case Graph => "graph"
    }

    /** The operator written between the two ends of an edge. */
    function EdgeOp(): string
    {
      match this
      case Digraph => "->"
      case Graph => "--"
    }
  }

  /** The two kinds have different keywords and different edge operators. */
  lemma KindTables()
    ensures Kind.Digraph.Keyword() == "digraph" && Kind.Graph.Keyword() == "graph"
    ensures Kind.Digraph.EdgeOp() == "->" && Kind.Graph.EdgeOp() == "--"
    ensures forall k: Kind, l: Kind :: k != l ==> k.Keyword() != l.Keyword() && k.EdgeOp() != l.EdgeOp()
  {
  }

  /** The indentation written before every node and edge line. */
  const Indent: string := "    "

  /** The header line: keyword, a space, the name, and ` {`. */
  function HeaderLine(kind: Kind, name: string): string
  {
    kind.Keyword() + " " + name + " {"
  }

  /** A node's line: its fragment rendered with no suppression option, indented. */
  function NodeLine(n: NodeValue, fmt: Formatters): string
  {
    Indent + Fragment(n, [], fmt)
  }

  /** An edge's line: the edge formatted with the graph's edge operator, indented. */
  function EdgeLine<E>(e: E, kind: Kind, edgeFragment: (E, string) -> string): string
  {
    Indent + edgeFragment(e, kind.EdgeOp())
  }

  function NodeLines(nodes: seq<NodeValue>, fmt: Formatters): seq<string>
  {
    seq(|nodes|, i requires 0 <= i < |nodes| => NodeLine(nodes[i], fmt))
  }

  function EdgeLines<E>(edges: seq<E>, kind: Kind, edgeFragment: (E, string) -> string): seq<string>
  {
    seq(|edges|, i requires 0 <= i < |edges| => EdgeLine(edges[i], kind, edgeFragment))
  }

  /** The lines of a graph's DOT text, each to be followed by a newline. */
  function DocumentLines<E>(kind: Kind, name: string, nodes: seq<NodeValue>, edges: seq<E>,
                            fmt: Formatters, edgeFragment: (E, string) -> string): seq<string>
  {
    [HeaderLine(kind, name)] + NodeLines(nodes, fmt) + EdgeLines(edges, kind, edgeFragment) + ["}"]
  }

  /** A graph's DOT text. */
  function Document<E>(kind: Kind, name: string, nodes: seq<NodeValue>, edges: seq<E>,
                       fmt: Formatters, edgeFragment: (E, string) -> string): string
  {
    JoinLines(DocumentLines(kind, name, nodes, edges, fmt, edgeFragment))
  }

  /**
   The layout of the text: a header, then one line per node in insertion
   order, then one line per edge in insertion order, then `}`.
   */
  lemma DocumentLayout<E>(kind: Kind, name: string, nodes: seq<NodeValue>, edges: seq<E>,
                          fmt: Formatters, edgeFragment: (E, string) -> string)
    ensures var lines := DocumentLines(kind, name, nodes, edges, fmt, edgeFragment);
      && |lines| == |nodes| + |edges| + 2
      && lines[0] == kind.Keyword() + " " + name + " {"
      && (forall k :: 0 <= k < |nodes| ==> lines[1 + k] == Indent + Fragment(nodes[k], [], fmt))
      && (forall k :: 0 <= k < |edges| ==>
            lines[1 + |nodes| + k] == Indent + edgeFragment(edges[k], kind.EdgeOp()))
      && lines[|lines| - 1] == "}"
  {
    var head := [HeaderLine(kind, name)];
    var nodeLines := NodeLines(nodes, fmt);
    var edgeLines := EdgeLines(edges, kind, edgeFragment);
    var lines := head + nodeLines + edgeLines + ["}"];
    assert DocumentLines(kind, name, nodes, edges, fmt, edgeFragment) == lines;
    forall k | 0 <= k < |nodes| ensures lines[1 + k] == Indent + Fragment(nodes[k], [], fmt) {
      assert lines[1 + k] == nodeLines[k];
    }
    forall k | 0 <= k < |edges|
      ensures lines[1 + |nodes| + k] == Indent + edgeFragment(edges[k], kind.EdgeOp())
    {
      assert lines[1 + |nodes| + k] == edgeLines[k];
    }
  }

  /** An empty directed graph named `G` is exactly `digraph G {\n}\n`. */
  lemma EmptyDigraph<E>(fmt: Formatters, edgeFragment: (E, string) -> string)
    ensures Document(Digraph, "G", [], [], fmt, edgeFragment) == "digraph G {\n}\n"
  {
    var lines := DocumentLines(Digraph, "G", [], [], fmt, edgeFragment);
    assert HeaderLine(Digraph, "G") == "digraph G {";
    assert NodeLines([], fmt) == [] && EdgeLines([], Digraph, edgeFragment) == [];
    assert lines == ["digraph G {", "}"];
    assert lines[1..][1..] == [];
    assert JoinLines(lines[1..]) == "}" + "\n" + "";
    assert JoinLines(lines) == "digraph G {" + "\n" + ("}" + "\n" + "");
  }

  /**
   Every node line carries a label: serialisation passes no suppression
   option, so each line starts with the indent, the node id and its quoted label.
   */
  lemma NodeLineLabelled(n: NodeValue, fmt: Formatters)
    ensures var prefix := Indent + n.name + "[label=" + fmt.quote(n.labelText) + "]";
      |NodeLine(n, fmt)| > |prefix| && NodeLine(n, fmt)[..|prefix|] == prefix
  {
    var head := n.name + "[label=" + fmt.quote(n.labelText) + "]";
    LabelledFragment(n, fmt);
    var f := Fragment(n, [], fmt);
    assert f == head + f[|head|..];
    assert NodeLine(n, fmt) == (Indent + head) + f[|head|..];
  }

  /**
   When neither the name nor any fragment contains a newline, the text reads
   back as exactly its lines: `|nodes| + |edges| + 2` newline-terminated lines.
   */
  lemma DocumentReadsBack<E>(kind: Kind, name: string, nodes: seq<NodeValue>, edges: seq<E>,
                             fmt: Formatters, edgeFragment: (E, string) -> string)
    requires '\n' !in name
    requires forall k :: 0 <= k < |nodes| ==> '\n' !in Fragment(nodes[k], [], fmt)
    requires forall k :: 0 <= k < |edges| ==> '\n' !in edgeFragment(edges[k], kind.EdgeOp())
    ensures SplitLines(Document(kind, name, nodes, edges, fmt, edgeFragment))
         == DocumentLines(kind, name, nodes, edges, fmt, edgeFragment)
    ensures |SplitLines(Document(kind, name, nodes, edges, fmt, edgeFragment))| == |nodes| + |edges| + 2
  {
    var lines := DocumentLines(kind, name, nodes, edges, fmt, edgeFragment);
    DocumentLayout(kind, name, nodes, edges, fmt, edgeFragment);
    forall i | 0 <= i < |lines| ensures '\n' !in lines[i] {
      if i == 0 {
        assert lines[0] == kind.Keyword() + " " + name + " {";
      } else if i <= |nodes| {
        assert lines[i] == Indent + Fragment(nodes[i - 1], [], fmt);
      } else if i <= |nodes| + |edges| {
        assert lines[i] == Indent + edgeFragment(edges[i - 1 - |nodes|], kind.EdgeOp());
      }
    }
    SplitJoin(lines);
  }

  /** Writing the indented line of node `i` extends the text written so far by one line. */
  lemma NodeLineWritten(header: string, nodes: seq<NodeValue>, i: nat, fmt: Formatters)
    requires i < |nodes|
    ensures JoinLines([header] + NodeLines(nodes[..i], fmt)) + Indent + Fragment(nodes[i], [], fmt) + "\n"
         == JoinLines([header] + NodeLines(nodes[..i + 1], fmt))
  {
    var done := [header] + NodeLines(nodes[..i], fmt);
    assert [header] + NodeLines(nodes[..i + 1], fmt) == done + [NodeLine(nodes[i], fmt)];
    JoinLinesAppend(done, NodeLine(nodes[i], fmt));
  }

  /** Writing the indented line of edge `j` extends the text written so far by one line. */
  lemma EdgeLineWritten<E>(before: seq<string>, edges: seq<E>, j: nat, kind: Kind,
                           edgeFragment: (E, string) -> string)
    requires j < |edges|
    ensures JoinLines(before + EdgeLines(edges[..j], kind, edgeFragment))
            + Indent + edgeFragment(edges[j], kind.EdgeOp()) + "\n"
         == JoinLines(before + EdgeLines(edges[..j + 1], kind, edgeFragment))
  {
    var done := before + EdgeLines(edges[..j], kind, edgeFragment);
    assert before + EdgeLines(edges[..j + 1], kind, edgeFragment) == done + [EdgeLine(edges[j], kind, edgeFragment)];
    JoinLinesAppend(done, EdgeLine(edges[j], kind, edgeFragment));
  }

  /**
   The source's `Graph`: a name and kind fixed at construction, and node and
   edge lists that only grow at their ends. Nodes are stored as the values
   they had when added, as Rust moves them into the graph.
   */
  class Graph<E> {
    const name: string
    const kind: Kind
    var nodes: seq<NodeValue>
    var edges: seq<E>

    /** `Graph::new`: the given name and kind, no nodes and no edges. */
    constructor (name: string, kind: Kind)
      ensures this.name == name && this.kind == kind
      ensures nodes == [] && edges == []
    {
      this.name := name;
      this.kind := kind;
      nodes := [];
      edges := [];
    }

    /** Appends the node at the end; earlier nodes and all edges are untouched. */
    method AddNode(node: Node)
      modifies this`nodes
      ensures nodes == old(nodes) + [node.Value()]
      ensures edges == old(edges)
    {
      nodes := nodes + [node.Value()];
    }

    /** Appends the edge at the end; earlier edges and all nodes are untouched. */
    method AddEdge(edge: E)
      modifies this`edges
      ensures edges == old(edges) + [edge]
      ensures nodes == old(nodes)
    {
      edges := edges + [edge];
    }

    /**
     Writes the header, one indented line per node, one per edge, and the
     closing brace, each followed by a newline. Reads the graph only.
     */
    method ToDotString(fmt: Formatters, edgeFragment: (E, string) -> string) returns (s: string)
      ensures s == Document(kind, name, nodes, edges, fmt, edgeFragment)
    {
      var options: seq<RenderOption> := [];
      var header := HeaderLine(kind, name);
      s := header + "\n";
      assert s == JoinLines([header]);

      var i := 0;
      while i < |nodes|
        invariant 0 <= i <= |nodes|
        invariant s == JoinLines([header] + NodeLines(nodes[..i], fmt))
      {
        s := s + Indent;
        var nodeDotString := Fragment(nodes[i], options, fmt);
        s := s + nodeDotString + "\n";
        NodeLineWritten(header, nodes, i, fmt);
        i := i + 1;
      }
      assert nodes[..i] == nodes;

      var edgeSymbol := kind.EdgeOp();
      var j := 0;
      assert [header] + NodeLines(nodes, fmt) + EdgeLines(edges[..j], kind, edgeFragment)
          == [header] + NodeLines(nodes, fmt);
      while j < |edges|
        invariant 0 <= j <= |edges|
        invariant s == JoinLines([header] + NodeLines(nodes, fmt) + EdgeLines(edges[..j], kind, edgeFragment))
      {
        s := s + Indent;
        var edgeDotString := edgeFragment(edges[j], edgeSymbol);
        s := s + edgeDotString + "\n";
        EdgeLineWritten([header] + NodeLines(nodes, fmt), edges, j, kind, edgeFragment);
        j := j + 1;
      }
      assert edges[..j] == edges;

      JoinLinesAppend([header] + NodeLines(nodes, fmt) + EdgeLines(edges, kind, edgeFragment), "}");
      s := s + "}" + "\n";
    }
  }
}
