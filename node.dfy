/**
 A DOT node: its record, its setters, and the one-line DOT fragment it
 renders to (src/node.rs).
 */
module Nodes {
  import opened Wrappers
  import opened Vocabulary
  import opened Text

  /** The formatting-relevant state of a node, as a value. */
  datatype NodeValue = NodeValue(
    name: string,
    labelText: string,
    style: Style,
    color: Option<string>,
    shape: Option<string>)

  /** One bracketed attribute of a fragment, carrying the text placed inside it. */
  datatype Segment =
    | LabelSeg(quoted: string)
    | StyleSeg(keyword: string)
    | ColorSeg(quoted: string)
    | ShapeSeg(shape: string)
  {
    /** The position of this kind of segment in the fixed attribute order. */
    function Rank(): nat
    {
      match this
      case LabelSeg(_) => 0
      case StyleSeg(_) => 1
      case ColorSeg(_) => 2
      case ShapeSeg(_) => 3
    }

    /** The pieces this segment pushes onto the fragment's buffer. */
    function Pieces(): seq<string>
    {
      match this
      case LabelSeg(q) => ["[label=", q, "]"]
      case StyleSeg(k) => ["[style=\"", k, "\"]"]
      case ColorSeg(q) => ["[color=", q, "]"]
      case ShapeSeg(s) => ["[shape=\"", s, "\"]"]
    }
  }

  /** The attributes a node renders under `options`, in the order they appear. */
  function Segments(n: NodeValue, options: seq<RenderOption>, fmt: Formatters): seq<Segment>
  {
    LabelPart(n, options, fmt) + StylePart(n, options, fmt) + ColorPart(n, options, fmt) + ShapePart(n)
  }

  /**
   Which attributes are present, and what each carries: a label unless
   labels are suppressed; a style unless styles are suppressed or the style
   is `None`; a color unless colors are suppressed or none is set; a shape
   exactly when one is set, whatever the options.
   */
  lemma SegmentPresence(n: NodeValue, options: seq<RenderOption>, fmt: Formatters)
    ensures NoNodeLabels !in options ==> LabelSeg(fmt.quote(n.labelText)) in Segments(n, options, fmt)
    ensures forall g :: g in Segments(n, options, fmt) && g.LabelSeg? ==>
              NoNodeLabels !in options && g == LabelSeg(fmt.quote(n.labelText))
    ensures NoNodeStyles !in options && n.style != Style.None ==>
              StyleSeg(fmt.styleKeyword(n.style)) in Segments(n, options, fmt)
    ensures forall g :: g in Segments(n, options, fmt) && g.StyleSeg? ==>
              NoNodeStyles !in options && n.style != Style.None && g == StyleSeg(fmt.styleKeyword(n.style))
    ensures NoNodeColors !in options && n.color.Some? ==>
              ColorSeg(fmt.quote(n.color.value)) in Segments(n, options, fmt)
    ensures forall g :: g in Segments(n, options, fmt) && g.ColorSeg? ==>
              NoNodeColors !in options && n.color.Some? && g == ColorSeg(fmt.quote(n.color.value))
    ensures n.shape.Some? ==> ShapeSeg(n.shape.value) in Segments(n, options, fmt)
    ensures forall g :: g in Segments(n, options, fmt) && g.ShapeSeg? ==>
              n.shape.Some? && g == ShapeSeg(n.shape.value)
  {
  }

  /**
   The attributes always come in the order label, style, color, shape, each
   at most once, whatever the node and the options.
   */
  lemma SegmentOrder(n: NodeValue, options: seq<RenderOption>, fmt: Formatters)
    ensures forall i, j :: 0 <= i < j < |Segments(n, options, fmt)| ==>
              Segments(n, options, fmt)[i].Rank() < Segments(n, options, fmt)[j].Rank()
  {
  }

  function LabelPart(n: NodeValue, options: seq<RenderOption>, fmt: Formatters): seq<Segment>
  {
    if NoNodeLabels !in options then [LabelSeg(fmt.quote(n.labelText))] else []
  }

  function StylePart(n: NodeValue, options: seq<RenderOption>, fmt: Formatters): seq<Segment>
  {
    if NoNodeStyles !in options && n.style != Style.None then [StyleSeg(fmt.styleKeyword(n.style))] else []
  }

  function ColorPart(n: NodeValue, options: seq<RenderOption>, fmt: Formatters): seq<Segment>
  {
    if NoNodeColors !in options && n.color.Some? then [ColorSeg(fmt.quote(n.color.value))] else []
  }

  function ShapePart(n: NodeValue): seq<Segment>
  {
    if n.shape.Some? then [ShapeSeg(n.shape.value)] else []
  }

  /** The buffer pieces of a run of segments, in order. */
  function SegmentPieces(segs: seq<Segment>): seq<string>
  {
    if segs == [] then [] else segs[0].Pieces() + SegmentPieces(segs[1..])
  }

  lemma {:induction false} SegmentPiecesAppend(segs: seq<Segment>, g: Segment)
    ensures SegmentPieces(segs + [g]) == SegmentPieces(segs) + g.Pieces()
  {
    if segs == [] {
      assert [] + [g] == [g];
      assert [g][1..] == [];
    } else {
      assert (segs + [g])[1..] == segs[1..] + [g];
      SegmentPiecesAppend(segs[1..], g);
    }
  }

  /** The DOT fragment of a node: its id, its attributes, and a closing `;`. */
  function Fragment(n: NodeValue, options: seq<RenderOption>, fmt: Formatters): string
  {
    Concat([n.name] + SegmentPieces(Segments(n, options, fmt)) + [";"])
  }

  /** A fragment is the unescaped node id, then the attribute text, then `;`. */
  lemma FragmentLayout(n: NodeValue, options: seq<RenderOption>, fmt: Formatters)
    ensures Fragment(n, options, fmt) == n.name + Concat(SegmentPieces(Segments(n, options, fmt))) + ";"
    ensures |Fragment(n, options, fmt)| > |n.name|
    ensures Fragment(n, options, fmt)[..|n.name|] == n.name
    ensures Fragment(n, options, fmt)[|Fragment(n, options, fmt)| - 1] == ';'
  {
    var mid := SegmentPieces(Segments(n, options, fmt));
    ConcatAppend([n.name] + mid, [";"]);
    ConcatAppend([n.name], mid);
    assert Concat([n.name]) == n.name;
    assert Concat([";"]) == ";";
  }

  /** The text of a segment: `[label=q]`, `[style="k"]`, `[color=q]` or `[shape="s"]`. */
  lemma SegmentText(g: Segment)
    ensures Concat(SegmentPieces([g])) == match g
      case LabelSeg(q) => "[label=" + q + "]"
      case StyleSeg(k) => "[style=\"" + k + "\"]"
      case ColorSeg(q) => "[color=" + q + "]"
      case ShapeSeg(s) => "[shape=\"" + s + "\"]"
  {
    assert SegmentPieces([g]) == g.Pieces();
    var p := g.Pieces();
    assert p[1..][1..][1..] == [];
    assert Concat(p[1..][1..]) == p[2];
    assert Concat(p[1..]) == p[1] + p[2];
  }

  /** Rendered with no option, a fragment starts with the id and then the label attribute. */
  lemma LabelledFragment(n: NodeValue, fmt: Formatters)
    ensures var head := n.name + "[label=" + fmt.quote(n.labelText) + "]";
      |Fragment(n, [], fmt)| > |head| && Fragment(n, [], fmt)[..|head|] == head
  {
    var segs := Segments(n, [], fmt);
    var g := LabelSeg(fmt.quote(n.labelText));
    var attr := "[label=" + fmt.quote(n.labelText) + "]";
    var tail := Concat(SegmentPieces(segs[1..]));
    assert Concat(SegmentPieces(segs)) == attr + tail by {
      assert segs == [g] + segs[1..];
      SegmentPieces1(g, segs[1..]);
      ConcatAppend(g.Pieces(), SegmentPieces(segs[1..]));
      SegmentText(g);
      assert SegmentPieces([g]) == g.Pieces();
    }
    var head := n.name + attr;
    assert Fragment(n, [], fmt) == head + (tail + ";") by {
      FragmentLayout(n, [], fmt);
    }
  }

  lemma SegmentPieces1(g: Segment, rest: seq<Segment>)
    ensures SegmentPieces([g] + rest) == g.Pieces() + SegmentPieces(rest)
  {
    assert ([g] + rest)[1..] == rest;
  }

  /**
   With every suppression flag set, a node keeps only its shape, if it has
   one: `id[shape="s"];`, or `id;` without a shape. The shape is never
   suppressed and never quoted through `quote`.
   */
  lemma AllSuppressed(n: NodeValue, fmt: Formatters)
    ensures Fragment(n, [NoNodeLabels, NoNodeStyles, NoNodeColors], fmt)
         == n.name + (if n.shape.Some? then "[shape=\"" + n.shape.value + "\"]" else "") + ";"
  {
    var options := [NoNodeLabels, NoNodeStyles, NoNodeColors];
    var segs := Segments(n, options, fmt);
    FragmentLayout(n, options, fmt);
    if n.shape.Some? {
      assert segs == [ShapeSeg(n.shape.value)];
      SegmentText(ShapeSeg(n.shape.value));
    } else {
      assert segs == [];
    }
  }

  /** A node as the source's `Node` struct: fields updated in place by its setters. */
  class Node {
    var name: string
    var labelText: string
    var style: Style
    var color: Option<string>
    var shape: Option<string>

    /** The node's current attributes, as a value. */
    function Value(): NodeValue
      reads this
    {
      NodeValue(name, labelText, style, color, shape)
    }

    /** `Node::new`: the given name, an empty label, and no style, color or shape. */
    constructor (name: string)
      ensures Value() == NodeValue(name, "", Style.None, Option.None, Option.None)
    {
      this.name := name;
      labelText := "";
      style := Style.None;
      color := Option.None;
      shape := Option.None;
    }

    /** `Node::new_with_label`: name and label both `nameLabel`, nothing else set. */
    constructor WithLabel(nameLabel: string)
      ensures Value() == NodeValue(nameLabel, nameLabel, Style.None, Option.None, Option.None)
    {
      name := nameLabel;
      labelText := nameLabel;
      style := Style.None;
      color := Option.None;
      shape := Option.None;
    }

    /** Replaces the label and nothing else. */
    method SetLabel(labelText: string)
      modifies this
      ensures Value() == old(Value()).(labelText := labelText)
    {
      this.labelText := labelText;
    }

    /** Replaces the style and nothing else. */
    method SetStyle(style: Style)
      modifies this
      ensures Value() == old(Value()).(style := style)
    {
      this.style := style;
    }

    /** Sets the shape to exactly `s` for `Some(s)`, clears it for `None`; nothing else changes. */
    method SetShape(shape: Option<string>)
      modifies this
      ensures Value() == old(Value()).(shape := shape)
    {
      match shape {
        case Some(s) => this.shape := Some(s);
        case None => this.shape := Option.None;
      }
    }

    /** Replaces the color (or clears it) and nothing else. */
    method SetColor(color: Option<string>)
      modifies this
      ensures Value() == old(Value()).(color := color)
    {
      this.color := color;
    }

    /** The node id: the name, unescaped. */
    function NodeId(): (id: string)
      reads this
      ensures id == Value().name
    {
      name
    }

    /**
     Renders the node as one line of DOT by pushing pieces onto a buffer and
     joining it. The line begins with the node id and ends with `;`.
     */
    method ToDotString(options: seq<RenderOption>, fmt: Formatters) returns (s: string)
      ensures s == Fragment(Value(), options, fmt)
      ensures |s| > |NodeId()| && s[..|NodeId()|] == NodeId() && s[|s| - 1] == ';'
    {
      var escaped := fmt.quote(labelText);
      var text := [NodeId()];
      ghost var v := Value();
      ghost var segs: seq<Segment> := [];

      if NoNodeLabels !in options {
        PushSegment(text, segs, name, LabelSeg(escaped));
        text := text + ["[label=", escaped, "]"];
        segs := segs + [LabelSeg(escaped)];
      }
      assert segs == LabelPart(v, options, fmt);

      if NoNodeStyles !in options && style != Style.None {
        PushSegment(text, segs, name, StyleSeg(fmt.styleKeyword(style)));
        text := text + ["[style=\"", fmt.styleKeyword(style), "\"]"];
        segs := segs + [StyleSeg(fmt.styleKeyword(style))];
      }
      assert segs == LabelPart(v, options, fmt) + StylePart(v, options, fmt);

      if NoNodeColors !in options {
        if color.Some? {
          var colorString := fmt.quote(color.value);
          PushSegment(text, segs, name, ColorSeg(colorString));
          text := text + ["[color=", colorString, "]"];
          segs := segs + [ColorSeg(colorString)];
        }
      }
      assert segs == LabelPart(v, options, fmt) + StylePart(v, options, fmt) + ColorPart(v, options, fmt);

      if shape.Some? {
        PushSegment(text, segs, name, ShapeSeg(shape.value));
        text := text + ["[shape=\"", shape.value, "\"]"];
        segs := segs + [ShapeSeg(shape.value)];
      }
      assert segs == Segments(v, options, fmt);

      text := text + [";"];
      s := Concat(text);
      FragmentLayout(Value(), options, fmt);
    }
  }

  /** Pushing a segment's pieces onto a buffer that holds an id and earlier segments. */
  lemma PushSegment(text: seq<string>, segs: seq<Segment>, id: string, g: Segment)
    requires text == [id] + SegmentPieces(segs)
    ensures text + g.Pieces() == [id] + SegmentPieces(segs + [g])
  {
    SegmentPiecesAppend(segs, g);
  }

  /**
   Setting the same attributes in opposite orders renders the same fragment:
   attribute order depends only on the final field values. This is one
   instance; the general fact, for any order of setter calls, follows from
   each setter's `Value() == old(Value()).(f := x)` postcondition, since
   `Fragment` reads nothing but `Value()`.
   */
  method SetterOrderIrrelevant(name: string, labelText: string, style: Style, color: Option<string>,
                               shape: Option<string>, options: seq<RenderOption>, fmt: Formatters)
    returns (forward: string, backward: string)
    ensures forward == backward
    ensures forward == Fragment(NodeValue(name, labelText, style, color, shape), options, fmt)
  {
    var a := new Node(name);
    a.SetLabel(labelText);
    a.SetStyle(style);
    a.SetColor(color);
    a.SetShape(shape);
    forward := a.ToDotString(options, fmt);

    var b := new Node(name);
    b.SetShape(shape);
    b.SetColor(color);
    b.SetStyle(style);
    b.SetLabel(labelText);
    backward := b.ToDotString(options, fmt);
  }
}
