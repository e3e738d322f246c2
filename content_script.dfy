/**
 * `extension/contentScript.js`, `convertToMarkdown`: the browser extension's
 * conversion of a page's node tree into Markdown text. Each child of an
 * element adds its piece to the result in document order: a text node its
 * trimmed text, an element the Markdown its tag calls for around its own
 * converted (and trimmed) content, or nothing when that content is blank.
 */
module ContentScript {
  import opened Text

  /** A DOM node: a text node, an element with its tag name as the DOM
      reports it and its child nodes, or any other kind of node (a comment,
      say), which the conversion passes over. */
  datatype Node =
    | TextNode(text: string)
    | Element(tagName: string, children: seq<Node>)
    | OtherNode

  /** `convertToMarkdown(element)`: the pieces of the element's children,
      one after the other. A node without children converts to "". */
  function ConvertToMarkdown(element: Node): string
    decreases element, 1
  {
    if element.Element? then Markdown(element.children) else ""
  }

  /** The `markdown` accumulator once the `forEach` has visited `nodes`. */
  function Markdown(nodes: seq<Node>): string
    decreases nodes, 0
  {
    if nodes == [] then ""
    else Markdown(nodes[..|nodes| - 1]) + Piece(nodes[|nodes| - 1])
  }

  /** What one child node adds to the accumulator. */
  function Piece(node: Node): string
    decreases node, 2
  {
    match node
    case TextNode(text) => Trim(text)
    case OtherNode => ""
    case Element(tagName, _) =>
      var content := Trim(ConvertToMarkdown(node));
      if content == [] then "" else Wrap(ToLower(tagName), content)
  }

  /** The `switch` on the lower-cased tag, for content that is not blank. */
  function Wrap(tag: string, content: string): string {
    if tag == "h1" then "# " + content + "\n\n"
    else if tag == "h2" then "## " + content + "\n\n"
    else if tag == "h3" then "### " + content + "\n\n"
    else if tag == "p" then content + "\n\n"
    else if tag == "ul" then UnorderedList(content)
    else if tag == "li" then content + "\n"
    else if tag == "strong" || tag == "b" then "**" + content + "**"
    else if tag == "em" || tag == "i" then "*" + content + "*"
    else if tag == "br" then "\n"
    else if tag == "div" || tag == "span" then content + " "
    else content
  }

  // ---------------------------------------------------------------------------
  // Lists
  // ---------------------------------------------------------------------------

  /** `.filter(line => line.trim())`: the lines that are not blank, in order. */
  function NonBlankLines(lines: seq<string>): seq<string> {
    if lines == [] then []
    else (if Trim(lines[0]) != [] then [lines[0]] else []) + NonBlankLines(lines[1..])
  }

  /** `.map(line => `- ${line}\n`).join('')`. */
  function BulletList(lines: seq<string>): string {
    if lines == [] then "" else "- " + lines[0] + "\n" + BulletList(lines[1..])
  }

  /** The Markdown of a `ul` element's content: one bullet per line that is
      not blank, the line kept as it is, then an empty line. */
  function UnorderedList(content: string): string {
    BulletList(NonBlankLines(Split(content, '\n'))) + "\n"
  }

  /** Each line with its bullet. */
  function Dashed(lines: seq<string>): (r: seq<string>)
    ensures |r| == |lines|
    ensures forall k :: 0 <= k < |lines| ==> r[k] == "- " + lines[k]
  {
    if lines == [] then [] else ["- " + lines[0]] + Dashed(lines[1..])
  }

  /** The filter keeps exactly the lines that are not blank, in their order:
      what it keeps comes from the lines, and a line it drops is blank. */
  lemma {:induction false} NonBlankLinesSpec(lines: seq<string>)
    ensures var r := NonBlankLines(lines);
            && |r| <= |lines|
            && (forall k :: 0 <= k < |r| ==> Trim(r[k]) != [] && r[k] in lines)
            && (forall k :: 0 <= k < |lines| && Trim(lines[k]) != [] ==> lines[k] in r)
  {
    if lines != [] {
      NonBlankLinesSpec(lines[1..]);
      var head := if Trim(lines[0]) != [] then [lines[0]] else [];
      var r := NonBlankLines(lines);
      var rest := NonBlankLines(lines[1..]);
      assert r == head + rest;
      forall k | 0 <= k < |r| ensures Trim(r[k]) != [] && r[k] in lines {
        if k >= |head| {
          assert r[k] == rest[k - |head|];
          assert rest[k - |head|] in lines[1..];
        }
      }
      forall k | 0 <= k < |lines| && Trim(lines[k]) != [] ensures lines[k] in r {
        if k > 0 {
          assert lines[k] == lines[1..][k - 1];
          assert lines[k] in rest;
        } else {
          assert r[0] == lines[0];
        }
      }
    }
  }

  /** The filter works line by line: the lines it keeps from two runs of
      lines are those it keeps from the first, then those from the second,
      and a single line is kept, unchanged, exactly when it is not blank.
      So it keeps each non-blank line, once, in its original order. */
  lemma {:induction false} NonBlankLinesAppend(a: seq<string>, b: seq<string>)
    ensures NonBlankLines(a + b) == NonBlankLines(a) + NonBlankLines(b)
    ensures forall line :: NonBlankLines([line]) == if Trim(line) != [] then [line] else []
  {
    if a != [] {
      assert (a + b)[0] == a[0];
      assert (a + b)[1..] == a[1..] + b;
      NonBlankLinesAppend(a[1..], b);
    } else {
      assert a + b == b;
    }
    forall line ensures NonBlankLines([line]) == if Trim(line) != [] then [line] else [] {
      assert [line][1..] == [];
    }
  }

  /** The bullet list followed by a newline is the dashed lines joined by
      newlines, closed by two newlines. */
  lemma {:induction false} BulletListJoined(lines: seq<string>)
    ensures BulletList(lines) + "\n" == JoinWith(Dashed(lines) + ["", ""], "\n")
  {
    if lines != [] {
      BulletListJoined(lines[1..]);
      var tail := Dashed(lines[1..]) + ["", ""];
      assert Dashed(lines) + ["", ""] == ["- " + lines[0]] + tail;
      assert (["- " + lines[0]] + tail)[1..] == tail;
    }
  }

  /** Read back line by line, a `ul` element's Markdown is one bullet per
      line of its content that is not blank, in order, then two empty
      lines (the last bullet's newline and the closing one). */
  lemma UnorderedListLines(content: string)
    ensures Split(UnorderedList(content), '\n')
              == Dashed(NonBlankLines(Split(content, '\n'))) + ["", ""]
  {
    var kept := NonBlankLines(Split(content, '\n'));
    NonBlankLinesSpec(Split(content, '\n'));
    BulletListJoined(kept);
    var parts := Dashed(kept) + ["", ""];
    forall k | 0 <= k < |parts| ensures '\n' !in parts[k] {
      if k < |kept| {
        assert parts[k] == "- " + kept[k];
      }
    }
    SplitJoin(parts, '\n');
  }

  /** A `ul` whose content is not blank gets at least one bullet, and its
      Markdown begins with one. */
  lemma UnorderedListStartsWithBullet(content: string)
    requires content != [] && !IsJsSpace(content[0])
    ensures StartsWith(UnorderedList(content), "- ")
  {
    var lines := Split(content, '\n');
    assert Trim(lines[0]) != [] by {
      FirstLineStart(content);
      StripEmptyIff(lines[0], IsJsSpace);
    }
    assert NonBlankLines(lines)[0] == lines[0];
  }

  /** The first line of non-empty text begins with the text's first
      character, unless that character is the newline itself. */
  lemma FirstLineStart(content: string)
    requires content != [] && content[0] != '\n'
    ensures var lines := Split(content, '\n');
            lines[0] != [] && lines[0][0] == content[0]
  {
    var lines := Split(content, '\n');
    if |lines| == 1 {
    } else {
      assert JoinWith(lines, "\n") == lines[0] + "\n" + JoinWith(lines[1..], "\n");
      if lines[0] == [] {
        assert false;
      }
      assert content[0] == lines[0][0];
    }
  }

  // ---------------------------------------------------------------------------
  // Properties of the fold
  // ---------------------------------------------------------------------------

  /** The accumulator is a fold: the Markdown of consecutive runs of nodes
      is their pieces put together, with no separator between them. */
  lemma {:induction false} MarkdownAppend(a: seq<Node>, b: seq<Node>)
    ensures Markdown(a + b) == Markdown(a) + Markdown(b)
    decreases |b|
  {
    if b == [] {
      assert a + b == a;
    } else {
      MarkdownAppend(a, b[..|b| - 1]);
      MarkdownAppendStep(a, b);
    }
  }

  /** The step of `MarkdownAppend`: from the run without the last node to
      the whole run. */
  lemma MarkdownAppendStep(a: seq<Node>, b: seq<Node>)
    requires b != []
    requires Markdown(a + b[..|b| - 1]) == Markdown(a) + Markdown(b[..|b| - 1])
    ensures Markdown(a + b) == Markdown(a) + Markdown(b)
  {
    var b', last := b[..|b| - 1], b[|b| - 1];
    MarkdownOfAppendLast(a, b);
    MarkdownLast(b);
    ConcatAssoc(Markdown(a), Markdown(b'), Piece(last));
  }

  /** The last node of `a + b` is the last of `b`, and what comes before it
      is `a` and the rest of `b`. */
  lemma MarkdownOfAppendLast(a: seq<Node>, b: seq<Node>)
    requires b != []
    ensures Markdown(a + b) == Markdown(a + b[..|b| - 1]) + Piece(b[|b| - 1])
  {
    var ab := a + b;
    MarkdownLast(ab);
    assert ab[..|ab| - 1] == a + b[..|b| - 1];
  }

  /** A proof step, stated on its own to keep the queries that use it small. */
  lemma ConcatAssoc(x: string, y: string, z: string)
    ensures (x + y) + z == x + (y + z)
  {
  }

  /** The definition of `Markdown` on a non-empty run, stated on its own to
      keep the queries that use it small. */
  lemma MarkdownLast(nodes: seq<Node>)
    requires nodes != []
    ensures Markdown(nodes) == Markdown(nodes[..|nodes| - 1]) + Piece(nodes[|nodes| - 1])
  {
  }

  /** An element without children, and any node that is not an element,
      converts to the empty string. */
  lemma ChildlessConvertsToEmpty(node: Node)
    requires !node.Element? || node.children == []
    ensures ConvertToMarkdown(node) == ""
  {
  }

  /** A text node adds its trimmed text and nothing else; a node that is
      neither text nor element adds nothing. */
  lemma TextAndOtherPieces(text: string)
    ensures Markdown([TextNode(text)]) == Trim(text)
    ensures Markdown([OtherNode]) == ""
  {
    assert [TextNode(text)][..0] == [];
    assert [OtherNode][..0] == [];
  }

  /** An element whose converted content trims to nothing adds nothing,
      whatever its tag. In particular a `br` element, which has no children
      in the DOM, adds nothing, never the newline its case asks for. */
  lemma BlankElementAddsNothing(tagName: string, children: seq<Node>)
    requires Trim(Markdown(children)) == []
    ensures Piece(Element(tagName, children)) == ""
  {
  }

  lemma BreakAddsNothing(tagName: string)
    requires ToLower(tagName) == "br"
    ensures Piece(Element(tagName, [])) == ""
  {
    BlankElementAddsNothing(tagName, []);
    StripEmptyIff([], IsJsSpace);
  }

  /** Every tag but `br` and `ul` keeps the whole of its content in its
      piece; `ul` keeps each line of it that is not blank. */
  lemma WrapKeepsContent(tag: string, content: string)
    requires tag != "br" && tag != "ul"
    ensures Contains(Wrap(tag, content), content)
  {
    assert OccursAt(content, content, 0);
    var w := Wrap(tag, content);
    if tag == "h1" {
      ContainsAfter("# ", content, "\n\n");
    } else if tag == "h2" {
      ContainsAfter("## ", content, "\n\n");
    } else if tag == "h3" {
      ContainsAfter("### ", content, "\n\n");
    } else if tag == "p" {
      ContainsInConcat(content, "\n\n", content);
    } else if tag == "li" {
      ContainsInConcat(content, "\n", content);
    } else if tag == "strong" || tag == "b" {
      ContainsAfter("**", content, "**");
    } else if tag == "em" || tag == "i" {
      ContainsAfter("*", content, "*");
    } else if tag == "div" || tag == "span" {
      ContainsInConcat(content, " ", content);
    }
  }

  /** `content` occurs in `before + content + after`. */
  lemma ContainsAfter(before: string, content: string, after: string)
    ensures Contains(before + content + after, content)
  {
    var s := before + content + after;
    assert s[|before|..|before| + |content|] == content;
    assert OccursAt(s, content, |before|);
  }

  /** Headings and paragraphs end their piece with a blank line, list items
      with a newline, `div` and `span` with a space; emphasis wraps the
      content symmetrically; a tag the switch does not name passes the
      content through unchanged. */
  lemma WrapShapes(tag: string, content: string)
    ensures tag == "h1" || tag == "h2" || tag == "h3" || tag == "p" ==>
              EndsWith(Wrap(tag, content), "\n\n")
    ensures tag == "h1" ==> StartsWith(Wrap(tag, content), "# ")
    ensures tag == "h2" ==> StartsWith(Wrap(tag, content), "## ")
    ensures tag == "h3" ==> StartsWith(Wrap(tag, content), "### ")
    ensures tag == "strong" || tag == "b" ==>
              StartsWith(Wrap(tag, content), "**") && EndsWith(Wrap(tag, content), "**")
    ensures tag == "em" || tag == "i" ==>
              StartsWith(Wrap(tag, content), "*") && EndsWith(Wrap(tag, content), "*")
    ensures tag == "li" ==> EndsWith(Wrap(tag, content), "\n")
    ensures tag == "div" || tag == "span" ==> EndsWith(Wrap(tag, content), " ")
    ensures !IsListedTag(tag) ==> Wrap(tag, content) == content
  {
    var w := Wrap(tag, content);
    if tag == "h1" || tag == "h2" || tag == "h3" || tag == "p" {
      assert EndsWith(w, "\n\n");
    } else if tag == "strong" || tag == "b" {
      assert w == "**" + content + "**";
    } else if tag == "em" || tag == "i" {
      assert w == "*" + content + "*";
    }
  }

  /** The tags the `switch` names a case for. */
  predicate IsListedTag(tag: string) {
    tag in {"h1", "h2", "h3", "p", "ul", "li", "strong", "b", "em", "i", "br", "div", "span"}
  }

  predicate EndsWith(s: string, p: string) {
    |p| <= |s| && s[|s| - |p|..] == p
  }
}
