/**
 * What the printed markup looks like, stated over the walk: how elements
 * open and close, how each control block is framed, that attribute nodes
 * reached by the walker print nothing of their own, and how the `skip` flag
 * and the registry decide whether a node's printer runs at all.
 */
module HtmlProperties {
  import opened Wrappers
  import opened Ast
  import opened Strings
  import opened Registry
  import opened Attributes
  import opened HtmlSpec
  import opened WalkLemmas

  /** An attribute or directive as the parser produces it: one of the four attribute shapes, not skip-flagged. */
  predicate PlainAttribute(a: Node)
  {
    (a.Attribute? || a.SpreadAttribute? || a.Directive? || a.StyleDirective?) && !a.skip
  }

  /** An element whose attributes are all plain and whose type has a printer. */
  predicate PrintableElement(n: Node)
  {
    && n.Element?
    && n.kind != TitleElement && n.kind != SvelteOptionsRaw
    && forall i :: 0 <= i < |n.attributes| ==> PlainAttribute(n.attributes[i])
  }

  /**
   * A registered node whose printer's `enter` wrote `e` (or failed with it)
   * and cleared what it printed: the walk is that, then the fields left in
   * place, then `leave`.
   */
  lemma WalkAfterEnter(n: Node, parentType: NodeType, o: Options, gen: Gen, e: Result<string>)
    requires !n.skip && ShapePrinter(n).Some?
    requires Enter(n, parentType, o, gen) == Entered(e, Cleared)
    ensures Walk(n, parentType, o, gen)
         == Then(Then(e, WalkChildren(RemainingChildren(n), TypeOf(n), o, gen, n)), Ok(Leave(n, o)))
  {
    RegistryMatchesShape(n);
    var kids := WalkChildren(RemainingChildren(n), TypeOf(n), o, gen, n);
    assert Resume(n, Cleared, o, gen) == Then(kids, Ok(Leave(n, o)));
    if e.Ok? {
      ThenAssoc(e, kids, Ok(Leave(n, o)));
    }
  }

  /**
   * A registered node whose `enter` wrote `t` and left no child field to
   * visit, and whose `leave` writes nothing: the walk is exactly `t`.
   */
  lemma WalkLeaf(n: Node, parentType: NodeType, o: Options, gen: Gen, t: string, v: Visit)
    requires !n.skip && ShapePrinter(n).Some? && v != Skip
    requires Enter(n, parentType, o, gen) == Ok(Step(t, v))
    requires Children(n, v) == [] && Leave(n, o) == ""
    ensures Walk(n, parentType, o, gen) == Ok(t)
  {
    RegistryMatchesShape(n);
    assert Resume(n, v, o, gen) == Ok("" + "");
    assert t + ("" + "") == t;
  }

  /** The walker reaching an attribute node hands it to the no-op printer, which skips it: nothing is written. */
  lemma AttributeNodeSilent(a: Node, parentType: NodeType, o: Options, gen: Gen)
    requires PlainAttribute(a)
    ensures Walk(a, parentType, o, gen) == Ok("")
  {
    RegistryMatchesShape(a);
    assert Enter(a, parentType, o, gen) == Ok(Step("", Skip));
    assert Resume(a, Skip, o, gen) == Ok("");
    assert Printed(a, parentType, o, gen) == Ok("" + "");
  }

  /** A run of attribute nodes walked as child fields writes nothing: attributes are printed by the element only. */
  lemma {:induction false} AttributeChildrenSilent(attrs: seq<Node>, parentType: NodeType, o: Options, gen: Gen, owner: Node)
    requires forall i :: 0 <= i < |attrs| ==> PlainAttribute(attrs[i]) && attrs[i] < owner
    ensures forall i :: 0 <= i < |attrs| ==> Below(NodeChildren(attrs)[i], owner)
    ensures WalkChildren(NodeChildren(attrs), parentType, o, gen, owner) == Ok("")
  {
    var cs := NodeChildren(attrs);
    if |attrs| > 0 {
      var last := |attrs| - 1;
      AttributeChildrenSilent(attrs[..last], parentType, o, gen, owner);
      assert cs[..last] == NodeChildren(attrs[..last]);
      AttributeNodeSilent(attrs[last], parentType, o, gen);
    }
  }

  /**
   * After the element printer's `enter`, the walker visits the attribute
   * nodes, which print nothing, and the content; the `this={...}` target has
   * been cleared.
   */
  lemma ElementChildrenWalk(n: Node, o: Options, gen: Gen)
    requires PrintableElement(n)
    ensures WalkChildren(Children(n, ElementVisit(n.kind)), TypeOf(n), o, gen, n) == WalkNodes(n.fragment.nodes, o, gen, n)
  {
    var attrs := NodeChildren(n.attributes);
    var frag := [FragmentChild(n.fragment)];
    var cs := Children(n, ElementVisit(n.kind));
    assert cs == attrs + frag by {
      if ThisTarget(n.kind).None? {
        assert AllChildren(n) == attrs + frag + [];
      }
    }
    AttributeChildrenSilent(n.attributes, TypeOf(n), o, gen, n);
    WalkChildrenPush(attrs, FragmentChild(n.fragment), TypeOf(n), o, gen, n);
    var content := WalkNodes(n.fragment.nodes, o, gen, n);
    if content.Ok? {
      assert "" + content.value == content.value;
    }
  }

  /**
   * A printable element prints its opening tag, then its content, then its
   * closing tag; the attribute nodes and the `this={...}` target are never
   * printed a second time by the walk.
   */
  lemma ElementWalk(n: Node, parentType: NodeType, o: Options, gen: Gen)
    requires PrintableElement(n) && !n.skip
    ensures Walk(n, parentType, o, gen)
         == Then(Then(ElementOpen(n, o, gen), WalkNodes(n.fragment.nodes, o, gen, n)), Ok(ElementClose(n)))
  {
    RegistryMatchesShape(n);
    var open := ElementOpen(n, o, gen);
    var v := ElementVisit(n.kind);
    assert Enter(n, parentType, o, gen) == Entered(open, v);
    ElementChildrenWalk(n, o, gen);
    var content := WalkNodes(n.fragment.nodes, o, gen, n);
    assert Resume(n, v, o, gen) == Then(content, Ok(ElementClose(n)));
    if open.Ok? {
      assert Printed(n, parentType, o, gen) == Then(open, Then(content, Ok(ElementClose(n))));
      ThenAssoc(open, content, Ok(ElementClose(n)));
    }
  }

  /** A void element (`<br>`, `<img>` and the rest) never gets a closing tag, whatever its content. */
  lemma VoidElementNeverClosed(n: Node, parentType: NodeType, o: Options, gen: Gen)
    requires PrintableElement(n) && !n.skip && IsVoid(n.name)
    ensures Walk(n, parentType, o, gen) == Then(ElementOpen(n, o, gen), WalkNodes(n.fragment.nodes, o, gen, n))
  {
    ElementWalk(n, parentType, o, gen);
    var w := Then(ElementOpen(n, o, gen), WalkNodes(n.fragment.nodes, o, gen, n));
    if w.Ok? {
      assert w.value + "" == w.value;
    }
  }

  /**
   * A component, slot or `svelte:` element with no content is closed inside
   * its opening tag: it prints `/>` and the line end, and nothing on leave.
   */
  lemma SelfClosedElement(n: Node, parentType: NodeType, o: Options, gen: Gen)
    requires PrintableElement(n) && !n.skip && SelfClosingKind(n.kind) && |n.fragment.nodes| == 0
    ensures Walk(n, parentType, o, gen) == ElementOpen(n, o, gen)
    ensures ElementOpen(n, o, gen).Ok? ==>
              ElementOpen(n, o, gen).value
              == "<" + n.name + ThisText(n.kind, gen) + AttributesText(n.attributes, o, gen).value + "/>" + o.lineEnd
  {
    ElementWalk(n, parentType, o, gen);
    var open := ElementOpen(n, o, gen);
    if open.Ok? {
      assert open.value + "" + "" == open.value;
    }
  }

  /**
   * Any other element (a regular element even when empty) prints `>` and the
   * line end, its content, then exactly one `</name>`.
   */
  lemma PairedElement(n: Node, parentType: NodeType, o: Options, gen: Gen)
    requires PrintableElement(n) && !n.skip && !IsVoid(n.name) && !SelfCloses(n)
    ensures Walk(n, parentType, o, gen).Ok? <==>
              AttributesText(n.attributes, o, gen).Ok? && WalkNodes(n.fragment.nodes, o, gen, n).Ok?
    ensures Walk(n, parentType, o, gen).Ok? ==>
              Walk(n, parentType, o, gen).value
              == "<" + n.name + ThisText(n.kind, gen) + AttributesText(n.attributes, o, gen).value + ">" + o.lineEnd
                 + WalkNodes(n.fragment.nodes, o, gen, n).value + "</" + n.name + ">"
  {
    ElementWalk(n, parentType, o, gen);
    var attrs := AttributesText(n.attributes, o, gen);
    var content := WalkNodes(n.fragment.nodes, o, gen, n);
    assert ElementClose(n) == "</" + n.name + ">";
    if attrs.Ok? && content.Ok? {
      var head := "<" + n.name + ThisText(n.kind, gen);
      assert ElementOpen(n, o, gen) == Ok(head + attrs.value + (">" + o.lineEnd));
      assert head + attrs.value + (">" + o.lineEnd) == head + attrs.value + ">" + o.lineEnd;
    }
  }

  /**
   * An if block prints its own branches on `enter` and leaves nothing for
   * the walker to visit, so each branch is printed once. The head of a
   * chain is closed with `{/if}` and the line end; an `{:else if}` branch is not.
   */
  lemma IfBlockWalk(n: Node, parentType: NodeType, o: Options, gen: Gen)
    requires n.IfBlock? && !n.skip
    ensures !n.elseif ==> Walk(n, parentType, o, gen) == Then(IfEnter(n, o, gen), Ok("{/if}" + o.lineEnd))
    ensures n.elseif ==> Walk(n, parentType, o, gen) == IfEnter(n, o, gen)
  {
    RegistryMatchesShape(n);
    var e := IfEnter(n, o, gen);
    assert Enter(n, parentType, o, gen) == Entered(e, Cleared);
    assert Children(n, Cleared) == [];
    var close := Leave(n, o);
    assert Resume(n, Cleared, o, gen) == Ok("" + close);
    assert "" + close == close;
    if e.Ok? {
      assert Printed(n, parentType, o, gen) == Ok(e.value + close);
      assert e.value + "" == e.value;
    }
  }

  /** An if block without alternate: `{#if test}`, the line end, the consequent, `{/if}` and the line end. */
  lemma IfWithoutElse(n: Node, parentType: NodeType, o: Options, gen: Gen)
    requires n.IfBlock? && !n.skip && !n.elseif && n.alternate.None?
    ensures Walk(n, parentType, o, gen).Ok? <==> WalkNodes(n.consequent.nodes, o, gen, n).Ok?
    ensures Walk(n, parentType, o, gen).Ok? ==>
              Walk(n, parentType, o, gen).value
              == "{#if " + gen(n.test, o) + "}" + o.lineEnd + WalkNodes(n.consequent.nodes, o, gen, n).value
                 + "{/if}" + o.lineEnd
  {
    IfBlockWalk(n, parentType, o, gen);
    var head := IfHead(n, o, gen);
    if head.Ok? {
      assert head.value + "" == head.value;
    }
  }

  /**
   * `{:else}` is written exactly when the alternate holds no if block; an
   * alternate that does (the `{:else if}` chain) starts right after the line end.
   */
  lemma ElseMarker(n: Node, o: Options, gen: Gen)
    requires n.IfBlock? && n.alternate.Some?
    ensures var walked := WalkNodes(n.alternate.value.nodes, o, gen, n);
            && (IfAlternate(n, o, gen).Ok? <==> walked.Ok?)
            && (walked.Ok? && !HasIfBlock(n.alternate.value) ==>
                  IfAlternate(n, o, gen).value == "{:else}" + o.lineEnd + walked.value)
            && (walked.Ok? && HasIfBlock(n.alternate.value) ==>
                  IfAlternate(n, o, gen).value == o.lineEnd + walked.value)
  {
    var walked := WalkNodes(n.alternate.value.nodes, o, gen, n);
    if walked.Ok? {
      assert "" + o.lineEnd == o.lineEnd;
    }
  }

  /** A run made of one plain text node prints that text. */
  lemma SingleTextNode(ns: seq<Node>, o: Options, gen: Gen, owner: Node)
    requires |ns| == 1 && ns[0].Text? && !ns[0].skip && ns[0] < owner
    ensures WalkNodes(ns, o, gen, owner) == Ok(ns[0].data)
  {
    assert ns == [ns[0]];
    TextWalk(ns[0].data, FragmentType, o, gen);
    WalkNodesSingle(ns[0], o, gen, owner);
  }

  /** `{#if b}y{/if}` with an empty line end. */
  lemma SimpleIfText(n: Node, y: Node, o: Options, gen: Gen)
    requires n.IfBlock? && !n.skip && !n.elseif && n.alternate.None? && n.consequent.nodes == [y]
    requires y.Text? && !y.skip && o.lineEnd == ""
    ensures Walk(n, FragmentType, o, gen) == Ok("{#if " + gen(n.test, o) + "}" + y.data + "{/if}")
  {
    assert n.consequent.nodes[0] == y;
    SingleTextNode(n.consequent.nodes, o, gen, n);
    IfWithoutElse(n, FragmentType, o, gen);
    var g := gen(n.test, o);
    assert "{#if " + g + "}" + "" + y.data + "{/if}" + "" == "{#if " + g + "}" + y.data + "{/if}";
  }

  /** `{#if a}x{:else}inner{/if}` with an empty line end, where the alternate holds the if block `inner`. */
  lemma IfInElseText(n: Node, x: Node, inner: Node, o: Options, gen: Gen)
    requires n.IfBlock? && !n.skip && !n.elseif && n.consequent.nodes == [x] && n.alternate == Some(Fragment([inner]))
    requires x.Text? && !x.skip && inner.IfBlock? && o.lineEnd == ""
    requires Walk(inner, FragmentType, o, gen).Ok?
    ensures Walk(n, FragmentType, o, gen)
         == Ok("{#if " + gen(n.test, o) + "}" + x.data + Walk(inner, FragmentType, o, gen).value + "{/if}")
  {
    assert n.consequent.nodes[0] == x;
    assert n.alternate.value.nodes[0] == inner;
    SingleTextNode(n.consequent.nodes, o, gen, n);
    WalkNodesSingle(inner, o, gen, n);
    assert HasIfBlock(n.alternate.value);
    var innerText := Walk(inner, FragmentType, o, gen).value;
    var head := "{#if " + gen(n.test, o) + "}";
    IfBlockWalk(n, FragmentType, o, gen);
    assert IfHead(n, o, gen) == Ok(head + "" + x.data);
    assert IfAlternate(n, o, gen) == Ok("" + "" + innerText);
    assert (head + "" + x.data) + ("" + "" + innerText) + ("{/if}" + "") == head + x.data + innerText + "{/if}";
  }

  /** `{#if a}x inner{/if}` with an empty line end, where the consequent ends with the if block `inner`. */
  lemma IfInThenText(n: Node, x: Node, inner: Node, o: Options, gen: Gen)
    requires n.IfBlock? && !n.skip && !n.elseif && n.consequent.nodes == [x, inner] && n.alternate.None?
    requires x.Text? && !x.skip && o.lineEnd == ""
    requires Walk(inner, FragmentType, o, gen).Ok?
    ensures Walk(n, FragmentType, o, gen)
         == Ok("{#if " + gen(n.test, o) + "}" + x.data + Walk(inner, FragmentType, o, gen).value + "{/if}")
  {
    TextThenNode(n.consequent.nodes, o, gen, n);
    IfWithoutElse(n, FragmentType, o, gen);
    var head := "{#if " + gen(n.test, o) + "}";
    var body := x.data + Walk(inner, FragmentType, o, gen).value;
    assert head + "" + body + "{/if}" + "" == head + x.data + Walk(inner, FragmentType, o, gen).value + "{/if}";
  }

  /** A text node followed by one more node walks to the text, then that node's output. */
  lemma TextThenNode(ns: seq<Node>, o: Options, gen: Gen, owner: Node)
    requires |ns| == 2 && ns[0].Text? && !ns[0].skip && ns[0] < owner && ns[1] < owner
    requires Walk(ns[1], FragmentType, o, gen).Ok?
    ensures WalkNodes(ns, o, gen, owner) == Ok(ns[0].data + Walk(ns[1], FragmentType, o, gen).value)
  {
    assert ns == [ns[0]] + [ns[1]];
    WalkNodesPush([ns[0]], ns[1], o, gen, owner);
    SingleTextNode([ns[0]], o, gen, owner);
  }

  /**
   * An `{:else}` branch whose only node is a nested (non-chained) if block
   * loses its `{:else}` marker: with an empty line end, `{#if a}x{:else}{#if
   * b}y{/if}{/if}` prints exactly like `{#if a}x{#if b}y{/if}{/if}`, whose
   * nested block sits in the consequent instead.
   */
  lemma NestedIfInElseLosesMarker(a: Expr, b: Expr, x: string, y: string, gen: Gen)
    ensures var o := Options("", "");
            var inner := IfBlock(false, false, b, Fragment([Text(false, y)]), None);
            var inElse := IfBlock(false, false, a, Fragment([Text(false, x)]), Some(Fragment([inner])));
            var inThen := IfBlock(false, false, a, Fragment([Text(false, x), inner]), None);
            && Walk(inElse, FragmentType, o, gen) == Walk(inThen, FragmentType, o, gen)
            && Walk(inElse, FragmentType, o, gen) == Ok("{#if " + gen(a, o) + "}" + x + "{#if " + gen(b, o) + "}" + y + "{/if}{/if}")
  {
    var o := Options("", "");
    var tx, ty := Text(false, x), Text(false, y);
    var inner := IfBlock(false, false, b, Fragment([ty]), None);
    SimpleIfText(inner, ty, o, gen);
    IfInElseText(IfBlock(false, false, a, Fragment([tx]), Some(Fragment([inner]))), tx, inner, o, gen);
    IfInThenText(IfBlock(false, false, a, Fragment([tx, inner]), None), tx, inner, o, gen);
    assert "{#if " + gen(a, o) + "}" + x + ("{#if " + gen(b, o) + "}" + y + "{/if}") + "{/if}"
        == "{#if " + gen(a, o) + "}" + x + "{#if " + gen(b, o) + "}" + y + "{/if}{/if}";
  }

  /**
   * An each block: the header, the body, the fallback straight after it
   * (no `{:else}` marker is written), then `{/each}`.
   */
  lemma EachBlockWalk(n: Node, parentType: NodeType, o: Options, gen: Gen)
    requires n.EachBlock? && !n.skip
    ensures var fallback := if n.fallback.Some? then WalkNodes(n.fallback.value.nodes, o, gen, n) else Ok("");
            Walk(n, parentType, o, gen)
            == Then(Then(Then(Ok(EachHeader(n, o, gen)), WalkNodes(n.body.nodes, o, gen, n)), fallback), Ok("{/each}"))
  {
    var header := Ok(EachHeader(n, o, gen));
    assert Enter(n, parentType, o, gen) == Entered(header, Cleared);
    WalkAfterEnter(n, parentType, o, gen, header);
    EachChildrenWalk(n, o, gen);
    var fallback := if n.fallback.Some? then WalkNodes(n.fallback.value.nodes, o, gen, n) else Ok("");
    ThenAssoc(header, WalkNodes(n.body.nodes, o, gen, n), fallback);
  }

  /** What the walker visits after an each block's header: the body, then the fallback if there is one. */
  lemma EachChildrenWalk(n: Node, o: Options, gen: Gen)
    requires n.EachBlock?
    ensures var fallback := if n.fallback.Some? then WalkNodes(n.fallback.value.nodes, o, gen, n) else Ok("");
            WalkChildren(RemainingChildren(n), TypeOf(n), o, gen, n) == Then(WalkNodes(n.body.nodes, o, gen, n), fallback)
  {
    var t := TypeOf(n);
    var body := [FragmentChild(n.body)];
    WalkChildrenSingle(FragmentChild(n.body), t, o, gen, n);
    if n.fallback.Some? {
      WalkChildrenPush(body, FragmentChild(n.fallback.value), t, o, gen, n);
    } else {
      assert body + OptFragment(n.fallback) == body;
      var content := WalkNodes(n.body.nodes, o, gen, n);
      if content.Ok? {
        assert content.value + "" == content.value;
      }
    }
  }

  /**
   * An await block: the header, then the pending branch, the `{:then}`
   * marker and branch, the `{:catch}` marker and branch, in that order, and
   * `{/await}`; nothing is left for the walker.
   */
  lemma AwaitBlockWalk(n: Node, parentType: NodeType, o: Options, gen: Gen)
    requires n.AwaitBlock? && !n.skip
    ensures Walk(n, parentType, o, gen).Ok? <==>
              AwaitPending(n, o, gen).Ok? && AwaitThen(n, o, gen).Ok? && AwaitCatch(n, o, gen).Ok?
    ensures Walk(n, parentType, o, gen).Ok? ==>
              Walk(n, parentType, o, gen).value
              == "{#await " + gen(n.expression, o) + "}" + AwaitPending(n, o, gen).value
                 + AwaitThen(n, o, gen).value + AwaitCatch(n, o, gen).value + "{/await}"
  {
    var e := AwaitEnter(n, o, gen);
    assert Enter(n, parentType, o, gen) == Entered(e, Cleared);
    WalkAfterEnter(n, parentType, o, gen, e);
    assert RemainingChildren(n) == [];
    if e.Ok? {
      assert e.value + "" + "{/await}" == e.value + "{/await}";
    }
  }

  /** A key block: `{#key e}`, its content, `{/key}`. */
  lemma KeyBlockWalk(n: Node, parentType: NodeType, o: Options, gen: Gen)
    requires n.KeyBlock? && !n.skip
    ensures Walk(n, parentType, o, gen)
         == Then(Then(Ok("{#key " + gen(n.expression, o) + "}"), WalkNodes(n.fragment.nodes, o, gen, n)), Ok("{/key}"))
  {
    var header := Ok("{#key " + gen(n.expression, o) + "}");
    assert Enter(n, parentType, o, gen) == Entered(header, Cleared);
    WalkAfterEnter(n, parentType, o, gen, header);
    WalkChildrenSingle(FragmentChild(n.fragment), TypeOf(n), o, gen, n);
  }

  /** A snippet block: `{#snippet name(a, b)}`, its body, `{/snippet}`; the parameters are not walked. */
  lemma SnippetBlockWalk(n: Node, parentType: NodeType, o: Options, gen: Gen)
    requires n.SnippetBlock? && !n.skip
    ensures Walk(n, parentType, o, gen)
         == Then(Then(Ok("{#snippet " + gen(n.expression, o) + "(" + Join(GenAll(n.parameters, o, gen), ", ") + ")}"),
                      WalkNodes(n.body.nodes, o, gen, n)),
                 Ok("{/snippet}"))
  {
    var header := Ok("{#snippet " + gen(n.expression, o) + "(" + Join(GenAll(n.parameters, o, gen), ", ") + ")}");
    assert Enter(n, parentType, o, gen) == Entered(header, Cleared);
    WalkAfterEnter(n, parentType, o, gen, header);
    WalkChildrenSingle(FragmentChild(n.body), TypeOf(n), o, gen, n);
  }

  /**
   * An expression tag prints `{expr}` and clears its expression, so the
   * estree node is never visited; with the `skip` flag set the walker goes
   * into the expression, which has no printer unless it is a binary expression.
   */
  lemma ExpressionTagWalk(e: Expr, parentType: NodeType, o: Options, gen: Gen)
    ensures Walk(ExpressionTag(false, e), parentType, o, gen) == Ok("{" + gen(e, o) + "}")
    ensures Walk(ExpressionTag(true, e), parentType, o, gen)
         == if e.nodeType.BinaryExpression? then Ok("") else Err(NoPrinter(EstreeType(e.nodeType)))
  {
    var n := ExpressionTag(false, e);
    assert Enter(n, parentType, o, gen) == Ok(Step("{" + gen(e, o) + "}", Cleared));
    WalkLeaf(n, parentType, o, gen, "{" + gen(e, o) + "}", Cleared);
    EstreeRegistry(e);
    var t := ExpressionTag(true, e);
    assert AllChildren(t) == [ExprChild(e)];
    WalkChildrenSingle(ExprChild(e), TypeOf(t), o, gen, t);
  }

  /** A comment that is blank prints nothing; any other prints between the markers, trimmed. */
  lemma CommentWalk(data: string, parentType: NodeType, o: Options, gen: Gen)
    ensures Walk(Comment(false, data), parentType, o, gen) == Ok(CommentText(data, o))
    ensures CommentText(data, o) == "" <==> AllWhitespace(data)
    ensures !AllWhitespace(data) ==> CommentText(data, o) == "<!-- " + Trim(data) + " -->" + o.lineEnd
  {
    var n := Comment(false, data);
    assert Enter(n, parentType, o, gen) == Ok(Step(CommentText(data, o), Descend));
    WalkLeaf(n, parentType, o, gen, CommentText(data, o), Descend);
  }

  /** Text prints verbatim, except directly inside an attribute, where it is quoted. */
  lemma TextWalk(data: string, parentType: NodeType, o: Options, gen: Gen)
    ensures parentType != AttributeType ==> Walk(Text(false, data), parentType, o, gen) == Ok(data)
    ensures parentType == AttributeType ==> Walk(Text(false, data), parentType, o, gen) == Ok("\"" + data + "\"")
  {
    var n := Text(false, data);
    assert Enter(n, parentType, o, gen) == Ok(Step(TextOutput(data, parentType), Descend));
    WalkLeaf(n, parentType, o, gen, TextOutput(data, parentType), Descend);
  }

  /**
   * A skip-flagged attribute is passed through by the walker instead of
   * being skipped by the no-op printer, so its static text reaches the text
   * printer and is written, quoted, into the markup.
   */
  lemma SkippedAttributeQuotesText(name: string, data: string, o: Options, gen: Gen)
    ensures Walk(Attribute(true, name, ListValue([Text(false, data)])), FragmentType, o, gen) == Ok("\"" + data + "\"")
  {
    var tx := Text(false, data);
    var a := Attribute(true, name, ListValue([tx]));
    assert a.value.parts[0] == tx;
    assert AllChildren(a) == [NodeChild(tx)];
    WalkChildrenSingle(NodeChild(tx), AttributeType, o, gen, a);
    TextWalk(data, AttributeType, o, gen);
  }

  /** A node type the registry has no printer for fails the walk with an error naming the type. */
  lemma UnregisteredFails(n: Node, parentType: NodeType, o: Options, gen: Gen)
    requires !n.skip && ShapePrinter(n).None?
    ensures Walk(n, parentType, o, gen) == Err(NoPrinter(TypeOf(n)))
  {
    RegistryMatchesShape(n);
  }

  /**
   * A skip-flagged element gets neither `enter` nor `leave`: only its
   * content is printed, without its tags or attributes.
   */
  lemma SkippedElementPrintsContent(n: Node, parentType: NodeType, o: Options, gen: Gen)
    requires PrintableElement(n) && n.skip && ThisTarget(n.kind).None?
    ensures Walk(n, parentType, o, gen) == WalkNodes(n.fragment.nodes, o, gen, n)
  {
    var attrs := NodeChildren(n.attributes);
    var frag := [FragmentChild(n.fragment)];
    assert AllChildren(n) == attrs + frag + [];
    assert attrs + frag + [] == attrs + frag;
    AttributeChildrenSilent(n.attributes, TypeOf(n), o, gen, n);
    WalkChildrenPush(attrs, FragmentChild(n.fragment), TypeOf(n), o, gen, n);
    var content := WalkNodes(n.fragment.nodes, o, gen, n);
    if content.Ok? {
      assert "" + content.value == content.value;
    }
  }

  /** `printHtml` of a template with no nodes is the empty string. */
  lemma EmptyTemplate(skip: bool, o: Options, gen: Gen)
    ensures HtmlSpec.PrintHtml(Root(skip, Fragment([])), o, gen) == Ok("")
  {
    assert Trim("") == "";
  }

  /** Printing is idempotent on its own trimming: the markup returned needs no further trimming. */
  lemma PrintHtmlTrimmed(root: Node, o: Options, gen: Gen)
    requires root.Root?
    ensures HtmlSpec.PrintHtml(root, o, gen).Ok? ==>
              Trim(HtmlSpec.PrintHtml(root, o, gen).value) == HtmlSpec.PrintHtml(root, o, gen).value
  {
    var w := WalkNodes(root.fragment.nodes, o, gen, root);
    if w.Ok? {
      TrimIdempotent(w.value);
    }
  }

  /** `{@const ...}` never shows a semicolon, whatever the generator wrote. */
  lemma ConstTagHasNoSemicolon(d: Expr, parentType: NodeType, o: Options, gen: Gen)
    ensures Walk(ConstTag(false, d), parentType, o, gen) == Ok("{@const" + StripConst(gen(d, o)) + "}")
    ensures ';' !in StripConst(gen(d, o))
  {
    var n := ConstTag(false, d);
    var t := "{@const" + StripConst(gen(d, o)) + "}";
    assert Enter(n, parentType, o, gen) == Ok(Step(t, Cleared));
    WalkLeaf(n, parentType, o, gen, t, Cleared);
  }

  /** `{@html e}` prints the generated expression inside the tag; nothing of it is walked again. */
  lemma HtmlTagWalk(e: Expr, parentType: NodeType, o: Options, gen: Gen)
    ensures Walk(HtmlTag(false, e), parentType, o, gen) == Ok("{@html " + gen(e, o) + "}")
  {
    var n := HtmlTag(false, e);
    var t := "{@html " + gen(e, o) + "}";
    assert Enter(n, parentType, o, gen) == Ok(Step(t, Cleared));
    WalkLeaf(n, parentType, o, gen, t, Cleared);
  }

  /** `{@debug a, b}` prints each identifier generated on its own, joined by `, `, in order. */
  lemma DebugTagWalk(a: Expr, b: Expr, parentType: NodeType, o: Options, gen: Gen)
    ensures Walk(DebugTag(false, [a, b]), parentType, o, gen) == Ok("{@debug " + gen(a, o) + ", " + gen(b, o) + "}")
  {
    var n := DebugTag(false, [a, b]);
    var names := GenAll([a, b], o, gen);
    assert names == [gen(a, o), gen(b, o)];
    assert Join(names, ", ") == gen(a, o) + ", " + gen(b, o) by {
      assert names[1..] == [gen(b, o)];
    }
    var t := "{@debug " + Join(names, ", ") + "}";
    assert Enter(n, parentType, o, gen) == Ok(Step(t, Cleared));
    WalkLeaf(n, parentType, o, gen, t, Cleared);
    assert t == "{@debug " + gen(a, o) + ", " + gen(b, o) + "}";
  }

  /** `{@render e}` prints the generated call inside the tag; nothing of it is walked again. */
  lemma RenderTagWalk(e: Expr, parentType: NodeType, o: Options, gen: Gen)
    ensures Walk(RenderTag(false, e), parentType, o, gen) == Ok("{@render " + gen(e, o) + "}")
  {
    var n := RenderTag(false, e);
    var t := "{@render " + gen(e, o) + "}";
    assert Enter(n, parentType, o, gen) == Ok(Step(t, Cleared));
    WalkLeaf(n, parentType, o, gen, t, Cleared);
  }

  /** The `const` keyword and the semicolon are stripped from a generated declaration. */
  lemma StripConstExample()
    ensures StripConst("const x = 1;") == " x = 1"
  {
    assert "const x = 1;"[..5] == "const";
    assert "const x = 1;"[5..] == " x = 1;";
    var s := " x = 1;";
    assert StripConst(s) == [s[0]] + StripConst(s[1..]);
    assert s[1..] == "x = 1;";
    assert StripConst("x = 1;") == "x" + StripConst(" = 1;");
    assert StripConst(" = 1;") == " " + StripConst("= 1;");
    assert StripConst("= 1;") == "=" + StripConst(" 1;");
    assert StripConst(" 1;") == " " + StripConst("1;");
    assert StripConst("1;") == "1" + StripConst(";");
    assert StripConst(";") == "";
  }
}
