/**
 * The printers as they run: every `enter` and `leave` appends to the
 * context's sink and reports the walker decision it leaves behind, the walk
 * loops over sibling nodes and child fields, and `printHtml` drives it all
 * from a fresh sink. Each method is proved to write exactly what the walk
 * specification says, or to stop with the error it names.
 */
module HtmlPrinter {
  import opened Wrappers
  import opened Ast
  import opened Strings
  import opened Registry
  import opened Attributes
  import opened Sink
  import opened Utils
  import opened HtmlSpec
  import opened WalkLemmas

  /**
   * An `enter` ended as specified: on success it appended exactly the
   * specified text and reports the specified decision; on failure it reports
   * the specified error.
   */
  ghost predicate EnteredAs(before: string, after: string, spec: Result<Step>, r: Result<Visit>)
  {
    EnterReport(before, after, r) == Some(spec)
  }

  /** What an `enter` that went from sink contents `before` to `after` reports, as `Report` does. */
  function EnterReport(before: string, after: string, r: Result<Visit>): Option<Result<Step>>
  {
    if r.Err? then Some(Err(r.error))
    else if before <= after then Some(Ok(Step(after[|before|..], r.value)))
    else None
  }

  /** An `enter` that appended `t` and decided `v` reports exactly that. */
  lemma EnterAppended(before: string, after: string, t: string, v: Visit)
    requires after == before + t
    ensures EnterReport(before, after, Ok(v)) == Some(Ok(Step(t, v)))
  {
    assert after[|before|..] == t;
  }

  /** An `enter` that emitted `spec`'s text and decided `v` is reported as `Entered(spec, v)`. */
  lemma EmittedEntered(before: string, after: string, spec: Result<string>, err: Option<Error>, v: Visit)
    requires Emitted(before, after, spec, err)
    ensures EnteredAs(before, after, Entered(spec, v), if err.Some? then Err(err.value) else Ok(v))
  {
  }

  /** A successful `enter` emitted its specified text. */
  lemma EnteredEmitted(before: string, after: string, spec: Result<Step>, r: Result<Visit>)
    requires EnteredAs(before, after, spec, r) && r.Ok?
    ensures spec == Ok(Step(after[|before|..], r.value))
    ensures Emitted(before, after, Ok(after[|before|..]), None)
  {
  }

  /** `nodes.some(node => node.type === 'IfBlock')`. */
  method ContainsIfBlock(f: Fragment) returns (b: bool)
    ensures b <==> HasIfBlock(f)
  {
    for i := 0 to |f.nodes|
      invariant forall j :: 0 <= j < i ==> !f.nodes[j].IfBlock?
    {
      if f.nodes[i].IfBlock? {
        return true;
      }
    }
    return false;
  }

  /** `node.attributes.forEach(attribute => this.printAttributes(attribute, context))`. */
  method PrintAttributeList(attrs: seq<Node>, ctx: Context) returns (err: Option<Error>)
    modifies ctx
    ensures Emitted(old(ctx.text), ctx.text, AttributesText(attrs, ctx.options, ctx.gen), err)
  {
    var o, gen := ctx.options, ctx.gen;
    ghost var start := ctx.text;
    EmittedText(start, start, "");
    for i := 0 to |attrs|
      invariant AttributesText(attrs[..i], o, gen).Ok?
      invariant Emitted(start, ctx.text, AttributesText(attrs[..i], o, gen), None)
    {
      ghost var before := ctx.text;
      err := PrintAttributes(attrs[i], ctx);
      EmittedThen(start, before, ctx.text, AttributesText(attrs[..i], o, gen), AttributeText(attrs[i], o, gen), err);
      AttributesTextStep(attrs, i, o, gen);
      if err.Some? {
        AttributesTextFirstError(attrs, i, o, gen);
        return;
      }
    }
    assert attrs[..|attrs|] == attrs;
    err := None;
  }

  /** `<name`, then the `this={...}` target of a dynamic element, which the walker then does not visit. */
  method OpenTag(n: Node, ctx: Context) returns (visit: Visit)
    requires n.Element?
    modifies ctx
    ensures ctx.text == old(ctx.text) + ("<" + n.name + ThisText(n.kind, ctx.gen))
    ensures visit == ElementVisit(n.kind)
  {
    ctx.Write("<" + n.name);
    visit := Descend;
    var target := ThisTarget(n.kind);
    if target.Some? {
      ctx.Write(" this={" + ctx.gen(target.value, GeneratorDefaults) + "}");
      visit := Cleared;
    }
  }

  /** `ElementPrinter.enter`. */
  method EnterElement(n: Node, ctx: Context) returns (r: Result<Visit>)
    requires n.Element?
    modifies ctx
    ensures EnteredAs(old(ctx.text), ctx.text, Entered(ElementOpen(n, ctx.options, ctx.gen), ElementVisit(n.kind)), r)
  {
    var o, gen := ctx.options, ctx.gen;
    ghost var start := ctx.text;
    var visit := OpenTag(n, ctx);
    ghost var tagged := ctx.text;
    ghost var head := "<" + n.name + ThisText(n.kind, gen);
    EmittedText(start, tagged, head);
    var err := PrintAttributeList(n.attributes, ctx);
    EmittedThen(start, tagged, ctx.text, Ok(head), AttributesText(n.attributes, o, gen), err);
    if err.Some? {
      r := Err(err.value);
      EmittedEntered(start, ctx.text, ElementOpen(n, o, gen), err, visit);
      return;
    }
    ghost var attributed := ctx.text;
    var close := if SelfClosingKind(n.kind) && |n.fragment.nodes| == 0 then "/>" else ">";
    ctx.Write(close);
    ctx.Write(o.lineEnd);
    EmittedText(attributed, ctx.text, close + o.lineEnd);
    EmittedThen(start, attributed, ctx.text, Then(Ok(head), AttributesText(n.attributes, o, gen)), Ok(close + o.lineEnd), None);
    r := Ok(visit);
    EmittedEntered(start, ctx.text, ElementOpen(n, o, gen), None, visit);
  }

  /** `ElementPrinter.leave`. */
  method LeaveElement(n: Node, ctx: Context)
    requires n.Element?
    modifies ctx
    ensures ctx.text == old(ctx.text) + ElementClose(n)
  {
    if !IsVoid(n.name) {
      if SelfClosingKind(n.kind) && |n.fragment.nodes| == 0 {
        return;
      }
      ctx.Write("</" + n.name + ">");
    }
  }

  /** `TextPrinter.enter`. */
  method EnterText(n: Node, parentType: NodeType, ctx: Context) returns (r: Result<Visit>)
    requires n.Text?
    modifies ctx
    ensures r == Ok(Descend) && ctx.text == old(ctx.text) + TextOutput(n.data, parentType)
    ensures EnteredAs(old(ctx.text), ctx.text, Enter(n, parentType, ctx.options, ctx.gen), r)
  {
    if parentType == AttributeType {
      ctx.Write("\"" + n.data + "\"");
    } else {
      ctx.Write(n.data);
    }
    r := Ok(Descend);
    EnterAppended(old(ctx.text), ctx.text, TextOutput(n.data, parentType), Descend);
  }

  /** `CommentPrinter.enter`. */
  method EnterComment(n: Node, parentType: NodeType, ctx: Context) returns (r: Result<Visit>)
    requires n.Comment?
    modifies ctx
    ensures r == Ok(Descend) && ctx.text == old(ctx.text) + CommentText(n.data, ctx.options)
    ensures EnteredAs(old(ctx.text), ctx.text, Enter(n, parentType, ctx.options, ctx.gen), r)
  {
    var o := ctx.options;
    var comment := Trim(n.data);
    if comment != "" {
      ctx.Write("<!-- " + comment + " -->");
      ctx.Write(o.lineEnd);
    }
    r := Ok(Descend);
    CommentEntered(n, parentType, o, ctx.gen, old(ctx.text), ctx.text);
  }

  /**
   * The comment printer's writes (the markers around the trimmed comment and
   * the line end, or nothing for a blank comment) append its specified text,
   * which is the step the specification gives its `enter`.
   */
  lemma CommentEntered(n: Node, parentType: NodeType, o: Options, gen: Gen, before: string, after: string)
    requires n.Comment?
    requires after == if Trim(n.data) != "" then before + ("<!-- " + Trim(n.data) + " -->") + o.lineEnd else before
    ensures after == before + CommentText(n.data, o)
    ensures EnteredAs(before, after, Enter(n, parentType, o, gen), Ok(Descend))
  {
    if Trim(n.data) != "" {
      assert after == before + ("<!-- " + Trim(n.data) + " -->" + o.lineEnd);
    } else {
      assert after == before + "";
    }
    EnterAppended(before, after, CommentText(n.data, o), Descend);
  }

  /** `IfBlockPrinter.enter`: prints both branches itself, then clears them. */
  method EnterIf(n: Node, ctx: Context) returns (err: Option<Error>)
    requires n.IfBlock?
    modifies ctx
    ensures Emitted(old(ctx.text), ctx.text, IfEnter(n, ctx.options, ctx.gen), err)
    decreases n, 2
  {
    ghost var start := ctx.text;
    err := EnterIfHead(n, ctx);
    if err.Some? {
      return;
    }
    ghost var middle := ctx.text;
    err := EnterIfAlternate(n, ctx);
    EmittedThen(start, middle, ctx.text, IfHead(n, ctx.options, ctx.gen), IfAlternate(n, ctx.options, ctx.gen), err);
  }

  /** The test and consequent of an if block, or of an `{:else if}` branch. */
  method EnterIfHead(n: Node, ctx: Context) returns (err: Option<Error>)
    requires n.IfBlock?
    modifies ctx
    ensures Emitted(old(ctx.text), ctx.text, IfHead(n, ctx.options, ctx.gen), err)
    decreases n, 1
  {
    var o, gen := ctx.options, ctx.gen;
    ghost var start := ctx.text;
    var test := gen(n.test, o);
    if n.elseif {
      ctx.Write("{:else if " + test + "}");
      err := VisitNodes(n.consequent.nodes, ctx, n);
      if err.Some? {
        return;
      }
      ghost var body := WalkNodes(n.consequent.nodes, o, gen, n).value;
      ctx.Write(o.lineEnd);
      assert ctx.text == start + (("{:else if " + test + "}" + body) + o.lineEnd);
    } else {
      ctx.Write("{#if " + test + "}");
      ctx.Write(o.lineEnd);
      err := VisitNodes(n.consequent.nodes, ctx, n);
      if err.Some? {
        return;
      }
      ghost var body := WalkNodes(n.consequent.nodes, o, gen, n).value;
      assert ctx.text == start + (("{#if " + test + "}" + o.lineEnd) + body);
    }
  }

  /** The alternate of an if block: `{:else}` unless it holds an if block, then its nodes. */
  method EnterIfAlternate(n: Node, ctx: Context) returns (err: Option<Error>)
    requires n.IfBlock?
    modifies ctx
    ensures Emitted(old(ctx.text), ctx.text, IfAlternate(n, ctx.options, ctx.gen), err)
    decreases n, 1
  {
    var o, gen := ctx.options, ctx.gen;
    ghost var start := ctx.text;
    err := None;
    if n.alternate.Some? {
      var alt := n.alternate.value;
      var hasElseIf := ContainsIfBlock(alt);
      if !hasElseIf {
        ctx.Write("{:else}");
      }
      ctx.Write(o.lineEnd);
      ghost var marker := (if HasIfBlock(alt) then "" else "{:else}") + o.lineEnd;
      assert ctx.text == start + marker;
      err := VisitNodes(alt.nodes, ctx, n);
      if err.None? {
        assert ctx.text == start + (marker + WalkNodes(alt.nodes, o, gen, n).value);
      }
    } else {
      assert ctx.text == start + "";
    }
  }

  /** `EachBlockPrinter.enter`: the header, after which only body and fallback are walked. */
  method EnterEach(n: Node, ctx: Context) returns (r: Result<Visit>)
    requires n.EachBlock?
    modifies ctx
    ensures r == Ok(Cleared) && ctx.text == old(ctx.text) + EachHeader(n, ctx.options, ctx.gen)
  {
    var o, gen := ctx.options, ctx.gen;
    ghost var start := ctx.text;
    ctx.Write("{#each " + gen(n.expression, o));
    ghost var a := ctx.text;
    if n.context.Some? {
      ctx.Write(" as " + gen(n.context.value, o));
    }
    ghost var b := ctx.text;
    if n.index.Some? && n.index.value != "" {
      ctx.Write(", " + n.index.value);
    }
    ghost var c := ctx.text;
    if n.key.Some? {
      ctx.Write(" (" + gen(n.key.value, o) + ")");
    }
    ghost var d := ctx.text;
    ctx.Write("}");
    assert ctx.text == start + EachHeader(n, o, gen);
    r := Ok(Cleared);
  }

  /** `AwaitBlockPrinter.enter`: prints every branch itself, then clears them. */
  method EnterAwait(n: Node, ctx: Context) returns (err: Option<Error>)
    requires n.AwaitBlock?
    modifies ctx
    ensures Emitted(old(ctx.text), ctx.text, AwaitEnter(n, ctx.options, ctx.gen), err)
    decreases n, 2
  {
    var o, gen := ctx.options, ctx.gen;
    ghost var start := ctx.text;
    var header := "{#await " + gen(n.expression, o) + "}";
    ctx.Write(header);
    ghost var written := ctx.text;
    EmittedText(start, written, header);
    err := EnterAwaitPending(n, ctx);
    EmittedThen(start, written, ctx.text, Ok(header), AwaitPending(n, o, gen), err);
    if err.Some? {
      return;
    }
    written := ctx.text;
    ghost var acc := Then(Ok(header), AwaitPending(n, o, gen));
    err := EnterAwaitThen(n, ctx);
    EmittedThen(start, written, ctx.text, acc, AwaitThen(n, o, gen), err);
    if err.Some? {
      return;
    }
    written := ctx.text;
    acc := Then(acc, AwaitThen(n, o, gen));
    err := EnterAwaitCatch(n, ctx);
    EmittedThen(start, written, ctx.text, acc, AwaitCatch(n, o, gen), err);
  }

  /** The pending branch of an await block, when there is one. */
  method EnterAwaitPending(n: Node, ctx: Context) returns (err: Option<Error>)
    requires n.AwaitBlock?
    modifies ctx
    ensures Emitted(old(ctx.text), ctx.text, AwaitPending(n, ctx.options, ctx.gen), err)
    decreases n, 1
  {
    err := None;
    if n.pending.Some? {
      err := VisitNodes(n.pending.value.nodes, ctx, n);
    } else {
      assert ctx.text == old(ctx.text) + "";
    }
  }

  /** The then branch of an await block, after its `{:then value}` marker. */
  method EnterAwaitThen(n: Node, ctx: Context) returns (err: Option<Error>)
    requires n.AwaitBlock?
    modifies ctx
    ensures Emitted(old(ctx.text), ctx.text, AwaitThen(n, ctx.options, ctx.gen), err)
    decreases n, 1
  {
    var o, gen := ctx.options, ctx.gen;
    err := None;
    if n.thenBranch.Some? {
      var marker := ThenMarker(n.thenValue, o, gen);
      ctx.Write(marker);
      ghost var marked := ctx.text;
      err := VisitNodes(n.thenBranch.value.nodes, ctx, n);
      if err.None? {
        assert ctx.text == old(ctx.text) + (marker + WalkNodes(n.thenBranch.value.nodes, o, gen, n).value);
      }
    } else {
      assert ctx.text == old(ctx.text) + "";
    }
  }

  /** The catch branch of an await block, after its `{:catch error}` marker. */
  method EnterAwaitCatch(n: Node, ctx: Context) returns (err: Option<Error>)
    requires n.AwaitBlock?
    modifies ctx
    ensures Emitted(old(ctx.text), ctx.text, AwaitCatch(n, ctx.options, ctx.gen), err)
    decreases n, 1
  {
    var o, gen := ctx.options, ctx.gen;
    err := None;
    if n.catchBranch.Some? {
      var marker := CatchMarker(n.catchError, o, gen);
      ctx.Write(marker);
      err := VisitNodes(n.catchBranch.value.nodes, ctx, n);
      if err.None? {
        assert ctx.text == old(ctx.text) + (marker + WalkNodes(n.catchBranch.value.nodes, o, gen, n).value);
      }
    } else {
      assert ctx.text == old(ctx.text) + "";
    }
  }

  /** The tag and key-block printers whose `enter` is a single write followed by clearing what it printed. */
  method EnterTag(n: Node, parentType: NodeType, ctx: Context) returns (r: Result<Visit>)
    requires n.ExpressionTag? || n.KeyBlock? || n.SnippetBlock? || n.HtmlTag? || n.DebugTag? || n.ConstTag? || n.RenderTag?
    modifies ctx
    ensures r == Ok(Cleared) && ctx.text == old(ctx.text) + TagText(n, ctx.options, ctx.gen)
    ensures EnteredAs(old(ctx.text), ctx.text, Enter(n, parentType, ctx.options, ctx.gen), r)
  {
    var o, gen := ctx.options, ctx.gen;
    match n {
      case ExpressionTag(_, e) =>
        ctx.Write("{" + gen(e, o) + "}");
      case KeyBlock(_, e, _) =>
        ctx.Write("{#key " + gen(e, o) + "}");
      case SnippetBlock(_, e, params, _) =>
        ctx.Write("{#snippet " + gen(e, o) + "(" + Join(GenAll(params, o, gen), ", ") + ")}");
      case HtmlTag(_, e) =>
        ctx.Write("{@html " + gen(e, o) + "}");
      case DebugTag(_, ids) =>
        ctx.Write("{@debug " + Join(GenAll(ids, o, gen), ", ") + "}");
      case ConstTag(_, d) =>
        ctx.Write("{@const" + StripConst(gen(d, o)) + "}");
      case RenderTag(_, e) =>
        ctx.Write("{@render " + gen(e, o) + "}");
    }
    r := Ok(Cleared);
    EnterAppended(old(ctx.text), ctx.text, TagText(n, o, gen), Cleared);
  }

  /** `NoOpPrinter.enter`: writes nothing and skips the node's subtree. */
  method EnterNoOp(n: Node, parentType: NodeType, ctx: Context) returns (r: Result<Visit>)
    requires n.Attribute? || n.SpreadAttribute? || n.Directive? || n.StyleDirective?
    ensures r == Ok(Skip)
    ensures EnteredAs(ctx.text, ctx.text, Enter(n, parentType, ctx.options, ctx.gen), r)
  {
    r := Ok(Skip);
    EnterAppended(ctx.text, ctx.text, "", Skip);
  }

  /** The `enter` of the if, each and await block printers. */
  method EnterBlock(n: Node, parentType: NodeType, ctx: Context) returns (r: Result<Visit>)
    requires n.IfBlock? || n.EachBlock? || n.AwaitBlock?
    modifies ctx
    ensures EnteredAs(old(ctx.text), ctx.text, Enter(n, parentType, ctx.options, ctx.gen), r)
    decreases n, 3, 0
  {
    if n.IfBlock? {
      var err := EnterIf(n, ctx);
      r := if err.Some? then Err(err.value) else Ok(Cleared);
    } else if n.EachBlock? {
      r := EnterEach(n, ctx);
      EnterAppended(old(ctx.text), ctx.text, EachHeader(n, ctx.options, ctx.gen), Cleared);
    } else {
      var err := EnterAwait(n, ctx);
      r := if err.Some? then Err(err.value) else Ok(Cleared);
    }
  }

  /** The registered printer's `enter`, chosen by the node's type. */
  method EnterNode(n: Node, parentType: NodeType, ctx: Context) returns (r: Result<Visit>)
    modifies ctx
    ensures EnteredAs(old(ctx.text), ctx.text, Enter(n, parentType, ctx.options, ctx.gen), r)
    decreases n, 3
  {
    match n {
      case Root(_, _) =>
        r := Err(NoPrinter(RootType));
      case Element(_, _, _, _, _) =>
        r := EnterElement(n, ctx);
      case Text(_, _) =>
        r := EnterText(n, parentType, ctx);
      case Comment(_, _) =>
        r := EnterComment(n, parentType, ctx);
      case IfBlock(_, _, _, _, _) =>
        r := EnterBlock(n, parentType, ctx);
      case EachBlock(_, _, _, _, _, _, _) =>
        r := EnterBlock(n, parentType, ctx);
      case AwaitBlock(_, _, _, _, _, _, _) =>
        r := EnterBlock(n, parentType, ctx);
      case Attribute(_, _, _) =>
        r := EnterNoOp(n, parentType, ctx);
      case SpreadAttribute(_, _) =>
        r := EnterNoOp(n, parentType, ctx);
      case Directive(_, _, _, _) =>
        r := EnterNoOp(n, parentType, ctx);
      case StyleDirective(_, _, _) =>
        r := EnterNoOp(n, parentType, ctx);
      case _ =>
        r := EnterTag(n, parentType, ctx);
    }
  }

  /** The registered printer's `leave`. */
  method LeaveNode(n: Node, ctx: Context)
    modifies ctx
    ensures ctx.text == old(ctx.text) + Leave(n, ctx.options)
  {
    match n {
      case Element(_, _, _, _, _) =>
        LeaveElement(n, ctx);
      case IfBlock(_, elseif, _, _, _) =>
        if !elseif {
          ctx.Write("{/if}");
          ctx.Write(ctx.options.lineEnd);
        }
      case EachBlock(_, _, _, _, _, _, _) =>
        ctx.Write("{/each}");
      case AwaitBlock(_, _, _, _, _, _, _) =>
        ctx.Write("{/await}");
      case KeyBlock(_, _, _) =>
        ctx.Write("{/key}");
      case SnippetBlock(_, _, _, _) =>
        ctx.Write("{/snippet}");
      case _ =>
        assert Leave(n, ctx.options) == "";
    }
  }

  /**
   * The walker's visit of one node: the `skip` flag, then the registry
   * lookup that throws for an unregistered type.
   */
  method VisitNode(n: Node, parentType: NodeType, ctx: Context) returns (err: Option<Error>)
    modifies ctx
    ensures Emitted(old(ctx.text), ctx.text, Walk(n, parentType, ctx.options, ctx.gen), err)
    decreases n, 5
  {
    if n.skip {
      err := VisitChildren(AllChildren(n), TypeOf(n), ctx, n);
    } else if Lookup(TypeOf(n)).None? {
      err := Some(NoPrinter(TypeOf(n)));
    } else {
      err := VisitPrinted(n, parentType, ctx);
    }
  }

  /** A registered node: `enter`, then what the walker does after it. */
  method VisitPrinted(n: Node, parentType: NodeType, ctx: Context) returns (err: Option<Error>)
    modifies ctx
    ensures Emitted(old(ctx.text), ctx.text, Printed(n, parentType, ctx.options, ctx.gen), err)
    decreases n, 4
  {
    ghost var start := ctx.text;
    var r := EnterNode(n, parentType, ctx);
    if r.Err? {
      return Some(r.error);
    }
    ghost var entered := ctx.text;
    EnteredEmitted(start, entered, Enter(n, parentType, ctx.options, ctx.gen), r);
    err := VisitRest(n, r.value, ctx);
    EmittedThen(start, entered, ctx.text, Ok(entered[|start|..]), Resume(n, r.value, ctx.options, ctx.gen), err);
  }

  /** After `enter`: unless the node was skipped, the children left to visit, then `leave`. */
  method VisitRest(n: Node, v: Visit, ctx: Context) returns (err: Option<Error>)
    modifies ctx
    ensures Emitted(old(ctx.text), ctx.text, Resume(n, v, ctx.options, ctx.gen), err)
    decreases n, 3
  {
    if v == Skip {
      EmittedText(ctx.text, ctx.text, "");
      return None;
    }
    err := VisitChildren(Children(n, v), TypeOf(n), ctx, n);
    if err.Some? {
      return;
    }
    ghost var walked := ctx.text;
    LeaveNode(n, ctx);
    EmittedText(walked, ctx.text, Leave(n, ctx.options));
    EmittedThen(old(ctx.text), walked, ctx.text, WalkChildren(Children(n, v), TypeOf(n), ctx.options, ctx.gen, n),
                Ok(Leave(n, ctx.options)), None);
  }

  /** The walker's visit of one child field. */
  method VisitChild(c: Child, parentType: NodeType, ctx: Context, ghost owner: Node) returns (err: Option<Error>)
    requires Below(c, owner)
    modifies ctx
    ensures Emitted(old(ctx.text), ctx.text, WalkChild(c, parentType, ctx.options, ctx.gen, owner), err)
    decreases owner, 1, 0
  {
    match c {
      case NodeChild(p) =>
        err := VisitNode(p, parentType, ctx);
      case FragmentChild(f) =>
        err := VisitNodes(f.nodes, ctx, owner);
      case ExprChild(e) =>
        if Lookup(EstreeType(e.nodeType)).Some? {
          err := None;
          assert ctx.text == old(ctx.text) + "";
        } else {
          err := Some(NoPrinter(EstreeType(e.nodeType)));
        }
    }
  }

  /** The walker's loop over a node's child fields, in order. */
  method VisitChildren(cs: seq<Child>, parentType: NodeType, ctx: Context, ghost owner: Node) returns (err: Option<Error>)
    requires forall i :: 0 <= i < |cs| ==> Below(cs[i], owner)
    modifies ctx
    ensures Emitted(old(ctx.text), ctx.text, WalkChildren(cs, parentType, ctx.options, ctx.gen, owner), err)
    decreases owner, 1, |cs|
  {
    var o, gen := ctx.options, ctx.gen;
    ghost var start := ctx.text;
    EmittedText(start, start, "");
    for i := 0 to |cs|
      invariant WalkChildren(cs[..i], parentType, o, gen, owner).Ok?
      invariant Emitted(start, ctx.text, WalkChildren(cs[..i], parentType, o, gen, owner), None)
    {
      ghost var before := ctx.text;
      err := VisitChild(cs[i], parentType, ctx, owner);
      EmittedThen(start, before, ctx.text, WalkChildren(cs[..i], parentType, o, gen, owner), WalkChild(cs[i], parentType, o, gen, owner), err);
      WalkChildrenStep(cs, i, parentType, o, gen, owner);
      if err.Some? {
        WalkChildrenPrefixError(cs, i + 1, parentType, o, gen, owner);
        return;
      }
    }
    assert cs[..|cs|] == cs;
    err := None;
  }

  /** One pass of the fragment loop: node `i`, visited after the nodes before it wrote their text. */
  method VisitSibling(ns: seq<Node>, i: nat, ctx: Context, ghost owner: Node, ghost base: string) returns (err: Option<Error>)
    requires forall j :: 0 <= j < |ns| ==> ns[j] < owner
    requires i < |ns|
    requires Emitted(base, ctx.text, WalkNodes(ns[..i], ctx.options, ctx.gen, owner), None)
    modifies ctx
    ensures Emitted(base, ctx.text, WalkNodes(ns[..i + 1], ctx.options, ctx.gen, owner), err)
    decreases owner, 0, |ns|, 0
  {
    var o, gen := ctx.options, ctx.gen;
    ghost var middle := ctx.text;
    err := VisitNode(ns[i], FragmentType, ctx);
    EmittedThen(base, middle, ctx.text, WalkNodes(ns[..i], o, gen, owner), Walk(ns[i], FragmentType, o, gen), err);
    WalkNodesStep(ns, i, o, gen, owner);
  }

  /** The walker's loop over the nodes of a fragment, in order (the fragment printer writes nothing). */
  method VisitNodes(ns: seq<Node>, ctx: Context, ghost owner: Node) returns (err: Option<Error>)
    requires forall i :: 0 <= i < |ns| ==> ns[i] < owner
    modifies ctx
    ensures Emitted(old(ctx.text), ctx.text, WalkNodes(ns, ctx.options, ctx.gen, owner), err)
    decreases owner, 0, |ns|
  {
    var o, gen := ctx.options, ctx.gen;
    ghost var start := ctx.text;
    EmittedText(start, start, "");
    for i := 0 to |ns|
      invariant WalkNodes(ns[..i], o, gen, owner).Ok?
      invariant Emitted(start, ctx.text, WalkNodes(ns[..i], o, gen, owner), None)
    {
      err := VisitSibling(ns, i, ctx, owner, start);
      if err.Some? {
        WalkNodesPrefixError(ns, i + 1, o, gen, owner);
        return;
      }
    }
    assert ns[..|ns|] == ns;
    err := None;
  }

  /**
   * `printHtml(root, indent)`: walks (a copy of) the root's fragment into a
   * fresh sink and returns the trimmed text, or the error the walk threw.
   */
  method PrintHtml(root: Node, indent: Options, gen: Gen) returns (r: Result<string>)
    requires root.Root?
    ensures r == HtmlSpec.PrintHtml(root, indent, gen)
  {
    var ctx := new Context(indent, gen);
    var fragment := root.fragment;
    var err := VisitNodes(fragment.nodes, ctx, root);
    if err.Some? {
      return Err(err.value);
    }
    assert ctx.text == "" + WalkNodes(fragment.nodes, indent, gen, root).value;
    assert "" + WalkNodes(fragment.nodes, indent, gen, root).value == WalkNodes(fragment.nodes, indent, gen, root).value;
    return Ok(Trim(ctx.text));
  }
}
