/**
 * What printing a template tree writes, as functions of the tree: each
 * printer's `enter` and `leave` text, and the walk that visits the tree,
 * dispatches every node to its registered printer, and descends into the
 * fields its `enter` left in place.
 *
 * The walk is explicit recursion. A printer's `enter` returns a decision:
 * descend into every child field, skip the node's subtree (`this.skip()`,
 * after which `leave` is not called either), or descend into only the fields
 * left after `this.replace({...node, field: undefined})` has cleared those
 * the printer already printed itself.
 */
module HtmlSpec {
  import opened Wrappers
  import opened Ast
  import opened Strings
  import opened Registry
  import opened Attributes

  /** The walker decision an `enter` printer leaves behind. */
  datatype Visit = Descend | Skip | Cleared

  /** What an `enter` wrote, and the walker decision it left behind. */
  datatype Step = Step(text: string, visit: Visit)

  /** A child field the walker visits: a template node, a fragment, or an estree node. */
  datatype Child = NodeChild(node: Node) | FragmentChild(fragment: Fragment) | ExprChild(expr: Expr)

  /** `HTML_VOID_ELEMENTS`. */
  const VoidElements: seq<string> := [
    "area", "base", "br", "col", "embed", "hr", "img",
    "input", "link", "meta", "param", "source", "track", "wbr"
  ]

  /** `names.includes(name)`, one entry at a time. */
  predicate Listed(name: string, names: seq<string>)
  {
    names != [] && (names[0] == name || Listed(name, names[1..]))
  }

  /** An element with this tag name is void: it has no closing tag. */
  predicate IsVoid(name: string)
  {
    Listed(name, VoidElements)
  }

  /** The element types that self-close when they have no children. */
  predicate SelfClosingKind(k: ElementKind)
  {
    k.Component? || k.SlotElement? || k.SvelteSelf? || k.SvelteWindow? || k.SvelteDocument?
    || k.SvelteBody? || k.SvelteHead? || k.SvelteElement? || k.SvelteComponent? || k.SvelteFragment?
  }

  predicate SelfCloses(n: Node)
    requires n.Element?
  {
    SelfClosingKind(n.kind) && |n.fragment.nodes| == 0
  }

  /** The `this={...}` target of `<svelte:element>` and `<svelte:component>`, when present. */
  function ThisTarget(k: ElementKind): Option<Expr>
  {
    match k
    case SvelteElement(tag) => tag
    case SvelteComponent(e) => e
    case _ => None
  }

  function ThisText(k: ElementKind, gen: Gen): string
  {
    if ThisTarget(k).Some? then " this={" + gen(ThisTarget(k).value, GeneratorDefaults) + "}" else ""
  }

  /**
   * The element printer's `enter`: `<name`, the optional `this={...}`, the
   * attributes in order, then `/>` or `>`, and always the line end.
   */
  function ElementOpen(n: Node, o: Options, gen: Gen): (r: Result<string>)
    requires n.Element?
    ensures r.Ok? <==> AttributesText(n.attributes, o, gen).Ok?
    ensures r.Err? ==> r == AttributesText(n.attributes, o, gen)
    ensures r.Ok? ==> "<" + n.name <= r.value
  {
    Then(Then(Ok("<" + n.name + ThisText(n.kind, gen)), AttributesText(n.attributes, o, gen)),
         Ok((if SelfCloses(n) then "/>" else ">") + o.lineEnd))
  }

  /** The element printer's `leave`: nothing for a void or self-closed element, else `</name>`. */
  function ElementClose(n: Node): string
    requires n.Element?
  {
    if IsVoid(n.name) || SelfCloses(n) then "" else "</" + n.name + ">"
  }

  /** The comment printer: the trimmed comment between markers, then the line end; nothing if it is blank. */
  function CommentText(data: string, o: Options): (r: string)
    ensures r == "" <==> AllWhitespace(data)
    ensures r != "" ==> r == "<!-- " + Trim(data) + " -->" + o.lineEnd
  {
    TrimEmptyIff(data);
    var c := Trim(data);
    if c == "" then "" else "<!-- " + c + " -->" + o.lineEnd
  }

  /** The text printer: quoted inside an attribute, verbatim everywhere else. */
  function TextOutput(data: string, parentType: NodeType): string
  {
    if parentType == AttributeType then "\"" + data + "\"" else data
  }

  /** Each expression generated on its own, in order (`list.map(e => generate(e))`). */
  function GenAll(es: seq<Expr>, o: Options, gen: Gen): seq<string>
  {
    seq(|es|, i requires 0 <= i < |es| => gen(es[i], o))
  }

  /** The each-block header: `{#each e`, then ` as ctx`, `, index` and ` (key)` when present, then `}`. */
  function EachHeader(n: Node, o: Options, gen: Gen): string
    requires n.EachBlock?
  {
    "{#each " + gen(n.expression, o)
    + (if n.context.Some? then " as " + gen(n.context.value, o) else "")
    + (if n.index.Some? && n.index.value != "" then ", " + n.index.value else "")
    + (if n.key.Some? then " (" + gen(n.key.value, o) + ")" else "")
    + "}"
  }

  /**
   * `s.replace(/;|const/g, '')`: scanning left to right, every `;` and every
   * `const` is removed and the scan resumes after it.
   */
  function StripConst(s: string): (r: string)
    ensures ';' !in r
    ensures |r| <= |s|
    decreases |s|
  {
    if |s| == 0 then ""
    else if s[0] == ';' then StripConst(s[1..])
    else if |s| >= 5 && s[..5] == "const" then StripConst(s[5..])
    else [s[0]] + StripConst(s[1..])
  }

  /** Whether any node of the fragment is an if block (`nodes.some(n => n.type === 'IfBlock')`). */
  predicate HasIfBlock(f: Fragment)
  {
    exists i :: 0 <= i < |f.nodes| && f.nodes[i].IfBlock?
  }

  /** The `{:then}` marker, naming the resolved value when there is one. */
  function ThenMarker(value: Option<Expr>, o: Options, gen: Gen): string
  {
    if value.Some? then "{:then " + gen(value.value, o) + "}" else "{:then}"
  }

  /** The `{:catch}` marker, naming the error when there is one. */
  function CatchMarker(error: Option<Expr>, o: Options, gen: Gen): string
  {
    if error.Some? then "{:catch " + gen(error.value, o) + "}" else "{:catch}"
  }

  /** A child lies strictly inside `owner`: what keeps the walk finite. */
  ghost predicate Below(c: Child, owner: Node)
  {
    match c
    case NodeChild(p) => p < owner
    case FragmentChild(f) => forall i :: 0 <= i < |f.nodes| ==> f.nodes[i] < owner
    case ExprChild(_) => true
  }

  function NodeChildren(ns: seq<Node>): (cs: seq<Child>)
    ensures |cs| == |ns| && forall i :: 0 <= i < |ns| ==> cs[i] == NodeChild(ns[i])
  {
    seq(|ns|, i requires 0 <= i < |ns| => NodeChild(ns[i]))
  }

  function OptExpr(e: Option<Expr>): seq<Child>
  {
    if e.Some? then [ExprChild(e.value)] else []
  }

  function OptFragment(f: Option<Fragment>): seq<Child>
  {
    if f.Some? then [FragmentChild(f.value)] else []
  }

  function ValueChildren(v: AttrValue): seq<Child>
  {
    match v
    case TrueValue => []
    case ExpressionValue(tag) => [NodeChild(tag)]
    case ListValue(parts) => NodeChildren(parts)
  }

  /** An element's fields: its attributes, its content, then a dynamic element's `this` target. */
  function ElementChildren(n: Node): (cs: seq<Child>)
    requires n.Element?
    ensures forall i :: 0 <= i < |cs| ==> Below(cs[i], n)
  {
    NodeChildren(n.attributes) + [FragmentChild(n.fragment)] + OptExpr(ThisTarget(n.kind))
  }

  /** An each block's fields: the list, the body, the item pattern, the key, then the fallback. */
  function EachChildren(n: Node): (cs: seq<Child>)
    requires n.EachBlock?
    ensures forall i :: 0 <= i < |cs| ==> Below(cs[i], n)
  {
    [ExprChild(n.expression), FragmentChild(n.body)] + OptExpr(n.context) + OptExpr(n.key) + OptFragment(n.fallback)
  }

  /** An await block's fields: the promise, the value and error patterns, then the three branches. */
  function AwaitChildren(n: Node): (cs: seq<Child>)
    requires n.AwaitBlock?
    ensures forall i :: 0 <= i < |cs| ==> Below(cs[i], n)
  {
    [ExprChild(n.expression)] + OptExpr(n.thenValue) + OptExpr(n.catchError)
    + OptFragment(n.pending) + OptFragment(n.thenBranch) + OptFragment(n.catchBranch)
  }

  /** A snippet's fields: its name, its parameters, then its body. */
  function SnippetChildren(n: Node): (cs: seq<Child>)
    requires n.SnippetBlock?
    ensures forall i :: 0 <= i < |cs| ==> Below(cs[i], n)
  {
    [ExprChild(n.expression)] + seq(|n.parameters|, i requires 0 <= i < |n.parameters| => ExprChild(n.parameters[i])) + [FragmentChild(n.body)]
  }

  /** Every child field of a node, in field order: what the walker visits when nothing is cleared. */
  function AllChildren(n: Node): (cs: seq<Child>)
    ensures forall i :: 0 <= i < |cs| ==> Below(cs[i], n)
  {
    match n
    case Root(_, f) => [FragmentChild(f)]
    case Element(_, _, _, _, _) => ElementChildren(n)
    case Text(_, _) => []
    case ExpressionTag(_, e) => [ExprChild(e)]
    case Comment(_, _) => []
    case IfBlock(_, _, test, consequent, alternate) =>
      [ExprChild(test), FragmentChild(consequent)] + OptFragment(alternate)
    case EachBlock(_, _, _, _, _, _, _) => EachChildren(n)
    case AwaitBlock(_, _, _, _, _, _, _) => AwaitChildren(n)
    case KeyBlock(_, e, f) => [ExprChild(e), FragmentChild(f)]
    case SnippetBlock(_, _, _, _) => SnippetChildren(n)
    case HtmlTag(_, e) => [ExprChild(e)]
    case DebugTag(_, ids) => seq(|ids|, i requires 0 <= i < |ids| => ExprChild(ids[i]))
    case ConstTag(_, d) => [ExprChild(d)]
    case RenderTag(_, e) => [ExprChild(e)]
    case Attribute(_, _, value) => ValueChildren(value)
    case SpreadAttribute(_, e) => [ExprChild(e)]
    case Directive(_, _, _, argument) => OptExpr(argument)
    case StyleDirective(_, _, value) => ValueChildren(value)
  }

  /** The child fields a printer's `replace` leaves in place: those it did not print itself. */
  function RemainingChildren(n: Node): (cs: seq<Child>)
    ensures forall i :: 0 <= i < |cs| ==> Below(cs[i], n)
  {
    match n
    case Element(_, _, _, attrs, f) => NodeChildren(attrs) + [FragmentChild(f)]
    case EachBlock(_, _, _, _, _, body, fallback) => [FragmentChild(body)] + OptFragment(fallback)
    case KeyBlock(_, _, f) => [FragmentChild(f)]
    case SnippetBlock(_, _, _, body) => [FragmentChild(body)]
    case _ => []
  }

  /** The children the walker goes on to visit after `enter` decided `v`. */
  function Children(n: Node, v: Visit): (cs: seq<Child>)
    ensures forall i :: 0 <= i < |cs| ==> Below(cs[i], n)
  {
    match v
    case Descend => AllChildren(n)
    case Cleared => RemainingChildren(n)
    case Skip => []
  }

  /** The element printer clears the `this={...}` target it printed; otherwise the walker descends everywhere. */
  function ElementVisit(k: ElementKind): Visit
  {
    if ThisTarget(k).Some? then Cleared else Descend
  }

  /**
   * What the printers of expression, html, debug, const and render tags and
   * of key and snippet blocks write on `enter`: a single write of the tag,
   * or of the block's opening marker, with its generated expressions.
   */
  function TagText(n: Node, o: Options, gen: Gen): string
    requires n.ExpressionTag? || n.KeyBlock? || n.SnippetBlock? || n.HtmlTag? || n.DebugTag? || n.ConstTag? || n.RenderTag?
  {
    match n
    case ExpressionTag(_, e) => "{" + gen(e, o) + "}"
    case KeyBlock(_, e, _) => "{#key " + gen(e, o) + "}"
    case SnippetBlock(_, e, params, _) => "{#snippet " + gen(e, o) + "(" + Join(GenAll(params, o, gen), ", ") + ")}"
    case HtmlTag(_, e) => "{@html " + gen(e, o) + "}"
    case DebugTag(_, ids) => "{@debug " + Join(GenAll(ids, o, gen), ", ") + "}"
    case ConstTag(_, d) => "{@const" + StripConst(gen(d, o)) + "}"
    case RenderTag(_, e) => "{@render " + gen(e, o) + "}"
  }

  function Entered(r: Result<string>, v: Visit): Result<Step>
  {
    if r.Err? then Err(r.error) else Ok(Step(r.value, v))
  }

  /**
   * Walking one node under a parent of type `parentType`: a `skip`-flagged
   * node is passed through (its children are walked, it has no enter or
   * leave); an unregistered type fails; otherwise `enter`, the children its
   * decision leaves, and `leave` (not after a skip).
   */
  function Walk(n: Node, parentType: NodeType, o: Options, gen: Gen): Result<string>
    decreases n, 5
  {
    if n.skip then WalkChildren(AllChildren(n), TypeOf(n), o, gen, n)
    else if Lookup(TypeOf(n)).None? then Err(NoPrinter(TypeOf(n)))
    else Printed(n, parentType, o, gen)
  }

  /** A node handed to its printer: `enter`, then what the walker does after it. */
  function Printed(n: Node, parentType: NodeType, o: Options, gen: Gen): Result<string>
    decreases n, 4
  {
    var entered := Enter(n, parentType, o, gen);
    if entered.Err? then Err(entered.error)
    else Then(Ok(entered.value.text), Resume(n, entered.value.visit, o, gen))
  }

  /**
   * After `enter` returned decision `v`: nothing more for a skipped node;
   * otherwise the children left to visit, then `leave`.
   */
  function Resume(n: Node, v: Visit, o: Options, gen: Gen): Result<string>
    decreases n, 3
  {
    if v == Skip then Ok("")
    else Then(WalkChildren(Children(n, v), TypeOf(n), o, gen, n), Ok(Leave(n, o)))
  }

  /** The registered printer's `enter` on node `n`. */
  function Enter(n: Node, parentType: NodeType, o: Options, gen: Gen): Result<Step>
    decreases n, 3
  {
    match n
    case Root(_, _) => Err(NoPrinter(RootType))
    case Element(_, kind, _, _, _) => Entered(ElementOpen(n, o, gen), ElementVisit(kind))
    case Text(_, data) => Ok(Step(TextOutput(data, parentType), Descend))
    case Comment(_, data) => Ok(Step(CommentText(data, o), Descend))
    case IfBlock(_, _, _, _, _) => Entered(IfEnter(n, o, gen), Cleared)
    case EachBlock(_, _, _, _, _, _, _) => Ok(Step(EachHeader(n, o, gen), Cleared))
    case AwaitBlock(_, _, _, _, _, _, _) => Entered(AwaitEnter(n, o, gen), Cleared)
    case ExpressionTag(_, _) => Ok(Step(TagText(n, o, gen), Cleared))
    case KeyBlock(_, _, _) => Ok(Step(TagText(n, o, gen), Cleared))
    case SnippetBlock(_, _, _, _) => Ok(Step(TagText(n, o, gen), Cleared))
    case HtmlTag(_, _) => Ok(Step(TagText(n, o, gen), Cleared))
    case DebugTag(_, _) => Ok(Step(TagText(n, o, gen), Cleared))
    case ConstTag(_, _) => Ok(Step(TagText(n, o, gen), Cleared))
    case RenderTag(_, _) => Ok(Step(TagText(n, o, gen), Cleared))
    case Attribute(_, _, _) => Ok(Step("", Skip))
    case SpreadAttribute(_, _) => Ok(Step("", Skip))
    case Directive(_, _, _, _) => Ok(Step("", Skip))
    case StyleDirective(_, _, _) => Ok(Step("", Skip))
  }

  /**
   * The if-block printer's `enter`: the opening (or `{:else if}`) marker and
   * the consequent, then the alternate. Both branches are printed here.
   */
  function IfEnter(n: Node, o: Options, gen: Gen): Result<string>
    requires n.IfBlock?
    decreases n, 2
  {
    Then(IfHead(n, o, gen), IfAlternate(n, o, gen))
  }

  /**
   * `{#if test}`, the line end and the consequent; or, for an `{:else if}`
   * branch, the marker, the consequent and then the line end.
   */
  function IfHead(n: Node, o: Options, gen: Gen): Result<string>
    requires n.IfBlock?
    decreases n, 1
  {
    var test := gen(n.test, o);
    var consequent := WalkNodes(n.consequent.nodes, o, gen, n);
    if n.elseif then Then(Then(Ok("{:else if " + test + "}"), consequent), Ok(o.lineEnd))
    else Then(Ok("{#if " + test + "}" + o.lineEnd), consequent)
  }

  /**
   * The alternate, when there is one: `{:else}` only when no node of it is
   * an if block, the line end, then the alternate's nodes.
   */
  function IfAlternate(n: Node, o: Options, gen: Gen): Result<string>
    requires n.IfBlock?
    decreases n, 1
  {
    if n.alternate.None? then Ok("")
    else
      var alt := n.alternate.value;
      Then(Ok((if HasIfBlock(alt) then "" else "{:else}") + o.lineEnd), WalkNodes(alt.nodes, o, gen, n))
  }

  /** The await-block printer's `enter`: the header, then the pending, then and catch branches in that order. */
  function AwaitEnter(n: Node, o: Options, gen: Gen): Result<string>
    requires n.AwaitBlock?
    decreases n, 2
  {
    Then(Then(Then(Ok("{#await " + gen(n.expression, o) + "}"), AwaitPending(n, o, gen)),
              AwaitThen(n, o, gen)),
         AwaitCatch(n, o, gen))
  }

  function AwaitPending(n: Node, o: Options, gen: Gen): Result<string>
    requires n.AwaitBlock?
    decreases n, 1
  {
    if n.pending.Some? then WalkNodes(n.pending.value.nodes, o, gen, n) else Ok("")
  }

  function AwaitThen(n: Node, o: Options, gen: Gen): Result<string>
    requires n.AwaitBlock?
    decreases n, 1
  {
    if n.thenBranch.Some? then Then(Ok(ThenMarker(n.thenValue, o, gen)), WalkNodes(n.thenBranch.value.nodes, o, gen, n))
    else Ok("")
  }

  function AwaitCatch(n: Node, o: Options, gen: Gen): Result<string>
    requires n.AwaitBlock?
    decreases n, 1
  {
    if n.catchBranch.Some? then Then(Ok(CatchMarker(n.catchError, o, gen)), WalkNodes(n.catchBranch.value.nodes, o, gen, n))
    else Ok("")
  }

  /** The registered printer's `leave` on node `n`. */
  function Leave(n: Node, o: Options): string
  {
    match n
    case Element(_, _, _, _, _) => ElementClose(n)
    case IfBlock(_, elseif, _, _, _) => if elseif then "" else "{/if}" + o.lineEnd
    case EachBlock(_, _, _, _, _, _, _) => "{/each}"
    case AwaitBlock(_, _, _, _, _, _, _) => "{/await}"
    case KeyBlock(_, _, _) => "{/key}"
    case SnippetBlock(_, _, _, _) => "{/snippet}"
    case _ => ""
  }

  /** Walking the child fields in order; the first error stops the walk. */
  function WalkChildren(cs: seq<Child>, parentType: NodeType, o: Options, gen: Gen, ghost owner: Node): Result<string>
    requires forall i :: 0 <= i < |cs| ==> Below(cs[i], owner)
    decreases owner, 1, |cs|
  {
    if |cs| == 0 then Ok("")
    else
      assert Below(cs[|cs| - 1], owner);
      Then(WalkChildren(cs[..|cs| - 1], parentType, o, gen, owner), WalkChild(cs[|cs| - 1], parentType, o, gen, owner))
  }

  /**
   * Walking one child field: a node; a fragment, whose printer writes
   * nothing and whose nodes have the fragment as parent; or an estree node,
   * which only `BinaryExpression` has a (no-op, skipping) printer for.
   */
  function WalkChild(c: Child, parentType: NodeType, o: Options, gen: Gen, ghost owner: Node): Result<string>
    requires Below(c, owner)
    decreases owner, 1, 0
  {
    match c
    case NodeChild(p) => Walk(p, parentType, o, gen)
    case FragmentChild(f) => WalkNodes(f.nodes, o, gen, owner)
    case ExprChild(e) => if Lookup(EstreeType(e.nodeType)).Some? then Ok("") else Err(NoPrinter(EstreeType(e.nodeType)))
  }

  /** Walking the nodes of a fragment in order; the first error stops the walk. */
  function WalkNodes(ns: seq<Node>, o: Options, gen: Gen, ghost owner: Node): Result<string>
    requires forall i :: 0 <= i < |ns| ==> ns[i] < owner
    decreases owner, 0, |ns|
  {
    if |ns| == 0 then Ok("")
    else Then(WalkNodes(ns[..|ns| - 1], o, gen, owner), Walk(ns[|ns| - 1], FragmentType, o, gen))
  }

  /** `printHtml(root, indent)`: the walk of the root's fragment, trimmed. */
  function PrintHtml(root: Node, o: Options, gen: Gen): (r: Result<string>)
    requires root.Root?
    ensures r.Ok? <==> WalkNodes(root.fragment.nodes, o, gen, root).Ok?
    ensures r.Err? ==> r == WalkNodes(root.fragment.nodes, o, gen, root)
    ensures r.Ok? ==> r.value == [] || (!IsWhitespace(r.value[0]) && !IsWhitespace(r.value[|r.value| - 1]))
  {
    var w := WalkNodes(root.fragment.nodes, o, gen, root);
    if w.Err? then w else Ok(Trim(w.value))
  }
}
