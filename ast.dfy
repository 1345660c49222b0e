/**
 * The parsed Svelte template tree that the printer consumes, as a closed
 * tagged union, together with the formatting options, the errors the printer
 * can raise, and the node-type names the printer registry is keyed by.
 */
module Ast {
  import opened Wrappers

  /** Indentation options (`PrinterIdentOptions`): the indent string and the line-ending string. */
  datatype Options = Options(indent: string, lineEnd: string)

  /** `DefaultPrinterIdentOptions`: two spaces and a newline. */
  const DefaultOptions := Options("  ", "\n")

  /**
   * The options the expression generator falls back on when it is called
   * without any (the `this={...}` target of a dynamic element or component).
   */
  const GeneratorDefaults := Options("  ", "\n")

  /**
   * A node's `type` discriminant, the key the printer registry is looked up
   * by: one value per template node type, and the estree node types by name.
   */
  datatype NodeType =
    | RootType | FragmentType | TextType | ExpressionTagType | CommentType
    | IfBlockType | EachBlockType | AwaitBlockType | KeyBlockType | SnippetBlockType
    | HtmlTagType | DebugTagType | ConstTagType | RenderTagType
    | AttributeType | SpreadAttributeType | StyleDirectiveType
    | AnimateDirectiveType | BindDirectiveType | ClassDirectiveType | LetDirectiveType
    | OnDirectiveType | TransitionDirectiveType | UseDirectiveType
    | RegularElementType | ComponentType | TitleElementType | SlotElementType
    | SvelteBodyType | SvelteComponentType | SvelteDocumentType | SvelteElementType
    | SvelteFragmentType | SvelteHeadType | SvelteOptionsRawType | SvelteSelfType | SvelteWindowType
    | EstreeType(name: EstreeName)

  /**
   * An estree node type name (`Identifier`, `BinaryExpression`, ...). The
   * registry tells only `BinaryExpression` apart, so that name is a value of
   * its own and every other name is carried as text.
   */
  datatype EstreeName = BinaryExpression | OtherEstree(name: OtherEstreeName)

  /** An estree type name other than `BinaryExpression`. */
  type OtherEstreeName = s: string | s != "BinaryExpression" witness "Identifier"

  /**
   * An estree expression, pattern or declaration embedded in the template.
   * The printer reads only its `type` (`nodeType`, an estree type name such
   * as `Identifier`); `id` stands for the rest of the node, which only the
   * expression generator looks at.
   */
  datatype Expr = Expr(nodeType: EstreeName, id: nat)

  /** The external expression generator (astring's `generate`), left uninterpreted. */
  type Gen = (Expr, Options) -> string

  /** Errors a print call can end in; each is thrown out of `printHtml`. */
  datatype Error =
    | NoPrinter(nodeType: NodeType)          // "Could not find printer for <type>"
    | EmptyValue(name: string)               // the first element of an empty attribute value list is read
    | MissingExpression(nodeType: NodeType)  // the generator is handed null or undefined
    | NotEstree(nodeType: NodeType)          // the generator is handed a template node it has no handler for
    | InvalidArrayLength(length: int)      // `new Array(n)` with n outside 0 .. 2^32 - 1

  datatype Result<+T> = Ok(value: T) | Err(error: Error)

  /**
   * Two pieces of output written one after the other: the first error
   * raised is the one that escapes, and without errors the texts concatenate.
   */
  function Then(a: Result<string>, b: Result<string>): (r: Result<string>)
    ensures r.Ok? <==> a.Ok? && b.Ok?
    ensures r.Ok? ==> r.value == a.value + b.value
    ensures a.Err? ==> r == a
    ensures a.Ok? && b.Err? ==> r == b
  {
    if a.Err? then a else if b.Err? then b else Ok(a.value + b.value)
  }

  /** Sequencing is associative, so a run of writes can be grouped either way. */
  lemma ThenAssoc(a: Result<string>, b: Result<string>, c: Result<string>)
    ensures Then(Then(a, b), c) == Then(a, Then(b, c))
  {
    if a.Ok? && b.Ok? && c.Ok? {
      assert (a.value + b.value) + c.value == a.value + (b.value + c.value);
    }
  }

  /** Writing nothing before or after a piece of output changes nothing. */
  lemma ThenUnit(a: Result<string>)
    ensures Then(Ok(""), a) == a
    ensures Then(a, Ok("")) == a
  {
    if a.Ok? {
      assert "" + a.value == a.value;
      assert a.value + "" == a.value;
    }
  }

  /** The element-like node types; the dynamic ones carry their `this={...}` target. */
  datatype ElementKind =
    | RegularElement | Component | TitleElement | SlotElement
    | SvelteBody | SvelteComponent(expression: Option<Expr>) | SvelteDocument
    | SvelteElement(tag: Option<Expr>) | SvelteFragment | SvelteHead
    | SvelteOptionsRaw | SvelteSelf | SvelteWindow

  /** The directive node types that share one shape; a transition carries its intro/outro flags. */
  datatype DirectiveKind =
    | Animate | Bind | Class | Let | On | Use
    | Transition(intro: bool, outro: bool)

  /** An ordered sequence of sibling nodes (`AST.Fragment`). */
  datatype Fragment = Fragment(nodes: seq<Node>)

  /** `true | ExpressionTag | Array<Text | ExpressionTag>`, the value of an attribute or style directive. */
  datatype AttrValue =
    | TrueValue
    | ExpressionValue(tag: Node)
    | ListValue(parts: seq<Node>)

  /**
   * A template node. Every node carries the `skip` flag the walker honours;
   * fields the parser may leave null are `Option`s.
   */
  datatype Node =
    | Root(skip: bool, fragment: Fragment)
    | Element(skip: bool, kind: ElementKind, name: string, attributes: seq<Node>, fragment: Fragment)
    | Text(skip: bool, data: string)
    | ExpressionTag(skip: bool, expression: Expr)
    | Comment(skip: bool, data: string)
    | IfBlock(skip: bool, elseif: bool, test: Expr, consequent: Fragment, alternate: Option<Fragment>)
    | EachBlock(skip: bool, expression: Expr, context: Option<Expr>, index: Option<string>,
                key: Option<Expr>, body: Fragment, fallback: Option<Fragment>)
    | AwaitBlock(skip: bool, expression: Expr, thenValue: Option<Expr>, catchError: Option<Expr>,
                 pending: Option<Fragment>, thenBranch: Option<Fragment>, catchBranch: Option<Fragment>)
    | KeyBlock(skip: bool, expression: Expr, fragment: Fragment)
    | SnippetBlock(skip: bool, expression: Expr, parameters: seq<Expr>, body: Fragment)
    | HtmlTag(skip: bool, expression: Expr)
    | DebugTag(skip: bool, identifiers: seq<Expr>)
    | ConstTag(skip: bool, declaration: Expr)
    | RenderTag(skip: bool, expression: Expr)
    | Attribute(skip: bool, name: string, value: AttrValue)
    | SpreadAttribute(skip: bool, expression: Expr)
    | Directive(skip: bool, directive: DirectiveKind, name: string, argument: Option<Expr>)
    | StyleDirective(skip: bool, name: string, value: AttrValue)

  function ElementType(k: ElementKind): NodeType
  {
    match k
    case RegularElement => RegularElementType
    case Component => ComponentType
    case TitleElement => TitleElementType
    case SlotElement => SlotElementType
    case SvelteBody => SvelteBodyType
    case SvelteComponent(_) => SvelteComponentType
    case SvelteDocument => SvelteDocumentType
    case SvelteElement(_) => SvelteElementType
    case SvelteFragment => SvelteFragmentType
    case SvelteHead => SvelteHeadType
    case SvelteOptionsRaw => SvelteOptionsRawType
    case SvelteSelf => SvelteSelfType
    case SvelteWindow => SvelteWindowType
  }

  function DirectiveType(k: DirectiveKind): NodeType
  {
    match k
    case Animate => AnimateDirectiveType
    case Bind => BindDirectiveType
    case Class => ClassDirectiveType
    case Let => LetDirectiveType
    case On => OnDirectiveType
    case Use => UseDirectiveType
    case Transition(_, _) => TransitionDirectiveType
  }

  /** The node's `type` discriminant. */
  function TypeOf(n: Node): (t: NodeType)
    ensures !t.EstreeType?
  {
    match n
    case Root(_, _) => RootType
    case Element(_, k, _, _, _) => ElementType(k)
    case Text(_, _) => TextType
    case ExpressionTag(_, _) => ExpressionTagType
    case Comment(_, _) => CommentType
    case IfBlock(_, _, _, _, _) => IfBlockType
    case EachBlock(_, _, _, _, _, _, _) => EachBlockType
    case AwaitBlock(_, _, _, _, _, _, _) => AwaitBlockType
    case KeyBlock(_, _, _) => KeyBlockType
    case SnippetBlock(_, _, _, _) => SnippetBlockType
    case HtmlTag(_, _) => HtmlTagType
    case DebugTag(_, _) => DebugTagType
    case ConstTag(_, _) => ConstTagType
    case RenderTag(_, _) => RenderTagType
    case Attribute(_, _, _) => AttributeType
    case SpreadAttribute(_, _) => SpreadAttributeType
    case Directive(_, k, _, _) => DirectiveType(k)
    case StyleDirective(_, _, _) => StyleDirectiveType
  }

  /**
   * What reading `node.expression` yields: the expression of the node types
   * that have such a field, and nothing (null or undefined) otherwise.
   */
  function ExpressionField(n: Node): Option<Expr>
  {
    match n
    case ExpressionTag(_, e) => Some(e)
    case EachBlock(_, e, _, _, _, _, _) => Some(e)
    case AwaitBlock(_, e, _, _, _, _, _) => Some(e)
    case KeyBlock(_, e, _) => Some(e)
    case SnippetBlock(_, e, _, _) => Some(e)
    case HtmlTag(_, e) => Some(e)
    case RenderTag(_, e) => Some(e)
    case SpreadAttribute(_, e) => Some(e)
    case Directive(_, _, _, arg) => arg
    case Element(_, SvelteComponent(e), _, _, _) => e
    case _ => None
  }
}
