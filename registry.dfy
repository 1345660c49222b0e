/**
 * The printer registry (`PRINTERS`): one enter/leave printer per node type,
 * looked up by the node's `type` discriminant.
 */
module Registry {
  import opened Wrappers
  import opened Ast

  /** The printer classes; one instance of each stands behind a registry key. */
  datatype PrinterKind =
    | FragmentPrinter | ElementPrinter | TextPrinter | ExpressionTagPrinter | CommentPrinter
    | NoOpPrinter | IfBlockPrinter | EachBlockPrinter | AwaitBlockPrinter | KeyBlockPrinter
    | HtmlTagPrinter | DebugTagPrinter | ConstTagPrinter | SnippetBlockPrinter | RenderTagPrinter

  /** The registry. `TitleElement`, `SvelteOptionsRaw` and `Root` have no entry. */
  const Printers: map<NodeType, PrinterKind> := map[
    FragmentType := FragmentPrinter,
    RegularElementType := ElementPrinter,
    ComponentType := ElementPrinter,
    TextType := TextPrinter,
    ExpressionTagType := ExpressionTagPrinter,
    CommentType := CommentPrinter,
    SlotElementType := ElementPrinter,
    SvelteSelfType := ElementPrinter,
    SvelteWindowType := ElementPrinter,
    SvelteDocumentType := ElementPrinter,
    SvelteBodyType := ElementPrinter,
    SvelteHeadType := ElementPrinter,
    SvelteElementType := ElementPrinter,
    SvelteComponentType := ElementPrinter,
    SvelteFragmentType := ElementPrinter,
    AttributeType := NoOpPrinter,
    SpreadAttributeType := NoOpPrinter,
    OnDirectiveType := NoOpPrinter,
    BindDirectiveType := NoOpPrinter,
    ClassDirectiveType := NoOpPrinter,
    StyleDirectiveType := NoOpPrinter,
    UseDirectiveType := NoOpPrinter,
    TransitionDirectiveType := NoOpPrinter,
    AnimateDirectiveType := NoOpPrinter,
    LetDirectiveType := NoOpPrinter,
    EstreeType(BinaryExpression) := NoOpPrinter,
    IfBlockType := IfBlockPrinter,
    EachBlockType := EachBlockPrinter,
    AwaitBlockType := AwaitBlockPrinter,
    KeyBlockType := KeyBlockPrinter,
    HtmlTagType := HtmlTagPrinter,
    DebugTagType := DebugTagPrinter,
    ConstTagType := ConstTagPrinter,
    SnippetBlockType := SnippetBlockPrinter,
    RenderTagType := RenderTagPrinter
  ]

  /**
   * `getPrinters`: a copy of the registry. A caller that looks a type up in
   * the copy finds a printer exactly where the walker's dispatch finds one,
   * and the same printer.
   */
  function GetPrinters(): (r: map<NodeType, PrinterKind>)
    ensures forall t :: t in r <==> Lookup(t).Some?
    ensures forall t :: t in r ==> Lookup(t) == Some(r[t])
  {
    LookupAgrees();
    Printers
  }

  /** The dispatch by type agrees with the registry for every type, in both directions. */
  lemma LookupAgrees()
    ensures forall t :: t in Printers <==> Lookup(t).Some?
    ensures forall t :: t in Printers ==> Lookup(t) == Some(Printers[t])
  {
    forall t: NodeType
      ensures (t in Printers <==> Lookup(t).Some?) && (t in Printers ==> Lookup(t) == Some(Printers[t]))
    {
      LookupIsRegistry(t);
    }
  }

  /** `getPrinters()[type]`: the registered printer of a node type, if any. */
  function Lookup(t: NodeType): Option<PrinterKind>
  {
    match t
    case RootType => None
    case TitleElementType => None
    case SvelteOptionsRawType => None
    case FragmentType => Some(FragmentPrinter)
    case TextType => Some(TextPrinter)
    case ExpressionTagType => Some(ExpressionTagPrinter)
    case CommentType => Some(CommentPrinter)
    case IfBlockType => Some(IfBlockPrinter)
    case EachBlockType => Some(EachBlockPrinter)
    case AwaitBlockType => Some(AwaitBlockPrinter)
    case KeyBlockType => Some(KeyBlockPrinter)
    case SnippetBlockType => Some(SnippetBlockPrinter)
    case HtmlTagType => Some(HtmlTagPrinter)
    case DebugTagType => Some(DebugTagPrinter)
    case ConstTagType => Some(ConstTagPrinter)
    case RenderTagType => Some(RenderTagPrinter)
    case EstreeType(name) => if name.BinaryExpression? then Some(NoOpPrinter) else None
    case _ => if IsElementType(t) then Some(ElementPrinter) else Some(NoOpPrinter)
  }

  /** The element types the element printer is registered for. */
  predicate IsElementType(t: NodeType)
  {
    t.RegularElementType? || t.ComponentType? || t.SlotElementType? || t.SvelteBodyType?
    || t.SvelteComponentType? || t.SvelteDocumentType? || t.SvelteElementType? || t.SvelteFragmentType?
    || t.SvelteHeadType? || t.SvelteSelfType? || t.SvelteWindowType?
  }

  /** Looking a type up finds exactly the registry's entry, and nothing where the registry has none. */
  lemma LookupIsRegistry(t: NodeType)
    ensures Lookup(t).Some? <==> t in Printers
    ensures t in Printers ==> Lookup(t) == Some(Printers[t])
  {
    if t.EstreeType? {
      if t.name.BinaryExpression? {
        assert t == EstreeType(BinaryExpression);
      }
    } else if t in {RootType, TitleElementType, SvelteOptionsRawType} {
      Unregistered(t);
    } else if IsElementType(t) {
      ElementEntries(t);
    } else if t in {IfBlockType, EachBlockType, AwaitBlockType, KeyBlockType, SnippetBlockType} {
      BlockEntries(t);
    } else if t in {HtmlTagType, DebugTagType, ConstTagType, RenderTagType, FragmentType, TextType, ExpressionTagType, CommentType} {
      TagEntries(t);
    } else {
      DirectiveEntries(t);
    }
  }

  /** The three template types the registry has no entry for. */
  lemma Unregistered(t: NodeType)
    requires t in {RootType, TitleElementType, SvelteOptionsRawType}
    ensures t !in Printers && Lookup(t).None?
  {
  }

  /** The element, component, slot and `svelte:` entries. */
  lemma ElementEntries(t: NodeType)
    requires IsElementType(t)
    ensures t in Printers && Lookup(t) == Some(Printers[t]) == Some(ElementPrinter)
  {
  }

  /** The block entries. */
  lemma BlockEntries(t: NodeType)
    requires t in {IfBlockType, EachBlockType, AwaitBlockType, KeyBlockType, SnippetBlockType}
    ensures t in Printers && Lookup(t) == Some(Printers[t])
  {
  }

  /** The tag, fragment, text and comment entries. */
  lemma TagEntries(t: NodeType)
    requires t in {HtmlTagType, DebugTagType, ConstTagType, RenderTagType, FragmentType, TextType, ExpressionTagType, CommentType}
    ensures t in Printers && Lookup(t) == Some(Printers[t])
  {
  }

  /** The attribute and directive entries, all held by the no-op printer. */
  lemma DirectiveEntries(t: NodeType)
    requires !t.EstreeType? && !IsElementType(t)
    requires t !in {RootType, TitleElementType, SvelteOptionsRawType}
    requires t !in {IfBlockType, EachBlockType, AwaitBlockType, KeyBlockType, SnippetBlockType}
    requires t !in {HtmlTagType, DebugTagType, ConstTagType, RenderTagType, FragmentType, TextType, ExpressionTagType, CommentType}
    ensures t in Printers && Lookup(t) == Some(Printers[t]) == Some(NoOpPrinter)
  {
  }

  /**
   * The printer whose behaviour the model's enter/leave dispatch gives a node
   * of this shape, or None for the shapes the registry has no entry for.
   */
  function ShapePrinter(n: Node): Option<PrinterKind>
  {
    match n
    case Root(_, _) => None
    case Element(_, kind, _, _, _) =>
      if kind == TitleElement || kind == SvelteOptionsRaw then None else Some(ElementPrinter)
    case Text(_, _) => Some(TextPrinter)
    case ExpressionTag(_, _) => Some(ExpressionTagPrinter)
    case Comment(_, _) => Some(CommentPrinter)
    case IfBlock(_, _, _, _, _) => Some(IfBlockPrinter)
    case EachBlock(_, _, _, _, _, _, _) => Some(EachBlockPrinter)
    case AwaitBlock(_, _, _, _, _, _, _) => Some(AwaitBlockPrinter)
    case KeyBlock(_, _, _) => Some(KeyBlockPrinter)
    case SnippetBlock(_, _, _, _) => Some(SnippetBlockPrinter)
    case HtmlTag(_, _) => Some(HtmlTagPrinter)
    case DebugTag(_, _) => Some(DebugTagPrinter)
    case ConstTag(_, _) => Some(ConstTagPrinter)
    case RenderTag(_, _) => Some(RenderTagPrinter)
    case Attribute(_, _, _) => Some(NoOpPrinter)
    case SpreadAttribute(_, _) => Some(NoOpPrinter)
    case Directive(_, _, _, _) => Some(NoOpPrinter)
    case StyleDirective(_, _, _) => Some(NoOpPrinter)
  }

  /**
   * Looking a node's type up in the registry finds exactly the printer its
   * shape is dispatched to, and finds nothing for exactly the unregistered shapes.
   */
  lemma RegistryMatchesShape(n: Node)
    ensures Lookup(TypeOf(n)) == ShapePrinter(n)
    ensures TypeOf(n) in Printers <==> ShapePrinter(n).Some?
  {
    if n.Element? {
      ElementShape(n.kind);
    } else if n.IfBlock? || n.EachBlock? || n.AwaitBlock? || n.KeyBlock? || n.SnippetBlock? {
      BlockShapes(n);
    } else if n.Attribute? || n.SpreadAttribute? || n.Directive? || n.StyleDirective? {
      AttributeShapes(n);
    } else {
      TagShapes(n);
    }
    LookupIsRegistry(TypeOf(n));
  }

  /** Every element-like type but `TitleElement` and `SvelteOptionsRaw` finds the element printer. */
  lemma ElementShape(k: ElementKind)
    ensures Lookup(ElementType(k)) == if k == TitleElement || k == SvelteOptionsRaw then None else Some(ElementPrinter)
  {
  }

  /** Each block finds its own block printer. */
  lemma BlockShapes(n: Node)
    requires n.IfBlock? || n.EachBlock? || n.AwaitBlock? || n.KeyBlock? || n.SnippetBlock?
    ensures Lookup(TypeOf(n)) == ShapePrinter(n)
  {
  }

  /** Attributes and directives all find the no-op printer. */
  lemma AttributeShapes(n: Node)
    requires n.Attribute? || n.SpreadAttribute? || n.Directive? || n.StyleDirective?
    ensures Lookup(TypeOf(n)) == ShapePrinter(n) == Some(NoOpPrinter)
  {
    if n.Directive? {
      assert Lookup(DirectiveType(n.directive)) == Some(NoOpPrinter);
    }
  }

  /** Text, comments and tags find their own printers; the root finds none. */
  lemma TagShapes(n: Node)
    requires !n.Element? && !(n.IfBlock? || n.EachBlock? || n.AwaitBlock? || n.KeyBlock? || n.SnippetBlock?)
    requires !(n.Attribute? || n.SpreadAttribute? || n.Directive? || n.StyleDirective?)
    ensures Lookup(TypeOf(n)) == ShapePrinter(n)
  {
  }

  /**
   * The only estree node type with a registry entry is `BinaryExpression`, and
   * its printer is the no-op printer; every other estree type has none.
   */
  lemma EstreeRegistry(e: Expr)
    ensures Lookup(EstreeType(e.nodeType)).Some? <==> e.nodeType.BinaryExpression?
    ensures EstreeType(e.nodeType) in Printers <==> e.nodeType.BinaryExpression?
    ensures e.nodeType.BinaryExpression? ==> Printers[EstreeType(e.nodeType)] == NoOpPrinter
  {
    LookupIsRegistry(EstreeType(e.nodeType));
  }
}
