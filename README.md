# svelte-ast-printer, modelled in Dafny

This project models the core of svelte-ast-printer. The library turns the
tree that the Svelte compiler's parser produces back into component source
text. The model covers three parts:

- **The markup printer** (`printHtml`). A walker visits the template tree.
  For every node it looks up a printer by the node's `type` in the registry
  `PRINTERS`. It calls the printer's `enter`, then visits the child fields
  that `enter` left in place, then calls `leave`. Each printer appends text
  to a sink. It can also tell the walker to skip the node's subtree, or
  clear fields it has printed itself (`this.replace`). `printHtml` returns
  the sink's contents trimmed.
- **The utilities** (`identLiteral`, `printAttributes` and
  `attributeToString`).
- **The document assembler** (`printAst`). It prints the markup first, then
  the instance script, then the module script. It joins them in a different
  order: the module script, the instance script, then the markup.

The model has two layers:

- **The specification layer** is made of pure functions over an immutable
  tree. `HtmlSpec.Walk` and its companions give what the walk writes.
  `Attributes.AttributeText` gives the text of one attribute. `Registry`
  holds the registry.
- **The imperative layer** is `Sink.Context`, a class whose `text` field is
  the sink that `write` appends to. Every printer's `enter` and `leave`, the
  walker's loops over child fields and sibling nodes, and `printHtml`
  itself are methods over this class. Each method is proved to append
  exactly the text the specification layer gives, or to stop with the
  error it names.

A thrown exception is an `Err` result. Once an error is thrown, what was
written before it no longer matters: the sink is discarded along with the
call.

The expression generator (astring's `generate`) is external. It is a
parameter `gen` of type `(Expr, Options) -> string` and is never
interpreted. An embedded estree node is opaque: the printer looks only at
its `type` name.

Modules:

- `Ast`: the tree, the options, the errors and sequencing.
- `Strings`: lodash `trim`, `join`, repetition.
- `Registry`: `PRINTERS` and `getPrinters`.
- `Attributes`: the attribute text.
- `Sink`: the context class.
- `Utils`: `utils.ts`.
- `HtmlSpec`: the walk as functions.
- `WalkLemmas`: splitting walks.
- `HtmlPrinter`: the printers and the walker as methods.
- `HtmlProperties`: what printed markup looks like.
- `PrintAst`: `print-ast.ts`.

## Model

| member | source | states |
|---|---|---|
| Ast.Then | src/print-html.ts:547-570 | Two writes in a row succeed exactly when both do. Their texts then concatenate. Otherwise the first error is the error. |
| Ast.ThenAssoc | src/print-html.ts:547-570 | A run of writes may be grouped either way. |
| Ast.ThenUnit | src/print-html.ts:547-570 | Writing nothing before or after a piece of output leaves it unchanged. |
| Ast.TypeOf | src/print-html.ts:554 | A template node's `type` is never an estree node type. |
| Registry.GetPrinters | src/print-html.ts:543-545 | A type has an entry in the map `getPrinters` returns exactly when the walker's dispatch finds a printer for it, and the entry is that printer. |
| Registry.LookupAgrees | src/print-html.ts:501-537 | For every type at once, the walker's dispatch finds a printer exactly for the keys of `PRINTERS`, and finds that key's printer. |
| Registry.LookupIsRegistry | src/print-html.ts:501-537 | Lookup by type finds a printer exactly for the keys of `PRINTERS`, and then finds that key's entry. |
| Registry.Unregistered | src/print-html.ts:501-537 | `Root`, `TitleElement` and `SvelteOptionsRaw` have no registry entry. |
| Registry.ElementEntries | src/print-html.ts:503-516 | Every element, component, slot and `svelte:` type is registered to the element printer. |
| Registry.BlockEntries | src/print-html.ts:528-535 | The if, each, await, key and snippet blocks are registered. |
| Registry.TagEntries | src/print-html.ts:501-537 | Fragment, text, expression tag, comment and the html, debug, const and render tags are registered. |
| Registry.DirectiveEntries | src/print-html.ts:517-526 | Every attribute and directive type is registered to the no-op printer. |
| Registry.RegistryMatchesShape | src/print-html.ts:501-537 | Looking a node's type up finds exactly the printer for its shape. A node's type is a key of `PRINTERS` exactly when its shape has a printer. |
| Registry.ElementShape | src/print-html.ts:503-516 | Each element kind finds the element printer, except `TitleElement` and `SvelteOptionsRaw`, which find none. |
| Registry.AttributeShapes | src/print-html.ts:517-526 | Attributes, spreads and directives all find the no-op printer. |
| Registry.EstreeRegistry | src/print-html.ts:527 | `BinaryExpression` is the only estree type with a printer, and that printer is the no-op printer. |
| Strings.LeadingSpace | src/print-html.ts:281 | Counts the leading whitespace run exactly: all of it is whitespace, and the next character is not. |
| Strings.TrailingSpace | src/print-html.ts:281 | Counts the trailing whitespace run exactly: all of it is whitespace, and the character before it is not. |
| Strings.TrimStart | src/print-html.ts:281 | The result is a suffix of the input. The part removed is all whitespace, and the result does not start with whitespace. |
| Strings.TrimEnd | src/print-html.ts:581 | The result is a prefix of the input. The part removed is all whitespace, and the result does not end with whitespace. |
| Strings.Trim | src/print-html.ts:581 | The trimmed text neither starts nor ends with whitespace. |
| Strings.TrimEmptyIff | src/print-html.ts:281-283 | Trimming leaves nothing exactly when the text is all whitespace. |
| Strings.TrimUntrimmed | src/print-html.ts:581 | A text that neither starts nor ends with whitespace trims to itself. |
| Strings.TrimIdempotent | src/print-html.ts:581 | Trimming twice is the same as trimming once. |
| Strings.Repeat | src/utils.ts:48-50 | Repeating a text `count` times has `count` times its length. |
| Strings.RepeatBlocks | src/utils.ts:48-50 | Every block of a repetition is the repeated text itself. |
| Utils.JoinHoles | src/utils.ts:49 | Joining `n + 1` holes (`Holes`, the empty slots of `new Array(n + 1)`) with `sep` gives `sep` repeated `n` times. |
| Utils.RepeatFront | src/utils.ts:49 | A repetition can be grown at the front as well as at the back. |
| Utils.IdentLiteral | src/utils.ts:48-50 | `identLiteral(level, ident)` is `ident` repeated `level - 1` times. It is empty for levels 0 and 1. It throws the invalid-array-length error exactly when the level is outside 0 to 2^32 - 1. |
| Utils.IdentLiteralStep | src/utils.ts:48-50 | One more level adds exactly one more `ident`. |
| Utils.PrintAttributes | src/utils.ts:52-137 | Writes exactly `AttributeText` of the attribute into the context, or throws its error having written nothing. |
| Utils.PrintAttribute | src/utils.ts:55-72 | The `Attribute` branch: nothing for `true`, the first value part quoted or bound, or the bound expression. An empty value list or a missing expression throws. |
| Utils.PrintDirective | src/utils.ts:75-96 | The directive branches: ` prefix:name={expr}`, or the bare ` prefix:name`. `bind:` and `class:` without an expression throw. |
| Utils.PrintStyleDirective | src/utils.ts:97-111 | The `StyleDirective` branch: bare, quoted text, or bound expression. A non-text first part throws. |
| Utils.AttributeToString | src/utils.ts:139-156 | `attributeToString` returns what `printAttributes` writes with empty indent and line end, or its error. |
| Attributes.TransitionPrefix | src/utils.ts:113-123 | The prefix is `in` exactly for intro only, `out` exactly for outro only, and `transition` exactly when both flags agree. |
| Attributes.AttributeText | src/print-html.ts:100-185 | Any non-empty attribute text starts with a space. A `true` attribute and a non-attribute node print nothing. A spread prints ` {...expr}`. Only attributes and directives can fail. A directive fails exactly when it has no expression and is `bind:` or `class:`. |
| Attributes.AttributesTextStep | src/print-html.ts:210 | The text of the first `i + 1` attributes is the text of the first `i`, then that of attribute `i`. |
| Attributes.AttributesTextAppend | src/print-html.ts:210 | Printing two runs of attributes is printing the first run, then the second. |
| Attributes.AttributesTextInOrder | src/print-html.ts:210 | When all attributes print, each one's text follows those before it, and every such prefix is a prefix of the whole run. |
| Attributes.AttributesTextFirstError | src/print-html.ts:210 | The first attribute that throws decides the error, whatever follows it. |
| Attributes.TrueAttributesSilent | src/print-html.ts:104-106 | A run of `true` attributes prints nothing. |
| Attributes.DirectiveText | src/print-html.ts:123-185 | A directive with an expression prints ` prefix:name={expr}`. Without one, `bind:` and `class:` throw and the others print ` prefix:name`. |
| Attributes.AttributeFirstPartOnly | src/print-html.ts:108-117 | Only the first part of an attribute's value list is printed. |
| Attributes.StyleDirectiveText | src/print-html.ts:144-158 | Static style directives print ` style:name` or ` style:name="data"`. |
| Sink.Context.constructor | src/print-html.ts:572-577 | A fresh sink is empty and holds the given options and generator. |
| Sink.Context.Write | src/print-html.ts:575-577 | `write` appends its argument to the sink and changes nothing else. |
| Sink.EmittedText | src/print-html.ts:575-577 | A step that appended `t` without error emitted `t`. |
| Sink.EmittedThen | src/print-html.ts:547-570 | Two steps in a row emit the sequence of what each emitted. |
| HtmlSpec.ElementOpen | src/print-html.ts:187-230 | The opening tag starts with `<name`. It succeeds exactly when the attributes print, and otherwise fails with their error. |
| HtmlSpec.CommentText | src/print-html.ts:277-289 | A comment prints nothing exactly when it is all whitespace. Otherwise it prints `<!-- trimmed -->` and the line end. |
| HtmlSpec.StripConst | src/print-html.ts:452 | Removing `;` and `const` leaves no semicolon and never lengthens the text. |
| HtmlSpec.ElementChildren | src/print-html.ts:187-230 | Every child field of an element lies inside it. |
| HtmlSpec.AllChildren | src/print-html.ts:547-570 | Every child field the walker visits lies strictly inside the node, so the walk ends. |
| HtmlSpec.RemainingChildren | src/print-html.ts:314-319 | The fields left after `replace` lie inside the node. |
| HtmlSpec.PrintHtml | src/print-html.ts:572-582 | `printHtml` succeeds exactly when the walk of the root's fragment does, and otherwise throws its error. Its text neither starts nor ends with whitespace. |
| HtmlPrinter.EnterAppended | src/print-html.ts:559 | An `enter` that appended `t` and left decision `v` reports exactly that step. |
| HtmlPrinter.EmittedEntered | src/print-html.ts:559 | An `enter` whose writes emitted a specified text reports that text with its decision. |
| HtmlPrinter.EnteredEmitted | src/print-html.ts:559 | A successful `enter` emitted exactly the text it appended. |
| HtmlPrinter.ContainsIfBlock | src/print-html.ts:306 | True exactly when some node of the alternate is an if block. |
| HtmlPrinter.PrintAttributeList | src/print-html.ts:210 | The attribute loop writes exactly the attributes' texts in order, or throws the first error. |
| HtmlPrinter.OpenTag | src/print-html.ts:190-208 | Writes `<name` and the `this={...}` target, and clears the target exactly when there is one. |
| HtmlPrinter.EnterElement | src/print-html.ts:187-230 | The element printer's `enter` writes exactly the opening tag, or throws the attributes' error. |
| HtmlPrinter.LeaveElement | src/print-html.ts:231-253 | Writes `</name>`, except for void elements and empty self-closing kinds. |
| HtmlPrinter.EnterText | src/print-html.ts:256-268 | Writes the text quoted when the parent is an attribute, and verbatim otherwise. |
| HtmlPrinter.EnterComment | src/print-html.ts:277-289 | Writes the trimmed comment between markers and the line end, or nothing for a blank comment. |
| HtmlPrinter.CommentEntered | src/print-html.ts:281-286 | The comment printer's writes are the specified comment text. |
| HtmlPrinter.EnterIf | src/print-html.ts:291-320 | The if printer's `enter` writes its head, then its alternate, or throws the first error. |
| HtmlPrinter.EnterIfHead | src/print-html.ts:295-303 | `{#if test}`, the line end and the consequent. Or, for `{:else if}`, the marker, the consequent and the line end. |
| HtmlPrinter.EnterIfAlternate | src/print-html.ts:305-312 | `{:else}` unless the alternate holds an if block, then the line end and the alternate's nodes. |
| HtmlPrinter.EnterEach | src/print-html.ts:330-356 | Writes exactly the each header and clears what it printed. |
| HtmlPrinter.EnterAwait | src/print-html.ts:363-401 | Writes the await header, then the pending, then and catch parts in order, or throws the first error. |
| HtmlPrinter.EnterAwaitPending | src/print-html.ts:368-370 | Writes the pending branch when there is one. |
| HtmlPrinter.EnterAwaitThen | src/print-html.ts:372-380 | Writes the `{:then}` marker and the then branch when there is one. |
| HtmlPrinter.EnterAwaitCatch | src/print-html.ts:382-390 | Writes the `{:catch}` marker and the catch branch when there is one. |
| HtmlPrinter.EnterTag | src/print-html.ts:424-495 | The expression, html, debug, const and render tags and the key and snippet openers each write their one specified text and clear what they printed. Debug identifiers and snippet parameters are generated one by one (`GenAll`) and joined by `, `. |
| HtmlPrinter.EnterNoOp | src/print-html.ts:270-275 | Writes nothing and skips the subtree. |
| HtmlPrinter.EnterBlock | src/print-html.ts:291-406 | The if, each and await printers' `enter` match the specification. |
| HtmlPrinter.EnterNode | src/print-html.ts:559 | The registered printer's `enter` writes exactly what the specification's `Enter` gives and leaves its decision. |
| HtmlPrinter.LeaveNode | src/print-html.ts:561-568 | The registered printer's `leave` appends exactly `Leave`. |
| HtmlPrinter.VisitNode | src/print-html.ts:547-570 | Visiting a node writes exactly its walk. A skip-flagged node gets no `enter` or `leave`. An unregistered type throws `Could not find printer`. |
| HtmlPrinter.VisitPrinted | src/print-html.ts:554-568 | `enter`, then the rest of the walk, as specified. |
| HtmlPrinter.VisitRest | src/print-html.ts:561-568 | After `enter`: nothing for a skipped subtree, otherwise the remaining children and then `leave`. |
| HtmlPrinter.VisitChild | src/print-html.ts:547-570 | Visiting one child field writes exactly its walk. An estree node other than `BinaryExpression` throws. |
| HtmlPrinter.VisitChildren | src/print-html.ts:547-570 | The loop over child fields writes exactly their walks in order, or throws the first error. |
| HtmlPrinter.VisitSibling | src/print-html.ts:547-570 | One pass of the fragment loop extends the walk of the earlier siblings by this node's walk. |
| HtmlPrinter.VisitNodes | src/print-html.ts:547-570 | The loop over a fragment's nodes writes exactly their walks in order, or throws the first error. |
| HtmlPrinter.PrintHtml | src/print-html.ts:572-582 | `printHtml` returns exactly `HtmlSpec.PrintHtml`: the walk of the copied fragment into a fresh sink, trimmed, or its error. |
| HtmlProperties.WalkAfterEnter | src/print-html.ts:547-570 | A registered node whose `enter` cleared its printed fields walks as its `enter` text, then the remaining fields, then `leave`. |
| HtmlProperties.WalkLeaf | src/print-html.ts:547-570 | A node with no fields left and an empty `leave` walks as exactly its `enter` text. |
| HtmlProperties.AttributeNodeSilent | src/print-html.ts:270-275 | The walker reaching an attribute node writes nothing. |
| HtmlProperties.AttributeChildrenSilent | src/print-html.ts:270-275 | A run of attribute nodes walked as child fields writes nothing. |
| HtmlProperties.ElementChildrenWalk | src/print-html.ts:187-253 | After an element's `enter`, only its content writes anything. |
| HtmlProperties.ElementWalk | src/print-html.ts:187-253 | An element prints its opening tag, its content, then its closing tag. Its attributes and `this` target are not printed again. |
| HtmlProperties.VoidElementNeverClosed | src/print-html.ts:234 | A void element never gets a closing tag. |
| HtmlProperties.SelfClosedElement | src/print-html.ts:212-229 | An empty component, slot or `svelte:` element prints `<name ... />`, the line end, and nothing on leave. |
| HtmlProperties.PairedElement | src/print-html.ts:187-253 | Any other element prints `<name ...>`, the line end, its content and exactly one `</name>`. It succeeds exactly when its attributes and content do. |
| HtmlProperties.IfBlockWalk | src/print-html.ts:291-327 | The if printer prints both branches on `enter`. The head of a chain ends with `{/if}` and the line end; an `{:else if}` branch does not. |
| HtmlProperties.IfWithoutElse | src/print-html.ts:299-327 | An if block without alternate prints `{#if test}`, the line end, the consequent, `{/if}` and the line end. |
| HtmlProperties.ElseMarker | src/print-html.ts:305-312 | `{:else}` is written exactly when the alternate holds no if block. |
| HtmlProperties.SingleTextNode | src/print-html.ts:256-268 | A fragment of one text node prints that text. |
| HtmlProperties.SimpleIfText | src/print-html.ts:291-327 | `{#if b}y{/if}` with an empty line end. |
| HtmlProperties.IfInElseText | src/print-html.ts:305-312 | An if block nested in the alternate prints with no `{:else}`. |
| HtmlProperties.IfInThenText | src/print-html.ts:291-327 | An if block nested at the end of the consequent prints after the text. |
| HtmlProperties.TextThenNode | src/print-html.ts:547-570 | A text node followed by one more node walks as the text, then that node's output. |
| HtmlProperties.NestedIfInElseLosesMarker | src/print-html.ts:305-312 | `{#if a}x{:else}{#if b}y{/if}{/if}` prints exactly as `{#if a}x{#if b}y{/if}{/if}`. |
| HtmlProperties.EachBlockWalk | src/print-html.ts:330-361 | An each block prints its header, body, fallback (with no marker) and `{/each}`. |
| HtmlProperties.EachChildrenWalk | src/print-html.ts:350-355 | After the header, the walker visits the body, then the fallback. |
| HtmlProperties.AwaitBlockWalk | src/print-html.ts:363-406 | An await block prints its header, pending, then and catch parts, then `{/await}`, and succeeds exactly when every part does. |
| HtmlProperties.KeyBlockWalk | src/print-html.ts:408-422 | A key block prints `{#key e}`, its content and `{/key}`. |
| HtmlProperties.SnippetBlockWalk | src/print-html.ts:461-481 | A snippet prints `{#snippet name(params)}`, its body and `{/snippet}`. The parameters are generated one by one (`GenAll`), joined by `, `, and not walked. |
| HtmlProperties.HtmlTagWalk | src/print-html.ts:424-434 | `{@html e}` prints the generated expression inside the tag. |
| HtmlProperties.DebugTagWalk | src/print-html.ts:436-447 | `{@debug a, b}` prints each identifier generated on its own, joined by `, `, in order. |
| HtmlProperties.RenderTagWalk | src/print-html.ts:483-495 | `{@render e}` prints the generated expression inside the tag. |
| HtmlProperties.ExpressionTagWalk | src/print-html.ts:86-97 | An expression tag prints `{expr}`. Skip-flagged, it walks into its expression, which fails unless that is a `BinaryExpression`. |
| HtmlProperties.CommentWalk | src/print-html.ts:277-289 | A blank comment prints nothing; any other prints between markers, trimmed. |
| HtmlProperties.TextWalk | src/print-html.ts:256-268 | Text prints verbatim, and quoted directly inside an attribute. |
| HtmlProperties.SkippedAttributeQuotesText | src/print-html.ts:550-552 | A skip-flagged attribute's static text reaches the text printer and is written, quoted, into the markup. |
| HtmlProperties.UnregisteredFails | src/print-html.ts:554-557 | A node type without a printer fails the walk with an error naming the type. |
| HtmlProperties.SkippedElementPrintsContent | src/print-html.ts:550-552 | A skip-flagged element prints only its content, without tags or attributes. |
| HtmlProperties.EmptyTemplate | src/print-html.ts:572-582 | An empty template prints the empty string. |
| HtmlProperties.PrintHtmlTrimmed | src/print-html.ts:581 | The markup returned needs no further trimming. |
| HtmlProperties.ConstTagHasNoSemicolon | src/print-html.ts:449-459 | `{@const ...}` never shows a semicolon, whatever the generator wrote. |
| HtmlProperties.StripConstExample | src/print-html.ts:452 | `const x = 1;` becomes ` x = 1`. |
| WalkLemmas.WalkNodesPrefixError | src/print-html.ts:547-570 | Once a prefix of a fragment fails, the whole fragment fails with that error. |
| WalkLemmas.WalkChildrenPrefixError | src/print-html.ts:547-570 | Once a prefix of the child fields fails, the whole walk fails with that error. |
| WalkLemmas.WalkNodesStep | src/print-html.ts:547-570 | The walk up to node `i + 1` is the walk up to `i`, then node `i`. |
| WalkLemmas.WalkChildrenStep | src/print-html.ts:547-570 | The walk up to field `i + 1` is the walk up to `i`, then field `i`. |
| WalkLemmas.WalkNodesPush | src/print-html.ts:547-570 | A sibling added at the end is walked after the others. |
| WalkLemmas.WalkChildrenPush | src/print-html.ts:547-570 | A field added at the end is walked after the others. |
| WalkLemmas.WalkNodesSingle | src/print-html.ts:547-570 | A single sibling walks as itself. |
| WalkLemmas.WalkChildrenSingle | src/print-html.ts:547-570 | A single field walks as itself. |
| PrintAst.MergeOptions | src/print-ast.ts:11-14 | Each option given overrides the default. Each option absent keeps the default (two spaces, newline). |
| PrintAst.ScriptText | src/print-ast.ts:21-22 | An absent script prints as the empty string. |
| PrintAst.PrintAst | src/print-ast.ts:9-31 | `printAst` fails exactly when the markup printer does, with its error. |
| PrintAst.SegmentOrder | src/print-ast.ts:24-30 | The result is the module script and the line end, then the instance script and the line end, then the markup, with no trimming. |
| PrintAst.AbsentScriptsKeepLineEnds | src/print-ast.ts:24-28 | A document without scripts still gets both line ends before its markup. |
| PrintAst.NoTrimming | src/print-ast.ts:24-30 | With an empty line end and no scripts, the result is exactly the markup. |

## Left out

- The expression and script generators (astring's `generate` and `print-script.ts`) are not part of this model. `gen` and `printAst`'s `script` are uninterpreted parameters. A generator called with `null`/`undefined`, or with a template node, is modelled as throwing.
- estree-walker's order of child fields is the key order of the node objects the parser builds. The model fixes one field order per node type (`AllChildren`), in the order the parser's fields are declared.
- Nested estree expressions are opaque. The walker never descends into an estree node: only `BinaryExpression` has a printer, and that printer skips.
- `skip` flags on fragments and on estree nodes are not modelled. Only template nodes carry one.
- `_.cloneDeep` in `printHtml` and `getPrinters` is the identity on immutable values. Aliasing between the copy and the caller's tree does not arise.
- The parser, and any round trip through it, are not part of this model.
- Utils.IdentLiteral: a non-integer level (`new Array(1.5)` throws) is not modelled; levels are integers.
- The `parent` argument is modelled as the parent's type only; only the text printer looks at it. The copied fragment the walk starts from has a `null` parent, and its printer writes nothing, so the model starts from its nodes.
- PrintAst.PrintAst: the markup and script printers are parameters. `print-ast.ts` calls `printHtml({rootNode, ident})`, which does not match `printHtml(root, indent)` in `src/print-html.ts:572`. The module that joins the two is not part of this model.
- PrintAst.PrintAst: the script printer is total, so `printAst` fails exactly when the markup printer does. The call as written, `printScript({script, ident})` (`src/print-ast.ts:21-22`), passes an object without the `instance` and `module` fields that the script printer reads, so it returns the empty string and cannot throw. Given a real root, the script printer could throw through `attributeToString` or `generate`; the model does not capture that.
- An options object that has a key holding `undefined` overrides the default with `undefined`. The model has no such value: a key is present with a string, or absent.
- HtmlPrinter.PrintHtml: the default `indent` argument is not modelled; the caller passes the options (`Ast.DefaultOptions` are the defaults).
- The element printer's private `printAttributes` (`src/print-html.ts:100-185`) and `printAttributes` in `src/utils.ts:52-137` are textually the same. Both are specified by `Attributes.AttributeText`, and only the `utils.ts` copy has its own methods (`Utils.PrintAttributes` and its branches). The element's loop calls them.
- Estree type names are `BinaryExpression` or any other name. The registry tells only that one apart.

These behaviours are modelled as the code has them:

- `{:else}` is left out whenever the alternate holds any if block, not only an `{:else if}` chain (`HtmlProperties.NestedIfInElseLosesMarker`).
- An each block's fallback is printed right after the body with no `{:else}` marker (`HtmlProperties.EachBlockWalk`).
- A style directive whose value list starts with something other than text hands the template node to the generator. This is an error (`Attributes.AttributeText`).
- A skip-flagged attribute is walked into, so its text is printed, quoted, in the markup (`HtmlProperties.SkippedAttributeQuotesText`).
- A regular element with no content, written `<main/>` in a template, prints `<main>`, the line end and `</main>` (`HtmlProperties.PairedElement`).
