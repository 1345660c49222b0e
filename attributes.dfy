/**
 * The text an element writes for each of its attributes and directives
 * (`ElementPrinter.printAttributes`, duplicated as `printAttributes` in the
 * utilities), as a function of the attribute node.
 */
module Attributes {
  import opened Wrappers
  import opened Ast

  /** The transition directive's prefix, from its intro/outro flags. */
  function TransitionPrefix(intro: bool, outro: bool): (p: string)
    ensures p == "in" <==> intro && !outro
    ensures p == "out" <==> outro && !intro
    ensures p == "transition" <==> intro == outro
  {
    if intro && !outro then "in"
    else if outro && !intro then "out"
    else "transition"
  }

  /** The prefix written before the colon of a directive. */
  function DirectivePrefix(k: DirectiveKind): string
  {
    match k
    case Animate => "animate"
    case Bind => "bind"
    case Class => "class"
    case Let => "let"
    case On => "on"
    case Use => "use"
    case Transition(intro, outro) => TransitionPrefix(intro, outro)
  }

  /** ` name={expr}`, an attribute or directive bound to a generated expression. */
  function Bound(head: string, e: Expr, o: Options, gen: Gen): string
  {
    " " + head + "={" + gen(e, o) + "}"
  }

  /** ` name="data"`, an attribute or directive with a quoted static value. */
  function Quoted(head: string, data: string): string
  {
    " " + head + "=\"" + data + "\""
  }

  /**
   * What the element writes for one attribute-like node.
   * Errors: an empty value list (its first element is read), a directive or
   * value whose expression is missing, and a style value list whose first
   * element is not text (the template node itself reaches the generator).
   */
  function AttributeText(a: Node, o: Options, gen: Gen): (r: Result<string>)
    ensures r.Ok? && r.value != "" ==> r.value[0] == ' '
    ensures a.Attribute? && a.value.TrueValue? ==> r == Ok("")
    ensures a.SpreadAttribute? ==> r == Ok(" {..." + gen(a.expression, o) + "}")
    ensures r.Err? ==> a.Attribute? || a.Directive? || a.StyleDirective?
    ensures a.Directive? ==> (r.Err? <==> a.argument.None? && (a.directive == Bind || a.directive == Class))
    ensures !(a.Attribute? || a.SpreadAttribute? || a.Directive? || a.StyleDirective?) ==> r == Ok("")
  {
    match a
    case Attribute(_, name, value) =>
      (match value
      case TrueValue => Ok("")
      case ListValue(parts) =>
        if |parts| == 0 then Err(EmptyValue(name))
        else (match parts[0]
          case Text(_, data) => Ok(Quoted(name, data))
          case ExpressionTag(_, e) => Ok(Bound(name, e, o, gen))
          case _ => Ok(""))
      case ExpressionValue(tag) =>
        (match ExpressionField(tag)
         case Some(e) => Ok(Bound(name, e, o, gen))
         case None => Err(MissingExpression(TypeOf(tag)))))
    case SpreadAttribute(_, e) => Ok(" {..." + gen(e, o) + "}")
    case Directive(_, k, name, argument) =>
      (match argument
       case Some(e) => Ok(Bound(DirectivePrefix(k) + ":" + name, e, o, gen))
       case None =>
         if k == Bind || k == Class then Err(MissingExpression(DirectiveType(k)))
         else Ok(" " + DirectivePrefix(k) + ":" + name))
    case StyleDirective(_, name, value) =>
      (match value
      case TrueValue => Ok(" style:" + name)
      case ListValue(parts) =>
        if |parts| == 0 then Err(EmptyValue(name))
        else if parts[0].Text? then Ok(Quoted("style:" + name, parts[0].data))
        else Err(NotEstree(TypeOf(parts[0])))
      case ExpressionValue(tag) =>
        (match ExpressionField(tag)
         case Some(e) => Ok(Bound("style:" + name, e, o, gen))
         case None => Err(MissingExpression(TypeOf(tag)))))
    case _ => Ok("")
  }

  /** The attributes written one after the other, in order; the first error stops the run. */
  function AttributesText(attrs: seq<Node>, o: Options, gen: Gen): Result<string>
  {
    if |attrs| == 0 then Ok("")
    else Then(AttributesText(attrs[..|attrs| - 1], o, gen), AttributeText(attrs[|attrs| - 1], o, gen))
  }

  /** One more attribute: the run up to and including attribute `i` is the run before it, then its text. */
  lemma AttributesTextStep(attrs: seq<Node>, i: nat, o: Options, gen: Gen)
    requires i < |attrs|
    ensures AttributesText(attrs[..i + 1], o, gen) == Then(AttributesText(attrs[..i], o, gen), AttributeText(attrs[i], o, gen))
  {
    assert attrs[..i + 1][..i] == attrs[..i];
  }

  /** Printing two runs of attributes is printing the first run, then the second. */
  lemma {:induction false} AttributesTextAppend(xs: seq<Node>, ys: seq<Node>, o: Options, gen: Gen)
    ensures AttributesText(xs + ys, o, gen) == Then(AttributesText(xs, o, gen), AttributesText(ys, o, gen))
    decreases |ys|
  {
    if |ys| == 0 {
      assert xs + ys == xs;
      var a := AttributesText(xs, o, gen);
      if a.Ok? {
        assert a.value + "" == a.value;
      }
    } else {
      var ys' := ys[..|ys| - 1];
      assert (xs + ys)[..|xs + ys| - 1] == xs + ys';
      assert (xs + ys)[|xs + ys| - 1] == ys[|ys| - 1];
      AttributesTextAppend(xs, ys', o, gen);
      ThenAssoc(AttributesText(xs, o, gen), AttributesText(ys', o, gen), AttributeText(ys[|ys| - 1], o, gen));
    }
  }

  /**
   * When every attribute prints, the run is the concatenation of their texts
   * in their original order: the text up to and including attribute `i` is
   * the text of the attributes before it followed by its own, and it is a
   * prefix of the whole run.
   */
  lemma {:induction false} AttributesTextInOrder(attrs: seq<Node>, i: nat, o: Options, gen: Gen)
    requires i < |attrs|
    requires AttributesText(attrs, o, gen).Ok?
    ensures AttributesText(attrs[..i], o, gen).Ok? && AttributeText(attrs[i], o, gen).Ok?
    ensures AttributesText(attrs[..i + 1], o, gen)
         == Ok(AttributesText(attrs[..i], o, gen).value + AttributeText(attrs[i], o, gen).value)
    ensures AttributesText(attrs[..i + 1], o, gen).value <= AttributesText(attrs, o, gen).value
  {
    assert attrs == attrs[..i + 1] + attrs[i + 1..];
    AttributesTextAppend(attrs[..i + 1], attrs[i + 1..], o, gen);
    assert attrs[..i + 1][..i] == attrs[..i];
  }

  /**
   * The first attribute that fails decides the error, whatever follows it:
   * nothing after a throwing attribute is looked at.
   */
  lemma {:induction false} AttributesTextFirstError(attrs: seq<Node>, i: nat, o: Options, gen: Gen)
    requires i < |attrs|
    requires AttributesText(attrs[..i], o, gen).Ok?
    requires AttributeText(attrs[i], o, gen).Err?
    ensures AttributesText(attrs, o, gen) == AttributeText(attrs[i], o, gen)
  {
    assert attrs == attrs[..i + 1] + attrs[i + 1..];
    AttributesTextAppend(attrs[..i + 1], attrs[i + 1..], o, gen);
    assert attrs[..i + 1][..i] == attrs[..i];
  }

  /** A run of attributes that all hold `true` prints nothing. */
  lemma {:induction false} TrueAttributesSilent(attrs: seq<Node>, o: Options, gen: Gen)
    requires forall i :: 0 <= i < |attrs| ==> attrs[i].Attribute? && attrs[i].value.TrueValue?
    ensures AttributesText(attrs, o, gen) == Ok("")
  {
    if |attrs| > 0 {
      var k := |attrs| - 1;
      TrueAttributesSilent(attrs[..k], o, gen);
      AttributesTextStep(attrs, k, o, gen);
      assert attrs[..k + 1] == attrs;
    }
  }

  /**
   * A directive bound to an expression prints ` prefix:name={expr}`; without
   * one, `bind:` and `class:` fail while the others print the bare ` prefix:name`.
   */
  lemma DirectiveText(k: DirectiveKind, name: string, argument: Option<Expr>, skip: bool, o: Options, gen: Gen)
    ensures var r := AttributeText(Directive(skip, k, name, argument), o, gen);
            && (argument.Some? ==> r == Ok(" " + DirectivePrefix(k) + ":" + name + "={" + gen(argument.value, o) + "}"))
            && (argument.None? && k != Bind && k != Class ==> r == Ok(" " + DirectivePrefix(k) + ":" + name))
            && (argument.None? && (k == Bind || k == Class) ==> r == Err(MissingExpression(DirectiveType(k))))
  {
    if argument.Some? {
      var p := DirectivePrefix(k);
      var g := gen(argument.value, o);
      assert " " + (p + ":" + name) + "={" + g + "}" == " " + p + ":" + name + "={" + g + "}";
    }
  }

  /** Only the first element of an attribute's value list is printed; the rest never shows. */
  lemma AttributeFirstPartOnly(skip: bool, name: string, first: Node, rest: seq<Node>, o: Options, gen: Gen)
    ensures AttributeText(Attribute(skip, name, ListValue([first] + rest)), o, gen)
         == AttributeText(Attribute(skip, name, ListValue([first])), o, gen)
  {
    assert ([first] + rest)[0] == first;
  }

  /** Static and bound style directives. */
  lemma StyleDirectiveText(skip: bool, name: string, data: string, rest: seq<Node>, o: Options, gen: Gen)
    ensures AttributeText(StyleDirective(skip, name, TrueValue), o, gen) == Ok(" style:" + name)
    ensures AttributeText(StyleDirective(skip, name, ListValue([Text(false, data)] + rest)), o, gen)
         == Ok(" style:" + name + "=\"" + data + "\"")
  {
    assert ([Text(false, data)] + rest)[0] == Text(false, data);
    assert " " + ("style:" + name) + "=\"" + data + "\"" == " style:" + name + "=\"" + data + "\"";
  }
}
