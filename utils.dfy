/**
 * The utilities: the indentation literal, the stand-alone attribute printer
 * that writes into a context, and the helper that renders one attribute to a
 * string.
 */
module Utils {
  import opened Wrappers
  import opened Ast
  import opened Strings
  import opened Attributes
  import opened Sink

  /** The largest length `new Array(n)` accepts: 2^32 - 1. */
  const MaxArrayLength: int := 0xFFFF_FFFF

  /** `new Array(n)`: `n` holes, each of which `join` renders as the empty string. */
  function Holes(n: nat): seq<string>
  {
    seq(n, _ => "")
  }

  /** Joining `n + 1` empty strings leaves just the `n` separators between them. */
  lemma {:induction false} JoinHoles(n: nat, sep: string)
    ensures Join(Holes(n + 1), sep) == Repeat(sep, n)
  {
    if n > 0 {
      var hs := Holes(n + 1);
      assert hs[1..] == Holes(n);
      JoinHoles(n - 1, sep);
      RepeatFront(sep, n - 1);
      assert Join(hs, sep) == "" + sep + Repeat(sep, n - 1);
    }
  }

  /** A repetition may be grown at the front as well as at the back. */
  lemma {:induction false} RepeatFront(s: string, count: nat)
    ensures Repeat(s, count + 1) == s + Repeat(s, count)
  {
    if count > 0 {
      RepeatFront(s, count - 1);
      assert Repeat(s, count + 1) == (s + Repeat(s, count - 1)) + s;
    }
  }

  /**
   * `identLiteral(level, ident)`, that is `new Array(level).join(ident)`:
   * `ident` repeated `level - 1` times (nothing for level 0 or 1), or the
   * RangeError the array constructor throws for a length outside 0 .. 2^32 - 1.
   */
  function IdentLiteral(level: int, ident: string): (r: Result<string>)
    ensures r.Ok? <==> 0 <= level <= MaxArrayLength
    ensures r.Err? ==> r.error == InvalidArrayLength(level)
    ensures r.Ok? ==> r.value == Repeat(ident, if level == 0 then 0 else level - 1)
    ensures r.Ok? && level <= 1 ==> r.value == ""
  {
    if level < 0 || level > MaxArrayLength then Err(InvalidArrayLength(level))
    else if level == 0 then Ok(Join(Holes(0), ident))
    else
      JoinHoles(level - 1, ident);
      Ok(Join(Holes(level), ident))
  }

  /** One more level of nesting adds exactly one more `ident`. */
  lemma IdentLiteralStep(level: int, ident: string)
    requires 1 <= level < MaxArrayLength
    ensures IdentLiteral(level + 1, ident).Ok? && IdentLiteral(level, ident).Ok?
    ensures IdentLiteral(level + 1, ident).value == IdentLiteral(level, ident).value + ident
  {
  }

  /**
   * `printAttributes(attribute, context)`: writes the attribute or directive
   * into the context. On failure nothing has been written.
   */
  method PrintAttributes(a: Node, ctx: Context) returns (err: Option<Error>)
    modifies ctx
    ensures Emitted(old(ctx.text), ctx.text, AttributeText(a, ctx.options, ctx.gen), err)
    ensures err.Some? ==> ctx.text == old(ctx.text)
  {
    err := None;
    EmittedText(ctx.text, ctx.text, "");
    if a.Attribute? {
      err := PrintAttribute(a, ctx);
    } else if a.SpreadAttribute? {
      var written := " {..." + ctx.gen(a.expression, ctx.options) + "}";
      ctx.Write(written);
      EmittedText(old(ctx.text), ctx.text, written);
    } else if a.Directive? {
      err := PrintDirective(a, ctx);
    } else if a.StyleDirective? {
      err := PrintStyleDirective(a, ctx);
    }
  }

  /** The `Attribute` branch: nothing for `true`, else the first value part or the expression. */
  method PrintAttribute(a: Node, ctx: Context) returns (err: Option<Error>)
    requires a.Attribute?
    modifies ctx
    ensures Emitted(old(ctx.text), ctx.text, AttributeText(a, ctx.options, ctx.gen), err)
    ensures err.Some? ==> ctx.text == old(ctx.text)
  {
    err := None;
    EmittedText(ctx.text, ctx.text, "");
    var o, gen, name := ctx.options, ctx.gen, a.name;
    match a.value {
      case TrueValue =>
        return;
      case ListValue(parts) =>
        if |parts| == 0 {
          return Some(EmptyValue(name));
        }
        if parts[0].Text? {
          var written := Quoted(name, parts[0].data);
          ctx.Write(written);
          EmittedText(old(ctx.text), ctx.text, written);
        }
        if parts[0].ExpressionTag? {
          var written := Bound(name, parts[0].expression, o, gen);
          ctx.Write(written);
          EmittedText(old(ctx.text), ctx.text, written);
        }
      case ExpressionValue(tag) =>
        var e := ExpressionField(tag);
        if e.None? {
          return Some(MissingExpression(TypeOf(tag)));
        }
        var written := Bound(name, e.value, o, gen);
        ctx.Write(written);
        EmittedText(old(ctx.text), ctx.text, written);
    }
  }

  /** The directive branches: ` prefix:name={expr}`, or the bare ` prefix:name` where allowed. */
  method PrintDirective(a: Node, ctx: Context) returns (err: Option<Error>)
    requires a.Directive?
    modifies ctx
    ensures Emitted(old(ctx.text), ctx.text, AttributeText(a, ctx.options, ctx.gen), err)
    ensures err.Some? ==> ctx.text == old(ctx.text)
  {
    err := None;
    EmittedText(ctx.text, ctx.text, "");
    var k, name := a.directive, a.name;
    var prefix := DirectivePrefix(k);
    if a.argument.Some? {
      var written := Bound(prefix + ":" + name, a.argument.value, ctx.options, ctx.gen);
      ctx.Write(written);
      EmittedText(old(ctx.text), ctx.text, written);
    } else if k == Bind || k == Class {
      err := Some(MissingExpression(DirectiveType(k)));
    } else {
      var written := " " + prefix + ":" + name;
      ctx.Write(written);
      EmittedText(old(ctx.text), ctx.text, written);
    }
  }

  /** The `StyleDirective` branch: bare, quoted text, or bound expression. */
  method PrintStyleDirective(a: Node, ctx: Context) returns (err: Option<Error>)
    requires a.StyleDirective?
    modifies ctx
    ensures Emitted(old(ctx.text), ctx.text, AttributeText(a, ctx.options, ctx.gen), err)
    ensures err.Some? ==> ctx.text == old(ctx.text)
  {
    err := None;
    EmittedText(ctx.text, ctx.text, "");
    var name := a.name;
    match a.value {
      case TrueValue =>
        var written := " style:" + name;
        ctx.Write(written);
        EmittedText(old(ctx.text), ctx.text, written);
      case ListValue(parts) =>
        if |parts| == 0 {
          return Some(EmptyValue(name));
        }
        if parts[0].Text? {
          var written := Quoted("style:" + name, parts[0].data);
          ctx.Write(written);
          EmittedText(old(ctx.text), ctx.text, written);
        } else {
          return Some(NotEstree(TypeOf(parts[0])));
        }
      case ExpressionValue(tag) =>
        var e := ExpressionField(tag);
        if e.None? {
          return Some(MissingExpression(TypeOf(tag)));
        }
        var written := Bound("style:" + name, e.value, ctx.options, ctx.gen);
        ctx.Write(written);
        EmittedText(old(ctx.text), ctx.text, written);
    }
  }

  /**
   * `attributeToString(attribute)`: what `printAttributes` writes into a fresh
   * sink with empty indent and line end, or the error it throws.
   */
  method AttributeToString(a: Node, gen: Gen) returns (r: Result<string>)
    ensures r == AttributeText(a, Options("", ""), gen)
  {
    var ctx := new Context(Options("", ""), gen);
    var err := PrintAttributes(a, ctx);
    if err.Some? {
      return Err(err.value);
    }
    var spec := AttributeText(a, Options("", ""), gen);
    assert spec.Ok?;
    assert ctx.text == "" + spec.value;
    assert "" + spec.value == spec.value;
    return Ok(ctx.text);
  }
}
