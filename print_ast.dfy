/**
 * The document assembler (`printAst`): the indent options merged over the
 * defaults, then the module script, the instance script and the markup,
 * each script followed by the line end. The markup and script printers are
 * parameters: what reaches them is described in the README.
 */
module PrintAst {
  import opened Wrappers
  import opened Ast

  /** A `<script>` block of the document; only the script printer looks inside it. */
  datatype Script = Script(id: nat)

  /** The parsed document: the template, and the optional instance and module scripts. */
  datatype Document = Document(html: Node, instanceScript: Option<Script>, moduleScript: Option<Script>)

  /** The caller's indent options; a field that is absent takes the default. */
  datatype PartialOptions = PartialOptions(indent: Option<string>, lineEnd: Option<string>)

  /** `{...DefaultPrinterIdentOptions, ...params.indent}`. */
  function MergeOptions(given: Option<PartialOptions>): (o: Options)
    ensures given.None? ==> o == DefaultOptions
    ensures o.indent == if given.Some? && given.value.indent.Some? then given.value.indent.value else DefaultOptions.indent
    ensures o.lineEnd == if given.Some? && given.value.lineEnd.Some? then given.value.lineEnd.value else DefaultOptions.lineEnd
  {
    if given.None? then DefaultOptions
    else
      Options(
        if given.value.indent.Some? then given.value.indent.value else DefaultOptions.indent,
        if given.value.lineEnd.Some? then given.value.lineEnd.value else DefaultOptions.lineEnd)
  }

  /** A script printed with the merged options, or nothing when the document has no such script. */
  function ScriptText(s: Option<Script>, o: Options, script: (Script, Options) -> string): (r: string)
    ensures s.None? ==> r == ""
  {
    if s.Some? then script(s.value, o) else ""
  }

  /**
   * `printAst`: the markup is printed first (its error escapes before any
   * script is printed); the result is the module script, the line end, the
   * instance script, the line end, and the markup, with no trimming.
   */
  function PrintAst(doc: Document, given: Option<PartialOptions>,
                    markup: (Node, Options) -> Result<string>,
                    script: (Script, Options) -> string): (r: Result<string>)
    ensures r.Err? <==> markup(doc.html, MergeOptions(given)).Err?
    ensures r.Err? ==> r == markup(doc.html, MergeOptions(given))
  {
    var o := MergeOptions(given);
    var html := markup(doc.html, o);
    if html.Err? then html
    else
      var instanceText := ScriptText(doc.instanceScript, o, script);
      var moduleText := ScriptText(doc.moduleScript, o, script);
      Ok(moduleText + o.lineEnd + instanceText + o.lineEnd + html.value)
  }

  /**
   * The module script comes first and the markup last: the result starts
   * with the module script and its line end, and ends with the markup.
   */
  lemma {:induction false} SegmentOrder(doc: Document, given: Option<PartialOptions>,
                                        markup: (Node, Options) -> Result<string>,
                                        script: (Script, Options) -> string)
    ensures var o := MergeOptions(given);
            var r := PrintAst(doc, given, markup, script);
            && (r.Ok? <==> markup(doc.html, o).Ok?)
            && (r.Err? ==> r == markup(doc.html, o))
            && (r.Ok? ==>
                  && ScriptText(doc.moduleScript, o, script) + o.lineEnd <= r.value
                  && |markup(doc.html, o).value| <= |r.value|
                  && r.value[|r.value| - |markup(doc.html, o).value|..] == markup(doc.html, o).value
                  && r.value[|ScriptText(doc.moduleScript, o, script) + o.lineEnd|..|r.value| - |markup(doc.html, o).value|]
                     == ScriptText(doc.instanceScript, o, script) + o.lineEnd)
  {
    var o := MergeOptions(given);
    var html := markup(doc.html, o);
    if html.Ok? {
      var head := ScriptText(doc.moduleScript, o, script) + o.lineEnd;
      var middle := ScriptText(doc.instanceScript, o, script) + o.lineEnd;
      var r := PrintAst(doc, given, markup, script).value;
      assert r == head + middle + html.value;
    }
  }

  /** A document without scripts still gets both line ends before its markup. */
  lemma AbsentScriptsKeepLineEnds(html: Node, given: Option<PartialOptions>,
                                  markup: (Node, Options) -> Result<string>,
                                  script: (Script, Options) -> string)
    ensures var o := MergeOptions(given);
            var r := PrintAst(Document(html, None, None), given, markup, script);
            markup(html, o).Ok? ==> r == Ok(o.lineEnd + o.lineEnd + markup(html, o).value)
  {
    var o := MergeOptions(given);
    assert "" + o.lineEnd + "" + o.lineEnd == o.lineEnd + o.lineEnd;
  }

  /** Nothing is trimmed: with an empty line end and no scripts the result is the markup exactly. */
  lemma NoTrimming(html: Node, indent: Option<string>,
                   markup: (Node, Options) -> Result<string>,
                   script: (Script, Options) -> string)
    ensures PrintAst(Document(html, None, None), Some(PartialOptions(indent, Some(""))), markup, script)
         == markup(html, MergeOptions(Some(PartialOptions(indent, Some("")))))
  {
    var o := MergeOptions(Some(PartialOptions(indent, Some(""))));
    var m := markup(html, o);
    if m.Ok? {
      assert "" + "" + "" + "" + m.value == m.value;
    }
  }
}
