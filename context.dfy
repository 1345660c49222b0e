/**
 * The printer context: the options every printer formats with, the
 * expression generator, and the append-only sink `write` adds to.
 */
module Sink {
  import opened Wrappers
  import opened Ast

  class Context {
    /** Everything written so far (the `result` the `write` closure appends to). */
    var text: string
    const options: Options
    const gen: Gen

    constructor(options: Options, gen: Gen)
      ensures text == "" && this.options == options && this.gen == gen
    {
      text := "";
      this.options := options;
      this.gen := gen;
    }

    /** `write(str)`: appends to the sink. */
    method Write(s: string)
      modifies this
      ensures text == old(text) + s
    {
      text := text + s;
    }
  }

  /**
   * A printing step that is specified by `spec` ended as the specification
   * says: on success exactly its text was appended to `before` and no error
   * is reported; on failure the same error is reported (whatever was written
   * is thrown away with the exception).
   */
  ghost predicate Emitted(before: string, after: string, spec: Result<string>, err: Option<Error>)
  {
    Report(before, after, err) == Some(spec)
  }

  /**
   * What a printing step that went from sink contents `before` to `after`
   * reports: the error it raised, or else the text it appended; nothing
   * when it did not just append.
   */
  function Report(before: string, after: string, err: Option<Error>): Option<Result<string>>
  {
    if err.Some? then Some(Err(err.value))
    else if before <= after then Some(Ok(after[|before|..]))
    else None
  }

  /** A step that appended `t` and raised nothing emitted `Ok(t)`. */
  lemma EmittedText(before: string, after: string, t: string)
    requires after == before + t
    ensures Emitted(before, after, Ok(t), None)
  {
    assert after[|before|..] == t;
  }

  /**
   * Two steps run one after the other emitted their sequence: when the first
   * succeeded, the texts concatenate and the second's outcome is the outcome.
   */
  lemma EmittedThen(before: string, middle: string, after: string, a: Result<string>, b: Result<string>, err: Option<Error>)
    requires Emitted(before, middle, a, None)
    requires Emitted(middle, after, b, err)
    ensures Emitted(before, after, Then(a, b), err)
  {
    if err.None? {
      assert after == before + (a.value + b.value);
      EmittedText(before, after, a.value + b.value);
    }
  }
}
