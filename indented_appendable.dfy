/** `IndentedAppendable`: a character sink that remembers an indentation and
    can prefix lines with it. The sink is modelled as the buffer `buf` that the
    object owns; every write extends it. Each method is proved to do what
    `EmitterSpec.Step` says the matching operation does. */
module IndentedAppendableModel {
  import opened Repetition
  import opened EmitterSpec

  /** The outcome of an operation that can throw: it passes, or it fails with
      the exception's kind and changes nothing. */
  datatype Outcome = Pass | Fail(error: Error)

  class IndentedAppendable {
    /** The indent unit: `noSpaces` blanks, fixed at construction. */
    const indent: string
    /** `END_OF_LINE`, the platform line separator; not assumed to be "\n". */
    const lineSeparator: string
    var currentIndent: string
    /** Everything the sink holds. */
    var buf: seq<char>
    /** The number of units in `currentIndent`. */
    ghost var level: nat

    /** The class invariant: `currentIndent` is `level` copies of a blank unit. */
    ghost predicate Valid()
      reads this
    {
      IndentedTo(AsState(), level)
    }

    /** The object's state as a value of the specification. */
    function AsState(): EmitterState
      reads this
    {
      EmitterState(indent, lineSeparator, currentIndent, buf)
    }

    /** The private constructor: it stores the unit it is given and starts
        with an empty indentation; the sink keeps the text it already holds. */
    constructor (indent: string, sink: seq<char>, lineSeparator: string)
      requires AllSpaces(indent)
      ensures Valid() && level == 0
      ensures this.indent == indent && this.lineSeparator == lineSeparator
      ensures currentIndent == "" && buf == sink
    {
      this.indent := indent;
      this.lineSeparator := lineSeparator;
      currentIndent := "";
      buf := sink;
      level := 0;
    }

    /** `forNoSpaces`: rejects a negative width (IllegalArgument) and then a
        missing sink (NullPointer); otherwise a fresh emitter at level 0. */
    static method ForNoSpaces(noSpaces: int, sink: Option<seq<char>>, lineSeparator: string)
      returns (r: Result<IndentedAppendable>)
      ensures r.Err? <==> noSpaces < 0 || sink.None?
      ensures r.Err? ==> Create(noSpaces, sink, lineSeparator) == Err(r.error)
      ensures r.Ok? ==> fresh(r.value) && r.value.Valid() && r.value.level == 0
      ensures r.Ok? ==> Create(noSpaces, sink, lineSeparator) == Ok(r.value.AsState())
    {
      if noSpaces < 0 {
        return Err(IllegalArgument);
      }
      if sink.None? {
        return Err(NullPointer);
      }
      var e := new IndentedAppendable(Spaces(noSpaces), sink.value, lineSeparator);
      return Ok(e);
    }

    /** `indent()`: one more unit of indentation; the sink is untouched. */
    method Indent()
      requires Valid()
      modifies this
      ensures Valid() && level == old(level) + 1
      ensures currentIndent == old(currentIndent) + indent
      ensures buf == old(buf)
      ensures Step(old(AsState()), Op.Indent) == Ok(AsState())
    {
      currentIndent := currentIndent + indent;
      level := level + 1;
    }

    /** `outdent()`: fails with IllegalState on an empty indentation, and
        otherwise drops exactly one unit from its end. */
    method Outdent() returns (outcome: Outcome)
      requires Valid()
      modifies this
      ensures Valid()
      ensures outcome.Fail? <==> old(currentIndent) == ""
      ensures outcome.Fail? ==> outcome.error == IllegalState && unchanged(this)
      ensures outcome.Pass? ==>
        level == old(level) - 1 && currentIndent + indent == old(currentIndent)
      ensures buf == old(buf)
      ensures Step(old(AsState()), Op.Outdent) ==
        if outcome.Pass? then Ok(AsState()) else Err(outcome.error)
    {
      if currentIndent == "" {
        return Fail(IllegalState);
      }
      OutdentFailsOnlyAtZero(AsState(), level);
      StepKeepsLevels(AsState(), level, Op.Outdent);
      currentIndent := currentIndent[..|currentIndent| - |indent|];
      level := level - 1;
      outcome := Pass;
    }

    /** `withIndent()`: writes the current indentation and nothing else. */
    method WithIndent()
      requires Valid()
      modifies this`buf
      ensures Valid()
      ensures buf == old(buf) + currentIndent
      ensures Step(old(AsState()), Op.WithIndent) == Ok(AsState())
    {
      buf := buf + currentIndent;
    }

    /** `appendLine(content)`: the indentation, the content and a literal
        '\n', whatever the platform separator is. */
    method AppendLine(content: CharSeq)
      requires Valid()
      modifies this`buf
      ensures Valid()
      ensures buf == old(buf) + currentIndent + Characters(content) + "\n"
      ensures Step(old(AsState()), Op.AppendLine(content)) == Ok(AsState())
    {
      buf := buf + currentIndent;
      buf := buf + Characters(content);
      buf := buf + "\n";
    }

    /** `append(csq)`: the characters of `csq`, with no indentation. */
    method Append(csq: CharSeq)
      requires Valid()
      modifies this`buf
      ensures Valid()
      ensures buf == old(buf) + Characters(csq)
      ensures Step(old(AsState()), Op.Append(csq)) == Ok(AsState())
    {
      buf := buf + Characters(csq);
    }

    /** `append(csq, start, end)`: the characters from `start` up to `end`,
        or IndexOutOfBounds and no change when that range is not inside
        `csq`. */
    method AppendRange(csq: CharSeq, start: int, end: int) returns (outcome: Outcome)
      requires Valid()
      modifies this`buf
      ensures Valid()
      ensures outcome.Pass? <==> 0 <= start <= end <= |Characters(csq)|
      ensures outcome.Pass? ==> buf == old(buf) + Characters(csq)[start..end]
      ensures outcome.Fail? ==> outcome.error == IndexOutOfBounds && buf == old(buf)
      ensures Step(old(AsState()), Op.AppendRange(csq, start, end)) ==
        if outcome.Pass? then Ok(AsState()) else Err(outcome.error)
    {
      var chars := Characters(csq);
      if !(0 <= start <= end <= |chars|) {
        return Fail(IndexOutOfBounds);
      }
      buf := buf + chars[start..end];
      outcome := Pass;
    }

    /** `append(c)`: the one character, with no indentation. */
    method AppendChar(c: char)
      requires Valid()
      modifies this`buf
      ensures Valid()
      ensures buf == old(buf) + [c]
      ensures Step(old(AsState()), Op.AppendChar(c)) == Ok(AsState())
    {
      buf := buf + [c];
    }

    /** `endOfLine()`: the platform separator, with no indentation at any
        level. */
    method EndOfLine()
      requires Valid()
      modifies this`buf
      ensures Valid()
      ensures buf == old(buf) + lineSeparator
      ensures Step(old(AsState()), Op.EndOfLine) == Ok(AsState())
    {
      buf := buf + lineSeparator;
    }

    /** `toString()`: what the sink holds. */
    method ToString() returns (s: string)
      ensures s == buf
    {
      s := buf;
    }
  }
}
