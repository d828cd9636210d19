# IndentedAppendable, modelled in Dafny

This project models `org.raml.utilities.IndentedAppendable` from raml-for-jax-rs.
It is the indentation-aware text emitter that the RAML serializer writes through.
An emitter holds three things:

- a fixed indent unit of `noSpaces` blanks;
- a current indentation that `indent()` grows by one unit and `outdent()` shrinks by one unit;
- a character sink that every write appends to.

The project has three modules:

- `Repetition` (repetition.dfy) models string repetition (Guava's `Strings.repeat`) and proves its length, its characters, and that the repeat count is recoverable.
- `EmitterSpec` (emitter_spec.dfy) is the emitter as a pure state machine. It defines the state (`EmitterState`), the operations (`Op`), the factory (`Create`), one step (`Step`) and a run of steps (`Run`). The error paths are results (`Err`):
  - `checkArgument` gives IllegalArgument;
  - `checkNotNull` gives NullPointer;
  - `checkState` gives IllegalState;
  - an out-of-range `substring`, or an out-of-range `append(csq, start, end)`, gives IndexOutOfBounds.

  The lemmas here prove the class invariant and the properties that span several calls.
- `IndentedAppendableModel` (indented_appendable.dfy) is the class `IndentedAppendable`. It has the fields `indent`, `lineSeparator`, `currentIndent` and `buf` (the sink's contents), plus a ghost `level`. Its invariant `Valid()` says that `currentIndent` is `level` copies of a unit made of blanks. Each method states its exact new state and is proved equal to `Step` for its operation.

A null `CharSequence` is written as the four characters `null`, as `java.lang.Appendable` specifies. It is modelled by `CharSeq.Null`.

`forNoSpaces` checks the sink with `checkNotNull`, which throws a NullPointerException, so the model returns `Err(NullPointer)` for a missing sink.

## Model

| member | source | states |
|---|---|---|
| `Repetition.Spaces` | utilities/src/main/java/org/raml/utilities/IndentedAppendable.java:46 | the indent unit for width `n` is exactly `n` characters, all blanks |
| `Repetition.RepeatLength` | utilities/src/main/java/org/raml/utilities/IndentedAppendable.java:46 | `k` copies of a string `s` are `k * |s|` characters long |
| `Repetition.RepeatKeepsSpaces` | utilities/src/main/java/org/raml/utilities/IndentedAppendable.java:46 | copies of a blank unit are blanks only |
| `Repetition.RepeatOfEmpty` | utilities/src/main/java/org/raml/utilities/IndentedAppendable.java:50 | repeating a zero-width unit, however often, leaves the indentation empty |
| `Repetition.RepeatAdd` | utilities/src/main/java/org/raml/utilities/IndentedAppendable.java:50 | `m + n` copies are `m` copies followed by `n` copies, so levels add up |
| `Repetition.RepeatDeterminesCount` | utilities/src/main/java/org/raml/utilities/IndentedAppendable.java:53-57 | with a non-empty unit, the indentation string determines the number of levels |
| `EmitterSpec.Create` | utilities/src/main/java/org/raml/utilities/IndentedAppendable.java:42-47 | fails exactly when the width is negative (IllegalArgument, checked first) or the sink is missing (NullPointer); otherwise the unit has `noSpaces` blanks, the indentation is empty at level 0, and the sink's existing text is kept |
| `EmitterSpec.Step` | utilities/src/main/java/org/raml/utilities/IndentedAppendable.java:49-90 | no operation changes the unit or the separator, and the sink only grows; writes never change the indentation, and indent/outdent never write; failure happens exactly for an outdent with an empty or too-short indentation, or for an out-of-range append; IllegalState happens exactly for an outdent of an empty indentation |
| `EmitterSpec.Run` | utilities/src/main/java/org/raml/utilities/IndentedAppendable.java:49-90 | any sequence of calls keeps the unit and the separator, and only extends the sink's contents |
| `EmitterSpec.RunConcat` | utilities/src/main/java/org/raml/utilities/IndentedAppendable.java:49-90 | running two call sequences one after the other is the same as running their concatenation; the first exception stops the run |
| `EmitterSpec.StepKeepsLevels` | utilities/src/main/java/org/raml/utilities/IndentedAppendable.java:49-57 | the invariant "indentation = unit repeated `level` times" is kept: `indent()` gives level + 1; a successful `outdent()` had level > 0 and gives level - 1; writes keep the level |
| `EmitterSpec.LevelShape` | utilities/src/main/java/org/raml/utilities/IndentedAppendable.java:35-56 | under the invariant, the indentation is all blanks and is exactly `level * noSpaces` long (a multiple of the width), and it is empty when the width is 0 |
| `EmitterSpec.OutdentFailsOnlyAtZero` | utilities/src/main/java/org/raml/utilities/IndentedAppendable.java:53-57 | under the invariant, `outdent()` fails if and only if the indentation is empty, and the `substring` never underflows |
| `EmitterSpec.RunKeepsWholeUnits` | utilities/src/main/java/org/raml/utilities/IndentedAppendable.java:49-90 | after any successful sequence of calls, the indentation is still a whole number of units |
| `EmitterSpec.IndentThenOutdent` | utilities/src/main/java/org/raml/utilities/IndentedAppendable.java:49-57 | `indent(); outdent();` restores the exact previous state; it fails (IllegalState) only when both the indentation and the unit are empty |
| `EmitterSpec.ZeroWidthOutdentFails` | utilities/src/main/java/org/raml/utilities/IndentedAppendable.java:42-57 | with `noSpaces == 0`, any sequence of calls that contains an `outdent()` fails |
| `EmitterSpec.WritesKeepIndent` | utilities/src/main/java/org/raml/utilities/IndentedAppendable.java:59-90 | any sequence of writes leaves the indentation unchanged |
| `EmitterSpec.BlockRestoresIndent` | utilities/src/main/java/org/raml/utilities/IndentedAppendable.java:49-67 | in `indent(); <writes>; outdent();` the closing outdent cannot fail when the block's indentation is non-empty, and the block leaves the indentation it started with |
| `EmitterSpec.AppendLineAsPieces` | utilities/src/main/java/org/raml/utilities/IndentedAppendable.java:59-85 | `appendLine(c)` writes the same text as `withIndent(); append(c); append('\n')` |
| `EmitterSpec.AppendLineVersusEndOfLine` | utilities/src/main/java/org/raml/utilities/IndentedAppendable.java:64-90 | writing a line with `withIndent(); append(c); endOfLine()` gives the same text as `appendLine(c)` if and only if the platform separator is "\n" |
| `EmitterSpec.WidthTwoExample` | utilities/src/main/java/org/raml/utilities/IndentedAppendable.java:42-57 | width 2: `indent(); indent(); outdent();` leaves two blanks, and `outdent()` on a new emitter fails with IllegalState |
| `EmitterSpec.WidthFourLineExample` | utilities/src/main/java/org/raml/utilities/IndentedAppendable.java:42-67 | width 4: `indent(); appendLine("x")` writes exactly four blanks, `x` and `\n` |
| `IndentedAppendableModel.IndentedAppendable.constructor` | utilities/src/main/java/org/raml/utilities/IndentedAppendable.java:33-40 | stores the given unit (which must be blanks only, as the factory guarantees) and the sink; the indentation starts empty at level 0, and the sink keeps its text |
| `IndentedAppendableModel.IndentedAppendable.ForNoSpaces` | utilities/src/main/java/org/raml/utilities/IndentedAppendable.java:42-47 | fails exactly for a negative width or a missing sink, with the error `Create` names; otherwise returns a fresh valid emitter whose state is `Create`'s |
| `IndentedAppendableModel.IndentedAppendable.Indent` | utilities/src/main/java/org/raml/utilities/IndentedAppendable.java:49-51 | the indentation becomes the old one plus one unit and the level goes up by one; the sink is unchanged |
| `IndentedAppendableModel.IndentedAppendable.Outdent` | utilities/src/main/java/org/raml/utilities/IndentedAppendable.java:53-57 | fails with IllegalState, changing nothing, exactly when the indentation is empty; otherwise removes exactly one unit from the end and lowers the level by one; the sink is unchanged |
| `IndentedAppendableModel.IndentedAppendable.WithIndent` | utilities/src/main/java/org/raml/utilities/IndentedAppendable.java:59-62 | the sink grows by exactly the current indentation, which is unchanged |
| `IndentedAppendableModel.IndentedAppendable.AppendLine` | utilities/src/main/java/org/raml/utilities/IndentedAppendable.java:64-67 | the sink grows by exactly indentation + content + `\n` (a literal newline, not the platform separator); the indentation is unchanged |
| `IndentedAppendableModel.IndentedAppendable.Append` | utilities/src/main/java/org/raml/utilities/IndentedAppendable.java:69-73 | the sink grows by exactly the characters of `csq` (`null` for a null one), with no indentation |
| `IndentedAppendableModel.IndentedAppendable.AppendRange` | utilities/src/main/java/org/raml/utilities/IndentedAppendable.java:75-79 | succeeds exactly when `0 <= start <= end <= length` and then appends `csq[start..end]`; otherwise fails with IndexOutOfBounds and the sink is unchanged |
| `IndentedAppendableModel.IndentedAppendable.AppendChar` | utilities/src/main/java/org/raml/utilities/IndentedAppendable.java:81-85 | the sink grows by exactly the one character |
| `IndentedAppendableModel.IndentedAppendable.EndOfLine` | utilities/src/main/java/org/raml/utilities/IndentedAppendable.java:87-90 | the sink grows by exactly the platform separator, whatever the indentation level |
| `IndentedAppendableModel.IndentedAppendable.ToString` | utilities/src/main/java/org/raml/utilities/IndentedAppendable.java:92-94 | returns exactly the sink's contents |

## Left out

- `IOException` from the sink is not modelled. The sink is an in-memory buffer that never fails.
- Every write method returns `this` so that calls can be chained. The model calls the methods one after another instead.
- The sink is a shared `Appendable` that the caller owns. Here it is a buffer owned by the object. The model does not capture aliasing: other writers of the same sink, or a sink that is the emitter itself.
- `toString()` is modelled as returning the buffer. A real sink's own `toString` may return something else.
- `END_OF_LINE` is `System.lineSeparator()`. Here it is a parameter fixed at construction (`lineSeparator`), and no value is assumed for it.
- `IndentedAppendableModel.IndentedAppendable.AppendRange` assumes the sink rejects a bad range before writing anything, as `StringBuilder` does. A sink that writes part of the range and then throws is not modelled.
- `IndentedAppendableModel.IndentedAppendable.AppendRange`: strings here are sequences of Unicode scalar values, not Java's UTF-16 code units. So `start`, `end` and lengths agree with Java only for text without supplementary characters. For example, Java accepts the range 0..2 of a one-emoji string (two code units), and the model rejects it.
- `IndentedAppendableModel.IndentedAppendable.AppendChar`: a Dafny `char` is a Unicode scalar value. A lone UTF-16 surrogate, which Java's `append(char)` accepts, cannot be expressed.
- Java's `int` limits are not modelled. Strings are unbounded, so an indentation or sink content beyond 2^31 - 1 characters, and the errors that would raise, are not captured.
- Guava's `Strings.repeat` internals are not modelled. Repetition is the recursive `Repetition.Repeat`.
- `@NotThreadSafe`: concurrent use is not modelled. The model is single-threaded.
- `jaxrs-to-raml/jaxrs-to-raml-converter/src/main/java/org/raml/jaxrs/converter/model/JaxRsRamlMethod.java` is not part of this model:
  - its list getters only forward to mapping helpers whose code is not available;
  - `getDescription` is a bare passthrough;
  - its verb lower-casing depends on an enum that is not available and on locale-sensitive case folding.
