# Indentation rules of a language mode

A Dafny model of `IndentRulesSupport`, the component of the editor that
answers per-line indentation questions against the indentation rules of a
language mode. The rule object holds four optional line patterns (increase,
decrease, indent-next-line, unindented-line). Against one line of text the
component answers:

- `OnType`: should the line just typed be outdented? A matching
  unindented-line pattern takes precedence over a matching decrease pattern.
- `ShouldIncrease`, `ShouldDecrease`, `ShouldIndentNextLine`, `ShouldIgnore`:
  does the line match the increase, decrease, indent-next-line or
  unindented-line pattern? An absent pattern or absent rule object never
  matches.
- `ContainNonWhitespace`: does the line have a character other than a space
  or a tab?
- `GetIndentMetadata`: the four answers packed into a mask with the bits
  1 (increase), 2 (decrease), 4 (indent next line) and 8 (unindented line).

Files:

- `indent_rules.dfy`, module `IndentRules`: the rule object, the mask
  constants, the component and the lemmas about it.
- `strings.dfy`, module `Strings`: the whitespace helper the component calls.

Modelling decisions:

- A pattern is a datatype around a total function `string -> bool`, its
  test. Which lines it accepts is left open, so every property holds for
  every pattern. Each rule field is an `Option<Pattern>`. The rule object is
  optional too, because the source tests it for truthiness before reading a
  field.
- The class's only field is `readonly` and is set once in the constructor.
  The component is therefore a datatype `IndentRulesSupport` with that field
  and with the queries as member functions. `GetIndentMetadata` builds its
  result in a mutable local, so it is a member method, and its contract
  ties the result to the functional sum `Encode(Flags(text))`.
- `onType` returns `IndentAction.Outdent` or `null`. The model's
  `IndentAction` has the two cases `Outdent` and `NoAction`, and `NoAction`
  stands for `null`.
- The whitespace helper `lastNonWhitespaceIndex` lives in the editor's string
  utilities. That file is not part of this model. It is modelled as the
  index of the last character that is neither a space nor a tab, or -1. The
  whitespace set (space and tab) is an assumption of the model.
- The masks are plain integers, as the source adds them. A consumer tests a
  bit with `metadata & mask`. The model states that test as a bitwise AND
  on 8-bit vectors (`HasBit`).

## Model

| member | source | states |
|---|---|---|
| `IndentRules.IndentRulesSupport.OnType` | src/vs/editor/common/modes/supports/indentRules.ts:25-36 | Outdent exactly when a rule object is present, its unindented-line pattern is absent or does not match, and its decrease pattern is present and matches; every other case is NoAction |
| `IndentRules.IndentRulesSupport.ContainNonWhitespace` | src/vs/editor/common/modes/supports/indentRules.ts:38-47 | true iff some character of the line is neither a space nor a tab; false for the empty line |
| `IndentRules.IndentRulesSupport.ShouldIncrease` | src/vs/editor/common/modes/supports/indentRules.ts:49-59 | true iff a rule object is present and its increase pattern is present and matches; no other pattern is consulted |
| `IndentRules.IndentRulesSupport.ShouldDecrease` | src/vs/editor/common/modes/supports/indentRules.ts:61-66 | true iff a rule object is present and its decrease pattern is present and matches |
| `IndentRules.IndentRulesSupport.ShouldIndentNextLine` | src/vs/editor/common/modes/supports/indentRules.ts:68-74 | true iff a rule object is present and its indent-next-line pattern is present and matches |
| `IndentRules.IndentRulesSupport.ShouldIgnore` | src/vs/editor/common/modes/supports/indentRules.ts:76-83 | true iff a rule object is present and its unindented-line pattern is present and matches |
| `IndentRules.IndentRulesSupport.GetIndentMetadata` | src/vs/editor/common/modes/supports/indentRules.ts:85-100 | the result is in 0..15, is the sum of the masks of the queries that hold, and has bit 1, 2, 4, 8 set iff ShouldIncrease, ShouldDecrease, ShouldIndentNextLine, ShouldIgnore hold |
| `IndentRules.Encode` | src/vs/editor/common/modes/supports/indentRules.ts:10-15 | the sum of the masks of the signals that are on lies in 0..15 |
| `IndentRules.DecodeEncode` | src/vs/editor/common/modes/supports/indentRules.ts:10-15 | testing each mask bit of an encoded value gives back exactly the four encoded signals |
| `IndentRules.EncodeDecode` | src/vs/editor/common/modes/supports/indentRules.ts:10-15 | every value in 0..15 is the encoding of the signals its bits show, so the encoding is a bijection onto 0..15 |
| `IndentRules.EncodeIsBitwiseOr` | src/vs/editor/common/modes/supports/indentRules.ts:10-15 | the four masks are distinct single bits, so the sum of the masks that are on equals their bitwise OR |
| `IndentRules.UnindentedLineWinsOnType` | src/vs/editor/common/modes/supports/indentRules.ts:27-29 | a line that ShouldIgnore marks is never outdented by OnType, even when the decrease pattern matches it |
| `IndentRules.OnTypeOutdentIffDecreaseAndNotIgnore` | src/vs/editor/common/modes/supports/indentRules.ts:25-36 | OnType outdents exactly the lines that ShouldDecrease marks and ShouldIgnore does not |
| `IndentRules.IncreaseIgnoresIndentNextLine` | src/vs/editor/common/modes/supports/indentRules.ts:49-59 | replacing or removing the indent-next-line pattern never changes ShouldIncrease |
| `IndentRules.NoPatternsDecideNothing` | src/vs/editor/common/modes/supports/indentRules.ts:25-100 | with no rule object, or with every pattern absent, the four queries are false, OnType is NoAction and the metadata is 0, for every line |
| `IndentRules.MetadataDecodesToQueries` | src/vs/editor/common/modes/supports/indentRules.ts:85-100 | decoding the metadata of a line gives back the four query results for that line |
| `IndentRules.BlankLineExamples` | src/vs/editor/common/modes/supports/indentRules.ts:38-47 | "" and "   " have no content, "  x " has |
| `IndentRules.OnTypeExamples` | src/vs/editor/common/modes/supports/indentRules.ts:25-36 | with a closing-brace decrease pattern and a '#' unindented-line pattern: "#}" gives NoAction, "}" gives Outdent, "x" gives NoAction |
| `IndentRules.BlockMetadataExamples` | src/vs/editor/common/modes/supports/indentRules.ts:85-100 | with '{' increasing and '}' decreasing: "{" encodes to 1, "}" to 2, "{}" to 3 |
| `IndentRules.IndentNextLineExample` | src/vs/editor/common/modes/supports/indentRules.ts:68-100 | a trailing-':' indent-next-line pattern sets bit 4 of "if x:" and leaves ShouldIncrease and bit 1 clear |
| `Strings.LastNonWhitespaceIndex` | src/vs/editor/common/modes/supports/indentRules.ts:40-42 | the result is -1 or an index of the line; the character there is not whitespace and every character after it is |

## Left out

- Regular-expression semantics: a pattern is any predicate on lines. The state a JavaScript `RegExp` with the `g` or `y` flag keeps in `lastIndex` between calls to `test` is not modelled; matching is a pure function of the line.
- How the rule object and `IndentAction` are defined and loaded from a language configuration: that code is not part of this model.
- How the editor applies an outdent or the metadata to a buffer: that is done by callers outside this component.
- The editor's string utilities beyond `lastNonWhitespaceIndex` (including its optional start index, which this component never passes) are not part of this model.
