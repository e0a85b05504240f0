/** The indentation rules of a language mode and the per-line questions the
    editor asks of them: whether a just-typed line should be outdented,
    whether a line matches each of the four rule patterns, whether it is
    blank, and the four match results packed into a 4-bit mask. */
module IndentRules {

  import opened Strings

  datatype Option<+T> = None | Some(value: T)

  /** A configured line pattern. Only whether it matches a line matters, so a
      pattern is modelled by its test: the set of lines it accepts. */
  datatype Pattern = Pattern(test: string -> bool)

  predicate Matches(p: Pattern, text: string) {
    p.test(text)
  }

  /** An optional pattern that is present and matches `text`; an absent
      pattern never matches. */
  predicate Fires(p: Option<Pattern>, text: string) {
    p.Some? && Matches(p.value, text)
  }

  /** The rule object of a language mode: four optional patterns. */
  datatype IndentationRule = IndentationRule(
    increaseIndentPattern: Option<Pattern>,
    decreaseIndentPattern: Option<Pattern>,
    indentNextLinePattern: Option<Pattern>,
    unIndentedLinePattern: Option<Pattern>)

  /** What `OnType` answers: outdent the line, or nothing (the null answer). */
  datatype IndentAction = Outdent | NoAction

  // The bit of the metadata mask that each query sets.
  const INCREASE_MASK: int := 0x01
  const DECREASE_MASK: int := 0x02
  const INDENT_NEXTLINE_MASK: int := 0x04
  const UNINDENT_MASK: int := 0x08

  /** The four independent per-line signals the metadata mask carries. */
  datatype IndentFlags = IndentFlags(increase: bool, decrease: bool, indentNextLine: bool, unindent: bool)

  function BitValue(on: bool, mask: int): int {
    if on then mask else 0
  }

  /** The mask of a set of signals: the sum of the masks of those that are on. */
  function Encode(f: IndentFlags): (m: int)
    ensures 0 <= m < 16
  {
    BitValue(f.increase, INCREASE_MASK) + BitValue(f.decrease, DECREASE_MASK)
    + BitValue(f.indentNextLine, INDENT_NEXTLINE_MASK) + BitValue(f.unindent, UNINDENT_MASK)
  }

  /** The test a consumer of the mask applies: `metadata & mask` is non-zero. */
  predicate HasBit(m: int, mask: int)
    requires 0 <= m < 256 && 0 <= mask < 256
  {
    (m as bv8) & (mask as bv8) != 0
  }

  /** Reads the four signals back out of a mask. */
  function Decode(m: int): IndentFlags
    requires 0 <= m < 16
  {
    IndentFlags(HasBit(m, INCREASE_MASK), HasBit(m, DECREASE_MASK),
                HasBit(m, INDENT_NEXTLINE_MASK), HasBit(m, UNINDENT_MASK))
  }

  /** Decoding a mask gives back exactly the signals that were encoded. */
  lemma DecodeEncode(f: IndentFlags)
    ensures Decode(Encode(f)) == f
  {
  }

  /** Every value in 0..15 is the mask of exactly one set of signals. */
  lemma EncodeDecode(m: int)
    requires 0 <= m < 16
    ensures Encode(Decode(m)) == m
  {
  }

  function BitOf(on: bool, mask: bv8): bv8 {
    if on then mask else 0
  }

  /** The four masks are distinct single bits, so adding the masks of the
      signals that are on is the same as OR-ing them. */
  lemma EncodeIsBitwiseOr(f: IndentFlags)
    ensures Encode(f) as bv8
         == BitOf(f.increase, 1) | BitOf(f.decrease, 2) | BitOf(f.indentNextLine, 4) | BitOf(f.unindent, 8)
  {
  }

  /** The per-language decision component. Its one field is set at
      construction and never changed, so the component is a value; an absent
      rule object makes every query fall back to its default. */
  datatype IndentRulesSupport = IndentRulesSupport(indentationRules: Option<IndentationRule>) {

    /** Whether the line just typed should be outdented. A matching
        unindented-line pattern wins over a matching decrease pattern. */
    function OnType(text: string): (r: IndentAction)
      ensures r == Outdent <==>
                indentationRules.Some?
                && !Fires(indentationRules.value.unIndentedLinePattern, text)
                && Fires(indentationRules.value.decreaseIndentPattern, text)
    {
      if indentationRules.Some? then
        var rules := indentationRules.value;
        if rules.unIndentedLinePattern.Some? && Matches(rules.unIndentedLinePattern.value, text) then
          NoAction
        else if rules.decreaseIndentPattern.Some? && Matches(rules.decreaseIndentPattern.value, text) then
          Outdent
        else
          NoAction
      else
        NoAction
    }

    /** Whether the line has a character other than a space or a tab. */
    function ContainNonWhitespace(text: string): (r: bool)
      ensures r <==> exists i :: 0 <= i < |text| && !IsWhitespace(text[i])
    {
      var nonWhitespaceIdx := LastNonWhitespaceIndex(text);
      if nonWhitespaceIdx >= 0 then true else false
    }

    /** Whether the line opens a deeper indentation level for the lines after it.
        Only the increase pattern is consulted: the indent-next-line pattern is not. */
    function ShouldIncrease(text: string): (r: bool)
      ensures r <==> indentationRules.Some? && Fires(indentationRules.value.increaseIndentPattern, text)
    {
      if indentationRules.Some? then
        var rules := indentationRules.value;
        if rules.increaseIndentPattern.Some? && Matches(rules.increaseIndentPattern.value, text) then
          true
        else
          false
      else
        false
    }

    /** Whether the line itself should be outdented. */
    function ShouldDecrease(text: string): (r: bool)
      ensures r <==> indentationRules.Some? && Fires(indentationRules.value.decreaseIndentPattern, text)
    {
      if indentationRules.Some? && indentationRules.value.decreaseIndentPattern.Some?
         && Matches(indentationRules.value.decreaseIndentPattern.value, text)
      then true
      else false
    }

    /** Whether only the single line after this one should be indented deeper. */
    function ShouldIndentNextLine(text: string): (r: bool)
      ensures r <==> indentationRules.Some? && Fires(indentationRules.value.indentNextLinePattern, text)
    {
      if indentationRules.Some? && indentationRules.value.indentNextLinePattern.Some?
         && Matches(indentationRules.value.indentNextLinePattern.value, text)
      then true
      else false
    }

    /** Whether the line is exempt from the indentation rules. */
    function ShouldIgnore(text: string): (r: bool)
      ensures r <==> indentationRules.Some? && Fires(indentationRules.value.unIndentedLinePattern, text)
    {
      if indentationRules.Some? && indentationRules.value.unIndentedLinePattern.Some?
         && Matches(indentationRules.value.unIndentedLinePattern.value, text)
      then true
      else false
    }

    /** The four query results for one line. */
    function Flags(text: string): IndentFlags {
      IndentFlags(ShouldIncrease(text), ShouldDecrease(text), ShouldIndentNextLine(text), ShouldIgnore(text))
    }

    /** Packs the four query results into a mask, one bit per query. */
    method GetIndentMetadata(text: string) returns (ret: int)
      ensures 0 <= ret < 16
      ensures ret == Encode(Flags(text))
      ensures HasBit(ret, INCREASE_MASK) <==> ShouldIncrease(text)
      ensures HasBit(ret, DECREASE_MASK) <==> ShouldDecrease(text)
      ensures HasBit(ret, INDENT_NEXTLINE_MASK) <==> ShouldIndentNextLine(text)
      ensures HasBit(ret, UNINDENT_MASK) <==> ShouldIgnore(text)
    {
      ret := 0;
      if ShouldIncrease(text) {
        ret := ret + INCREASE_MASK;
      }
      if ShouldDecrease(text) {
        ret := ret + DECREASE_MASK;
      }
      if ShouldIndentNextLine(text) {
        ret := ret + INDENT_NEXTLINE_MASK;
      }
      if ShouldIgnore(text) {
        ret := ret + UNINDENT_MASK;
      }
    }
  }

  /** A line matching the unindented-line pattern is never outdented while it
      is typed, whether or not the decrease pattern matches it too. */
  lemma UnindentedLineWinsOnType(s: IndentRulesSupport, text: string)
    requires s.ShouldIgnore(text)
    ensures s.OnType(text) == NoAction
  {
  }

  /** `OnType` outdents exactly the lines that `ShouldDecrease` marks and
      `ShouldIgnore` does not. */
  lemma OnTypeOutdentIffDecreaseAndNotIgnore(s: IndentRulesSupport, text: string)
    ensures s.OnType(text) == Outdent <==> s.ShouldDecrease(text) && !s.ShouldIgnore(text)
  {
  }

  /** Changing or removing the indent-next-line pattern never changes
      `ShouldIncrease`. */
  lemma IncreaseIgnoresIndentNextLine(rules: IndentationRule, p: Option<Pattern>, text: string)
    ensures IndentRulesSupport(Some(rules)).ShouldIncrease(text)
        == IndentRulesSupport(Some(rules.(indentNextLinePattern := p))).ShouldIncrease(text)
  {
  }

  /** No pattern configured, or no rule object at all. */
  predicate NoPatterns(s: IndentRulesSupport) {
    s.indentationRules.None?
    || (s.indentationRules.value.increaseIndentPattern.None?
        && s.indentationRules.value.decreaseIndentPattern.None?
        && s.indentationRules.value.indentNextLinePattern.None?
        && s.indentationRules.value.unIndentedLinePattern.None?)
  }

  /** Without patterns every query answers its default for every line. */
  lemma NoPatternsDecideNothing(s: IndentRulesSupport, text: string)
    requires NoPatterns(s)
    ensures !s.ShouldIncrease(text) && !s.ShouldDecrease(text)
    ensures !s.ShouldIndentNextLine(text) && !s.ShouldIgnore(text)
    ensures s.OnType(text) == NoAction
    ensures Encode(s.Flags(text)) == 0
  {
  }

  /** The mask of a line, read back bit by bit, gives the four query results. */
  lemma MetadataDecodesToQueries(s: IndentRulesSupport, text: string)
    ensures Decode(Encode(s.Flags(text))).increase == s.ShouldIncrease(text)
    ensures Decode(Encode(s.Flags(text))).decrease == s.ShouldDecrease(text)
    ensures Decode(Encode(s.Flags(text))).indentNextLine == s.ShouldIndentNextLine(text)
    ensures Decode(Encode(s.Flags(text))).unindent == s.ShouldIgnore(text)
  {
  }
  /** Blank lines: the empty line and an all-space line have no content,
      a line with one letter among spaces has. */
  lemma BlankLineExamples(s: IndentRulesSupport)
    ensures !s.ContainNonWhitespace("")
    ensures !s.ContainNonWhitespace("   ")
    ensures s.ContainNonWhitespace("  x ")
  {
  }

  /** Rules whose decrease pattern matches lines ending in a closing brace
      and whose unindented-line pattern matches lines starting with '#'. */
  function BraceAndDirectiveRules(): IndentRulesSupport {
    IndentRulesSupport(Some(IndentationRule(
      None,
      Some(Pattern(t => |t| > 0 && t[|t| - 1] == '}')),
      None,
      Some(Pattern(t => |t| > 0 && t[0] == '#')))))
  }

  /** The unindented-line rule wins on "#}"; "}" is outdented; "x" is not. */
  lemma OnTypeExamples()
    ensures BraceAndDirectiveRules().OnType("#}") == NoAction
    ensures BraceAndDirectiveRules().OnType("}") == Outdent
    ensures BraceAndDirectiveRules().OnType("x") == NoAction
  {
  }

  /** Rules whose increase pattern matches lines containing '{' and whose
      decrease pattern matches lines containing '}'. */
  function BlockRules(): IndentRulesSupport {
    IndentRulesSupport(Some(IndentationRule(
      Some(Pattern(t => '{' in t)),
      Some(Pattern(t => '}' in t)),
      None,
      None)))
  }

  /** "{" sets only the increase bit, "}" only the decrease bit, "{}" both. */
  lemma BlockMetadataExamples()
    ensures Encode(BlockRules().Flags("{")) == 1
    ensures Encode(BlockRules().Flags("}")) == 2
    ensures Encode(BlockRules().Flags("{}")) == 3
  {
  }

  /** An indent-next-line pattern for lines ending in ':' sets bit 4 of
      "if x:" and leaves the increase bit clear. */
  lemma IndentNextLineExample()
    ensures var s := IndentRulesSupport(Some(IndentationRule(
                       None, None, Some(Pattern(t => |t| > 0 && t[|t| - 1] == ':')), None)));
            s.ShouldIndentNextLine("if x:") && !s.ShouldIncrease("if x:")
            && HasBit(Encode(s.Flags("if x:")), INDENT_NEXTLINE_MASK)
            && !HasBit(Encode(s.Flags("if x:")), INCREASE_MASK)
  {
  }
}
