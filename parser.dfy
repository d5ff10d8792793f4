/** The tokenizer of src/parser.rs: one forward pass with one character of
    lookahead that splits a document into classified runs, math, code and
    line breaks. The `Parser` class keeps the cursor; the functions below it
    (`Scan`, `TokenizeFrom`) are the specification its methods are proved
    against. */
module Parser {
  import opened Wrappers

  /** The token variants. `Title` and `FakeCodeBlock` are matched by the
      renderer but never produced by this tokenizer. */
  datatype Token =
    | Text(text: string)
    | Chinese(text: string)
    | English(text: string)
    | Number(text: string)
    | InlineMath(text: string)
    | InlineCode(text: string)
    | BlockMath(text: string)
    | CodeBlock(language: string, content: string)
    | NewLine
    | Title(tokens: seq<Token>, level: nat)
    | FakeCodeBlock

  /** An extracted code block, referenced in order by `FakeCodeBlock` placeholders. */
  datatype CodeBlockEntry = CodeBlockEntry(language: string, content: string)

  // ---------------------------------------------------------------------------
  // Character classes

  predicate IsAsciiAlphabetic(c: char) {
    'a' <= c <= 'z' || 'A' <= c <= 'Z'
  }

  predicate IsAsciiDigit(c: char) {
    '0' <= c <= '9'
  }

  /** Characters that may continue a Number run. */
  predicate IsNumberChar(c: char) {
    IsAsciiDigit(c) || c == '.'
  }

  /** `is_chinese`: the CJK Unified Ideographs block U+4E00..U+9FFF. */
  predicate IsChinese(c: char) {
    '\U{4E00}' <= c <= '\U{9FFF}'
  }

  /** Rust's `char::is_whitespace`: the Unicode White_Space property. */
  predicate IsWhitespace(c: char) {
    ('\t' <= c <= '\r') || c == ' ' || c == '\U{85}' || c == '\U{A0}' || c == '\U{1680}'
    || ('\U{2000}' <= c <= '\U{200A}') || c == '\U{2028}' || c == '\U{2029}'
    || c == '\U{202F}' || c == '\U{205F}' || c == '\U{3000}'
  }

  /** Characters that the main loop dispatches on before any run class. */
  predicate IsStructural(c: char) {
    c == '$' || c == '`' || c == '\n'
  }

  // ---------------------------------------------------------------------------
  // Scanning helpers

  /** The first index at or after `i` holding `d`, or `|s|` when there is none. */
  function FindChar(s: string, i: nat, d: char): (k: nat)
    requires i <= |s|
    ensures i <= k <= |s|
    ensures forall j :: i <= j < k ==> s[j] != d
    ensures k < |s| ==> s[k] == d
    decreases |s| - i
  {
    if i == |s| || s[i] == d then i else FindChar(s, i + 1, d)
  }

  /** The end of the maximal run of characters satisfying `p` that starts at `i`. */
  function RunEnd(s: string, i: nat, p: char -> bool): (k: nat)
    requires i <= |s|
    ensures i <= k <= |s|
    ensures forall j :: i <= j < k ==> p(s[j])
    ensures k < |s| ==> !p(s[k])
    decreases |s| - i
  {
    if i == |s| || !p(s[i]) then i else RunEnd(s, i + 1, p)
  }

  /** Whether a `$$` starts at index `k`. */
  predicate DoubleDollarAt(s: string, k: nat) {
    k + 1 < |s| && s[k] == '$' && s[k + 1] == '$'
  }

  /** The first index at or after `i` where `$$` starts, or `|s|` when there is none. */
  function BlockMathEnd(s: string, i: nat): (k: nat)
    requires i <= |s|
    ensures i <= k <= |s|
    ensures forall j :: i <= j < k ==> !DoubleDollarAt(s, j)
    ensures k < |s| ==> DoubleDollarAt(s, k)
    decreases |s| - i
  {
    if i == |s| || DoubleDollarAt(s, i) then i else BlockMathEnd(s, i + 1)
  }

  /** Whether three backticks start at index `k`. */
  predicate FenceAt(s: string, k: nat) {
    k + 2 < |s| && s[k] == '`' && s[k + 1] == '`' && s[k + 2] == '`'
  }

  /** The first index at or after `i` where three backticks start, or `|s|`
      when there is none. */
  function FirstFence(s: string, i: nat): (k: nat)
    requires i <= |s|
    ensures i <= k <= |s|
    ensures forall j :: i <= j < k ==> !FenceAt(s, j)
    ensures k < |s| ==> FenceAt(s, k)
    decreases |s| - i
  {
    if i == |s| || FenceAt(s, i) then i else FirstFence(s, i + 1)
  }

  /** Whether two backticks stand side by side at index `k`. */
  predicate PairAt(t: string, k: nat) {
    k + 1 < |t| && t[k] == '`' && t[k + 1] == '`'
  }

  /** Code text as the content loop keeps it: reading left to right, each
      pair of backticks becomes a single backtick and every other character
      is kept (see `ParserLemmas.CollapseFixedExactly` for when nothing
      changes). */
  function Collapse(t: string): (r: string)
    ensures |r| <= |t|
    ensures PairAt(t, 0) ==> |r| < |t|
    decreases |t|
  {
    if t == [] then []
    else if PairAt(t, 0) then "`" + Collapse(t[2..])
    else [t[0]] + Collapse(t[1..])
  }

  /** The content loop of `parse_code_block`, started at `i`: the collected
      content and the index after the closing fence (or `|s|`). Two backticks
      not followed by a third contribute only the first of them. The loop
      stops at the first fence (see `CodeBodyCollapses` for the content). */
  function CodeBody(s: string, i: nat): (r: (string, nat))
    requires i <= |s|
    ensures i <= r.1 <= |s|
    ensures |r.0| <= r.1 - i
    ensures r.1 == |s| || (r.1 >= i + 3 && FenceAt(s, r.1 - 3))
    decreases |s| - i
  {
    if i == |s| then ([], i)
    else if s[i] == '`' && i + 1 < |s| && s[i + 1] == '`' then
      if i + 2 < |s| && s[i + 2] == '`' then ([], i + 3)
      else
        var rest := CodeBody(s, i + 2);
        (['`'] + rest.0, rest.1)
    else
      var rest := CodeBody(s, i + 1);
      ([s[i]] + rest.0, rest.1)
  }

  /** The content loop collects the text up to the first fence (or the end
      of the input) with its backtick pairs collapsed, and stops right after
      that fence. */
  lemma {:induction false} CodeBodyCollapses(s: string, i: nat)
    requires i <= |s|
    ensures var f := FirstFence(s, i);
            CodeBody(s, i) == (Collapse(s[i..f]), if f < |s| then f + 3 else |s|)
    decreases |s| - i
  {
    var f := FirstFence(s, i);
    if i < |s| {
      if FenceAt(s, i) {
        assert s[i..f] == [];
      } else {
        var n := if PairAt(s, i) then 2 else 1;
        assert n == 2 ==> !FenceAt(s, i + 1);
        FirstFenceSkips(s, i, n);
        CodeBodyCollapses(s, i + n);
        CollapseSlice(s, i, f, n);
      }
    }
  }

  /** No fence starts in `[i, i + n)`, so the search may start at `i + n`. */
  lemma {:induction false} FirstFenceSkips(s: string, i: nat, n: nat)
    requires i + n <= |s|
    requires forall j :: i <= j < i + n ==> !FenceAt(s, j)
    ensures FirstFence(s, i) == FirstFence(s, i + n)
    decreases n
  {
    if n > 0 {
      FirstFenceSkips(s, i + 1, n - 1);
    }
  }

  /** The first step of `Collapse` on a slice of `s` that starts at `i`: a
      pair of backticks at `i` gives one backtick, any other character
      itself. */
  lemma CollapseSlice(s: string, i: nat, f: nat, n: nat)
    requires i < f <= |s| && n == (if PairAt(s, i) then 2 else 1) && i + n <= f
    ensures Collapse(s[i..f]) == (if n == 2 then "`" else [s[i]]) + Collapse(s[i + n..f])
  {
    var t := s[i..f];
    assert PairAt(t, 0) <==> PairAt(s, i);
    assert t[n..] == s[i + n..f];
  }

  /** `str::trim_start`: drops leading whitespace (see
      `ParserLemmas.TrimStartDropsOnlyWhitespace` for what is dropped). */
  function TrimStart(s: string): (r: string)
    ensures |r| <= |s|
    ensures r != [] ==> !IsWhitespace(r[0])
    ensures (s == [] || !IsWhitespace(s[0])) ==> r == s
  {
    if s != [] && IsWhitespace(s[0]) then TrimStart(s[1..]) else s
  }

  /** `str::trim_end`: drops trailing whitespace (see
      `ParserLemmas.TrimEndDropsOnlyWhitespace`). */
  function TrimEnd(s: string): (r: string)
    ensures |r| <= |s|
    ensures r != [] ==> !IsWhitespace(r[|r| - 1]) && r[0] == s[0]
    ensures (s == [] || !IsWhitespace(s[|s| - 1])) ==> r == s
  {
    if s != [] && IsWhitespace(s[|s| - 1]) then TrimEnd(s[..|s| - 1]) else s
  }

  /** `str::trim`: no whitespace is left at either end, and a string is its
      own trim exactly when it has none there. */
  function Trim(s: string): (r: string)
    ensures |r| <= |s|
    ensures r != [] ==> !IsWhitespace(r[0]) && !IsWhitespace(r[|r| - 1])
    ensures r == s <==> (s == [] || (!IsWhitespace(s[0]) && !IsWhitespace(s[|s| - 1])))
  {
    TrimEnd(TrimStart(s))
  }

  // ---------------------------------------------------------------------------
  // The specification of each `parse_*` helper, of one iteration of the main
  // loop, and of the whole pass

  /** `parse_inline_math` / `parse_inline_code` started after the opening
      delimiter `d`: the characters up to (excluding) the next `d`, and the
      index after that closing `d`; with no closing `d`, the rest of the input. */
  function InlineSpan(s: string, i: nat, d: char): (r: (string, nat))
    requires i <= |s|
    ensures i + |r.0| <= |s| && r.0 == s[i..i + |r.0|]
    ensures forall j :: 0 <= j < |r.0| ==> r.0[j] != d
    ensures (i + |r.0| < |s| && s[i + |r.0|] == d && r.1 == i + |r.0| + 1) || (r.1 == i + |r.0| == |s|)
  {
    var k := FindChar(s, i, d);
    (s[i..k], if k < |s| then k + 1 else |s|)
  }

  /** `parse_block_math` started after the opening `$$`: the characters up to
      the first `$$`, and the index after it; with no `$$`, the rest of the
      input. A single `$` stays in the content. */
  function BlockMathSpan(s: string, i: nat): (r: (string, nat))
    requires i <= |s|
    ensures i + |r.0| <= |s| && r.0 == s[i..i + |r.0|]
    ensures forall j :: i <= j < i + |r.0| ==> !DoubleDollarAt(s, j)
    ensures (r.1 == i + |r.0| + 2 && DoubleDollarAt(s, i + |r.0|)) || (r.1 == i + |r.0| == |s|)
  {
    var k := BlockMathEnd(s, i);
    (s[i..k], if k < |s| then k + 2 else |s|)
  }

  /** `parse_code_block` started after the opening three backticks: the trimmed
      rest of the opening line, the content up to the first closing fence
      with its backtick pairs collapsed, and the index after that fence (or
      `|s|`). */
  function CodeBlockSpan(s: string, i: nat): (r: (string, string, nat))
    requires i <= |s|
    ensures i <= r.2 <= |s|
    ensures forall j :: 0 <= j < |r.0| ==> r.0[j] != '\n'
    ensures r.0 != [] ==> !IsWhitespace(r.0[0]) && !IsWhitespace(r.0[|r.0| - 1])
  {
    var k := FindChar(s, i, '\n');
    var line := s[i..k];
    assert forall j :: 0 <= j < |line| ==> line[j] == s[i + j];
    TrimAvoids(line, '\n');
    var body := CodeBody(s, if k < |s| then k + 1 else |s|);
    (Trim(line), body.0, body.1)
  }

  /** A code block's tag is the trimmed rest of the opening line; its
      content is the text after that line up to the first closing fence (or
      the end of the input), with its backtick pairs collapsed; the cursor
      stops right after that fence. */
  lemma CodeBlockSpanContent(s: string, i: nat)
    requires i <= |s|
    ensures var k := FindChar(s, i, '\n');
            var b := if k < |s| then k + 1 else |s|;
            var f := FirstFence(s, b);
            CodeBlockSpan(s, i) == (Trim(s[i..k]), Collapse(s[b..f]), if f < |s| then f + 3 else |s|)
  {
    var k := FindChar(s, i, '\n');
    var b := if k < |s| then k + 1 else |s|;
    assert CodeBlockSpan(s, i) == (Trim(s[i..k]), CodeBody(s, b).0, CodeBody(s, b).1);
    CodeBodyCollapses(s, b);
  }

  /** `TrimStart` keeps a suffix of its input. */
  lemma {:induction false} TrimStartIsSuffix(s: string)
    ensures TrimStart(s) == s[|s| - |TrimStart(s)|..]
  {
    if s != [] && IsWhitespace(s[0]) {
      TrimStartIsSuffix(s[1..]);
    }
  }

  /** `TrimEnd` keeps a prefix of its input. */
  lemma {:induction false} TrimEndIsPrefix(s: string)
    ensures TrimEnd(s) == s[..|TrimEnd(s)|]
  {
    if s != [] && IsWhitespace(s[|s| - 1]) {
      TrimEndIsPrefix(s[..|s| - 1]);
    }
  }

  /** A character absent from `s` is absent from its trim. */
  lemma TrimAvoids(s: string, c: char)
    requires forall j :: 0 <= j < |s| ==> s[j] != c
    ensures forall j :: 0 <= j < |Trim(s)| ==> Trim(s)[j] != c
  {
    var t := TrimStart(s);
    TrimStartIsSuffix(s);
    assert forall j :: 0 <= j < |t| ==> t[j] == s[|s| - |t| + j];
    var r := TrimEnd(t);
    TrimEndIsPrefix(t);
    assert forall j :: 0 <= j < |r| ==> r[j] == t[j];
  }

  /** The `'$'` arm of the main loop of `parse`, at a `$` at index `i`. */
  function ScanDollar(s: string, i: nat): (r: (Option<Token>, nat))
    requires i < |s| && s[i] == '$'
    ensures i < r.1 <= |s| && r.0.Some?
  {
    if i + 1 < |s| && s[i + 1] == '$' then
      var m := BlockMathSpan(s, i + 2);
      (Some(BlockMath(m.0)), m.1)
    else
      var m := InlineSpan(s, i + 1, '$');
      (Some(InlineMath(m.0)), m.1)
  }

  /** The backtick arm of the main loop of `parse`, at a backtick at index `i`.
      Two backticks not followed by a third are skipped without a token. */
  function ScanBacktick(s: string, i: nat): (r: (Option<Token>, nat))
    requires i < |s| && s[i] == '`'
    ensures i < r.1 <= |s|
    ensures r.0 == None <==> (i + 1 < |s| && s[i + 1] == '`' && !FenceAt(s, i))
    ensures r.0 == None ==> r.1 == i + 2
  {
    if i + 1 < |s| && s[i + 1] == '`' then
      if i + 2 < |s| && s[i + 2] == '`' then
        var m := CodeBlockSpan(s, i + 3);
        (Some(CodeBlock(m.0, m.1)), m.2)
      else
        (None, i + 2)
    else
      var m := InlineSpan(s, i + 1, '`');
      (Some(InlineCode(m.0)), m.1)
  }

  /** One iteration of the main loop of `parse` at index `i`: the token it
      pushes (if any) and the index where the next iteration starts. */
  function Scan(s: string, i: nat): (r: (Option<Token>, nat))
    requires i < |s|
    ensures i < r.1 <= |s|
    ensures r.0 == None <==> (s[i] == '`' && i + 1 < |s| && s[i + 1] == '`' && !FenceAt(s, i))
  {
    var c := s[i];
    if c == '$' then ScanDollar(s, i)
    else if c == '`' then ScanBacktick(s, i)
    else if c == '\n' then (Some(NewLine), i + 1)
    else if IsAsciiAlphabetic(c) then
      var k := RunEnd(s, i, IsAsciiAlphabetic);
      (Some(English(s[i..k])), k)
    else if IsAsciiDigit(c) then
      var k := RunEnd(s, i, IsNumberChar);
      (Some(Number(s[i..k])), k)
    else if IsChinese(c) then
      var k := RunEnd(s, i, IsChinese);
      (Some(Chinese(s[i..k])), k)
    else
      (Some(Text([c])), i + 1)
  }

  /** The tokens `parse` pushes when started at index `i`. */
  function TokenizeFrom(s: string, i: nat): (ts: seq<Token>)
    requires i <= |s|
    ensures |ts| <= |s| - i
    decreases |s| - i
  {
    if i == |s| then []
    else
      var r := Scan(s, i);
      if r.0.Some? then [r.0.value] + TokenizeFrom(s, r.1) else TokenizeFrom(s, r.1)
  }

  /** One step of `TokenizeFrom`, given the scan at `i` as `(t, j)`. */
  lemma TokenizeFromStep(s: string, i: nat, t: Option<Token>, j: nat)
    requires i < |s| && (t, j) == Scan(s, i)
    ensures i < j <= |s|
    ensures TokenizeFrom(s, i) == (if t.Some? then [t.value] else []) + TokenizeFrom(s, j)
  {
  }

  /** The tokens of a whole document. */
  function Tokenize(s: string): seq<Token> {
    TokenizeFrom(s, 0)
  }

  // ---------------------------------------------------------------------------
  // The parser object

  class Parser {
    /** The document; `pos` indexes the lookahead character (Rust's `current`). */
    const input: string
    var pos: nat

    ghost predicate Valid()
      reads this
    {
      pos <= |input|
    }

    /** `Parser::new`: the lookahead is the first character. */
    constructor (input: string)
      ensures Valid() && this.input == input && pos == 0
    {
      this.input := input;
      pos := 0;
    }

    /** `peek`: the lookahead character, `None` at the end of the input. */
    function Peek(): (c: Option<char>)
      reads this
      requires Valid()
      ensures c.Some? <==> pos < |input|
      ensures c.Some? ==> c.value == input[pos]
    {
      if pos < |input| then Some(input[pos]) else None
    }

    /** `next_char`: returns the lookahead and advances past it. */
    method NextChar() returns (c: Option<char>)
      requires Valid()
      modifies this
      ensures Valid()
      ensures c == old(Peek())
      ensures pos == if old(pos) < |input| then old(pos) + 1 else old(pos)
    {
      c := Peek();
      if pos < |input| {
        pos := pos + 1;
      }
    }

    /** `parse`: tokenizes the rest of the input. */
    method Parse() returns (tokens: seq<Token>)
      requires Valid()
      modifies this
      ensures Valid() && pos == |input|
      ensures tokens == TokenizeFrom(input, old(pos))
    {
      tokens := [];
      while Peek().Some?
        invariant Valid()
        invariant tokens + TokenizeFrom(input, pos) == TokenizeFrom(input, old(pos))
        decreases |input| - pos
      {
        ghost var p := pos;
        var pushed := ParseOne();
        TokenizeFromStep(input, p, pushed, pos);
        if pushed.Some? {
          tokens := tokens + [pushed.value];
        }
      }
    }

    /** The body of the main loop of `parse`: dispatches on the lookahead and
        returns the token pushed, if any. */
    method ParseOne() returns (pushed: Option<Token>)
      requires Valid() && pos < |input|
      modifies this
      ensures Valid()
      ensures (pushed, pos) == Scan(input, old(pos))
    {
      var c := Peek().value;
      if c == '$' {
        pushed := ParseDollar();
      } else if c == '`' {
        pushed := ParseBacktick();
      } else if c == '\n' {
        pushed := Some(NewLine);
        var _ := NextChar();
      } else if IsAsciiAlphabetic(c) {
        var t := ParseEnglish();
        pushed := Some(t);
      } else if IsAsciiDigit(c) {
        var t := ParseNumber();
        pushed := Some(t);
      } else if IsChinese(c) {
        var t := ParseChinese();
        pushed := Some(t);
      } else {
        var d := NextChar();
        pushed := Some(Text([d.value]));
      }
    }

    /** The `'$'` arm of `parse`: `$$` opens block math, a single `$` inline math. */
    method ParseDollar() returns (pushed: Option<Token>)
      requires Valid() && pos < |input| && input[pos] == '$'
      modifies this
      ensures Valid()
      ensures (pushed, pos) == ScanDollar(input, old(pos))
    {
      var _ := NextChar(); // consume $
      if Peek() == Some('$') {
        var _ := NextChar(); // consume second $
        var t := ParseBlockMath();
        pushed := Some(t);
      } else {
        var t := ParseInlineMath();
        pushed := Some(t);
      }
    }

    /** The backtick arm of `parse`: three backticks open a fenced code block,
        two are dropped, one opens inline code. */
    method ParseBacktick() returns (pushed: Option<Token>)
      requires Valid() && pos < |input| && input[pos] == '`'
      modifies this
      ensures Valid()
      ensures (pushed, pos) == ScanBacktick(input, old(pos))
    {
      ghost var start := pos;
      var _ := NextChar(); // consume `
      if Peek() == Some('`') {
        var _ := NextChar(); // consume second `
        assert pos - 2 == start;
        pushed := ParseAfterTwoBackticks();
      } else {
        var t := ParseInlineCode();
        pushed := Some(t);
      }
    }

    /** The rest of the backtick arm once two backticks are consumed: a third
        opens a fenced code block, otherwise nothing is pushed. */
    method ParseAfterTwoBackticks() returns (pushed: Option<Token>)
      requires Valid() && 2 <= pos && input[pos - 2] == '`' && input[pos - 1] == '`'
      modifies this
      ensures Valid()
      ensures (pushed, pos) == ScanBacktick(input, old(pos) - 2)
    {
      if Peek() == Some('`') {
        var _ := NextChar(); // consume third `
        var t := ParseCodeBlock();
        pushed := Some(t);
      } else {
        pushed := None;
      }
    }

    /** `parse_inline_math`, entered after the opening `$`. */
    method ParseInlineMath() returns (t: Token)
      requires Valid()
      modifies this
      ensures Valid()
      ensures (t, pos) == (InlineMath(InlineSpan(input, old(pos), '$').0), InlineSpan(input, old(pos), '$').1)
    {
      ghost var start, k := pos, FindChar(input, pos, '$');
      var content := "";
      while true
        invariant Valid() && start <= pos <= k
        invariant content == input[start..pos]
        decreases |input| - pos
      {
        var c := NextChar();
        if c.None? {
          break;
        }
        if c.value == '$' {
          break;
        }
        content := content + [c.value];
      }
      t := InlineMath(content);
    }

    /** `parse_block_math`, entered after the opening `$$`. */
    method ParseBlockMath() returns (t: Token)
      requires Valid()
      modifies this
      ensures Valid()
      ensures (t, pos) == (BlockMath(BlockMathSpan(input, old(pos)).0), BlockMathSpan(input, old(pos)).1)
    {
      ghost var start, k := pos, BlockMathEnd(input, pos);
      var content := "";
      while true
        invariant Valid() && start <= pos <= k
        invariant content == input[start..pos]
        decreases |input| - pos
      {
        var c := NextChar();
        if c.None? {
          break;
        }
        if c.value == '$' && Peek() == Some('$') {
          assert DoubleDollarAt(input, pos - 1);
          var _ := NextChar();
          break;
        }
        assert !DoubleDollarAt(input, pos - 1);
        content := content + [c.value];
      }
      t := BlockMath(content);
    }

    /** `parse_inline_code`, entered after the opening backtick. */
    method ParseInlineCode() returns (t: Token)
      requires Valid()
      modifies this
      ensures Valid()
      ensures (t, pos) == (InlineCode(InlineSpan(input, old(pos), '`').0), InlineSpan(input, old(pos), '`').1)
    {
      ghost var start, k := pos, FindChar(input, pos, '`');
      var content := "";
      while true
        invariant Valid() && start <= pos <= k
        invariant content == input[start..pos]
        decreases |input| - pos
      {
        var c := NextChar();
        if c.None? {
          break;
        }
        if c.value == '`' {
          break;
        }
        content := content + [c.value];
      }
      t := InlineCode(content);
    }

    /** `parse_code_block`, entered after the opening three backticks: the
        language is the trimmed rest of the line, the content runs to the
        closing fence. */
    method ParseCodeBlock() returns (t: Token)
      requires Valid()
      modifies this
      ensures Valid()
      ensures var m := CodeBlockSpan(input, old(pos));
              t == CodeBlock(m.0, m.1) && pos == m.2
    {
      var language := ParseLanguageLine();
      var content := ParseCodeContent();
      t := CodeBlock(Trim(language), content);
    }

    /** The language loop of `parse_code_block`: the rest of the opening
        line, consuming the line break that ends it. */
    method ParseLanguageLine() returns (language: string)
      requires Valid()
      modifies this
      ensures Valid()
      ensures var k := FindChar(input, old(pos), '\n');
              language == input[old(pos)..k] && pos == if k < |input| then k + 1 else |input|
    {
      ghost var start, k := pos, FindChar(input, pos, '\n');
      language := "";
      while true
        invariant Valid() && start <= pos <= k
        invariant language == input[start..pos]
        decreases |input| - pos
      {
        var c := NextChar();
        if c.None? {
          break;
        }
        if c.value == '\n' {
          break;
        }
        language := language + [c.value];
      }
    }

    /** The content loop of `parse_code_block`: collects characters up to the
        closing three backticks, consuming them. */
    method ParseCodeContent() returns (content: string)
      requires Valid()
      modifies this
      ensures Valid()
      ensures (content, pos) == CodeBody(input, old(pos))
    {
      ghost var bodyStart := pos;
      content := "";
      while true
        invariant Valid() && bodyStart <= pos
        invariant content + CodeBody(input, pos).0 == CodeBody(input, bodyStart).0
        invariant CodeBody(input, pos).1 == CodeBody(input, bodyStart).1
        decreases |input| - pos
      {
        var c, done := ParseCodeChar();
        if done {
          assert content + [] == content;
          break;
        }
        content := content + [c];
      }
    }

    /** One iteration of the content loop of `parse_code_block`: either the
        closing fence or the end of the input is reached, or one character
        of content is read (two backticks not followed by a third give one). */
    method ParseCodeChar() returns (c: char, done: bool)
      requires Valid()
      modifies this
      ensures Valid() && old(pos) <= pos
      ensures done ==> CodeBody(input, old(pos)) == ([], pos)
      ensures !done ==> old(pos) < pos
                        && CodeBody(input, old(pos)) == ([c] + CodeBody(input, pos).0, CodeBody(input, pos).1)
    {
      var next := NextChar();
      if next.None? {
        return ' ', true;
      }
      c, done := next.value, false;
      if c == '`' && Peek() == Some('`') {
        var _ := NextChar(); // consume second `
        if Peek() == Some('`') {
          var _ := NextChar(); // consume third `
          done := true;
        }
      }
    }

    /** `parse_english`: the maximal run of ASCII letters at the cursor. */
    method ParseEnglish() returns (t: Token)
      requires Valid()
      modifies this
      ensures Valid()
      ensures pos == RunEnd(input, old(pos), IsAsciiAlphabetic) && t == English(input[old(pos)..pos])
    {
      ghost var start, k := pos, RunEnd(input, pos, IsAsciiAlphabetic);
      var content := "";
      while Peek().Some?
        invariant Valid() && start <= pos <= k
        invariant content == input[start..pos]
        decreases |input| - pos
      {
        if !IsAsciiAlphabetic(Peek().value) {
          break;
        }
        var c := NextChar();
        content := content + [c.value];
      }
      t := English(content);
    }

    /** `parse_number`: the maximal run of ASCII digits and dots at the cursor. */
    method ParseNumber() returns (t: Token)
      requires Valid()
      modifies this
      ensures Valid()
      ensures pos == RunEnd(input, old(pos), IsNumberChar) && t == Number(input[old(pos)..pos])
    {
      ghost var start, k := pos, RunEnd(input, pos, IsNumberChar);
      var content := "";
      while Peek().Some?
        invariant Valid() && start <= pos <= k
        invariant content == input[start..pos]
        decreases |input| - pos
      {
        if !IsNumberChar(Peek().value) {
          break;
        }
        var c := NextChar();
        content := content + [c.value];
      }
      t := Number(content);
    }

    /** `parse_chinese`: the maximal run of CJK ideographs at the cursor. */
    method ParseChinese() returns (t: Token)
      requires Valid()
      modifies this
      ensures Valid()
      ensures pos == RunEnd(input, old(pos), IsChinese) && t == Chinese(input[old(pos)..pos])
    {
      ghost var start, k := pos, RunEnd(input, pos, IsChinese);
      var content := "";
      while Peek().Some?
        invariant Valid() && start <= pos <= k
        invariant content == input[start..pos]
        decreases |input| - pos
      {
        if !IsChinese(Peek().value) {
          break;
        }
        var c := NextChar();
        content := content + [c.value];
      }
      t := Chinese(content);
    }
  }
}
