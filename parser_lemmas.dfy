/** Properties of the tokenizer specification in module Parser: what each
    token holds, how far each step advances, and the round trips between the
    markup a token stands for and the token the tokenizer reads back. */
module ParserLemmas {
  import opened Wrappers
  import opened Parser

  // ---------------------------------------------------------------------------
  // Shape of the tokens

  /** What the tokenizer guarantees of a single token: classified runs are
      non-empty and homogeneous, `Text` is one unclassified character, and
      the renderer-only variants never appear. */
  predicate WellFormedToken(t: Token) {
    match t
    case English(x) => |x| > 0 && forall j :: 0 <= j < |x| ==> IsAsciiAlphabetic(x[j])
    case Number(x) => |x| > 0 && IsAsciiDigit(x[0]) && forall j :: 0 <= j < |x| ==> IsNumberChar(x[j])
    case Chinese(x) => |x| > 0 && forall j :: 0 <= j < |x| ==> IsChinese(x[j])
    case Text(x) =>
      |x| == 1 && !IsStructural(x[0]) && !IsAsciiAlphabetic(x[0])
      && !IsAsciiDigit(x[0]) && !IsChinese(x[0])
    case Title(_, _) => false
    case FakeCodeBlock => false
    case _ => true
  }

  /** Every token one step pushes is well formed. */
  lemma ScanWellFormed(s: string, i: nat)
    requires i < |s|
    ensures Scan(s, i).0.Some? ==> WellFormedToken(Scan(s, i).0.value)
  {
    var c := s[i];
    if IsStructural(c) {
    } else if IsAsciiAlphabetic(c) {
      var k := RunEnd(s, i, IsAsciiAlphabetic);
      forall j | 0 <= j < k - i ensures IsAsciiAlphabetic(s[i..k][j]) {
        assert s[i..k][j] == s[i + j];
      }
    } else if IsAsciiDigit(c) {
      var k := RunEnd(s, i, IsNumberChar);
      forall j | 0 <= j < k - i ensures IsNumberChar(s[i..k][j]) {
        assert s[i..k][j] == s[i + j];
      }
    } else if IsChinese(c) {
      var k := RunEnd(s, i, IsChinese);
      forall j | 0 <= j < k - i ensures IsChinese(s[i..k][j]) {
        assert s[i..k][j] == s[i + j];
      }
    }
  }

  /** Every token of a document is well formed; in particular the tokenizer
      never produces `Title` or `FakeCodeBlock`. */
  lemma {:induction false} TokenizeWellFormed(s: string, i: nat)
    requires i <= |s|
    ensures forall t :: t in TokenizeFrom(s, i) ==> WellFormedToken(t)
    decreases |s| - i
  {
    if i < |s| {
      ScanWellFormed(s, i);
      TokenizeWellFormed(s, Scan(s, i).1);
    }
  }

  /** Classified runs are maximal: an English, Number or Chinese token spans
      exactly the characters consumed, and the character after it (if any)
      cannot continue the run. A Text token consumes one character. */
  lemma ScanRunsAreMaximal(s: string, i: nat)
    requires i < |s|
    ensures var (t, next) := Scan(s, i);
      && (t.Some? && t.value.English? ==>
            t.value.text == s[i..next] && (next == |s| || !IsAsciiAlphabetic(s[next])))
      && (t.Some? && t.value.Number? ==>
            t.value.text == s[i..next] && (next == |s| || !IsNumberChar(s[next])))
      && (t.Some? && t.value.Chinese? ==>
            t.value.text == s[i..next] && (next == |s| || !IsChinese(s[next])))
      && (t.Some? && (t.value.Text? || t.value.NewLine?) ==> next == i + 1)
  {
  }

  /** Two backticks between two words vanish, so the two words come out as
      two adjacent English tokens. */
  lemma DoubleBacktickSplitsRun()
    ensures Tokenize("ab``cd") == [English("ab"), English("cd")]
  {
    var s := "ab``cd";
    assert RunEnd(s, 0, IsAsciiAlphabetic) == 2 by {
      assert RunEnd(s, 2, IsAsciiAlphabetic) == 2;
    }
    assert s[0] == 'a' && s[0..2] == "ab";
    assert Scan(s, 0) == (Some(English("ab")), 2);
    assert Scan(s, 2) == (None, 4);
    assert RunEnd(s, 4, IsAsciiAlphabetic) == 6 by {
      assert RunEnd(s, 6, IsAsciiAlphabetic) == 6;
    }
    assert s[4] == 'c' && s[4..6] == "cd";
    assert Scan(s, 4) == (Some(English("cd")), 6);
    assert TokenizeFrom(s, 6) == [];
    assert TokenizeFrom(s, 4) == [English("cd")];
    assert TokenizeFrom(s, 2) == [English("cd")];
  }

  // ---------------------------------------------------------------------------
  // Round trip for text without math or code delimiters

  /** The markup a token stands for. `Title` and `FakeCodeBlock` are not
      produced by the tokenizer and have no markup of their own here. */
  function Spelling(t: Token): string {
    match t
    case Text(x) => x
    case Chinese(x) => x
    case English(x) => x
    case Number(x) => x
    case InlineMath(x) => "$" + x + "$"
    case InlineCode(x) => "`" + x + "`"
    case BlockMath(x) => "$$" + x + "$$"
    case CodeBlock(language, content) => "```" + language + "\n" + content + "```"
    case NewLine => "\n"
    case Title(_, _) => []
    case FakeCodeBlock => []
  }

  /** The concatenated markup of a token sequence. */
  function Unparse(ts: seq<Token>): string {
    if ts == [] then [] else Spelling(ts[0]) + Unparse(ts[1..])
  }

  /** Outside math and code, one step consumes exactly the characters its
      token spells. */
  lemma ScanSpellsConsumed(s: string, i: nat)
    requires i < |s| && s[i] != '$' && s[i] != '`'
    ensures Scan(s, i).0.Some? && Spelling(Scan(s, i).0.value) == s[i..Scan(s, i).1]
  {
    if s[i] == '\n' || !(IsAsciiAlphabetic(s[i]) || IsAsciiDigit(s[i]) || IsChinese(s[i])) {
      assert s[i..i + 1] == [s[i]];
    }
  }

  /** For a document with no `$` and no backtick, concatenating the tokens'
      text (a `NewLine` as a line break) gives back the document. */
  lemma {:induction false} TokenizeRoundTrip(s: string, i: nat)
    requires i <= |s|
    requires forall j :: i <= j < |s| ==> s[j] != '$' && s[j] != '`'
    ensures Unparse(TokenizeFrom(s, i)) == s[i..]
    decreases |s| - i
  {
    if i < |s| {
      var r := Scan(s, i);
      ScanSpellsConsumed(s, i);
      TokenizeRoundTrip(s, r.1);
      assert TokenizeFrom(s, i) == [r.0.value] + TokenizeFrom(s, r.1);
      assert ([r.0.value] + TokenizeFrom(s, r.1))[1..] == TokenizeFrom(s, r.1);
      assert s[i..] == s[i..r.1] + s[r.1..];
    }
  }

  // ---------------------------------------------------------------------------
  // One NewLine per line break

  /** The number of `c` in `s`. */
  function Occurrences(s: string, c: char): nat {
    if s == [] then 0 else (if s[0] == c then 1 else 0) + Occurrences(s[1..], c)
  }

  lemma {:induction false} OccurrencesAppend(a: string, b: string, c: char)
    ensures Occurrences(a + b, c) == Occurrences(a, c) + Occurrences(b, c)
  {
    if a != [] {
      assert (a + b)[1..] == a[1..] + b;
      OccurrencesAppend(a[1..], b, c);
    } else {
      assert a + b == b;
    }
  }

  /** The number of `NewLine` tokens. */
  function NewLineCount(ts: seq<Token>): nat {
    if ts == [] then 0 else (if ts[0].NewLine? then 1 else 0) + NewLineCount(ts[1..])
  }

  /** Outside math and code, each line break yields exactly one `NewLine`
      token and no other token carries one. */
  lemma {:induction false} OneNewLinePerLineBreak(s: string, i: nat)
    requires i <= |s|
    requires forall j :: i <= j < |s| ==> s[j] != '$' && s[j] != '`'
    ensures NewLineCount(TokenizeFrom(s, i)) == Occurrences(s[i..], '\n')
    decreases |s| - i
  {
    if i < |s| {
      var r := Scan(s, i);
      ScanSpellsConsumed(s, i);
      ScanWellFormed(s, i);
      OneNewLinePerLineBreak(s, r.1);
      assert ([r.0.value] + TokenizeFrom(s, r.1))[1..] == TokenizeFrom(s, r.1);
      assert s[i..] == s[i..r.1] + s[r.1..];
      OccurrencesAppend(s[i..r.1], s[r.1..], '\n');
      var x := s[i..r.1];
      if r.0.value.NewLine? {
        assert x == "\n";
      } else {
        NoLineBreakInRun(r.0.value);
      }
    }
  }

  /** A well-formed token other than `NewLine`, outside math and code, spells
      no line break. */
  lemma NoLineBreakInRun(t: Token)
    requires WellFormedToken(t)
    requires t.Text? || t.English? || t.Number? || t.Chinese?
    ensures Occurrences(Spelling(t), '\n') == 0
  {
    var x := t.text;
    NoOccurrence(x, '\n');
  }

  lemma {:induction false} NoOccurrence(x: string, c: char)
    requires forall j :: 0 <= j < |x| ==> x[j] != c
    ensures Occurrences(x, c) == 0
  {
    if x != [] {
      NoOccurrence(x[1..], c);
    }
  }

  // ---------------------------------------------------------------------------
  // Delimited constructs: reading back their own markup, closed or not

  /** `FindChar` stops at the first `d`: here at offset `n`. */
  lemma FindCharAt(s: string, i: nat, n: nat, d: char)
    requires i + n <= |s|
    requires forall j :: i <= j < i + n ==> s[j] != d
    requires i + n < |s| ==> s[i + n] == d
    ensures FindChar(s, i, d) == i + n
  {
  }

  /** Inline math and inline code read back from their markup: `$x$` (or a
      backtick pair) with a non-empty `x` free of the delimiter. When the
      closing delimiter is missing, the content still ends at the end of the
      input. */
  lemma InlineRoundTrip(d: char, x: string, closed: bool, rest: string)
    requires d == '$' || d == '`'
    requires x != [] && forall j :: 0 <= j < |x| ==> x[j] != d
    ensures var t := if d == '$' then InlineMath(x) else InlineCode(x);
            var s := if closed then Spelling(t) + rest else [d] + x;
            Scan(s, 0) == (Some(t), if closed then |x| + 2 else |x| + 1)
  {
    var t := if d == '$' then InlineMath(x) else InlineCode(x);
    var s := if closed then [d] + x + [d] + rest else [d] + x;
    assert closed ==> Spelling(t) + rest == s;
    forall j | 0 <= j < |x| ensures s[1 + j] == x[j] && s[1 + j] != d {
    }
    assert s[1] == x[0];
    FindCharAt(s, 1, |x|, d);
    assert s[1..1 + |x|] == x;
  }

  /** Block math reads back from `$$x$$` with `x` free of `$`; with no
      closing `$$` the rest of the input is the content. */
  lemma BlockMathRoundTrip(x: string, closed: bool, rest: string)
    requires forall j :: 0 <= j < |x| ==> x[j] != '$'
    ensures var s := if closed then Spelling(BlockMath(x)) + rest else "$$" + x;
            Scan(s, 0) == (Some(BlockMath(x)), if closed then |x| + 4 else |x| + 2)
  {
    var s := if closed then "$$" + x + "$$" + rest else "$$" + x;
    assert closed ==> Spelling(BlockMath(x)) + rest == s;
    forall j | 2 <= j < 2 + |x| ensures s[j] == x[j - 2] && !DoubleDollarAt(s, j) {
    }
    assert closed ==> DoubleDollarAt(s, 2 + |x|);
    assert s[2..2 + |x|] == x;
  }

  /** Without a backtick before the fence at `i + n`, the content loop copies
      the `n` characters verbatim and stops after the fence. */
  lemma {:induction false} CodeBodyPlain(s: string, i: nat, n: nat)
    requires i + n <= |s|
    requires forall j :: i <= j < i + n ==> s[j] != '`'
    requires FenceAt(s, i + n)
    ensures CodeBody(s, i) == (s[i..i + n], i + n + 3)
    decreases n
  {
    if n > 0 {
      CodeBodyPlain(s, i + 1, n - 1);
      assert s[i..i + n] == [s[i]] + s[i + 1..i + n];
    }
  }

  /** Without any backtick, the content loop copies the rest of the input. */
  lemma {:induction false} CodeBodyUnclosed(s: string, i: nat)
    requires i <= |s|
    requires forall j :: i <= j < |s| ==> s[j] != '`'
    ensures CodeBody(s, i) == (s[i..], |s|)
    decreases |s| - i
  {
    if i < |s| {
      CodeBodyUnclosed(s, i + 1);
      assert s[i..] == [s[i]] + s[i + 1..];
    }
  }

  /** `TrimStart` drops whitespace and nothing else. */
  lemma {:induction false} TrimStartDropsOnlyWhitespace(s: string)
    ensures forall j :: 0 <= j < |s| - |TrimStart(s)| ==> IsWhitespace(s[j])
  {
    if s != [] && IsWhitespace(s[0]) {
      TrimStartDropsOnlyWhitespace(s[1..]);
      assert forall j :: 1 <= j < |s| ==> s[j] == s[1..][j - 1];
    }
  }

  /** `TrimEnd` drops whitespace and nothing else. */
  lemma {:induction false} TrimEndDropsOnlyWhitespace(s: string)
    ensures forall j :: |TrimEnd(s)| <= j < |s| ==> IsWhitespace(s[j])
  {
    if s != [] && IsWhitespace(s[|s| - 1]) {
      TrimEndDropsOnlyWhitespace(s[..|s| - 1]);
    }
  }

  /** The opening line `language` followed by a line break at index 3 is read
      as that language tag. */
  lemma OpeningLine(s: string, language: string)
    requires 4 + |language| <= |s| && s[3 + |language|] == '\n'
    requires s[3..3 + |language|] == language
    requires forall j :: 0 <= j < |language| ==> language[j] != '\n'
    requires language != [] ==> !IsWhitespace(language[0]) && !IsWhitespace(language[|language| - 1])
    ensures FindChar(s, 3, '\n') == 3 + |language|
    ensures Trim(s[3..3 + |language|]) == language
  {
    forall j | 3 <= j < 3 + |language| ensures s[j] != '\n' {
      assert s[j] == s[3..3 + |language|][j - 3];
    }
    FindCharAt(s, 3, |language|, '\n');
  }

  /** No two backticks stand side by side in `t`. */
  predicate NoBacktickPair(t: string) {
    forall k :: 0 <= k < |t| ==> !PairAt(t, k)
  }

  /** Code content that a closing fence may follow without changing it: no
      two adjacent backticks, and no backtick at the end (one there would
      join the fence). */
  predicate ClosableCode(t: string) {
    NoBacktickPair(t) && (t == [] || t[|t| - 1] != '`')
  }

  /** Collapsing backtick pairs leaves code text unchanged exactly when it
      has no two adjacent backticks. */
  lemma {:induction false} CollapseFixedExactly(t: string)
    ensures Collapse(t) == t <==> NoBacktickPair(t)
    decreases |t|
  {
    if t != [] && !PairAt(t, 0) {
      CollapseFixedExactly(t[1..]);
      assert forall k :: 0 <= k < |t| - 1 ==> (PairAt(t[1..], k) <==> PairAt(t, k + 1));
      assert t == [t[0]] + t[1..];
      if NoBacktickPair(t[1..]) {
        forall k | 0 <= k < |t| ensures !PairAt(t, k) {
          if k > 0 {
            assert !PairAt(t[1..], k - 1);
          }
        }
      }
    }
  }

  /** Two adjacent backticks following pair-free code text that does not
      end with a backtick contribute one backtick; the text before them is
      kept as it is. */
  lemma {:induction false} PairCollapsesToOne(a: string, b: string)
    requires ClosableCode(a)
    ensures Collapse(a + "``" + b) == a + "`" + Collapse(b)
    decreases |a|
  {
    var t := a + "``" + b;
    if a == [] {
      assert PairAt(t, 0) && t[2..] == b;
    } else {
      assert !PairAt(t, 0) by {
        if |a| == 1 {
          assert t[0] == a[|a| - 1];
        } else {
          assert !PairAt(a, 0);
        }
      }
      var a' := a[1..];
      assert ClosableCode(a') by {
        forall k | 0 <= k < |a'| ensures !PairAt(a', k) {
          assert !PairAt(a, k + 1);
        }
      }
      PairCollapsesToOne(a', b);
      assert t[1..] == a' + "``" + b;
      assert a == [a[0]] + a';
    }
  }

  /** The first fence at or after `i` is at `i + n` when none starts before
      it and one starts there (or `i + n` is the end). */
  lemma FirstFenceAt(s: string, i: nat, n: nat)
    requires i + n <= |s|
    requires forall j :: i <= j < i + n ==> !FenceAt(s, j)
    requires i + n < |s| ==> FenceAt(s, i + n)
    ensures FirstFence(s, i) == i + n
  {
  }

  /** Code text at `start` followed by a fence (or by the end of the input)
      is read back unchanged by the content loop. */
  lemma CodeContentReads(s: string, start: nat, content: string, closed: bool)
    requires start + |content| <= |s| && s[start..start + |content|] == content
    requires if closed then ClosableCode(content) && FenceAt(s, start + |content|)
             else NoBacktickPair(content) && |s| == start + |content|
    ensures FirstFence(s, start) == start + |content|
    ensures Collapse(s[start..FirstFence(s, start)]) == content
  {
    var end := start + |content|;
    forall j | start <= j < end ensures !FenceAt(s, j) {
      assert s[j] == content[j - start];
      if j + 1 < end {
        assert s[j + 1] == content[j + 1 - start];
        assert !PairAt(content, j - start);
      }
    }
    FirstFenceAt(s, start, |content|);
    CollapseFixedExactly(content);
  }

  /** The content loop started on code text followed by a fence (or by the
      end of the input) reads that text back and stops after the fence. */
  lemma CodeBodyReads(s: string, start: nat, content: string, closed: bool)
    requires start + |content| <= |s| && s[start..start + |content|] == content
    requires if closed then ClosableCode(content) && FenceAt(s, start + |content|)
             else NoBacktickPair(content) && |s| == start + |content|
    ensures CodeBody(s, start) == (content, start + |content| + (if closed then 3 else 0))
  {
    CodeContentReads(s, start, content, closed);
    CodeBodyCollapses(s, start);
  }

  /** After the opening fence and line of `s`, the content loop reads
      `content` and stops after the closing fence, or at the end of the
      input when there is none. */
  lemma CodeBlockSpanReads(s: string, language: string, content: string, closed: bool)
    requires forall j :: 0 <= j < |language| ==> language[j] != '\n'
    requires language != [] ==> !IsWhitespace(language[0]) && !IsWhitespace(language[|language| - 1])
    requires if closed then ClosableCode(content) else NoBacktickPair(content)
    requires var start := 4 + |language|;
             && start + |content| <= |s|
             && s[3..start] == language + "\n"
             && s[start..start + |content|] == content
             && (if closed then FenceAt(s, start + |content|) else |s| == start + |content|)
    ensures CodeBlockSpan(s, 3) == (language, content, 4 + |language| + |content| + (if closed then 3 else 0))
  {
    var start := 4 + |language|;
    assert s[3..3 + |language|] == language by {
      assert s[3..3 + |language|] == s[3..start][..|language|];
    }
    assert s[3 + |language|] == s[3..start][|language|];
    OpeningLine(s, language);
    CodeBodyReads(s, start, content, closed);
  }

  /** At an opening fence, one step reads a whole fenced code block. */
  lemma ScanAtFence(s: string)
    requires |s| >= 3 && s[..3] == "```"
    ensures var m := CodeBlockSpan(s, 3);
            Scan(s, 0) == (Some(CodeBlock(m.0, m.1)), m.2)
  {
    assert s[0] == '`' && s[1] == '`' && s[2] == '`';
  }

  /** A fenced code block reads back from its markup: a one-line trimmed
      language tag, then content without adjacent backticks or a final
      backtick, then the closing fence. */
  lemma CodeBlockRoundTrip(language: string, content: string, s: string)
    requires forall j :: 0 <= j < |language| ==> language[j] != '\n'
    requires language != [] ==> !IsWhitespace(language[0]) && !IsWhitespace(language[|language| - 1])
    requires ClosableCode(content)
    requires var n := |language| + |content| + 7; n <= |s| && s[..n] == Spelling(CodeBlock(language, content))
    ensures Scan(s, 0) == (Some(CodeBlock(language, content)), |language| + |content| + 7)
  {
    MarkupLaidOut(language, content, s);
    CodeBlockSpanReads(s, language, content, true);
    ScanAtFence(s);
  }

  /** Text starting with a code block's markup holds the fence, the tag
      line, the content and the closing fence where the markup puts them. */
  lemma MarkupLaidOut(language: string, content: string, s: string)
    requires var n := |language| + |content| + 7; n <= |s| && s[..n] == Spelling(CodeBlock(language, content))
    ensures var start := 4 + |language|;
            && s[..3] == "```"
            && s[3..start] == language + "\n"
            && s[start..start + |content|] == content
            && FenceAt(s, start + |content|)
  {
    var start := 4 + |language|;
    var end := start + |content|;
    var p := s[..end + 3];
    CodeBlockLayout(language, content, p);
    assert s[..3] == p[..3];
    assert s[3..start] == p[3..start];
    assert s[start..end] == p[start..end];
    assert FenceAt(s, end) by {
      assert s[end..end + 3] == p[end..] == "```";
      assert s[end] == s[end..end + 3][0] && s[end + 1] == s[end..end + 3][1] && s[end + 2] == s[end..end + 3][2];
    }
  }

  /** The slices of a fenced code block's markup. */
  lemma CodeBlockLayout(language: string, content: string, p: string)
    requires p == Spelling(CodeBlock(language, content))
    ensures var start := 4 + |language|;
            && |p| == start + |content| + 3
            && p[..3] == "```"
            && p[3..start] == language + "\n"
            && p[start..start + |content|] == content
            && p[start + |content|..] == "```"
  {
    var head := "```" + language + "\n";
    assert p == head + content + "```";
    var start := 4 + |language|;
    assert p[..3] == "```";
    assert p[3..start] == head[3..];
    assert p[start..start + |content|] == content;
  }

  /** One step at a text laid out as a fenced code block reads that block. */
  lemma ScanCodeBlockAt(s: string, language: string, content: string, closed: bool, n: nat)
    requires forall j :: 0 <= j < |language| ==> language[j] != '\n'
    requires language != [] ==> !IsWhitespace(language[0]) && !IsWhitespace(language[|language| - 1])
    requires if closed then ClosableCode(content) else NoBacktickPair(content)
    requires |s| >= 3 && s[..3] == "```"
    requires var start := 4 + |language|;
             && start + |content| <= |s|
             && s[3..start] == language + "\n"
             && s[start..start + |content|] == content
             && (if closed then FenceAt(s, start + |content|) else |s| == start + |content|)
    requires n == 4 + |language| + |content| + (if closed then 3 else 0)
    ensures Scan(s, 0) == (Some(CodeBlock(language, content)), n)
  {
    CodeBlockSpanReads(s, language, content, closed);
    ScanAtFence(s);
  }

  /** An unclosed fenced code block takes the rest of the input as its
      content, which may end with a backtick but holds no two adjacent ones. */
  lemma UnclosedCodeBlock(language: string, content: string)
    requires forall j :: 0 <= j < |language| ==> language[j] != '\n'
    requires language != [] ==> !IsWhitespace(language[0]) && !IsWhitespace(language[|language| - 1])
    requires NoBacktickPair(content)
    ensures var s := "```" + language + "\n" + content;
            Scan(s, 0) == (Some(CodeBlock(language, content)), |s|)
  {
    var head := "```" + language + "\n";
    var s := head + content;
    var start := 4 + |language|;
    assert s[..3] == "```";
    assert s[3..start] == head[3..];
    assert s[start..start + |content|] == content;
    ScanCodeBlockAt(s, language, content, false, |s|);
  }

  /** A single `$` inside block math stays in the content. */
  lemma LoneDollarStaysInBlockMath()
    ensures Scan("$$a$b$$", 0) == (Some(BlockMath("a$b")), 7)
  {
    var s := "$$a$b$$";
    assert !DoubleDollarAt(s, 2) && !DoubleDollarAt(s, 3) && !DoubleDollarAt(s, 4) && DoubleDollarAt(s, 5);
    assert BlockMathEnd(s, 2) == 5;
    assert s[2..5] == "a$b";
  }

  /** Inside a fenced code block, two backticks not followed by a third
      contribute a single backtick. */
  lemma DoubleBacktickInCodeKeepsOne()
    ensures Scan("```\na``b```", 0) == (Some(CodeBlock("", "a`b")), 11)
  {
    var s := "```\na``b```";
    assert FindChar(s, 3, '\n') == 3;
    assert s[3..3] == "";
    assert s[4] == 'a' && s[5] == '`' && s[6] == '`' && s[7] == 'b' && FenceAt(s, 8);
    CodeBodyPlain(s, 7, 1);
    assert s[7..8] == "b";
    assert CodeBody(s, 5) == (['`'] + "b", 11);
    assert ['`'] + "b" == "`b";
    assert CodeBody(s, 4) == (['a'] + "`b", 11);
    assert ['a'] + "`b" == "a`b";
  }
}
