/** Properties of the rendering specification in module Formatter: the shape
    of the buffer's end, the collapsing of line breaks, the order in which
    placeholders take their code blocks, the spacing rules, code-block
    framing read back by the tokenizer, and the default configuration. */
module FormatterLemmas {
  import opened Wrappers
  import opened Config
  import opened Parser
  import opened ParserLemmas
  import opened Formatter

  // ---------------------------------------------------------------------------
  // Trailing line breaks

  /** `n` line breaks. */
  function LineBreaks(n: nat): (r: string)
    ensures |r| == n
  {
    if n == 0 then [] else LineBreaks(n - 1) + "\n"
  }

  /** Appending a line break adds one trailing line break. */
  lemma TrailingAfterNewline(s: string, b: string)
    requires b == s + "\n"
    ensures TrailingNewlines(b) == TrailingNewlines(s) + 1
  {
    assert b[..|s|] == s;
  }

  /** Appending `k` line breaks adds `k` trailing line breaks. */
  lemma {:induction false} TrailingAfterLineBreaks(s: string, k: nat, b: string)
    requires b == s + LineBreaks(k)
    ensures TrailingNewlines(b) == TrailingNewlines(s) + k
    decreases k
  {
    if k > 0 {
      var a := s + LineBreaks(k - 1);
      TrailingAfterLineBreaks(s, k - 1, a);
      assert LineBreaks(k) == LineBreaks(k - 1) + "\n";
      TrailingAfterNewline(a, b);
    } else {
      assert b == s;
    }
  }

  /** Appending text that does not end in a line break leaves none at the end. */
  lemma TrailingAfterText(s: string, x: string)
    requires x != [] && x[|x| - 1] != '\n'
    ensures TrailingNewlines(s + x) == 0
  {
  }

  /** A buffer ends with a blank line exactly when it ends with at least two
      line breaks. */
  lemma EndsWithBlankLine(s: string)
    ensures EndsWith(s, "\n\n") <==> TrailingNewlines(s) >= 2
  {
    if |s| >= 2 && s[|s| - 1] == '\n' && s[|s| - 2] == '\n' {
      assert s[..|s| - 1][..|s| - 2] == s[..|s| - 2];
      assert s[|s| - 2..] == "\n\n";
    }
  }

  /** `ensure_empty_line` twice is `ensure_empty_line` once. */
  lemma EnsuredEmptyLineIdempotent(s: string)
    ensures EnsuredEmptyLine(EnsuredEmptyLine(s)) == EnsuredEmptyLine(s)
  {
    var r := EnsuredEmptyLine(s);
    if s != [] {
      assert r[|r| - 1] == '\n' && r[|r| - 2] == '\n';
      assert r[..|r| - 2] + "\n\n" == r;
    }
  }

  /** A `NewLine` token appends a line break only while the buffer does not
      already end with a blank line, so it never makes a third trailing one. */
  lemma NewLineStep(cfg: Config, tools: Tools, blocks: seq<string>, st: RenderState)
    ensures var n := TrailingNewlines(st.out);
            var out := Step(cfg, tools, blocks, st, NewLine).out;
            (n >= 2 ==> out == st.out) && (n < 2 ==> out == st.out + "\n")
            && TrailingNewlines(out) == if n >= 2 then n else n + 1
  {
    EndsWithBlankLine(st.out);
    TrailingAfterNewline(st.out, st.out + "\n");
  }

  /** `n` NewLine tokens. */
  function NewLineTokens(n: nat): (ts: seq<Token>)
    ensures |ts| == n && Placeholders(ts) == 0 && TitlesFree(ts)
  {
    if n == 0 then []
    else
      var ts := NewLineTokens(n - 1) + [NewLine];
      assert ts[..n - 1] == NewLineTokens(n - 1);
      ts
  }

  /** Rendering one more token is one more step. */
  lemma RenderSeqSnoc(cfg: Config, tools: Tools, blocks: seq<string>, st: RenderState, ts: seq<Token>, t: Token, whole: seq<Token>)
    requires whole == ts + [t]
    requires st.nextBlock + Placeholders(whole) <= |blocks| && TitlesFree(whole)
    ensures Placeholders(ts) <= Placeholders(whole) && TitlesFree(ts)
    ensures RenderSeq(cfg, tools, blocks, st, whole)
            == Step(cfg, tools, blocks, RenderSeq(cfg, tools, blocks, st, ts), t)
  {
    assert whole[..|ts|] == ts;
    assert forall j :: 0 <= j < |ts| ==> whole[j] == ts[j];
  }

  /** The line breaks `n` NewLine tokens add to a buffer ending with `t` of
      them: as many as fit below a blank line. */
  function Gained(t: nat, n: nat): nat
    requires t <= 2
  {
    if n <= 2 - t then n else 2 - t
  }

  /** The buffer arithmetic behind one more NewLine token in a run. */
  lemma NewLineRunStep(s: string, t: nat, n: nat, before: string, after: string)
    requires t == TrailingNewlines(s) && t <= 2 && n > 0
    requires before == s + LineBreaks(Gained(t, n - 1))
    requires after == if TrailingNewlines(before) >= 2 then before else before + "\n"
    ensures after == s + LineBreaks(Gained(t, n))
  {
    var m := Gained(t, n - 1);
    TrailingAfterLineBreaks(s, m, before);
    if m < 2 - t {
      assert Gained(t, n) == m + 1;
      assert after == before + "\n";
      LineBreaksSnoc(s, m, before);
    } else {
      assert Gained(t, n) == m;
    }
  }

  /** One more line break after `m` of them is `m + 1` of them. */
  lemma LineBreaksSnoc(s: string, m: nat, b: string)
    requires b == s + LineBreaks(m)
    ensures b + "\n" == s + LineBreaks(m + 1)
  {
    assert LineBreaks(m + 1) == LineBreaks(m) + "\n";
  }

  /** A run of NewLine tokens adds line breaks only up to a blank line: a
      buffer ending with `t <= 2` line breaks gains `min(n, 2 - t)`. */
  lemma {:induction false} NewLineRunCollapses(cfg: Config, tools: Tools, blocks: seq<string>, st: RenderState, t: nat, n: nat)
    requires st.nextBlock <= |blocks|
    requires t == TrailingNewlines(st.out) && t <= 2
    ensures RenderSeq(cfg, tools, blocks, st, NewLineTokens(n)).out == st.out + LineBreaks(Gained(t, n))
    decreases n
  {
    if n == 0 {
      assert st.out + LineBreaks(0) == st.out;
    } else {
      NewLineRunCollapses(cfg, tools, blocks, st, t, n - 1);
      RenderSeqSnoc(cfg, tools, blocks, st, NewLineTokens(n - 1), NewLine, NewLineTokens(n));
      var before := RenderSeq(cfg, tools, blocks, st, NewLineTokens(n - 1));
      NewLineStep(cfg, tools, blocks, before);
      NewLineRunStep(st.out, t, n, before.out, Step(cfg, tools, blocks, before, NewLine).out);
    }
  }

  // ---------------------------------------------------------------------------
  // The rendered text never ends with more than one blank line

  /** A token whose own text does not end in a line break. */
  predicate NoTrailingBreak(t: Token) {
    match t
    case Text(x) => x == [] || x[|x| - 1] != '\n'
    case Chinese(x) => x == [] || x[|x| - 1] != '\n'
    case English(x) => x == [] || x[|x| - 1] != '\n'
    case Number(x) => x == [] || x[|x| - 1] != '\n'
    case _ => true
  }

  /** Text appended after an optional space leaves at most two trailing line
      breaks when the buffer had at most two. */
  lemma PaddedTextKeepsAtMostTwo(out: string, space: bool, x: string)
    requires TrailingNewlines(out) <= 2
    requires x == [] || x[|x| - 1] != '\n'
    ensures TrailingNewlines(Pad(out, space) + x) <= 2
  {
    if x != [] {
      TrailingAfterText(Pad(out, space), x);
    } else {
      assert Pad(out, space) + x == Pad(out, space);
      if space {
        TrailingAfterText(out, " ");
      }
    }
  }

  /** One rendering step keeps the buffer's end at most one blank line. */
  lemma StepKeepsAtMostTwo(cfg: Config, tools: Tools, blocks: seq<string>, st: RenderState, t: Token)
    requires t == FakeCodeBlock ==> st.nextBlock < |blocks|
    requires t.Title? ==> PlaceholderFree(t.tokens)
    requires NoTrailingBreak(t)
    requires TrailingNewlines(st.out) <= 2
    ensures TrailingNewlines(Step(cfg, tools, blocks, st, t).out) <= 2
  {
    match t
    case Chinese(x) => PaddedTextKeepsAtMostTwo(st.out, ChineseSpaced(cfg, st.prev), x);
    case English(x) => PaddedTextKeepsAtMostTwo(st.out, EnglishSpaced(cfg, st.prev), x);
    case Number(x) => PaddedTextKeepsAtMostTwo(st.out, NumberSpaced(cfg, st.prev), x);
    case Text(x) => PaddedTextKeepsAtMostTwo(st.out, false, x);
    case InlineMath(x) => TrailingAfterText(Pad(st.out, DelimitedSpaced(st.prev)) + "$" + x, "$");
    case InlineCode(x) => TrailingAfterText(Pad(st.out, DelimitedSpaced(st.prev)) + "`" + x, "`");
    case NewLine => NewLineStep(cfg, tools, blocks, st);
    case _ =>
  }

  /** Rendering tokens whose text does not end in a line break never leaves
      more than one blank line at the end of the buffer. */
  lemma {:induction false} RenderKeepsAtMostTwo(cfg: Config, tools: Tools, blocks: seq<string>, st: RenderState, ts: seq<Token>)
    requires st.nextBlock + Placeholders(ts) <= |blocks| && TitlesFree(ts)
    requires forall j :: 0 <= j < |ts| ==> NoTrailingBreak(ts[j])
    requires TrailingNewlines(st.out) <= 2
    ensures TrailingNewlines(RenderSeq(cfg, tools, blocks, st, ts).out) <= 2
    decreases |ts|
  {
    if ts != [] {
      var init := ts[..|ts| - 1];
      assert forall j :: 0 <= j < |init| ==> init[j] == ts[j];
      RenderKeepsAtMostTwo(cfg, tools, blocks, st, init);
      StepKeepsAtMostTwo(cfg, tools, blocks, RenderSeq(cfg, tools, blocks, st, init), ts[|ts| - 1]);
    }
  }

  /** A token the tokenizer produces has no line break at the end of its
      text, and is neither a title nor a placeholder. */
  lemma WellFormedHasNoTrailingBreak(t: Token)
    requires WellFormedToken(t)
    ensures NoTrailingBreak(t) && !t.Title? && t != FakeCodeBlock
  {
    match t
    case English(x) => assert IsAsciiAlphabetic(x[|x| - 1]);
    case Number(x) => assert IsNumberChar(x[|x| - 1]);
    case Chinese(x) => assert IsChinese(x[|x| - 1]);
    case _ =>
  }

  /** Tokenizing a document and rendering the tokens (with no code-block
      placeholders) ends the text with at most one blank line. */
  lemma FormattedDocumentEndsWithAtMostOneBlankLine(cfg: Config, tools: Tools, s: string)
    ensures Placeholders(Tokenize(s)) == 0 && TitlesFree(Tokenize(s))
            && TrailingNewlines(Render(cfg, tools, Tokenize(s), [])) <= 2
  {
    var ts := Tokenize(s);
    TokenizeWellFormed(s, 0);
    forall j | 0 <= j < |ts| ensures NoTrailingBreak(ts[j]) && !ts[j].Title? && ts[j] != FakeCodeBlock {
      assert ts[j] in ts;
      WellFormedHasNoTrailingBreak(ts[j]);
    }
    PlaceholderFreeHasNone(ts);
    RenderKeepsAtMostTwo(cfg, tools, [], RenderState([], None, 0), ts);
  }

  // ---------------------------------------------------------------------------
  // Placeholders take the precomputed blocks in order

  /** The placeholder that follows `before` is replaced by the block whose
      index is the number of placeholders in `before`, between blank lines. */
  lemma PlaceholderTakesNextBlock(cfg: Config, tools: Tools, blocks: seq<string>, st: RenderState, before: seq<Token>, whole: seq<Token>)
    requires whole == before + [FakeCodeBlock]
    requires st.nextBlock + Placeholders(whole) <= |blocks| && TitlesFree(whole)
    ensures Placeholders(whole) == Placeholders(before) + 1
    ensures st.nextBlock + Placeholders(before) < |blocks|
    ensures RenderSeq(cfg, tools, blocks, st, whole).out
            == EnsuredEmptyLine(EnsuredEmptyLine(RenderSeq(cfg, tools, blocks, st, before).out)
                                + blocks[st.nextBlock + Placeholders(before)])
  {
    assert whole[..|whole| - 1] == before;
    RenderSeqSnoc(cfg, tools, blocks, st, before, FakeCodeBlock, whole);
  }

  /** In `format`, the k-th placeholder is replaced by the k-th code block,
      formatted on its own. */
  lemma KthPlaceholderGetsKthBlock(cfg: Config, tools: Tools, codeBlocks: seq<CodeBlockEntry>, before: seq<Token>, whole: seq<Token>)
    requires whole == before + [FakeCodeBlock]
    requires Placeholders(whole) <= |codeBlocks| && TitlesFree(whole)
    ensures var k := Placeholders(before);
            k < |codeBlocks|
            && Render(cfg, tools, whole, FormatCodeBlocks(cfg, tools, codeBlocks))
               == EnsuredEmptyLine(EnsuredEmptyLine(Render(cfg, tools, before, FormatCodeBlocks(cfg, tools, codeBlocks)))
                                   + FormatBlockCodePar(cfg, tools, codeBlocks[k].language, codeBlocks[k].content))
  {
    PlaceholderTakesNextBlock(cfg, tools, FormatCodeBlocks(cfg, tools, codeBlocks), RenderState([], None, 0), before, whole);
  }

  // ---------------------------------------------------------------------------
  // Spacing

  /** Chinese, English and Number runs. */
  predicate IsWordRun(t: Token) {
    t.Chinese? || t.English? || t.Number?
  }

  /** Inline math and inline code. */
  predicate IsDelimited(t: Token) {
    t.InlineMath? || t.InlineCode?
  }

  /** The Chinese/English toggle alone decides the space between the two
      scripts, in either order. */
  lemma ZhEnSpacingIsSymmetric(cfg: Config, tools: Tools, blocks: seq<string>, out: string, k: nat, zh: string, en: string)
    ensures Step(cfg, tools, blocks, RenderState(out, Some(English(en)), k), Chinese(zh)).out
            == (if cfg.spaceBetweenZhAndEn then out + " " else out) + zh
    ensures Step(cfg, tools, blocks, RenderState(out, Some(Chinese(zh)), k), English(en)).out
            == (if cfg.spaceBetweenZhAndEn then out + " " else out) + en
  {
  }

  /** The Chinese/number toggle alone decides the space between a Chinese run
      and a number, in either order. */
  lemma ZhNumSpacingIsSymmetric(cfg: Config, tools: Tools, blocks: seq<string>, out: string, k: nat, zh: string, num: string)
    ensures Step(cfg, tools, blocks, RenderState(out, Some(Number(num)), k), Chinese(zh)).out
            == (if cfg.spaceBetweenZhAndNum then out + " " else out) + zh
    ensures Step(cfg, tools, blocks, RenderState(out, Some(Chinese(zh)), k), Number(num)).out
            == (if cfg.spaceBetweenZhAndNum then out + " " else out) + num
  {
  }

  /** An inline token is written as it was spelled, preceded by at most one
      space; there is a space only after another inline token, always one
      between a word run and inline math or code (whatever the toggles),
      never one between two delimited tokens, and never one between English
      and a number. */
  lemma InlineStepSpacing(cfg: Config, tools: Tools, blocks: seq<string>, st: RenderState, t: Token)
    requires IsWordRun(t) || IsDelimited(t)
    ensures var out := Step(cfg, tools, blocks, st, t).out;
            out == st.out + Spelling(t) || out == st.out + " " + Spelling(t)
    ensures st.prev.None? || !(IsWordRun(st.prev.value) || IsDelimited(st.prev.value)) ==>
              Step(cfg, tools, blocks, st, t).out == st.out + Spelling(t)
    ensures st.prev.Some? && ((IsWordRun(st.prev.value) && IsDelimited(t)) || (IsDelimited(st.prev.value) && IsWordRun(t))) ==>
              Step(cfg, tools, blocks, st, t).out == st.out + " " + Spelling(t)
    ensures st.prev.Some? && IsDelimited(st.prev.value) && IsDelimited(t) ==>
              Step(cfg, tools, blocks, st, t).out == st.out + Spelling(t)
    ensures st.prev.Some? && ((st.prev.value.English? && t.Number?) || (st.prev.value.Number? && t.English?)) ==>
              Step(cfg, tools, blocks, st, t).out == st.out + Spelling(t)
  {
    match t
    case InlineMath(x) => assert Pad(st.out, DelimitedSpaced(st.prev)) + "$" + x + "$" == Pad(st.out, DelimitedSpaced(st.prev)) + ("$" + x + "$");
    case InlineCode(x) => assert Pad(st.out, DelimitedSpaced(st.prev)) + "`" + x + "`" == Pad(st.out, DelimitedSpaced(st.prev)) + ("`" + x + "`");
    case _ =>
  }

  // ---------------------------------------------------------------------------
  // The code/text spacing toggle is never read

  /** The Markdown formatter does not tell `cfg` from `cfg` with the
      code/text spacing toggle set to `b`. */
  ghost predicate MarkdownIgnoresCodeTextSpacing(tools: Tools, cfg: Config, b: bool) {
    forall x :: tools.formatMarkdown(x, cfg) == tools.formatMarkdown(x, cfg.(spaceBetweenCodeAndText := b))
  }

  /** A code block is formatted the same whatever the code/text spacing toggle. */
  lemma BlockIgnoresCodeTextSpacing(cfg: Config, tools: Tools, language: string, content: string, b: bool)
    requires MarkdownIgnoresCodeTextSpacing(tools, cfg, b)
    ensures FormatBlockCodePar(cfg.(spaceBetweenCodeAndText := b), tools, language, content)
            == FormatBlockCodePar(cfg, tools, language, content)
  {
    assert FormattedBody(cfg.(spaceBetweenCodeAndText := b), tools, language, content)
           == FormattedBody(cfg, tools, language, content);
  }

  /** One step does not depend on the code/text spacing toggle. */
  lemma {:induction false} StepIgnoresCodeTextSpacing(cfg: Config, tools: Tools, blocks: seq<string>, st: RenderState, t: Token, b: bool)
    requires t == FakeCodeBlock ==> st.nextBlock < |blocks|
    requires t.Title? ==> PlaceholderFree(t.tokens)
    requires MarkdownIgnoresCodeTextSpacing(tools, cfg, b)
    ensures Step(cfg.(spaceBetweenCodeAndText := b), tools, blocks, st, t) == Step(cfg, tools, blocks, st, t)
    decreases t, 0
  {
    match t
    case CodeBlock(language, content) => BlockIgnoresCodeTextSpacing(cfg, tools, language, content, b);
    case Title(tokens, level) =>
      PlaceholderFreeHasNone(tokens);
      RenderSeqIgnoresCodeTextSpacing(cfg, tools, [], RenderState([], None, 0), tokens, b);
      assert TitleText(cfg.(spaceBetweenCodeAndText := b), tools, tokens) == TitleText(cfg, tools, tokens);
    case _ =>
  }

  /** The rendering loop does not depend on the code/text spacing toggle. */
  lemma {:induction false} RenderSeqIgnoresCodeTextSpacing(cfg: Config, tools: Tools, blocks: seq<string>, st: RenderState, ts: seq<Token>, b: bool)
    requires st.nextBlock + Placeholders(ts) <= |blocks| && TitlesFree(ts)
    requires MarkdownIgnoresCodeTextSpacing(tools, cfg, b)
    ensures RenderSeq(cfg.(spaceBetweenCodeAndText := b), tools, blocks, st, ts) == RenderSeq(cfg, tools, blocks, st, ts)
    decreases ts, 1
  {
    if ts != [] {
      var init := ts[..|ts| - 1];
      RenderSeqSnoc(cfg, tools, blocks, st, init, ts[|ts| - 1], ts);
      RenderSeqIgnoresCodeTextSpacing(cfg, tools, blocks, st, init, b);
      StepIgnoresCodeTextSpacing(cfg, tools, blocks, RenderSeq(cfg, tools, blocks, st, init), ts[|ts| - 1], b);
    }
  }

  /** `format`, code blocks included, produces the same text whatever the
      code/text spacing toggle: the configuration field is never read. */
  lemma FormatIgnoresCodeTextSpacing(cfg: Config, tools: Tools, ts: seq<Token>, codeBlocks: seq<CodeBlockEntry>, b: bool)
    requires Placeholders(ts) <= |codeBlocks| && TitlesFree(ts)
    requires MarkdownIgnoresCodeTextSpacing(tools, cfg, b)
    ensures Render(cfg.(spaceBetweenCodeAndText := b), tools, ts, FormatCodeBlocks(cfg.(spaceBetweenCodeAndText := b), tools, codeBlocks))
            == Render(cfg, tools, ts, FormatCodeBlocks(cfg, tools, codeBlocks))
  {
    var blocks := FormatCodeBlocks(cfg, tools, codeBlocks);
    forall k | 0 <= k < |codeBlocks|
      ensures FormatCodeBlocks(cfg.(spaceBetweenCodeAndText := b), tools, codeBlocks)[k] == blocks[k]
    {
      BlockIgnoresCodeTextSpacing(cfg, tools, codeBlocks[k].language, codeBlocks[k].content, b);
    }
    assert FormatCodeBlocks(cfg.(spaceBetweenCodeAndText := b), tools, codeBlocks) == blocks;
    RenderSeqIgnoresCodeTextSpacing(cfg, tools, blocks, RenderState([], None, 0), ts, b);
  }

  // ---------------------------------------------------------------------------
  // Code-block framing read back by the tokenizer

  /** A body as it stands before the closing fence: with a line break added
      unless it is empty or already ends with one. */
  function Terminated(body: string): (r: string)
    ensures r == body || r == body + "\n"
    ensures r == [] || r[|r| - 1] == '\n'
  {
    if body == [] || EndsWith(body, "\n") then body else body + "\n"
  }

  /** For content that does not start with a line break, the framed text is
      the markup of a code block holding the terminated body
      (`FramedBlockReadsBack` shows the tokenizer reads it back). */
  lemma FrameSpellsCodeBlock(language: string, content: string, body: string)
    requires !StartsWithNewline(content)
    ensures Frame(language, content, body) == Spelling(CodeBlock(language, Terminated(body)))
  {
    var head := "```" + language + "\n";
    assert OpeningFence(language, content) == head;
    var ends := body == [] || EndsWith(body, "\n");
    if body != [] {
      EndsWithAfter(head, body, "\n");
    } else {
      assert EndsWith(head + body, "\n");
    }
    if ends {
      assert Frame(language, content, body) == head + body + "```";
    } else {
      assert Frame(language, content, body) == head + (body + "\n") + "```";
    }
  }

  /** Terminating a body adds no character other than a line break. */
  lemma TerminatedAvoids(body: string, c: char)
    requires c != '\n'
    requires forall j :: 0 <= j < |body| ==> body[j] != c
    ensures forall j :: 0 <= j < |Terminated(body)| ==> Terminated(body)[j] != c
  {
    var b := Terminated(body);
    if b != body {
      assert forall j :: 0 <= j < |body| ==> b[j] == body[j];
    }
  }

  /** Framed pair-free code is the markup of a code block whose content
      the tokenizer can close: terminating the body joins no two backticks
      and leaves no backtick at the end. */
  lemma FramedIsClosableMarkup(language: string, content: string, body: string)
    requires !StartsWithNewline(content)
    requires NoBacktickPair(body)
    ensures Frame(language, content, body) == Spelling(CodeBlock(language, Terminated(body)))
    ensures ClosableCode(Terminated(body))
  {
    FrameSpellsCodeBlock(language, content, body);
    var t := Terminated(body);
    forall k | 0 <= k < |t| ensures !PairAt(t, k) {
      if k + 1 < |body| {
        assert !PairAt(body, k);
      }
    }
  }

  /** Text starting with the frame of pair-free code starts with the
      markup of a closable code block of the same length. */
  lemma FramedPrefix(language: string, content: string, body: string, s: string)
    requires !StartsWithNewline(content)
    requires NoBacktickPair(body)
    requires var f := Frame(language, content, body); |f| <= |s| && s[..|f|] == f
    ensures var t := Terminated(body);
            && ClosableCode(t)
            && |Frame(language, content, body)| == |language| + |t| + 7
            && s[..|language| + |t| + 7] == Spelling(CodeBlock(language, t))
  {
    FramedIsClosableMarkup(language, content, body);
  }

  /** The tokenizer reads a framed block back: text starting with the frame
      of pair-free code under a trimmed one-line tag is one code block whose
      content is the terminated body, and the step consumes exactly the frame. */
  lemma FramedBlockReadsBack(language: string, content: string, body: string, s: string)
    requires forall j :: 0 <= j < |language| ==> language[j] != '\n'
    requires language != [] ==> !IsWhitespace(language[0]) && !IsWhitespace(language[|language| - 1])
    requires !StartsWithNewline(content)
    requires NoBacktickPair(body)
    requires var f := Frame(language, content, body); |f| <= |s| && s[..|f|] == f
    ensures Scan(s, 0) == (Some(CodeBlock(language, Terminated(body))), |Frame(language, content, body)|)
  {
    FramedPrefix(language, content, body, s);
    CodeBlockRoundTrip(language, Terminated(body), s);
  }

  /** Passing content through unformatted is stable: the block read back
      from the output frames to the same text again. */
  lemma PassthroughIsStable(language: string, content: string)
    requires !StartsWithNewline(content)
    ensures !StartsWithNewline(Terminated(content))
    ensures Frame(language, Terminated(content), Terminated(content)) == Frame(language, content, content)
  {
    var t := Terminated(content);
    FrameSpellsCodeBlock(language, content, content);
    assert !StartsWithNewline(t) by {
      if t != content && content != [] {
        assert t[0] == content[0];
      }
    }
    FrameSpellsCodeBlock(language, t, t);
    assert Terminated(t) == t;
  }

  /** A code block whose content starts with a line break loses it: that
      line break stands in for the one after the language tag, so the framed
      text is the markup of a block holding the content without it. */
  lemma LeadingBreakLost(language: string, c: string)
    requires StartsWithNewline(c)
    ensures Frame(language, c, c) == Spelling(CodeBlock(language, Terminated(c[1..])))
  {
    var y := c[1..];
    assert c == "\n" + y;
    var head := "```" + language + "\n";
    assert OpeningFence(language, c) + c == head + y;
    if y != [] {
      EndsWithAfter(head, y, "\n");
    }
  }

  /** A blank first line in a code block does not survive formatting: the
      parser's content keeps it as a leading line break, which then stands in
      for the line break after the language tag, and the text read back no
      longer has it. */
  lemma LeadingBlankLineIsDropped()
    ensures Frame("", "\nx", "\nx") == "```\nx\n```"
    ensures Scan("```\nx\n```", 0) == (Some(CodeBlock("", "x\n")), 9)
  {
    var s := "```\nx\n```";
    assert OpeningFence("", "\nx") == "```";
    assert !EndsWith("```\nx", "\n");
    assert Spelling(CodeBlock("", "x\n")) == s[..9];
    CodeBlockRoundTrip("", "x\n", s);
  }

  // ---------------------------------------------------------------------------
  // The default configuration

  /** Whether a language (other than `tex` and `md`) has a command line
      under `cfg`. */
  predicate HasCommand(cfg: Config, language: string) {
    language in cfg.codeFormatters && FormatterCommand(cfg.codeFormatters[language], language).Some?
  }

  /** The languages the default configuration actually formats with an
      external tool. */
  const DefaultCommandLanguages: set<string> := {"rust", "js", "ts", "css", "html", "json", "yml"}

  /** A language has a command line under a map of the default's shape
      exactly when it is one of the seven. */
  lemma CommandLanguagesOfDefaultShape(cfg: Config, language: string)
    requires cfg.codeFormatters.Keys == PrettierLanguages + {"rust", "latex"}
    requires forall lang :: lang in cfg.codeFormatters ==>
               cfg.codeFormatters[lang] == (if lang == "rust" then "rustfmt"
                                            else if lang == "latex" then "latexindent"
                                            else "prettier")
    ensures HasCommand(cfg, language) <==> language in DefaultCommandLanguages
  {
    if language in cfg.codeFormatters {
      var tool := cfg.codeFormatters[language];
      if language == "rust" {
        assert tool == "rustfmt";
      } else if language == "latex" {
        assert tool == "latexindent" && tool !in KnownTools;
      } else {
        assert tool == "prettier";
        assert language in PrettierLanguages;
        assert language in PrettierParserLanguages <==> language in DefaultCommandLanguages;
      }
    }
  }

  /** Under the default configuration exactly seven languages have a command
      line: `latex`'s tool is unknown, and `prettier` has no parser for the
      long names `javascript`, `typescript`, `yaml` and `markdown`. */
  lemma DefaultCommandLanguagesExactly(language: string)
    ensures HasCommand(Default(), language) <==> language in DefaultCommandLanguages
  {
    CommandLanguagesOfDefaultShape(Default(), language);
  }

  /** The default command line for Rust blocks. */
  lemma DefaultRustCommand()
    ensures FormatterCommand(Default().codeFormatters["rust"], "rust") == Some(Profile("rustfmt", ["--edition", "2021"]))
  {
  }

  /** Under the default configuration, a block in a language with no
      command line (and not `tex` or `md`) is framed around its own content. */
  lemma DefaultPassthrough(tools: Tools, language: string, content: string)
    requires language != "tex" && language != "md" && language !in DefaultCommandLanguages
    ensures FormatBlockCodePar(Default(), tools, language, content) == Frame(language, content, content)
  {
    DefaultCommandLanguagesExactly(language);
  }
}
