# rustdown-formatter, modelled in Dafny

rustdown-formatter reformats Markdown that mixes Chinese and English. This
project models its core in three parts:

- **Tokenizer** (`src/parser.rs`). One forward pass with one character of
  lookahead cuts a document into tokens:
  - runs of ASCII letters, of digits and dots, and of CJK ideographs;
  - inline math `$…$` and inline code `` `…` ``;
  - block math `$$…$$` and fenced code blocks;
  - line breaks, and single leftover characters.
- **Renderer** (`src/formatter.rs`). It appends the tokens to an output
  buffer:
  - it inserts one space between Chinese and English, Chinese and numbers,
    and prose and inline math/code, as the configuration and the previous
    token decide;
  - block math, code blocks, titles and code-block placeholders are set
    apart by exactly one blank line;
  - runs of line breaks collapse to one blank line;
  - code blocks are formatted by an external tool chosen from a built-in
    table of command lines.
- **Configuration record** (`src/config.rs`): the four toggles and the
  language → tool map, with its thirteen default entries.

Files:

- `wrappers.dfy`: `Option` and `Result`.
- `config.dfy`: the configuration and its default.
- `parser.dfy`: the token type and the pure scanning functions (`Scan`,
  `TokenizeFrom`). It also holds the `Parser` class, which keeps the cursor
  in place; every `parse_*` method is a loop proved equal to a scanning
  function.
- `parser_lemmas.dfy`: well-formedness of tokens, maximal runs, read-back
  (round-trip) properties for each construct, and the line-break count.
- `formatter.dfy`: the command table, code-block framing, the spacing
  predicates and the rendering specification (`Step`, `RenderSeq`). It also
  holds the `Formatter` class, whose methods update `output` in place and
  are proved to match that specification.
- `formatter_lemmas.dfy`: the properties of that specification:
  - blank-line discipline;
  - placeholder order;
  - spacing rules;
  - the code/text spacing toggle never being read;
  - framed code blocks spelled as the tokenizer's code-block markup;
  - the languages the default configuration really formats.

The external formatters (the LaTeX formatter, the recursive Markdown
pipeline used for `md` blocks, and running a command-line tool) are
parameters. They are the three functions of a `Tools` value. The only
thing assumed about them is `FormatterLemmas.MarkdownIgnoresCodeTextSpacing`:
the Markdown pipeline does not depend on the code/text spacing toggle, which
`FormatterLemmas.FormatIgnoresCodeTextSpacing` requires.

The renderer matches two `Token` variants that `src/parser.rs` never
produces: `Title(tokens, level)` and `FakeCodeBlock`, a placeholder for a
code block extracted earlier. The code of `src/formatter.rs` is followed, so
the model's `Token` has both (the tokenizer provably never makes them; see
`ParserLemmas.TokenizeWellFormed`).

## Model

| member | source | states |
|---|---|---|
| Config.Default | src/config.rs:13-40 | every toggle is on; the map has exactly thirteen keys: `rust` goes to rustfmt, `latex` to latexindent, and the other eleven languages to prettier |
| Config.New | src/config.rs:43-45 | `Config::new` is the default configuration |
| Config.DefaultHasThirteenEntries | src/config.rs:15-30 | the default map has thirteen distinct entries |
| Parser.FindChar | src/parser.rs:97-100 | the first index at or after `i` holding the delimiter, or the end; nothing before it is the delimiter |
| Parser.IsChinese | src/parser.rs:193-195 | defines a Chinese character as one in the CJK Unified Ideographs block U+4E00..U+9FFF |
| Parser.RunEnd | src/parser.rs:161-166 | the end of the maximal run satisfying the class predicate: everything before it is in the class, the character at it (if any) is not |
| Parser.BlockMathEnd | src/parser.rs:108-112 | the first `$$` at or after `i`, or the end; no `$$` starts before it |
| Parser.FirstFence | src/parser.rs:142-151 | the first index at or after `i` where three backticks start, or the end; no fence starts before it |
| Parser.Collapse | src/parser.rs:143-150 | collapsing backtick pairs never lengthens code text, and shortens it when it starts with two backticks |
| Parser.CodeBody | src/parser.rs:142-151 | the content loop stops right after a three-backtick fence or at the end of the input, never collecting more characters than it consumed |
| Parser.CodeBodyCollapses | src/parser.rs:142-151 | the content loop collects the text up to the first fence (or the end of the input) with each backtick pair collapsed to one, and stops right after that fence |
| Parser.TrimStart | src/parser.rs:154 | the result does not start with whitespace, and is the whole string when it did not |
| Parser.TrimEnd | src/parser.rs:154 | the result does not end with whitespace, keeps the first character, and is the whole string when it did not end with whitespace |
| Parser.TrimStartIsSuffix | src/parser.rs:154 | `TrimStart` keeps a suffix of the string |
| Parser.TrimEndIsPrefix | src/parser.rs:154 | `TrimEnd` keeps a prefix of the string |
| Parser.Trim | src/parser.rs:154 | the trimmed tag has no whitespace at either end; a string is its own trim exactly when it has none there |
| Parser.InlineSpan | src/parser.rs:95-104 | the content is a delimiter-free infix starting at `i`; the cursor ends just past the closing delimiter, or at the end of the input when it is missing |
| Parser.BlockMathSpan | src/parser.rs:106-116 | the content holds no `$$`; the cursor ends just past the closing `$$`, or at the end of the input |
| Parser.CodeBlockSpan | src/parser.rs:129-157 | the language tag is a single line with no whitespace at either end; the cursor stays inside the input |
| Parser.CodeBlockSpanContent | src/parser.rs:129-157 | the tag is the trim of the rest of the opening line; the content is the text after that line up to the first fence (or the end of the input) with its backtick pairs collapsed; the cursor ends right after that fence, or at the end |
| Parser.ScanDollar | src/parser.rs:45-53 | a `$` always yields a token and advances |
| Parser.ScanBacktick | src/parser.rs:54-65 | a backtick pushes nothing exactly when two backticks are not followed by a third, and then it consumes exactly those two backticks |
| Parser.Scan | src/parser.rs:43-82 | one loop iteration always advances, and pushes no token exactly in the two-backtick case |
| Parser.TokenizeFrom | src/parser.rs:41-93 | at most one token per character consumed |
| Parser.Tokenize | src/parser.rs:41-93 | defines the tokens of a whole document as the scanning pass started at its first character |
| Parser.Parser.constructor | src/parser.rs:25-29 | the lookahead is the first character of the input |
| Parser.Parser.Peek | src/parser.rs:37-39 | the lookahead, `None` exactly at the end of the input |
| Parser.Parser.NextChar | src/parser.rs:31-35 | returns the old lookahead and advances by one unless at the end |
| Parser.Parser.Parse | src/parser.rs:41-93 | the tokens are `TokenizeFrom` of the input from the cursor, and the whole input is consumed |
| Parser.Parser.ParseOne | src/parser.rs:43-82 | one iteration of the loop equals `Scan` |
| Parser.Parser.ParseDollar | src/parser.rs:45-53 | the `$` arm equals `ScanDollar` |
| Parser.Parser.ParseBacktick | src/parser.rs:54-65 | the backtick arm equals `ScanBacktick` |
| Parser.Parser.ParseAfterTwoBackticks | src/parser.rs:56-61 | after two backticks, the rest of the arm equals `ScanBacktick` from the first one |
| Parser.Parser.ParseInlineMath | src/parser.rs:95-104 | the token and cursor given by `InlineSpan` with `$` |
| Parser.Parser.ParseBlockMath | src/parser.rs:106-116 | the token and cursor given by `BlockMathSpan` |
| Parser.Parser.ParseInlineCode | src/parser.rs:118-127 | the token and cursor given by `InlineSpan` with a backtick |
| Parser.Parser.ParseCodeBlock | src/parser.rs:129-157 | the trimmed tag, content and cursor given by `CodeBlockSpan` |
| Parser.Parser.ParseLanguageLine | src/parser.rs:133-139 | the tag is the text up to the next line break, which is consumed when present |
| Parser.Parser.ParseCodeContent | src/parser.rs:141-151 | the content loop equals `CodeBody` |
| Parser.Parser.ParseCodeChar | src/parser.rs:142-151 | one iteration of the content loop: either the loop stops here, or the character it returns heads the content `CodeBody` collects from the old cursor |
| Parser.Parser.ParseEnglish | src/parser.rs:159-168 | the maximal ASCII-letter run at the cursor |
| Parser.Parser.ParseNumber | src/parser.rs:170-179 | the maximal digits-and-dots run at the cursor |
| Parser.Parser.ParseChinese | src/parser.rs:181-190 | the maximal run of U+4E00..U+9FFF at the cursor |
| ParserLemmas.ScanWellFormed | src/parser.rs:43-82 | every token one iteration pushes is well formed |
| ParserLemmas.TokenizeWellFormed | src/parser.rs:41-93 | every token of a document is well formed: non-empty homogeneous runs, one-character `Text`, never `Title` or `FakeCodeBlock` |
| ParserLemmas.ScanRunsAreMaximal | src/parser.rs:159-190 | English, Number and Chinese tokens are exactly the consumed characters and cannot be extended; `Text` and `NewLine` consume one character |
| ParserLemmas.DoubleBacktickSplitsRun | src/parser.rs:54-65 | `ab``cd` gives two adjacent English tokens: the two backticks vanish |
| ParserLemmas.ScanSpellsConsumed | src/parser.rs:66-81 | outside math and code, a token spells exactly the characters consumed for it |
| ParserLemmas.TokenizeRoundTrip | src/parser.rs:41-93 | without `$` or backticks, concatenating the tokens' text gives back the document |
| ParserLemmas.OneNewLinePerLineBreak | src/parser.rs:66-69 | without `$` or backticks, the number of `NewLine` tokens is the number of line breaks |
| ParserLemmas.InlineRoundTrip | src/parser.rs:95-104 | `$x$` and a backtick-quoted `x` (non-empty, without the delimiter) read back as inline math or code; unclosed, `x` still ends at the end of the input |
| ParserLemmas.BlockMathRoundTrip | src/parser.rs:106-116 | `$$x$$` with `x` free of `$` reads back as block math; unclosed, the rest of the input is the content |
| ParserLemmas.CodeBodyPlain | src/parser.rs:142-151 | without backticks before a fence, the content is copied verbatim and the cursor stops after the fence |
| ParserLemmas.CodeBodyUnclosed | src/parser.rs:142-151 | without any backtick, the content is the rest of the input |
| ParserLemmas.TrimStartDropsOnlyWhitespace | src/parser.rs:154 | every character `TrimStart` drops is whitespace |
| ParserLemmas.TrimEndDropsOnlyWhitespace | src/parser.rs:154 | every character `TrimEnd` drops is whitespace |
| ParserLemmas.CollapseFixedExactly | src/parser.rs:142-151 | the content loop keeps code text unchanged exactly when no two backticks stand side by side in it |
| ParserLemmas.PairCollapsesToOne | src/parser.rs:143-150 | two backticks not followed by a third contribute one backtick, wherever they stand; the text before them is kept as it is |
| ParserLemmas.CodeContentReads | src/parser.rs:142-151 | pair-free code text followed by a fence (with no final backtick) or by the end of the input: the first fence is right after it, and collapsing gives the text back |
| ParserLemmas.CodeBodyReads | src/parser.rs:142-151 | on such text, the content loop reads the text back and stops after the fence, or at the end |
| ParserLemmas.CodeBlockSpanReads | src/parser.rs:129-157 | after the opening fence and a trimmed one-line tag, the code block reads back that tag and content, and the cursor stops after the closing fence or at the end |
| ParserLemmas.ScanAtFence | src/parser.rs:54-60 | at three backticks, one iteration reads a whole code block |
| ParserLemmas.CodeBlockLayout | src/parser.rs:129-157 | where the fences, the tag line and the content sit in a code block's markup |
| ParserLemmas.MarkupLaidOut | src/parser.rs:129-157 | text starting with a code block's markup holds the fence, the tag line, the content and the closing fence where the markup puts them |
| ParserLemmas.ScanCodeBlockAt | src/parser.rs:54-60 | text laid out as a fence, a trimmed one-line tag, content without two adjacent backticks, and then a closing fence (content not ending with a backtick) or the end of the input, is read as that code block in one iteration |
| ParserLemmas.CodeBlockRoundTrip | src/parser.rs:129-157 | any text starting with the markup of a code block (trimmed one-line tag; content with no two adjacent backticks and no final backtick) reads back as that block, consuming exactly the markup |
| ParserLemmas.UnclosedCodeBlock | src/parser.rs:142-151 | with no closing fence, the rest of the input is the code block's content (which may end with a backtick but holds no two adjacent ones) |
| ParserLemmas.LoneDollarStaysInBlockMath | src/parser.rs:108-113 | a single `$` inside block math is kept in the content |
| ParserLemmas.DoubleBacktickInCodeKeepsOne | src/parser.rs:143-150 | the concrete block ```` ```\na``b``` ```` has content ``a`b``; `PairCollapsesToOne` and `Parser.CodeBodyCollapses` state this for every input |
| Formatter.FormatterCommand | src/formatter.rs:20-92 | no command exactly for an unknown tool or a prettier language without a parser; `dartfmt` runs `dart`, every other tool itself; prettier gets `--std --parser P`; clang-format uses Google style for c, cpp, c++, java, js and javascript, LLVM otherwise |
| Formatter.TrailingNewlines | src/formatter.rs:337-339 | the count of line breaks ending the buffer: all of them are line breaks and the character before them is not |
| Formatter.EnsuredEmptyLine | src/formatter.rs:332-341 | an empty buffer stays empty; otherwise the result keeps a prefix of the buffer and ends with exactly two line breaks, having dropped only line breaks |
| Formatter.OpeningFence | src/formatter.rs:169-173 | defines the opening of a block: three backticks and the language, then a line break only when the content does not already start with one |
| Formatter.Frame | src/formatter.rs:167-211 | the block starts with the fence and the language and ends with a line break and the closing fence; that line break is added exactly when the text does not already end with one |
| Formatter.FrameAfter | src/formatter.rs:253-256 | deciding the closing line break on the whole buffer gives the buffer followed by the frame of the block alone |
| Formatter.FormattedBody | src/formatter.rs:174-205 | with formatting on, a `tex` block gets the LaTeX formatter's output and an `md` block the Markdown pipeline's; any other language is passed through unchanged when it has no tool, the tool has no command line, or the command fails, and otherwise gets the command's output; with formatting off, the content is passed through |
| Formatter.FormatBlockCodePar | src/formatter.rs:167-211 | a fenced block of the language, ending with the closing fence on its own line; the content passes through when formatting is off |
| Formatter.FormatCodeBlocks | src/formatter.rs:290-299 | one formatted block per extracted block, in order |
| Formatter.ChineseSpaced | src/formatter.rs:108-112 | defines when a Chinese run gets a space: after English with the Chinese/English toggle on, after a Number with the Chinese/number toggle on, or after inline math or inline code |
| Formatter.EnglishSpaced | src/formatter.rs:120-122 | defines when an English run gets a space: after Chinese with the Chinese/English toggle on, or after inline math or inline code |
| Formatter.NumberSpaced | src/formatter.rs:130-132 | defines when a Number gets a space: after Chinese with the Chinese/number toggle on, or after inline math or inline code |
| Formatter.DelimitedSpaced | src/formatter.rs:140-147 | defines when inline math or inline code gets a space: after a Chinese, English or Number run, whatever the toggles |
| Formatter.Hashes | src/formatter.rs:279 | `level` hash characters |
| Formatter.PlaceholderFreeHasNone | src/formatter.rs:274-276 | a title's tokens contain no placeholders, so rendering them with no code blocks never indexes past the end |
| Formatter.RenderSeq | src/formatter.rs:287-330 | the block index advances by exactly the number of placeholders, and the last token becomes the previous token |
| Formatter.Step | src/formatter.rs:302-328 | defines one loop iteration on a token: the arm's change to the buffer, the token becoming the previous one, and the block index moving on only at a placeholder |
| Formatter.Render | src/formatter.rs:287-330 | defines what `format` writes into an empty formatter: the loop over all tokens from an empty buffer, no previous token and block index 0 |
| Formatter.TitleText | src/formatter.rs:274-277 | defines a title's text as its tokens rendered by a fresh formatter with no code blocks |
| Formatter.Formatter.constructor | src/formatter.rs:95-102 | a new formatter has an empty buffer |
| Formatter.Formatter.EnsureEmptyLine | src/formatter.rs:332-341 | the popping loop leaves the buffer equal to `EnsuredEmptyLine` of the old buffer |
| Formatter.Formatter.FormatChinese | src/formatter.rs:107-117 | appends the text after one space exactly when the previous token is English (toggle on), Number (toggle on), inline math or inline code |
| Formatter.Formatter.FormatEnglish | src/formatter.rs:119-127 | appends the text after one space exactly when the previous token is Chinese (toggle on), inline math or inline code |
| Formatter.Formatter.FormatNumber | src/formatter.rs:129-137 | appends the text after one space exactly when the previous token is Chinese (toggle on), inline math or inline code |
| Formatter.Formatter.FormatInlineMath | src/formatter.rs:139-151 | appends `$text$` after one space exactly when the previous token is a Chinese, English or Number run |
| Formatter.Formatter.FormatBlockMath | src/formatter.rs:153-165 | the LaTeX-formatted body between `$$` lines, with one blank line before and after |
| Formatter.Formatter.AppendBody | src/formatter.rs:220-252 | appends `FormattedBody` |
| Formatter.Formatter.AppendCodeBlock | src/formatter.rs:215-257 | writing in place produces exactly what `format_block_code_par` produces on its own |
| Formatter.Formatter.FormatBlockCode | src/formatter.rs:213-258 | the block as formatted on its own, with one blank line before and after |
| Formatter.Formatter.FormatInlineCode | src/formatter.rs:260-272 | appends the backtick-quoted text after one space exactly when the previous token is a Chinese, English or Number run |
| Formatter.Formatter.FormatTitle | src/formatter.rs:274-285 | hashes, a space and the title's tokens rendered from scratch, with one blank line before and after |
| Formatter.Formatter.FormatToken | src/formatter.rs:302-327 | each arm of the loop is one `Step`: the new buffer, the previous token, and the block index advanced only by a placeholder |
| Formatter.Formatter.Format | src/formatter.rs:287-330 | the buffer becomes `RenderSeq` over the tokens from the old buffer, with the code blocks formatted first |
| FormatterLemmas.EndsWithBlankLine | src/formatter.rs:319 | the `ends_with("\n\n")` test holds exactly when the buffer ends with at least two line breaks |
| FormatterLemmas.EnsuredEmptyLineIdempotent | src/formatter.rs:332-341 | ensuring an empty line twice is the same as once |
| FormatterLemmas.NewLineStep | src/formatter.rs:318-322 | a `NewLine` appends a line break only while fewer than two end the buffer, so their count becomes at most two |
| FormatterLemmas.NewLineRunCollapses | src/formatter.rs:318-322 | `n` consecutive `NewLine` tokens on a buffer ending with `t <= 2` line breaks add exactly `min(n, 2 - t)` |
| FormatterLemmas.StepKeepsAtMostTwo | src/formatter.rs:302-327 | no token ending in anything but a line break leaves more than two line breaks at the end of the buffer |
| FormatterLemmas.RenderKeepsAtMostTwo | src/formatter.rs:287-330 | the whole pass keeps the buffer's end at most one blank line |
| FormatterLemmas.FormattedDocumentEndsWithAtMostOneBlankLine | src/formatter.rs:287-330 | a tokenized document needs no code blocks, and its rendering ends with at most one blank line |
| FormatterLemmas.PlaceholderTakesNextBlock | src/formatter.rs:309-315 | a placeholder is replaced by the block whose index is the number of placeholders before it, with one blank line before and after |
| FormatterLemmas.KthPlaceholderGetsKthBlock | src/formatter.rs:290-315 | in `format`, the k-th placeholder receives the k-th code block, formatted on its own |
| FormatterLemmas.ZhEnSpacingIsSymmetric | src/formatter.rs:107-127 | between Chinese and English, in either order, there is a space exactly when the Chinese/English toggle is on |
| FormatterLemmas.ZhNumSpacingIsSymmetric | src/formatter.rs:107-137 | between Chinese and a number, in either order, there is a space exactly when the Chinese/number toggle is on |
| FormatterLemmas.InlineStepSpacing | src/formatter.rs:107-151 | an inline token is written as spelled after at most one space. The space appears only after another inline token, always between a word run and math or code, never between two math/code tokens, and never between English and a number |
| FormatterLemmas.BlockIgnoresCodeTextSpacing | src/formatter.rs:167-211 | formatting a code block does not depend on the code/text spacing toggle |
| FormatterLemmas.StepIgnoresCodeTextSpacing | src/formatter.rs:302-327 | no step of the loop depends on the code/text spacing toggle |
| FormatterLemmas.RenderSeqIgnoresCodeTextSpacing | src/formatter.rs:287-330 | the loop does not depend on the code/text spacing toggle |
| FormatterLemmas.FormatIgnoresCodeTextSpacing | src/config.rs:9 | `format`, code blocks included, gives the same text whatever `space_between_code_and_text` says: the field is never read |
| FormatterLemmas.FrameSpellsCodeBlock | src/formatter.rs:167-211 | for content not starting with a line break, the framed text is the markup of a code block holding the body plus a final line break |
| FormatterLemmas.FramedIsClosableMarkup | src/formatter.rs:167-211 | for a body with no two adjacent backticks, that markup's content is one the tokenizer can close: no adjacent backticks and no final backtick |
| FormatterLemmas.FramedPrefix | src/formatter.rs:167-211 | text starting with such a frame starts with the markup of that closable code block, which is exactly as long as the frame |
| FormatterLemmas.FramedBlockReadsBack | src/formatter.rs:167-211 | under a trimmed one-line tag, the tokenizer reads such a frame back in one step as the code block holding the terminated body, consuming exactly the frame, whatever follows |
| FormatterLemmas.TerminatedAvoids | src/formatter.rs:206-208 | the closing line break is the only character framing adds to the body |
| FormatterLemmas.PassthroughIsStable | src/formatter.rs:201-210 | a block passed through unformatted frames to the same text when formatted again |
| FormatterLemmas.LeadingBreakLost | src/formatter.rs:171-173 | for every language and every content starting with a line break, the framed text is the markup of a block whose content has lost that line break: it stands in for the one after the tag |
| FormatterLemmas.LeadingBlankLineIsDropped | src/formatter.rs:171-173 | the concrete content `\nx` frames to a block that the tokenizer reads back with content `x\n`; `LeadingBreakLost` states the loss for every input |
| FormatterLemmas.CommandLanguagesOfDefaultShape | src/formatter.rs:24-39 | under a map shaped like the default, only rust, js, ts, css, html, json and yml have a command line |
| FormatterLemmas.DefaultCommandLanguagesExactly | src/config.rs:15-30 | the default configuration formats exactly those seven languages with a tool: latexindent is unknown, and prettier has no parser for javascript, typescript, yaml or markdown |
| FormatterLemmas.DefaultRustCommand | src/formatter.rs:39 | Rust blocks run `rustfmt --edition 2021` by default |
| FormatterLemmas.DefaultPassthrough | src/formatter.rs:184-200 | under the default configuration, every other language except `tex` and `md` passes through unformatted |

## Left out

- `format_with_command`, the tex-fmt `format_file` call and `pipeline::format_string` are external: they become the functions of a `Tools` value, and process spawning, pipes and exit codes are not modelled.
- The `latex_args`/`latex_logs` fields of `Formatter` are not modelled. The in-place log is tex-fmt's side effect, and the per-block formatter's fresh `Args` gives the same text.
- The `par_iter` over code blocks is a sequential map (`FormatCodeBlocks`), since the results are collected in order.
- `Formatter::get_output` is reading the `output` field.
- `Config::from_file`, JSON (de)serialisation, `src/main.rs`, `src/lib.rs`, `src/pipeline.rs` and the editor extension are not part of this model.
- The debug-build token dump in `parse` and the error messages printed on a failed command are output only.
- Formatter.Formatter.Format: an index past the precomputed blocks panics in the source. It is a precondition here: the placeholders must not outnumber the blocks, and no title may hold a placeholder, since `format_title` renders a title with no code blocks at all (src/formatter.rs:276). `TitlesFree` and `PlaceholderFree` state this.
- Parser.CodeBody: its own ensures do not say that the fence it stops after is the first one, nor what the content is. `Parser.CodeBodyCollapses` proves both as a separate lemma, which keeps the proofs that unfold one loop iteration small.
- Parser.CodeBlockSpan: its own ensures give only the tag's shape. `Parser.CodeBlockSpanContent` states the tag, the content and the cursor exactly, for the same reason.
- Parser.Parser: the `Chars` iterator plus `current` lookahead is an index `pos` into the input.
- Several branches become their own methods: the main loop's body (`ParseOne`, `ParseDollar`, `ParseBacktick`, `ParseAfterTwoBackticks`), the two loops of `parse_code_block` and the content loop's body (`ParseLanguageLine`, `ParseCodeContent`, `ParseCodeChar`), and parts of `format_block_code` and `format` (`AppendBody`, `AppendCodeBlock`, `FormatToken`). Each has its own contract.
- FormatterLemmas.FormatIgnoresCodeTextSpacing: this assumes the Markdown formatter given to `md` blocks does not depend on the toggle. That formatter is the external pipeline.
- The `Title` and `FakeCodeBlock` tokens are matched by the renderer, but no tokenizer in the modelled files makes them. Headings and block quotes are not recognised by the code, so they are not modelled.
