/** The renderer of src/formatter.rs: one pass over the tokens that appends to
    an output buffer, choosing spaces from the previous token and the
    configuration, bracketing block constructs with blank lines and filling
    code-block placeholders with precomputed text. `Step` and `RenderSeq`
    are the specification the `Formatter` class is proved against. */
module Formatter {
  import opened Wrappers
  import opened Config
  import opened Parser

  // ---------------------------------------------------------------------------
  // Command lines of the external code formatters

  /** An executable and its arguments. */
  datatype Profile = Profile(exe: string, args: seq<string>)

  /** The tools `get_formatter_command` knows. */
  const KnownTools: set<string> :=
    {"prettier", "rustfmt", "gofmt", "black", "clang-format", "shfmt", "sqlfmt", "terraform",
     "stylua", "dartfmt", "php-cs-fixer", "isort", "autopep8", "yapf", "scalafmt", "ktfmt"}

  /** The languages `prettier` is given a parser for. */
  const PrettierParserLanguages: set<string> :=
    {"js", "ts", "css", "scss", "less", "html", "json", "yml", "graphql", "gql", "vue", "angular"}

  /** The languages `clang-format` formats in Google style (LLVM style otherwise). */
  const GoogleStyleLanguages: set<string> := {"c", "cpp", "c++", "java", "js", "javascript"}

  function PrettierProfile(parser: string): Profile {
    Profile("prettier", ["--std", "--parser", parser])
  }

  /** `get_formatter_command`: the command line for a tool name and a
      language tag, or `None` when there is none. */
  function FormatterCommand(tool: string, language: string): (r: Option<Profile>)
    ensures r.None? <==> tool !in KnownTools || (tool == "prettier" && language !in PrettierParserLanguages)
    ensures r.Some? ==> r.value.exe == if tool == "dartfmt" then "dart" else tool
    ensures tool == "prettier" && r.Some? ==> |r.value.args| == 3 && r.value.args[..2] == ["--std", "--parser"]
    ensures tool == "clang-format" ==>
              r == Some(Profile("clang-format",
                                [if language in GoogleStyleLanguages then "--style=Google" else "--style=LLVM"]))
  {
    match tool
    case "prettier" =>
      (match language
       case "js" => Some(PrettierProfile("babel"))
       case "ts" => Some(PrettierProfile("typescript"))
       case "css" => Some(PrettierProfile("css"))
       case "scss" => Some(PrettierProfile("scss"))
       case "less" => Some(PrettierProfile("less"))
       case "html" => Some(PrettierProfile("html"))
       case "json" => Some(PrettierProfile("json"))
       case "yml" => Some(PrettierProfile("yaml"))
       case "graphql" | "gql" => Some(PrettierProfile("graphql"))
       case "vue" => Some(PrettierProfile("vue"))
       case "angular" => Some(PrettierProfile("angular"))
       case _ => None)
    case "rustfmt" => Some(Profile("rustfmt", ["--edition", "2021"]))
    case "gofmt" => Some(Profile("gofmt", []))
    case "black" => Some(Profile("black", ["-"]))
    case "clang-format" =>
      var style := (match language
                    case "c" | "cpp" | "c++" | "java" | "js" | "javascript" => "--style=Google"
                    case _ => "--style=LLVM");
      Some(Profile("clang-format", [style]))
    case "shfmt" => Some(Profile("shfmt", ["-i", "2"]))
    case "sqlfmt" => Some(Profile("sqlfmt", ["-"]))
    case "terraform" => Some(Profile("terraform", ["fmt", "-"]))
    case "stylua" => Some(Profile("stylua", ["-"]))
    case "dartfmt" => Some(Profile("dart", ["format"]))
    case "php-cs-fixer" => Some(Profile("php-cs-fixer", ["fix", "--using-cache=no", "-"]))
    case "isort" => Some(Profile("isort", ["-"]))
    case "autopep8" => Some(Profile("autopep8", ["-"]))
    case "yapf" => Some(Profile("yapf", ["-"]))
    case "scalafmt" => Some(Profile("scalafmt", ["--stdin"]))
    case "ktfmt" => Some(Profile("ktfmt", ["--stdin"]))
    case _ => None
  }

  /** The formatters the renderer calls but does not define: the LaTeX
      formatter, the whole Markdown pipeline (for `md` blocks) and the
      running of an external command on a block's content. */
  datatype Tools = Tools(
    formatTex: string -> string,
    formatMarkdown: (string, Config) -> string,
    runCommand: (Profile, string) -> Result<string, string>)

  // ---------------------------------------------------------------------------
  // Buffer shape

  predicate StartsWithNewline(s: string) {
    |s| > 0 && s[0] == '\n'
  }

  predicate EndsWith(s: string, suffix: string) {
    |suffix| <= |s| && s[|s| - |suffix|..] == suffix
  }

  /** The number of line breaks at the end of `s`. */
  function TrailingNewlines(s: string): (n: nat)
    ensures n <= |s|
    ensures forall j :: |s| - n <= j < |s| ==> s[j] == '\n'
    ensures n < |s| ==> s[|s| - n - 1] != '\n'
  {
    if s != [] && s[|s| - 1] == '\n' then TrailingNewlines(s[..|s| - 1]) + 1 else 0
  }

  /** `ensure_empty_line` on a buffer: an empty buffer stays empty; otherwise
      every trailing line break is removed and exactly two are appended. */
  function EnsuredEmptyLine(s: string): (r: string)
    ensures s == [] ==> r == []
    ensures s != [] ==> |r| >= 2 && TrailingNewlines(r) == 2
    ensures s != [] ==> r[..|r| - 2] <= s && forall j :: |r| - 2 <= j < |s| ==> s[j] == '\n'
  {
    if s == [] then []
    else
      var kept := s[..|s| - TrailingNewlines(s)];
      assert TrailingNewlines(kept + "\n") == 1 + TrailingNewlines(kept) by {
        assert (kept + "\n")[..|kept|] == kept;
      }
      assert (kept + "\n\n")[..|kept| + 1] == kept + "\n";
      kept + "\n\n"
  }

  /** Whether a buffer ends with a suffix depends only on what was last appended. */
  lemma EndsWithAfter(base: string, text: string, suffix: string)
    requires |suffix| <= |text|
    ensures EndsWith(base + text, suffix) == EndsWith(text, suffix)
  {
    assert (base + text)[|base + text| - |suffix|..] == text[|text| - |suffix|..];
  }

  // ---------------------------------------------------------------------------
  // Code-block framing

  /** The opening fence and language tag; the tag's line break is left to the
      content when the content already starts with one. */
  function OpeningFence(language: string, content: string): string {
    "```" + language + (if StartsWithNewline(content) then "" else "\n")
  }

  /** A fenced block around `body`: a line break is added before the closing
      fence only when the text so far does not already end with one. */
  function Frame(language: string, content: string, body: string): (r: string)
    ensures |r| >= |language| + 6
    ensures r[..3] == "```" && r[3..3 + |language|] == language
    ensures EndsWith(r, "\n```")
    ensures var open := OpeningFence(language, content);
            r == open + body + "```" || r == open + body + "\n```"
    ensures var open := OpeningFence(language, content);
            r == open + body + "```" <==> EndsWith(open + body, "\n")
  {
    var text := OpeningFence(language, content) + body;
    (if EndsWith(text, "\n") then text else text + "\n") + "```"
  }

  /** Framing after earlier text: whether a line break is needed before the
      closing fence depends only on the framed text, so deciding it on the
      whole buffer appends exactly the frame. */
  lemma FrameAfter(base: string, language: string, content: string, body: string)
    ensures var t := base + OpeningFence(language, content) + body;
            (if EndsWith(t, "\n") then t else t + "\n") + "```" == base + Frame(language, content, body)
  {
    var text := OpeningFence(language, content) + body;
    assert base + OpeningFence(language, content) + body == base + text;
    EndsWithAfter(base, text, "\n");
  }

  /** What is written between the fences: for `tex` and `md` the content as
      the LaTeX and Markdown formatters give it, otherwise the content as
      formatted by the tool configured for its language, or the content
      itself when formatting is off, no tool or no command line is known, or
      the tool fails. */
  function FormattedBody(cfg: Config, tools: Tools, language: string, content: string): (body: string)
    ensures !cfg.formatCodeBlock ==> body == content
    ensures cfg.formatCodeBlock && language == "tex" ==> body == tools.formatTex(content)
    ensures cfg.formatCodeBlock && language == "md" ==> body == tools.formatMarkdown(content, cfg)
    ensures language != "tex" && language != "md" && language !in cfg.codeFormatters ==> body == content
    ensures (language != "tex" && language != "md" && language in cfg.codeFormatters
             && FormatterCommand(cfg.codeFormatters[language], language).None?) ==> body == content
    ensures (cfg.formatCodeBlock && language != "tex" && language != "md" && language in cfg.codeFormatters
             && FormatterCommand(cfg.codeFormatters[language], language).Some?) ==>
              var result := tools.runCommand(FormatterCommand(cfg.codeFormatters[language], language).value, content);
              body == if result.Ok? then result.value else content
  {
    if !cfg.formatCodeBlock then content
    else if language == "tex" then tools.formatTex(content)
    else if language == "md" then tools.formatMarkdown(content, cfg)
    else if language !in cfg.codeFormatters then content
    else match FormatterCommand(cfg.codeFormatters[language], language)
      case None => content
      case Some(profile) =>
        match tools.runCommand(profile, content)
        case Ok(formatted) => formatted
        case Err(_) => content
  }

  /** `format_block_code_par`: a code block formatted on its own, as the
      fenced text that later replaces its placeholder. */
  function FormatBlockCodePar(cfg: Config, tools: Tools, language: string, content: string): (r: string)
    ensures |r| >= |language| + 6
    ensures r[..3] == "```" && r[3..3 + |language|] == language && EndsWith(r, "\n```")
    ensures !cfg.formatCodeBlock ==> r == Frame(language, content, content)
  {
    Frame(language, content, FormattedBody(cfg, tools, language, content))
  }

  /** The precomputed code blocks, in their original order. */
  function FormatCodeBlocks(cfg: Config, tools: Tools, blocks: seq<CodeBlockEntry>): (r: seq<string>)
    ensures |r| == |blocks|
    ensures forall k :: 0 <= k < |r| ==>
              r[k] == FormatBlockCodePar(cfg, tools, blocks[k].language, blocks[k].content)
  {
    seq(|blocks|, k requires 0 <= k < |blocks| =>
      FormatBlockCodePar(cfg, tools, blocks[k].language, blocks[k].content))
  }

  // ---------------------------------------------------------------------------
  // Spacing rules

  /** A Chinese run is spaced from a preceding English run (when the
      Chinese/English toggle is on), a Number (when the Chinese/number toggle
      is on), inline math or inline code. */
  predicate ChineseSpaced(cfg: Config, prev: Option<Token>) {
    prev.Some? &&
    ((cfg.spaceBetweenZhAndEn && prev.value.English?) || (cfg.spaceBetweenZhAndNum && prev.value.Number?)
     || prev.value.InlineMath? || prev.value.InlineCode?)
  }

  /** An English run is spaced from a preceding Chinese run (when the
      Chinese/English toggle is on), inline math or inline code. */
  predicate EnglishSpaced(cfg: Config, prev: Option<Token>) {
    prev.Some? &&
    ((cfg.spaceBetweenZhAndEn && prev.value.Chinese?) || prev.value.InlineMath? || prev.value.InlineCode?)
  }

  /** A Number is spaced from a preceding Chinese run (when the
      Chinese/number toggle is on), inline math or inline code. */
  predicate NumberSpaced(cfg: Config, prev: Option<Token>) {
    prev.Some? &&
    ((cfg.spaceBetweenZhAndNum && prev.value.Chinese?) || prev.value.InlineMath? || prev.value.InlineCode?)
  }

  /** Inline math and inline code are spaced from a preceding Chinese,
      English or Number run, whatever the toggles. */
  predicate DelimitedSpaced(prev: Option<Token>) {
    prev.Some? && (prev.value.Chinese? || prev.value.English? || prev.value.Number?)
  }

  function Pad(out: string, space: bool): string {
    if space then out + " " else out
  }

  /** `"#".repeat(n)`. */
  function Hashes(n: nat): (r: string)
    ensures |r| == n && forall j :: 0 <= j < n ==> r[j] == '#'
  {
    if n == 0 then [] else Hashes(n - 1) + "#"
  }

  // ---------------------------------------------------------------------------
  // Code-block placeholders

  /** The number of `FakeCodeBlock` placeholders among `ts` (not inside titles). */
  function Placeholders(ts: seq<Token>): nat {
    if ts == [] then 0 else Placeholders(ts[..|ts| - 1]) + (if ts[|ts| - 1] == FakeCodeBlock then 1 else 0)
  }

  /** No placeholder in `ts`, nor in any title nested in it. */
  predicate PlaceholderFree(ts: seq<Token>)
    decreases ts
  {
    forall i | 0 <= i < |ts| :: ts[i] != FakeCodeBlock && (ts[i].Title? ==> PlaceholderFree(ts[i].tokens))
  }

  /** Every title among `ts` is free of placeholders: a title is rendered
      with no precomputed code blocks at all. */
  predicate TitlesFree(ts: seq<Token>) {
    forall i | 0 <= i < |ts| :: ts[i].Title? ==> PlaceholderFree(ts[i].tokens)
  }

  /** A placeholder-free sequence needs no precomputed block. */
  lemma {:induction false} PlaceholderFreeHasNone(ts: seq<Token>)
    requires PlaceholderFree(ts)
    ensures Placeholders(ts) == 0 && TitlesFree(ts)
    decreases |ts|
  {
    if ts != [] {
      var init := ts[..|ts| - 1];
      assert PlaceholderFree(init) by {
        forall i | 0 <= i < |init| ensures init[i] != FakeCodeBlock && (init[i].Title? ==> PlaceholderFree(init[i].tokens)) {
          assert init[i] == ts[i];
        }
      }
      PlaceholderFreeHasNone(init);
    }
  }

  /** A prefix holds no more placeholders than the whole. */
  lemma {:induction false} PlaceholdersOfPrefix(ts: seq<Token>, n: nat)
    requires n <= |ts|
    ensures Placeholders(ts[..n]) <= Placeholders(ts)
    decreases |ts|
  {
    if n < |ts| {
      assert ts[..|ts| - 1][..n] == ts[..n];
      PlaceholdersOfPrefix(ts[..|ts| - 1], n);
    } else {
      assert ts[..n] == ts;
    }
  }

  // ---------------------------------------------------------------------------
  // The rendering pass, as a function

  /** The loop state of `format`: the buffer, the previous token and the
      index of the next precomputed code block. */
  datatype RenderState = RenderState(out: string, prev: Option<Token>, nextBlock: nat)

  /** One iteration of the rendering loop on token `t`. */
  function Step(cfg: Config, tools: Tools, blocks: seq<string>, st: RenderState, t: Token): RenderState
    requires t == FakeCodeBlock ==> st.nextBlock < |blocks|
    requires t.Title? ==> PlaceholderFree(t.tokens)
    decreases t, 0
  {
    var out := match t {
      case Chinese(x) => Pad(st.out, ChineseSpaced(cfg, st.prev)) + x
      case English(x) => Pad(st.out, EnglishSpaced(cfg, st.prev)) + x
      case Number(x) => Pad(st.out, NumberSpaced(cfg, st.prev)) + x
      case InlineMath(x) => Pad(st.out, DelimitedSpaced(st.prev)) + "$" + x + "$"
      case InlineCode(x) => Pad(st.out, DelimitedSpaced(st.prev)) + "`" + x + "`"
      case BlockMath(x) => EnsuredEmptyLine(EnsuredEmptyLine(st.out) + "$$\n" + tools.formatTex(x) + "\n$$")
      case CodeBlock(language, content) =>
        EnsuredEmptyLine(EnsuredEmptyLine(st.out) + FormatBlockCodePar(cfg, tools, language, content))
      case FakeCodeBlock => EnsuredEmptyLine(EnsuredEmptyLine(st.out) + blocks[st.nextBlock])
      case NewLine => if EndsWith(st.out, "\n\n") then st.out else st.out + "\n"
      case Text(x) => st.out + x
      case Title(tokens, level) =>
        EnsuredEmptyLine(EnsuredEmptyLine(st.out) + Hashes(level) + " " + TitleText(cfg, tools, tokens))
    };
    RenderState(out, Some(t), if t == FakeCodeBlock then st.nextBlock + 1 else st.nextBlock)
  }

  /** The rendering loop over `ts` from state `st`. Each placeholder takes
      the next precomputed block, so the block index advances by exactly the
      number of placeholders, and the last token becomes the previous one. */
  function RenderSeq(cfg: Config, tools: Tools, blocks: seq<string>, st: RenderState, ts: seq<Token>): (r: RenderState)
    requires st.nextBlock + Placeholders(ts) <= |blocks|
    requires TitlesFree(ts)
    ensures r.nextBlock == st.nextBlock + Placeholders(ts)
    ensures r.prev == if ts == [] then st.prev else Some(ts[|ts| - 1])
    decreases ts, 1
  {
    if ts == [] then st
    else Step(cfg, tools, blocks, RenderSeq(cfg, tools, blocks, st, ts[..|ts| - 1]), ts[|ts| - 1])
  }

  /** The text `format` produces from an empty formatter. */
  function Render(cfg: Config, tools: Tools, ts: seq<Token>, blocks: seq<string>): string
    requires Placeholders(ts) <= |blocks| && TitlesFree(ts)
    decreases ts, 2
  {
    RenderSeq(cfg, tools, blocks, RenderState([], None, 0), ts).out
  }

  /** A title's text: its tokens rendered from scratch, with no code blocks. */
  function TitleText(cfg: Config, tools: Tools, tokens: seq<Token>): string
    requires PlaceholderFree(tokens)
    decreases tokens, 3
  {
    PlaceholderFreeHasNone(tokens);
    Render(cfg, tools, tokens, [])
  }

  // ---------------------------------------------------------------------------
  // The formatter object

  /** `Formatter`: a configuration, the external formatters, and the output
      buffer that every `format_*` method appends to in place. */
  class Formatter {
    const config: Config
    const tools: Tools
    var output: string

    /** `Formatter::new`: an empty buffer. */
    constructor (config: Config, tools: Tools)
      ensures this.config == config && this.tools == tools && output == []
    {
      this.config := config;
      this.tools := tools;
      output := [];
    }

    /** `ensure_empty_line`: pops trailing line breaks one at a time, then
        appends a blank line; an empty buffer is left alone. */
    method EnsureEmptyLine()
      modifies this
      ensures output == EnsuredEmptyLine(old(output))
    {
      if output == [] {
        return;
      }
      while EndsWith(output, "\n")
        invariant output == old(output)[..|output|]
        invariant TrailingNewlines(output) + |old(output)| - |output| == TrailingNewlines(old(output))
        decreases |output|
      {
        assert output[|output| - 1] == '\n';
        output := output[..|output| - 1];
      }
      output := output + "\n\n";
    }

    /** `format_chinese`. */
    method FormatChinese(text: string, prev: Option<Token>)
      modifies this
      ensures output == Pad(old(output), ChineseSpaced(config, prev)) + text
    {
      if (config.spaceBetweenZhAndEn && prev.Some? && prev.value.English?)
         || (config.spaceBetweenZhAndNum && prev.Some? && prev.value.Number?)
         || (prev.Some? && prev.value.InlineMath?)
         || (prev.Some? && prev.value.InlineCode?)
      {
        output := output + " ";
      }
      output := output + text;
    }

    /** `format_english`. */
    method FormatEnglish(text: string, prev: Option<Token>)
      modifies this
      ensures output == Pad(old(output), EnglishSpaced(config, prev)) + text
    {
      if (config.spaceBetweenZhAndEn && prev.Some? && prev.value.Chinese?)
         || (prev.Some? && prev.value.InlineMath?)
         || (prev.Some? && prev.value.InlineCode?)
      {
        output := output + " ";
      }
      output := output + text;
    }

    /** `format_number`. */
    method FormatNumber(text: string, prev: Option<Token>)
      modifies this
      ensures output == Pad(old(output), NumberSpaced(config, prev)) + text
    {
      if (config.spaceBetweenZhAndNum && prev.Some? && prev.value.Chinese?)
         || (prev.Some? && prev.value.InlineMath?)
         || (prev.Some? && prev.value.InlineCode?)
      {
        output := output + " ";
      }
      output := output + text;
    }

    /** `format_inline_math`. */
    method FormatInlineMath(text: string, prev: Option<Token>)
      modifies this
      ensures output == Pad(old(output), DelimitedSpaced(prev)) + "$" + text + "$"
    {
      if prev.Some? {
        match prev.value {
          case Chinese(_) => output := output + " ";
          case English(_) => output := output + " ";
          case Number(_) => output := output + " ";
          case _ =>
        }
      }
      output := output + "$";
      output := output + text;
      output := output + "$";
    }

    /** `format_inline_code`. */
    method FormatInlineCode(text: string, prev: Option<Token>)
      modifies this
      ensures output == Pad(old(output), DelimitedSpaced(prev)) + "`" + text + "`"
    {
      if prev.Some? {
        match prev.value {
          case Chinese(_) => output := output + " ";
          case English(_) => output := output + " ";
          case Number(_) => output := output + " ";
          case _ =>
        }
      }
      output := output + "`";
      output := output + text;
      output := output + "`";
    }

    /** `format_block_math`: the LaTeX-formatted body between `$$` lines,
        set apart by blank lines. */
    method FormatBlockMath(text: string)
      modifies this
      ensures output == EnsuredEmptyLine(EnsuredEmptyLine(old(output)) + "$$\n" + tools.formatTex(text) + "\n$$")
    {
      EnsureEmptyLine();
      output := output + "$$\n";
      output := output + tools.formatTex(text);
      output := output + "\n$$";
      EnsureEmptyLine();
    }

    /** The body-writing part of `format_block_code`: the formatted content,
        or the content itself on every passthrough path. */
    method AppendBody(language: string, content: string)
      modifies this
      ensures output == old(output) + FormattedBody(config, tools, language, content)
    {
      if config.formatCodeBlock {
        if language == "tex" {
          output := output + tools.formatTex(content);
        } else if language == "md" {
          output := output + tools.formatMarkdown(content, config);
        } else if language in config.codeFormatters {
          var tool := config.codeFormatters[language];
          var profile := FormatterCommand(tool, language);
          if profile.Some? {
            var result := tools.runCommand(profile.value, content);
            if result.Ok? {
              output := output + result.value;
            } else {
              output := output + content;
            }
          } else {
            output := output + content;
          }
        } else {
          output := output + content;
        }
      } else {
        output := output + content;
      }
    }

    /** `format_block_code`: writes the fenced block straight into the
        buffer. It produces what `format_block_code_par` produces on its
        own, set apart by blank lines. */
    method FormatBlockCode(language: string, content: string)
      modifies this
      ensures output == EnsuredEmptyLine(EnsuredEmptyLine(old(output)) + FormatBlockCodePar(config, tools, language, content))
    {
      EnsureEmptyLine();
      AppendCodeBlock(language, content);
      EnsureEmptyLine();
    }

    /** The fenced block as `format_block_code` writes it into the buffer:
        the closing line break is decided on the whole buffer, which ends
        with what was just written. */
    method AppendCodeBlock(language: string, content: string)
      modifies this
      ensures output == old(output) + FormatBlockCodePar(config, tools, language, content)
    {
      output := output + "```";
      output := output + language;
      if !StartsWithNewline(content) {
        output := output + "\n";
      }
      assert output == old(output) + OpeningFence(language, content);
      AppendBody(language, content);
      FrameAfter(old(output), language, content, FormattedBody(config, tools, language, content));
      if !EndsWith(output, "\n") {
        output := output + "\n";
      }
      output := output + "```";
    }

    /** `format_title`: the title's tokens are rendered by a fresh formatter
        with no code blocks, then written after `level` hashes and a space,
        set apart by blank lines. */
    method FormatTitle(titleTokens: seq<Token>, level: nat)
      requires PlaceholderFree(titleTokens)
      modifies this
      ensures output == EnsuredEmptyLine(EnsuredEmptyLine(old(output)) + Hashes(level) + " "
                                         + TitleText(config, tools, titleTokens))
      decreases titleTokens, 4
    {
      PlaceholderFreeHasNone(titleTokens);
      var titleFormatter := new Formatter(config, tools);
      titleFormatter.Format(titleTokens, []);
      var titleContent := titleFormatter.output;
      var hashes := Hashes(level);
      EnsureEmptyLine();
      output := output + hashes;
      output := output + " ";
      output := output + titleContent;
      EnsureEmptyLine();
    }

    /** One arm of the loop in `format`: renders `token` after `prev`, taking
        precomputed block `id` for a placeholder, and returns the next index. */
    method FormatToken(token: Token, prev: Option<Token>, formatted: seq<string>, id: nat) returns (next: nat)
      requires token == FakeCodeBlock ==> id < |formatted|
      requires token.Title? ==> PlaceholderFree(token.tokens)
      modifies this
      ensures RenderState(output, Some(token), next)
              == Step(config, tools, formatted, RenderState(old(output), prev, id), token)
      decreases token, 0
    {
      next := id;
      match token {
        case Chinese(text) => FormatChinese(text, prev);
        case English(text) => FormatEnglish(text, prev);
        case Number(text) => FormatNumber(text, prev);
        case InlineMath(text) => FormatInlineMath(text, prev);
        case BlockMath(text) => FormatBlockMath(text);
        case FakeCodeBlock =>
          EnsureEmptyLine();
          output := output + formatted[id];
          next := id + 1;
          EnsureEmptyLine();
        case CodeBlock(language, content) => FormatBlockCode(language, content);
        case InlineCode(text) => FormatInlineCode(text, prev);
        case NewLine =>
          if !EndsWith(output, "\n\n") {
            output := output + "\n";
          }
        case Text(text) => output := output + text;
        case Title(titleTokens, level) => FormatTitle(titleTokens, level);
      }
    }

    /** `format`: formats the code blocks first, in order, then renders every
        token, each placeholder taking the next formatted block. */
    method Format(tokens: seq<Token>, codeBlocks: seq<CodeBlockEntry>)
      requires Placeholders(tokens) <= |codeBlocks| && TitlesFree(tokens)
      modifies this
      ensures output == RenderSeq(config, tools, FormatCodeBlocks(config, tools, codeBlocks),
                                  RenderState(old(output), None, 0), tokens).out
      decreases tokens, 2
    {
      var formatted := FormatCodeBlocks(config, tools, codeBlocks);
      var prev: Option<Token> := None;
      var id := 0;
      var i := 0;
      while i < |tokens|
        invariant 0 <= i <= |tokens|
        invariant Placeholders(tokens[..i]) <= Placeholders(tokens)
        invariant TitlesFree(tokens[..i])
        invariant RenderState(output, prev, id)
                  == RenderSeq(config, tools, formatted, RenderState(old(output), None, 0), tokens[..i])
      {
        PlaceholdersOfPrefix(tokens, i + 1);
        assert tokens[..i + 1][..i] == tokens[..i];
        assert TitlesFree(tokens[..i + 1]) by {
          forall j | 0 <= j < i + 1 ensures tokens[..i + 1][j] == tokens[j] {
          }
        }
        id := FormatToken(tokens[i], prev, formatted, id);
        prev := Some(tokens[i]);
        i := i + 1;
      }
      assert tokens[..i] == tokens;
    }
  }
}
