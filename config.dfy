/** The configuration record of src/config.rs: four spacing/formatting toggles
    and a map from a code block's language tag to the name of its formatting tool. */
module Config {

  datatype Config = Config(
    spaceBetweenZhAndEn: bool,
    spaceBetweenZhAndNum: bool,
    formatCodeBlock: bool,
    spaceBetweenCodeAndText: bool,
    codeFormatters: map<string, string>)

  /** The languages the default map sends to `prettier`. */
  const PrettierLanguages: set<string> :=
    {"javascript", "js", "typescript", "ts", "css", "html", "json", "yaml", "yml", "markdown", "md"}

  /** `Config::default()`: every toggle on, and the thirteen built-in language/tool pairs. */
  function Default(): (c: Config)
    ensures c.spaceBetweenZhAndEn && c.spaceBetweenZhAndNum
    ensures c.formatCodeBlock && c.spaceBetweenCodeAndText
    ensures c.codeFormatters.Keys == PrettierLanguages + {"rust", "latex"}
    ensures forall lang :: lang in c.codeFormatters ==>
              c.codeFormatters[lang] == (if lang == "rust" then "rustfmt"
                                         else if lang == "latex" then "latexindent"
                                         else "prettier")
  {
    var codeFormatters := map[
      "rust" := "rustfmt",
      "javascript" := "prettier",
      "js" := "prettier",
      "typescript" := "prettier",
      "ts" := "prettier",
      "css" := "prettier",
      "html" := "prettier",
      "json" := "prettier",
      "yaml" := "prettier",
      "yml" := "prettier",
      "markdown" := "prettier",
      "md" := "prettier",
      "latex" := "latexindent"];
    Config(true, true, true, true, codeFormatters)
  }

  /** `Config::new()` delegates to the default. */
  function New(): (c: Config)
    ensures c == Default()
  {
    Default()
  }

  /** The first four built-in language tags are pairwise distinct. */
  lemma FirstLanguagesDistinct()
    ensures |{"javascript", "js", "typescript", "ts"}| == 4
  {
    var ks: set<string> := {};
    assert "javascript" !in ks; ks := ks + {"javascript"};
    assert "js" !in ks; ks := ks + {"js"};
    assert "typescript" !in ks; ks := ks + {"typescript"};
    assert "ts" !in ks; ks := ks + {"ts"};
  }

  /** The next four built-in language tags are pairwise distinct. */
  lemma MiddleLanguagesDistinct()
    ensures |{"css", "html", "json", "yaml"}| == 4
  {
    var ks: set<string> := {};
    assert "css" !in ks; ks := ks + {"css"};
    assert "html" !in ks; ks := ks + {"html"};
    assert "json" !in ks; ks := ks + {"json"};
    assert "yaml" !in ks; ks := ks + {"yaml"};
  }

  /** The last five built-in language tags are pairwise distinct. */
  lemma LastLanguagesDistinct()
    ensures |{"yml", "markdown", "md", "rust", "latex"}| == 5
  {
    var ks: set<string> := {};
    assert "yml" !in ks; ks := ks + {"yml"};
    assert "markdown" !in ks; ks := ks + {"markdown"};
    assert "md" !in ks; ks := ks + {"md"};
    assert "rust" !in ks; ks := ks + {"rust"};
    assert "latex" !in ks; ks := ks + {"latex"};
  }

  /** The default map has exactly thirteen entries. */
  lemma DefaultHasThirteenEntries()
    ensures |Default().codeFormatters| == 13
  {
    FirstLanguagesDistinct();
    MiddleLanguagesDistinct();
    LastLanguagesDistinct();
    var a, b, c := {"javascript", "js", "typescript", "ts"}, {"css", "html", "json", "yaml"}, {"yml", "markdown", "md", "rust", "latex"};
    assert a * b == {};
    assert (a + b) * c == {};
    assert Default().codeFormatters.Keys == a + b + c;
  }
}
