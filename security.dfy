/**
 * The server-side screening of a submitted code file (`injection_check`):
 * the file must import the toolkit, every line that begins with `from` or
 * `import` must import from the toolkit, and no name token may be one of
 * the forbidden names. The lines are the file's lines as `readlines` gives
 * them; the name tokens are those the tokenizer finds in the file.
 */
module Security {
  import opened Values

  /** `FORBIDDEN`: names a submitted file may not use. */
  const Forbidden: seq<string> :=
    ["STORAGE_FOLDER", "config", "LRUCache", "logger", "PerformanceMonitor", "eval", "exec"]

  /** The tokenizer's type number for NAME tokens. */
  const NameTokenType := 1

  /** A token as the tokenizer gives it: its type number and its text. */
  type Token = (int, string)

  const NotImported := ARgorithmError(["ARgorithmToolkit not imported"])
  const InvalidModule := ARgorithmError(["invalid module imported"])
  const PossibleInjection := ARgorithmError(["possible code injection"])

  /** `s.startswith(p)`. */
  predicate StartsWith(s: string, p: string)
  {
    |p| <= |s| && s[..|p|] == p
  }

  /** `p in s`. */
  predicate Contains(s: string, p: string)
  {
    exists i :: 0 <= i <= |s| && StartsWith(s[i..], p)
  }

  /**
   * The characters `\s` matches in a `str` pattern: those `str.isspace`
   * accepts, the ASCII controls tab to carriage return, the four separators
   * 0x1C-0x1F, next-line, no-break space and the Unicode space separators.
   */
  predicate IsSpace(c: char)
  {
    ('\U{0009}' <= c <= '\U{000D}') || ('\U{001C}' <= c <= '\U{001F}') || c == ' ' ||
    c == '\U{0085}' || c == '\U{00A0}' || c == '\U{1680}' ||
    ('\U{2000}' <= c <= '\U{200A}') || c == '\U{2028}' || c == '\U{2029}' ||
    c == '\U{202F}' || c == '\U{205F}' || c == '\U{3000}'
  }

  /** `s` matches `\s+word` at its start: one or more spaces, then `word`. */
  predicate SpacesThen(s: string, word: string)
    decreases |s|
  {
    s != [] && IsSpace(s[0]) && (StartsWith(s[1..], word) || SpacesThen(s[1..], word))
  }

  /** `re.search(r"^<keyword>\s+ARgorithmToolkit", line)` finds a match. */
  predicate ImportsToolkit(line: string, keyword: string)
  {
    StartsWith(line, keyword) && SpacesThen(line[|keyword|..], "ARgorithmToolkit")
  }

  /** A line that begins with `keyword` but does not import from the toolkit. */
  predicate Breaks(line: string, keyword: string)
  {
    StartsWith(line, keyword) && !ImportsToolkit(line, keyword)
  }

  /** A line the first loop counts. */
  predicate MentionsToolkit(line: string)
  {
    Contains(line, "import ARgorithmToolkit") || Contains(line, "from ARgorithmToolkit")
  }

  /** The number of lines that mention the toolkit. */
  function MentionCount(lines: seq<string>): nat
  {
    if lines == [] then 0
    else MentionCount(lines[..|lines| - 1]) + (if MentionsToolkit(lines[|lines| - 1]) then 1 else 0)
  }

  /** No line mentions the toolkit exactly when the count is zero. */
  lemma {:induction false} MentionCountZero(lines: seq<string>)
    ensures MentionCount(lines) == 0 <==> forall i :: 0 <= i < |lines| ==> !MentionsToolkit(lines[i])
  {
    if lines != [] {
      var init := lines[..|lines| - 1];
      MentionCountZero(init);
      assert forall i :: 0 <= i < |init| ==> init[i] == lines[i];
    }
  }

  /** The first loop of `injection_check`: the lines that mention the toolkit are counted. */
  method CountMentions(lines: seq<string>) returns (count: nat)
    ensures count == MentionCount(lines)
  {
    count := 0;
    for k := 0 to |lines|
      invariant count == MentionCount(lines[..k])
    {
      assert lines[..k + 1][..k] == lines[..k];
      if MentionsToolkit(lines[k]) {
        count := count + 1;
      }
    }
    assert lines[..|lines|] == lines;
  }

  /** The verdict of `injection_check`: the first rule broken, in the order checked. */
  function Screen(lines: seq<string>, tokens: seq<Token>): Outcome
  {
    if MentionCount(lines) == 0 then Raised(NotImported)
    else if exists i :: 0 <= i < |lines| && Breaks(lines[i], "from") then Raised(InvalidModule)
    else if exists i :: 0 <= i < |lines| && Breaks(lines[i], "import") then Raised(InvalidModule)
    else if exists i :: 0 <= i < |tokens| && tokens[i].0 == NameTokenType && tokens[i].1 in Forbidden then
      Raised(PossibleInjection)
    else Done
  }

  /**
   * `injection_check(filename)` over the file's lines and its tokens: the
   * mentions are counted, then the `from` lines, the `import` lines and the
   * name tokens are checked in turn.
   */
  method InjectionCheck(lines: seq<string>, tokens: seq<Token>) returns (r: Outcome)
    ensures r == Screen(lines, tokens)
  {
    var count := CountMentions(lines);
    if count == 0 {
      return Raised(NotImported);
    }
    if exists i :: 0 <= i < |lines| && Breaks(lines[i], "from") {
      return Raised(InvalidModule);
    }
    if exists i :: 0 <= i < |lines| && Breaks(lines[i], "import") {
      return Raised(InvalidModule);
    }
    if exists i :: 0 <= i < |tokens| && tokens[i].0 == NameTokenType && tokens[i].1 in Forbidden {
      return Raised(PossibleInjection);
    }
    return Done;
  }

  /**
   * A file passes exactly when some line mentions the toolkit, every line
   * beginning with `from` or `import` imports from the toolkit, and no name
   * token is forbidden.
   */
  lemma ScreenPasses(lines: seq<string>, tokens: seq<Token>)
    ensures Screen(lines, tokens) == Done <==>
              (exists i :: 0 <= i < |lines| && MentionsToolkit(lines[i])) &&
              (forall i :: 0 <= i < |lines| ==> !Breaks(lines[i], "from") && !Breaks(lines[i], "import")) &&
              (forall i :: 0 <= i < |tokens| && tokens[i].0 == NameTokenType ==> tokens[i].1 !in Forbidden)
  {
    MentionCountZero(lines);
  }

  /** Without a mention of the toolkit the file is refused first, whatever else it holds. */
  lemma NotImportedFirst(lines: seq<string>, tokens: seq<Token>)
    requires forall i :: 0 <= i < |lines| ==> !MentionsToolkit(lines[i])
    ensures Screen(lines, tokens) == Raised(NotImported)
  {
    MentionCountZero(lines);
  }

  /** A forbidden name is reported only once the line rules hold. */
  lemma InjectionAfterLineRules(lines: seq<string>, tokens: seq<Token>)
    requires Screen(lines, tokens) == Raised(PossibleInjection)
    ensures forall i :: 0 <= i < |lines| ==> !Breaks(lines[i], "from") && !Breaks(lines[i], "import")
    ensures exists i :: 0 <= i < |tokens| && tokens[i].0 == NameTokenType && tokens[i].1 in Forbidden
  {
  }

  /** `SpacesThen` holds for any run of spaces followed by the word. */
  lemma {:induction false} SpacesThenRun(spaces: string, word: string, rest: string)
    requires spaces != [] && forall i :: 0 <= i < |spaces| ==> IsSpace(spaces[i])
    ensures SpacesThen(spaces + word + rest, word)
  {
    var s := spaces + word + rest;
    assert s[0] == spaces[0];
    if |spaces| == 1 {
      assert s[1..] == word + rest;
      assert s[1..][..|word|] == word;
    } else {
      assert s[1..] == spaces[1..] + word + rest;
      SpacesThenRun(spaces[1..], word, rest);
    }
  }

  /** `SpacesThen` needs a space first. */
  lemma SpacesThenNeedsSpace(s: string, word: string)
    requires s != [] && !IsSpace(s[0])
    ensures !SpacesThen(s, word)
  {
  }

  /**
   * Only the beginning of a line is looked at: an import indented by any
   * amount is not checked, while the same import at the start of the line
   * is refused unless it names the toolkit.
   */
  lemma IndentedImportUnchecked(indent: string, imported: string)
    requires indent != [] && forall i :: 0 <= i < |indent| ==> IsSpace(indent[i])
    requires imported != [] && !IsSpace(imported[0])
    ensures !Breaks(indent + "import " + imported, "import")
    ensures !Breaks(indent + "import " + imported, "from")
    ensures Breaks("import " + imported, "import") <==> !StartsWith(imported, "ARgorithmToolkit")
  {
    var line := indent + "import " + imported;
    assert line[0] == indent[0];
    var top := "import " + imported;
    assert top[..6] == "import";
    assert top[6..] == " " + imported;
    var s := top[6..];
    assert s[1..] == imported;
    assert !SpacesThen(s[1..], "ARgorithmToolkit") by {
      SpacesThenNeedsSpace(s[1..], "ARgorithmToolkit");
    }
  }

  /** A line beginning with `from` for another reason is refused too. */
  lemma FromPrefixRefused(rest: string)
    requires rest != [] && !IsSpace(rest[0])
    ensures Breaks("from" + rest, "from")
  {
    var line := "from" + rest;
    assert line[..4] == "from";
    assert line[4..] == rest;
    SpacesThenNeedsSpace(rest, "ARgorithmToolkit");
  }

  /** The name check is a prefix check: a module whose name only starts like the toolkit's passes. */
  lemma ToolkitPrefixAccepted(suffix: string)
    ensures !Breaks("import ARgorithmToolkit" + suffix, "import")
  {
    var line := "import ARgorithmToolkit" + suffix;
    assert line[..6] == "import";
    assert line[6..] == " " + "ARgorithmToolkit" + suffix;
    SpacesThenRun(" ", "ARgorithmToolkit", suffix);
  }
}
