/** What the generator's stages promise: which table entries change the
    template and how, what the encryption step leaves behind, which lines
    cleaning keeps, and the shape of the compiler command. */
module GeneratorProperties {
  import opened Wrappers
  import opened Text
  import opened PayloadGenerator

  // ---------------------------------------------------------------------
  // Value substitution

  /** A skipped entry (no value, or a marker the template as read does not
      hold) can be taken out of the table anywhere without changing the
      result. */
  lemma {:induction false} SkippedEntryIrrelevant(content: string, values: seq<(string, Option<string>)>,
                                                  i: nat, isFloat: string -> bool)
    requires i < |values| && Skipped(content, values[i])
    ensures Substituted(content, values[..i] + values[i + 1..], isFloat) == Substituted(content, values, isFloat)
    decreases |values|
  {
    var n := |values|;
    var init := values[..n - 1];
    var rest := values[..i] + values[i + 1..];
    if i == n - 1 {
      assert rest == init;
    } else {
      assert rest[..|rest| - 1] == init[..i] + init[i + 1..];
      assert rest[|rest| - 1] == values[n - 1];
      assert init[i] == values[i];
      SkippedEntryIrrelevant(content, init, i, isFloat);
    }
  }

  lemma SingleEntry(content: string, entry: (string, Option<string>), isFloat: string -> bool)
    ensures Substituted(content, [entry], isFloat) == SubstituteOne(content, content, entry, isFloat)
  {
    assert [entry][..0] == [];
  }

  /** A value `float()` accepts replaces the quoted marker, quotes included:
      the first occurrence is replaced where it stands and the scan goes on
      after it. */
  lemma FloatValueReplacesQuoted(a: string, b: string, key: string, v: string, isFloat: string -> bool)
    requires isFloat(v) && '"' !in a
    ensures Substituted(a + QuotedMarker(key) + b, [(key, Some(v))], isFloat)
      == a + v + Replace(b, QuotedMarker(key), v)
  {
    var content := a + QuotedMarker(key) + b;
    assert content == (a + "\"") + Marker(key) + ("\"" + b);
    ContainsInfix(a + "\"", Marker(key), "\"" + b);
    SingleEntry(content, (key, Some(v)), isFloat);
    ReplaceSplice(a, QuotedMarker(key), b, v);
  }

  /** A value `float()` accepts never replaces a bare marker: a template
      without the quoted marker comes out unchanged. */
  lemma FloatValueKeepsBareMarker(content: string, key: string, v: string, isFloat: string -> bool)
    requires isFloat(v) && !Contains(content, QuotedMarker(key))
    ensures Substituted(content, [(key, Some(v))], isFloat) == content
  {
    SingleEntry(content, (key, Some(v)), isFloat);
    ReplaceAbsent(content, QuotedMarker(key), v);
  }

  /** Any other value replaces the bare marker where it first stands, and
      the scan goes on after it. */
  lemma ValueReplacesMarker(a: string, b: string, key: string, v: string, isFloat: string -> bool)
    requires !isFloat(v) && '[' !in a
    ensures Substituted(a + Marker(key) + b, [(key, Some(v))], isFloat) == a + v + Replace(b, Marker(key), v)
  {
    var content := a + Marker(key) + b;
    ContainsInfix(a, Marker(key), b);
    SingleEntry(content, (key, Some(v)), isFloat);
    ReplaceSplice(a, Marker(key), b, v);
  }

  /** Any other value replaces every occurrence of the bare marker: the text
      between the markers is kept and the value stands at each marker. */
  lemma ValueReplacesEveryMarker(content: string, key: string, v: string, isFloat: string -> bool)
    requires !isFloat(v) && Contains(content, Marker(key))
    ensures Substituted(content, [(key, Some(v))], isFloat) == Join(SplitOn(content, Marker(key)), v)
  {
    SingleEntry(content, (key, Some(v)), isFloat);
    ReplaceIsJoinOfSplit(content, Marker(key), v);
  }

  // ---------------------------------------------------------------------
  // Encryption routine

  /** With encryption `none`, no line mentions either marker any more, and
      the lines that remain are exactly the lines that mentioned neither,
      in their original order. */
  lemma NoneDropsMarkerLines(source: string, template: string, partials: map<string, string>)
    ensures var r := WithEncryption(source, "none", template, partials);
      !Contains(r, KeyMarker) && !Contains(r, EncryptMarker)
    ensures var kept := Filter(PyLines(source), Unmarked);
      IsSubsequence(kept, PyLines(source)) &&
      (forall line :: line in kept <==> line in PyLines(source) && !MentionsMarker(line)) &&
      (|kept| > 0 ==> SplitOn(WithEncryption(source, "none", template, partials), "\n") == kept)
  {
    var lines := PyLines(source);
    var kept := Filter(lines, Unmarked);
    FilterMembers(lines, Unmarked);
    FilterIsSubsequence(lines, Unmarked);
    forall line | line in lines && !MentionsMarker(line) ensures line in kept {
      FilterKeeps(lines, Unmarked, line);
    }
    forall i | 0 <= i < |kept| ensures !MentionsMarker(kept[i]) {
      assert kept[i] in kept;
      assert Unmarked(kept[i]);
    }
    JoinAvoids(kept, '\n', KeyMarker);
    JoinAvoids(kept, '\n', EncryptMarker);
    PyLinesAvoidNewline(source);
    if |kept| > 0 {
      forall i | 0 <= i < |kept| ensures "\n"[0] !in kept[i] {
        assert kept[i] in lines;
      }
      SplitOfJoin(kept, "\n");
    }
  }

  /** Any other encryptor puts the routine's text where the first
      `[[ENCRYPT]]` stands, and every later one is replaced in turn. */
  lemma PartialSpliced(a: string, b: string, encrypt: string, template: string, partials: map<string, string>)
    requires encrypt != "none" && '[' !in a
    ensures var text := PartialText(partials, PartialPath(encrypt, template));
      WithEncryption(a + EncryptMarker + b, encrypt, template, partials)
        == a + text + Replace(b, EncryptMarker, text)
  {
    ReplaceSplice(a, EncryptMarker, b, PartialText(partials, PartialPath(encrypt, template)));
  }

  /** A routine file that does not exist is not an error: the markers are
      simply removed. */
  lemma MissingPartialErases(source: string, encrypt: string, template: string, partials: map<string, string>)
    requires encrypt != "none" && PartialPath(encrypt, template) !in partials
    ensures WithEncryption(source, encrypt, template, partials) == Join(SplitOn(source, EncryptMarker), "")
  {
    ReplaceIsJoinOfSplit(source, EncryptMarker, "");
  }

  /** The routine is looked up by the template name's last extension. */
  lemma PartialUsesLastExtension(encrypt: string, stem: string, ext: string)
    requires '.' !in ext
    ensures PartialPath(encrypt, stem + "." + ext) == PathJoin("partial", encrypt + "." + ext)
  {
    SplitLastPiece(stem, '.', ext);
  }

  /** Compilation, by contrast, takes the piece after the first `.`. */
  lemma TemplateTypeIsSecondPiece(first: string, second: string, rest: string)
    requires '.' !in first && '.' !in second
    ensures TemplateType(first + "." + second) == Some(second)
    ensures TemplateType(first + "." + second + "." + rest) == Some(second)
    ensures TemplateType(first) == None
  {
    SplitAfterPiece(first, ".", second);
    SplitWithoutSeparator(second, ".");
    assert first + "." + second + "." + rest == first + "." + (second + "." + rest);
    SplitAfterPiece(first, ".", second + "." + rest);
    SplitAfterPiece(second, ".", rest);
    SplitWithoutSeparator(first, ".");
  }

  // ---------------------------------------------------------------------
  // Cleaning

  /** The cleaned lines come from the second line on, in their order, and
      none of them is empty or blank. */
  lemma CleanKeepsOrder(source: string, format: string, dev: bool)
    ensures IsSubsequence(CleanLines(source, format, dev), SplitOn(source, "\n")[1..])
    ensures forall line :: line in CleanLines(source, format, dev) ==>
      line in SplitOn(source, "\n")[1..] && !IsBlank(line) && line != ""
  {
    var lines := SplitOn(source, "\n")[1..];
    FilterIsSubsequence(lines, Keeper(format, dev));
    FilterMembers(lines, Keeper(format, dev));
  }

  /** The first line is dropped whatever it holds. */
  lemma CleanDropsFirstLine(banner: string, rest: string, format: string, dev: bool)
    requires '\n' !in banner
    ensures CleanLines(banner + "\n" + rest, format, dev) == Filter(SplitOn(rest, "\n"), Keeper(format, dev))
  {
    SplitAfterPiece(banner, "\n", rest);
  }

  /** Outside developer mode, `#` comment lines go for ps1/py/sh/bat and
      `//` comment lines for exe/elf/dll/elf-so. */
  lemma CleanStripsComments(source: string, format: string)
    ensures format in HashCommentFormats ==>
      forall line :: line in CleanLines(source, format, false) ==> !StartsWith(line, "#")
    ensures format in SlashCommentFormats ==>
      forall line :: line in CleanLines(source, format, false) ==> !StartsWith(line, "//")
  {
    FilterMembers(SplitOn(source, "\n")[1..], Keeper(format, false));
  }

  /** For the other formats (js, vba, hta, cs, ...) and in developer mode,
      every non-blank line after the first is kept, comments included. */
  lemma CommentLinesKept(source: string, format: string, dev: bool, line: string)
    requires dev || (format !in HashCommentFormats && format !in SlashCommentFormats)
    requires line in SplitOn(source, "\n")[1..] && !IsBlank(line)
    ensures line in CleanLines(source, format, dev)
  {
    FilterKeeps(SplitOn(source, "\n")[1..], Keeper(format, dev), line);
  }

  /** An indented line is kept even when a comment marker follows the
      indentation. */
  lemma IndentedLineKept(source: string, format: string, dev: bool, line: string)
    requires line in SplitOn(source, "\n")[1..] && !IsBlank(line)
    requires |line| > 0 && IsPySpace(line[0])
    ensures line in CleanLines(source, format, dev)
  {
    assert !StartsWith(line, "#") by { assert line[..1][0] == line[0]; }
    assert !StartsWith(line, "//") by {
      if |line| >= 2 { assert line[..2][0] == line[0]; }
    }
    FilterKeeps(SplitOn(source, "\n")[1..], Keeper(format, dev), line);
  }

  /** The cleaned text splits back into the cleaned lines. */
  lemma CleanTextLines(source: string, format: string, dev: bool)
    requires |CleanLines(source, format, dev)| > 0
    ensures SplitOn(CleanText(source, format, dev), "\n") == CleanLines(source, format, dev)
  {
    var all := SplitOn(source, "\n");
    var kept := CleanLines(source, format, dev);
    SplitPiecesAvoidSeparator(source, '\n');
    FilterMembers(all[1..], Keeper(format, dev));
    forall i | 0 <= i < |kept| ensures "\n"[0] !in kept[i] {
      assert kept[i] in all[1..];
      var j :| 0 <= j < |all[1..]| && all[1..][j] == kept[i];
      assert all[j + 1] == kept[i];
    }
    SplitOfJoin(kept, "\n");
  }

  /** Cleaning is not idempotent: cleaning the cleaned text drops its first
      line as well, so the text gets strictly shorter. */
  lemma CleanNotIdempotent(source: string, format: string, dev: bool)
    requires |CleanLines(source, format, dev)| > 0
    ensures CleanLines(CleanText(source, format, dev), format, dev) == CleanLines(source, format, dev)[1..]
    ensures |CleanText(CleanText(source, format, dev), format, dev)| < |CleanText(source, format, dev)|
  {
    var kept := CleanLines(source, format, dev);
    CleanTextLines(source, format, dev);
    CleanKeepsOrder(source, format, dev);
    FilterMembers(SplitOn(source, "\n")[1..], Keeper(format, dev));
    forall i | 0 <= i < |kept[1..]| ensures Keeper(format, dev)(kept[1..][i]) {
      assert kept[1..][i] in kept;
    }
    FilterAllKept(kept[1..], Keeper(format, dev));
    assert kept[0] in kept;
    assert kept[0] != "";
  }

  // ---------------------------------------------------------------------
  // Compiler command

  /** The output file is `output` with the platform's extension, in the
      target directory, and its last character tells it apart from every
      option. */
  lemma OutputFileShape(target: string, platform: string, format: string)
    ensures var out := OutputFile(target, platform, format);
      EndsWith(out, "output" + OutputSuffix(platform, format)) &&
      |out| > 0 && out[|out| - 1] in {'t', 'e', 'l', 'o', 'f'}
  {
    var base := PathJoin(target, "output");
    var suffix := OutputSuffix(platform, format);
    var out := base + suffix;
    var tail := "output" + suffix;
    assert out[|out| - |tail|..] == base[|base| - 6..] + suffix;
    assert out[|out| - |tail|..][|tail| - 1] == out[|out| - 1];
  }

  /** The last characters of the paths in a command... */
  predicate PathEnd(x: string) {
    |x| > 0 && x[|x| - 1] in {'c', 'p', 's', 'a', 'o', 't', 'e', 'l', 'f'}
  }

  /** ... and of the options it could be confused with. */
  predicate OptionEnd(x: string) {
    |x| > 0 && x[|x| - 1] in {'2', '4', '6', 'd', 'y'}
  }

  /** The source file and the output file argument end like paths. */
  lemma PathEndings(ty: string, target: string, platform: string, format: string)
    requires ty in CompiledTypes
    ensures PathEnd(PathJoin(target, "source." + ty))
    ensures var outArgs := OutputArguments(ty, OutputFile(target, platform, format));
      PathEnd(outArgs[|outArgs| - 1])
  {
    var name := "source." + ty;
    var src := PathJoin(target, name);
    assert EndsWith(src, name);
    assert src[|src| - |name|..][|name| - 1] == src[|src| - 1];
    assert name[|name| - 1] in {'c', 'p', 's', 'a', 'o'} by {
      assert name[|name| - 1] == ty[|ty| - 1];
      if ty == "c" {
      } else if ty == "cpp" {
      } else if ty == "cs" {
      } else if ty == "java" {
      } else {
        assert ty == "go";
      }
    }
    var out := OutputFile(target, platform, format);
    OutputFileShape(target, platform, format);
    var outArgs := OutputArguments(ty, out);
    if ty == "cs" {
      var outArg := "-out:" + out;
      assert outArgs == [outArg];
      assert outArg[|outArg| - 1] == out[|out| - 1];
    } else {
      assert outArgs[|outArgs| - 1] == out;
    }
  }

  /** The options that are not paths: the compiler, the output option, the
      library flag and the architecture option, all different from one
      another except where the table repeats itself. */
  lemma FixedArguments(ty: string, architecture: string)
    requires ty in CompiledTypes
    ensures var arch := ArchitectureOption(ty, architecture);
      OptionEnd(arch) && OptionEnd("-target:library") &&
      arch != Compiler(ty) && arch != OutputOption(ty) && arch != "-target:library" &&
      "-target:library" != Compiler(ty) && "-target:library" != OutputOption(ty)
  {
    var lib := "-target:library";
    assert lib[|lib| - 1] == 'y';
    if ty == "c" || ty == "cpp" {
      assert ArchitectureOption(ty, architecture) in {"-m32", "-m64"};
    } else if ty == "cs" {
      assert ArchitectureOption(ty, architecture) in {"-platform:x86", "-platform:x64"};
    } else if ty == "java" {
      assert ArchitectureOption(ty, architecture) == "-d";
    } else {
      assert ArchitectureOption(ty, architecture) in {"--goarch=amd64", "--goarch=386"};
    }
  }

  /** A command's arguments: the path ending ones and the fixed options. */
  lemma CommandArguments(ty: string, target: string, platform: string, format: string)
    requires ty in CompiledTypes
    ensures var argv := CompileCommand(ty, PathJoin(target, "source." + ty), target, platform, format);
      forall x :: x in argv ==>
        PathEnd(x) || x == Compiler(ty) || x == OutputOption(ty) || x in LibraryFlag(platform, format)
  {
    var src := PathJoin(target, "source." + ty);
    var outArgs := OutputArguments(ty, OutputFile(target, platform, format));
    PathEndings(ty, target, platform, format);
    assert forall x :: x in outArgs ==> PathEnd(x) || x == OutputOption(ty);
  }

  /** The command is the compiler, the source file, the library flag, and
      then the output arguments: `-out:<file>` for C#, otherwise the option
      and the file. */
  lemma CommandShape(ty: string, target: string, platform: string, format: string)
    requires ty in CompiledTypes
    ensures var src := PathJoin(target, "source." + ty);
      var argv := CompileCommand(ty, src, target, platform, format);
      var out := OutputFile(target, platform, format);
      argv[0] == Compiler(ty) && argv[1] == src &&
      (ty == "cs" ==> argv[|argv| - 1] == "-out:" + out) &&
      (ty != "cs" ==> argv[|argv| - 2] == OutputOption(ty) && argv[|argv| - 1] == out)
  {
  }

  /** `-target:library` is in the command exactly for a Windows target
      whose format is not `exe`. */
  lemma LibraryFlagExactly(ty: string, target: string, platform: string, format: string)
    requires ty in CompiledTypes
    ensures ("-target:library" in CompileCommand(ty, PathJoin(target, "source." + ty), target, platform, format))
      <==> platform == "win" && format != "exe"
  {
    CommandArguments(ty, target, platform, format);
    FixedArguments(ty, "x64");
    assert !PathEnd("-target:library");
    assert LibraryFlag(platform, format) <= CompileCommand(ty, PathJoin(target, "source." + ty), target, platform, format)[2..];
  }

  /** The architecture option table is never consulted: its entry is not
      in the command. */
  lemma NoArchitectureOption(ty: string, target: string, platform: string, format: string, architecture: string)
    requires ty in CompiledTypes
    ensures ArchitectureOption(ty, architecture) !in
      CompileCommand(ty, PathJoin(target, "source." + ty), target, platform, format)
  {
    CommandArguments(ty, target, platform, format);
    FixedArguments(ty, architecture);
    assert !PathEnd(ArchitectureOption(ty, architecture));
  }
}
