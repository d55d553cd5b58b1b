/** The payload generator: a template's `[[KEY]]` markers are filled in from
    a table of values, an encryption routine is spliced in (or the lines
    that need one are dropped), the banner line, comments and blank lines
    are cleaned away, and the result is written out either as a script or
    as a source file together with the compiler command that builds it. */
module PayloadGenerator {
  import opened Wrappers
  import opened Text

  // ---------------------------------------------------------------------
  // Value substitution

  /** The marker a value of `key` replaces: `[[key]]`. */
  function Marker(key: string): (m: string)
    ensures |m| == |key| + 4 && m[0] == '['
  {
    "[[" + key + "]]"
  }

  /** The quoted marker `"[[key]]"`, which a numeric value replaces. */
  function QuotedMarker(key: string): (m: string)
    ensures |m| == |key| + 6 && m[0] == '"'
  {
    "\"" + Marker(key) + "\""
  }

  /** An entry of the value table is skipped when its value is absent or its
      marker does not occur in the template as read (not in the text the
      earlier entries have already changed). */
  predicate Skipped(content: string, entry: (string, Option<string>)) {
    entry.1.None? || !Contains(content, Marker(entry.0))
  }

  /** One round of the values loop: a value `float()` accepts replaces the
      quoted marker, any other value replaces the bare marker. */
  function SubstituteOne(source: string, content: string, entry: (string, Option<string>),
                         isFloat: string -> bool): (r: string)
  {
    if Skipped(content, entry) then source
    else if isFloat(entry.1.value) then Replace(source, QuotedMarker(entry.0), entry.1.value)
    else Replace(source, Marker(entry.0), entry.1.value)
  }

  /** The template after the values loop, taking the entries in the table's
      order. */
  function Substituted(content: string, values: seq<(string, Option<string>)>,
                       isFloat: string -> bool): (r: string)
    decreases |values|
  {
    if values == [] then content
    else SubstituteOne(Substituted(content, values[..|values| - 1], isFloat), content,
                       values[|values| - 1], isFloat)
  }

  // ---------------------------------------------------------------------
  // Encryption routine

  const EncryptMarker: string := "[[ENCRYPT]]"
  const KeyMarker: string := "[[KEY]]"

  /** `posixpath.join(a, b)`: an absolute `b` wins, otherwise the two are
      joined with one `/`. */
  function PathJoin(a: string, b: string): (p: string)
    ensures EndsWith(p, b)
  {
    if |b| > 0 && b[0] == '/' then b
    else if a == "" || a[|a| - 1] == '/' then a + b
    else a + "/" + b
  }

  /** The last `.`-separated piece of a name, `name.split('.')[-1]`. */
  function LastExtension(name: string): (r: string) {
    var parts := SplitOn(name, ".");
    parts[|parts| - 1]
  }

  /** Where the routine for `encrypt` is looked up, relative to the
      repository root: `partial/<encrypt>.<last extension of template>`. */
  function PartialPath(encrypt: string, template: string): (r: string) {
    PathJoin("partial", encrypt + "." + LastExtension(template))
  }

  /** The routine's text; a missing file gives the empty string. */
  function PartialText(partials: map<string, string>, path: string): (r: string) {
    if path in partials then partials[path] else ""
  }

  predicate MentionsMarker(line: string) {
    Contains(line, KeyMarker) || Contains(line, EncryptMarker)
  }

  const Unmarked: string -> bool := line => !MentionsMarker(line)

  /** The `none` branch: the lines that mention neither marker. */
  function StripMarkerLines(source: string): (r: string) {
    Join(Filter(PyLines(source), Unmarked), "\n")
  }

  /** The source after the encryption step. */
  function WithEncryption(source: string, encrypt: string, template: string,
                          partials: map<string, string>): (r: string)
  {
    if encrypt != "none" then Replace(source, EncryptMarker, PartialText(partials, PartialPath(encrypt, template)))
    else StripMarkerLines(source)
  }

  // ---------------------------------------------------------------------
  // Cleaning

  /** The characters Python's `str.strip()` removes, by code point: the
      ASCII controls tab to carriage return, the separators 0x1c to 0x1f,
      space, and the Unicode whitespace characters. */
  predicate IsPySpace(c: char) {
    var n := c as int;
    9 <= n <= 13 || 0x1c <= n <= 0x20 || n == 0x85 || n == 0xa0 || n == 0x1680 ||
    0x2000 <= n <= 0x200a || n == 0x2028 || n == 0x2029 || n == 0x202f || n == 0x205f ||
    n == 0x3000
  }

  /** `line.strip() == ''` */
  predicate IsBlank(line: string) {
    forall i :: 0 <= i < |line| ==> IsPySpace(line[i])
  }

  const HashCommentFormats: set<string> := {"ps1", "py", "sh", "bat"}
  const SlashCommentFormats: set<string> := {"exe", "elf", "dll", "elf-so"}

  /** Whether a line survives cleaning: `#` comments go for the script
      formats that use them, `//` comments for the compiled formats, unless
      in developer mode; blank lines always go. */
  predicate KeepLine(format: string, dev: bool, line: string) {
    if format in HashCommentFormats && StartsWith(line, "#") && !dev then false
    else if format in SlashCommentFormats && StartsWith(line, "//") && !dev then false
    else !IsBlank(line)
  }

  function Keeper(format: string, dev: bool): (r: string -> bool) {
    line => KeepLine(format, dev, line)
  }

  /** The lines `clean_output` keeps: everything after the first line that
      passes `KeepLine`, in order. */
  function CleanLines(source: string, format: string, dev: bool): (r: seq<string>) {
    Filter(SplitOn(source, "\n")[1..], Keeper(format, dev))
  }

  function CleanText(source: string, format: string, dev: bool): (r: string) {
    Join(CleanLines(source, format, dev), "\n")
  }

  // ---------------------------------------------------------------------
  // Output

  const ScriptFormats: set<string> := {"sh", "bat", "ps1", "py", "js", "vba", "hta"}
  const CompiledTypes: set<string> := {"c", "cpp", "cs", "java", "go"}

  /** The template type compilation checks: the second `.`-separated piece
      of the name, `template.split('.')[1]`, absent when there is no `.`. */
  function TemplateType(template: string): (r: Option<string>) {
    var parts := SplitOn(template, ".");
    if |parts| >= 2 then Some(parts[1]) else None
  }

  function Compiler(ty: string): (r: string)
    requires ty in CompiledTypes
  {
    if ty == "c" then "gcc"
    else if ty == "cpp" then "g++"
    else if ty == "cs" then "mcs"
    else if ty == "java" then "javac"
    else "go build"
  }

  /** The architecture option table; the command never uses it. */
  function ArchitectureOption(ty: string, architecture: string): (r: string)
    requires ty in CompiledTypes
  {
    if ty == "c" || ty == "cpp" then (if architecture == "x86" then "-m32" else "-m64")
    else if ty == "cs" then (if architecture == "x86" then "-platform:x86" else "-platform:x64")
    else if ty == "java" then "-d"
    else if architecture == "x64" then "--goarch=amd64" else "--goarch=386"
  }

  function OutputOption(ty: string): (r: string)
    requires ty in CompiledTypes
  {
    if ty == "cs" then "-out:" else if ty == "java" then "" else "-o"
  }

  /** The file name extension the platform and output format call for. */
  function OutputSuffix(platform: string, format: string): (r: string) {
    if platform == "win" then (if format == "exe" then ".exe" else ".dll")
    else if format == "elf-so" then ".so"
    else if format == "elf" then ".elf"
    else ""
  }

  function OutputFile(target: string, platform: string, format: string): (r: string) {
    PathJoin(target, "output") + OutputSuffix(platform, format)
  }

  function LibraryFlag(platform: string, format: string): (r: seq<string>) {
    if platform == "win" && format != "exe" then ["-target:library"] else []
  }

  /** The output arguments: one `-out:<file>` for C#, otherwise the option
      and the file as two arguments. */
  function OutputArguments(ty: string, output: string): (r: seq<string>)
    requires ty in CompiledTypes
  {
    if ty == "cs" then [OutputOption(ty) + output] else [OutputOption(ty), output]
  }

  /** The compiler command `compile_source` runs. */
  function CompileCommand(ty: string, sourceFile: string, target: string, platform: string,
                          format: string): (r: seq<string>)
    requires ty in CompiledTypes
  {
    [Compiler(ty), sourceFile] + LibraryFlag(platform, format)
      + OutputArguments(ty, OutputFile(target, platform, format))
  }

  datatype GenError =
    | TemplateNotFound(template: string)     // `read_template` finds no file
    | MissingExtension(template: string)     // `template.split('.')[1]` has no second piece
    | UnsupportedTemplate(template: string)  // the template type cannot be compiled

  datatype FileWrite = FileWrite(path: string, contents: string)

  /** What compilation hands on: the source file it writes and the command. */
  datatype CompileJob = CompileJob(source: FileWrite, argv: seq<string>)

  datatype Artifact = Script(file: FileWrite) | Compiled(job: CompileJob)

  class Generator {
    const template: string
    const platform: string
    const architecture: string
    const targetLocation: string
    const outputFormat: string
    const key: string
    const payload: string
    const values: seq<(string, Option<string>)>
    const encrypt: string
    const verbose: bool
    const dev: bool
    /** Whether Python's `float()` accepts a string. */
    const parsesAsFloat: string -> bool
    var source: string
    var templateContent: string

    constructor (template: string, platform: string, architecture: string, targetLocation: string,
                 outputFormat: string, key: string, payload: string,
                 values: seq<(string, Option<string>)>, encrypt: string, verbose: bool,
                 parsesAsFloat: string -> bool)
      ensures this.template == template && this.platform == platform
      ensures this.architecture == architecture && this.targetLocation == targetLocation
      ensures this.outputFormat == outputFormat && this.key == key && this.payload == payload
      ensures this.values == values && this.encrypt == encrypt && this.verbose == verbose
      ensures this.parsesAsFloat == parsesAsFloat
      ensures !dev && source == "" && templateContent == ""
    {
      this.dev := false;
      this.verbose := verbose;
      this.encrypt := encrypt;
      this.template := template;
      this.platform := platform;
      this.architecture := architecture;
      this.targetLocation := targetLocation;
      this.outputFormat := outputFormat;
      this.key := key;
      this.payload := payload;
      this.values := values;
      this.parsesAsFloat := parsesAsFloat;
      this.source := "";
      this.templateContent := "";
    }

    /** `substitute_values`: fills the markers in, entry by entry. */
    method SubstituteValues() returns (r: string)
      modifies this`source
      ensures source == Substituted(templateContent, values, parsesAsFloat) && r == source
    {
      source := templateContent;
      for j := 0 to |values|
        invariant source == Substituted(templateContent, values[..j], parsesAsFloat)
      {
        assert values[..j + 1][..j] == values[..j];
        var (k, v) := values[j];
        if v.Some? && Contains(templateContent, Marker(k)) {
          if parsesAsFloat(v.value) {
            source := Replace(source, QuotedMarker(k), v.value);
          } else {
            source := Replace(source, Marker(k), v.value);
          }
        }
      }
      assert values[..|values|] == values;
      r := source;
    }

    /** `add_encryption`: splices in the routine, or for `none` drops the
        lines that would need one. */
    method AddEncryption(partials: map<string, string>)
      modifies this`source
      ensures source == WithEncryption(old(source), encrypt, template, partials)
    {
      if encrypt != "none" {
        var sourceType := LastExtension(template);
        var encryptPath := PathJoin("partial", encrypt + "." + sourceType);
        var encryptData := "";
        if encryptPath in partials {
          encryptData := partials[encryptPath];
        }
        source := Replace(source, EncryptMarker, encryptData);
      } else {
        source := Join(Filter(PyLines(source), Unmarked), "\n");
      }
    }

    /** `clean_output`: the loop over the lines after the first. */
    method CleanOutput() returns (r: string)
      ensures r == CleanText(source, outputFormat, dev)
    {
      var lines := SplitOn(source, "\n")[1..];
      var output: seq<string> := [];
      for j := 0 to |lines|
        invariant output == Filter(lines[..j], Keeper(outputFormat, dev))
      {
        assert lines[..j + 1][..j] == lines[..j];
        var line := lines[j];
        if outputFormat in HashCommentFormats && StartsWith(line, "#") && !dev {
          continue;
        } else if outputFormat in SlashCommentFormats && StartsWith(line, "//") && !dev {
          continue;
        } else if IsBlank(line) {
          continue;
        }
        output := output + [line];
      }
      assert lines[..|lines|] == lines;
      r := Join(output, "\n");
    }

    /** `generate_script`: the cleaned text, as `output.<format>`. */
    method GenerateScript() returns (w: FileWrite)
      ensures w.path == PathJoin(targetLocation, "output." + outputFormat)
      ensures w.contents == CleanText(source, outputFormat, dev)
    {
      var contents := CleanOutput();
      w := FileWrite(PathJoin(targetLocation, "output." + outputFormat), contents);
    }

    /** `compile_source`: checks the template type, then gives the cleaned
        source file and the compiler command. */
    method CompileSource() returns (r: Result<CompileJob, GenError>)
      ensures TemplateType(template).None? ==> r == Failure(MissingExtension(template))
      ensures TemplateType(template).Some? && TemplateType(template).value !in CompiledTypes ==>
        r == Failure(UnsupportedTemplate(template))
      ensures TemplateType(template).Some? && TemplateType(template).value in CompiledTypes ==>
        var ty := TemplateType(template).value;
        var sourceFile := PathJoin(targetLocation, "source." + ty);
        r == Success(CompileJob(FileWrite(sourceFile, CleanText(source, outputFormat, dev)),
                                CompileCommand(ty, sourceFile, targetLocation, platform, outputFormat)))
    {
      var parts := SplitOn(template, ".");
      if |parts| < 2 {
        return Failure(MissingExtension(template));
      }
      var templateType := parts[1];
      if templateType !in CompiledTypes {
        return Failure(UnsupportedTemplate(template));
      }
      var sourceFile := PathJoin(targetLocation, "source." + templateType);
      var contents := CleanOutput();
      var compileCommand := [Compiler(templateType), sourceFile];
      var outputFile := PathJoin(targetLocation, "output");
      if platform == "win" {
        if outputFormat == "exe" {
          outputFile := outputFile + ".exe";
        } else {
          outputFile := outputFile + ".dll";
          compileCommand := compileCommand + ["-target:library"];
        }
      } else {
        if outputFormat == "elf-so" {
          outputFile := outputFile + ".so";
        } else if outputFormat == "elf" {
          outputFile := outputFile + ".elf";
        }
      }
      assert outputFile == OutputFile(targetLocation, platform, outputFormat);
      assert compileCommand == [Compiler(templateType), sourceFile] + LibraryFlag(platform, outputFormat);
      if templateType == "cs" {
        compileCommand := compileCommand + [OutputOption(templateType) + outputFile];
      } else {
        compileCommand := compileCommand + [OutputOption(templateType)];
        compileCommand := compileCommand + [outputFile];
      }
      assert compileCommand == CompileCommand(templateType, sourceFile, targetLocation, platform, outputFormat);
      r := Success(CompileJob(FileWrite(sourceFile, contents), compileCommand));
    }

    /** `generate_payload`: reads the template (given here as its contents,
        if the file exists), fills it in, adds the encryption routine, and
        then writes a script or compiles. */
    method GeneratePayload(templateFile: Option<string>, partials: map<string, string>)
      returns (r: Result<Artifact, GenError>)
      modifies this`templateContent, this`source
      ensures templateFile.None? ==>
        r == Failure(TemplateNotFound(template)) && unchanged(this)
      ensures templateFile.Some? ==>
        templateContent == templateFile.value &&
        source == WithEncryption(Substituted(templateFile.value, values, parsesAsFloat),
                                 encrypt, template, partials)
      ensures templateFile.Some? && outputFormat in ScriptFormats ==>
        r == Success(Script(FileWrite(PathJoin(targetLocation, "output." + outputFormat),
                                      CleanText(source, outputFormat, dev))))
      ensures templateFile.Some? && outputFormat !in ScriptFormats && TemplateType(template).None? ==>
        r == Failure(MissingExtension(template))
      ensures templateFile.Some? && outputFormat !in ScriptFormats && TemplateType(template).Some? &&
              TemplateType(template).value !in CompiledTypes ==>
        r == Failure(UnsupportedTemplate(template))
      ensures templateFile.Some? && outputFormat !in ScriptFormats && TemplateType(template).Some? &&
              TemplateType(template).value in CompiledTypes ==>
        var ty := TemplateType(template).value;
        var sourceFile := PathJoin(targetLocation, "source." + ty);
        r == Success(Compiled(CompileJob(FileWrite(sourceFile, CleanText(source, outputFormat, dev)),
                                         CompileCommand(ty, sourceFile, targetLocation, platform, outputFormat))))
    {
      if templateFile.None? {
        return Failure(TemplateNotFound(template));
      }
      templateContent := templateFile.value;
      var _ := SubstituteValues();
      AddEncryption(partials);
      if outputFormat in ScriptFormats {
        var w := GenerateScript();
        r := Success(Script(w));
      } else {
        var job := CompileSource();
        match job {
          case Success(j) => r := Success(Compiled(j));
          case Failure(e) => r := Failure(e);
        }
      }
    }
  }
}
