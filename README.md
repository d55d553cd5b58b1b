# Payload generator and byte-format tools, modelled in Dafny

This project models the core of a payload-building toolkit, in three parts.

**The template generator** (`Generator` in `generator/generator.py`) runs a template through four stages. Each stage rewrites one field, `source`:

- `substitute_values` fills in the `[[KEY]]` markers from a table of values. A value that `float()` accepts replaces the quoted marker `"[[KEY]]"`, quotes included.
- `add_encryption` works in one of two ways. It splices the text of `partial/<encryptor>.<extension>` into every `[[ENCRYPT]]`. For the encryptor `none`, it instead drops every line that mentions `[[KEY]]` or `[[ENCRYPT]]`.
- `clean_output` drops the banner line and blank lines. It also drops the comment lines of the formats that use them.
- `generate_payload` writes the result as a script (`output.<format>`), or writes `source.<type>` and builds the compiler command for it (`compile_source`).

**The encrypt tool** (`payloader_encrypt.py`) has two parts:

- `encrypt` transforms a byte string in one of three ways:
  - exclusive-or with an integer key or a cyclic string key;
  - a Caesar shift modulo 256;
  - a "flip-flop" shift whose key changes sign at every byte.
- `format_output` renders the bytes in one of these formats:
  - a hex string;
  - a Python, C, C#, Java, PowerShell or JavaScript literal;
  - a VBA `Array(...)` wrapped over several lines.

**The decrypt tool** (`payloader_decrypt.py`) provides `decrypt`, which inverts the three ciphers, and its own `format_output`.

Modules:

| file | module | contents |
|---|---|---|
| `wrappers.dfy` | `Wrappers` | `Option`, `Result` |
| `text.dfy` | `Text` | Python `str` behaviour: `in`, `startswith`, `endswith`, `replace`, `split`, `join`, `splitlines`, filtering comprehensions |
| `bytes.dfy` | `Bytes` | bytes, and `^` on Python integers |
| `byte_literals.dfy` | `ByteLiterals` | `hexlify`/`unhexlify`, hex tokens, decimal numerals, the VBA wrapping loop, what each output format promises |
| `ciphers.dfy` | `Ciphers` | the key, the failure modes, the exclusive-or loop both tools share |
| `payloader_encrypt.dfy` | `PayloaderEncrypt` | `encrypt`, `format_output` |
| `payloader_decrypt.dfy` | `PayloaderDecrypt` | `decrypt`, `format_output`, the round trip |
| `generator.dfy` | `PayloadGenerator` | the `Generator` class and the functions that specify its stages |
| `generator_lemmas.dfy` | `GeneratorProperties` | properties of the generator's stages |

Every loop in the source is a `method` with a loop in the model. Each one but the VBA wrapping loop is proved equal to a function that specifies it, and the properties are then proved about those functions. The VBA wrapping loop (`ByteLiterals.VbaArrayLines`) is instead proved to keep the line shape, the width bound and the values in order; it is not tied to a function that fixes where each line breaks. Exceptions become `Failure` results:

- `FileNotFoundError` from `read_template` becomes `TemplateNotFound`.
- The `IndexError` from `template.split('.')[1]` becomes `MissingExtension`.
- The `ValueError` for an unsupported template becomes `UnsupportedTemplate`.
- `bytes()` meeting a value out of range becomes `ByteOutOfRange`.
- `count % len(key)` with an empty key becomes `EmptyStringKey`.
- The encrypt tool's `exit(1)` for a string shift key becomes `NumericKeyRequired`.
- The decrypt tool's `b - key` with a string becomes `OperandTypeError`.

Behaviour of the code that the model follows:

- A missing routine file is not an error. `[[ENCRYPT]]` is replaced by the empty string, and the `FileNotFoundError` branch inside the existence check can never run.
- The architecture option table is built but never used in the compiler command.
- A failed compilation is only reported, so it is not an error here.
- A value that `float()` accepts never replaces a bare `[[KEY]]`. A template that holds only the bare marker keeps it.
- Cleaning is not idempotent. Cleaning cleaned text drops its first line again.
- Compilation reads the template type from the second `.`-separated piece of the template name. The routine lookup uses the last piece.
- The encrypt tool accepts `flip_flop` on its command line, but `encrypt` only knows `flop_flop` and `ff`. So `flip_flop` leaves the data unchanged, as does any other unknown name.
- In the decrypt tool, a string key with a shift is not rejected up front. The first subtraction fails, so only empty data gets through.

## Model

| member | source | states |
|---|---|---|
| PayloadGenerator.Generator.constructor | generator/generator.py:7-26 | Every field holds its argument, developer mode is off, and `source` and the template text start empty. |
| PayloadGenerator.Generator.SubstituteValues | generator/generator.py:39-54 | `source` becomes the template run through every table entry in order, as specified by `Substituted`; the method returns the new `source`. |
| GeneratorProperties.SkippedEntryIrrelevant | generator/generator.py:44-46 | An entry with no value, or whose marker is absent from the template as read, can be removed from anywhere in the table without changing the result. The check is against the original template, not the partly substituted text. |
| GeneratorProperties.FloatValueReplacesQuoted | generator/generator.py:47-49 | A value `float()` accepts replaces the first quoted marker `"[[key]]"`, quotes included, where it stands, and replacement continues after it. |
| GeneratorProperties.FloatValueKeepsBareMarker | generator/generator.py:47-49 | A value `float()` accepts leaves a template without the quoted marker unchanged, so any bare `[[key]]` survives. |
| GeneratorProperties.ValueReplacesMarker | generator/generator.py:50-51 | Any other value replaces the first bare marker where it stands, and replacement continues after it. |
| GeneratorProperties.ValueReplacesEveryMarker | generator/generator.py:50-51 | Any other value replaces every marker: the result is the text between the markers joined by the value. |
| PayloadGenerator.Generator.AddEncryption | generator/generator.py:184-199 | `source` becomes the old source with the routine spliced in, or for `none` with the marker lines dropped, as specified by `WithEncryption`. |
| GeneratorProperties.NoneDropsMarkerLines | generator/generator.py:197-199 | For `none`, the result contains neither `[[KEY]]` nor `[[ENCRYPT]]`. Its lines are exactly the source lines that mention neither marker, in the original order. |
| GeneratorProperties.PartialSpliced | generator/generator.py:186-196 | For any other encryptor, the routine's text stands where the first `[[ENCRYPT]]` stood, and every later marker is replaced in turn. |
| GeneratorProperties.MissingPartialErases | generator/generator.py:189-196 | A routine file that does not exist raises nothing: every `[[ENCRYPT]]` is replaced by the empty string. |
| GeneratorProperties.PartialUsesLastExtension | generator/generator.py:187-188 | The routine is looked up as `partial/<encryptor>.<ext>`, where `ext` follows the last `.` of the template name. |
| PayloadGenerator.Generator.CleanOutput | generator/generator.py:129-145 | The loop returns the kept lines joined by newlines, as specified by `CleanText`. |
| GeneratorProperties.CleanKeepsOrder | generator/generator.py:135-145 | The cleaned lines are an in-order subsequence of the source lines from the second on, and none is empty or blank. |
| GeneratorProperties.CleanDropsFirstLine | generator/generator.py:136 | The first line is dropped whatever it holds: the result depends only on the text after the first newline. |
| GeneratorProperties.CleanStripsComments | generator/generator.py:137-140 | Outside developer mode, no kept line starts with `#` for ps1/py/sh/bat, and none starts with `//` for exe/elf/dll/elf-so. |
| GeneratorProperties.CommentLinesKept | generator/generator.py:137-143 | For the other formats (js, vba, hta, cs, ...), and in developer mode, every non-blank line after the first is kept, comments included. |
| GeneratorProperties.IndentedLineKept | generator/generator.py:137-143 | A non-blank line that starts with whitespace is kept in every format, even when a comment marker follows the indentation. |
| GeneratorProperties.CleanTextLines | generator/generator.py:145 | When any line is kept, the cleaned text splits on newlines back into exactly the kept lines. |
| GeneratorProperties.CleanNotIdempotent | generator/generator.py:135-145 | Cleaning the cleaned text drops its first kept line too, so the text gets strictly shorter. |
| PayloadGenerator.Generator.GenerateScript | generator/generator.py:121-127 | The script is written to `output.<format>` in the target directory and holds the cleaned text. |
| PayloadGenerator.Generator.CompileSource | generator/generator.py:56-119 | The call fails when the template name has no `.` or its type is not c/cpp/cs/java/go; nothing is written or run then. Otherwise it gives `source.<type>`, holding the cleaned text, and the command specified by `CompileCommand`. |
| GeneratorProperties.TemplateTypeIsSecondPiece | generator/generator.py:60 | The template type is the piece between the first and second `.`. A name without `.` has none. |
| GeneratorProperties.CommandShape | generator/generator.py:93-114 | The command starts with the compiler and the source file. For cs it ends with a single `-out:<file>`; for the other types it ends with the option followed by the file, and java's option is the empty string. |
| GeneratorProperties.LibraryFlagExactly | generator/generator.py:96-102 | `-target:library` is in the command exactly when the platform is `win` and the format is not `exe`. |
| GeneratorProperties.NoArchitectureOption | generator/generator.py:72-78 | The architecture option for the template type is never in the command. |
| GeneratorProperties.OutputFileShape | generator/generator.py:96-108 | The output file is `output` in the target directory with the extension the platform and format call for: `.exe`/`.dll` on win; `.so`, `.elf` or none elsewhere. |
| PayloadGenerator.Generator.GeneratePayload | generator/generator.py:147-164 | A missing template fails and changes nothing. Otherwise the template text is stored and `source` becomes the substituted text with encryption applied. sh/bat/ps1/py/js/vba/hta give a script; any other format gives what compilation gives: `MissingExtension` when the template name has no `.`, `UnsupportedTemplate` when its type is not c/cpp/cs/java/go, and otherwise `source.<type>` holding the cleaned text together with the command specified by `CompileCommand`. |
| Ciphers.AsBytes | payloader_encrypt.py:38 | `bytes()` succeeds exactly when every value is in range(0, 256), and then keeps the values. |
| Ciphers.XorWithString | payloader_encrypt.py:14-19 | An empty key fails on non-empty data; otherwise byte `i` is combined with the code of key character `i % len(key)`. |
| Ciphers.XorWithInt | payloader_encrypt.py:20-22 | Every byte is combined with the integer key. |
| Ciphers.XorLoop | payloader_encrypt.py:13-22 | The exclusive-or branch, followed by `bytes()`, as specified by `XorBytes`. |
| Ciphers.XorBytesOutcome | payloader_encrypt.py:13-22 | With a usable key, exclusive-or succeeds exactly when every key code it meets is in range(0, 256), and then gives `b ^ code` per byte. |
| Ciphers.XorBytesInvolutive | payloader_decrypt.py:9-18 | Exclusive-or with the same key twice gives the data back. |
| Ciphers.ShiftBack | payloader_decrypt.py:19-25 | Shifting `(b + k) & 0xff` back by `k` restores the byte, for any integer `k`. |
| PayloaderEncrypt.Encrypted | payloader_encrypt.py:11-38 | A successful encryption keeps the length of the data. |
| PayloaderEncrypt.FlipFlopLoop | payloader_encrypt.py:23-29 | The key is negated before each byte, so byte `i` is shifted by `-k` when `i` is even and by `k` when it is odd. |
| PayloaderEncrypt.CaesarLoop | payloader_encrypt.py:30-35 | Every byte `b` becomes `(b + k) & 0xff`. |
| PayloaderEncrypt.Encrypt | payloader_encrypt.py:11-38 | The method gives exactly `Encrypted`: exclusive-or, flip-flop or Caesar shift; a string key for a shift is rejected; any other algorithm name, `flip_flop` included, leaves the data as is. |
| PayloaderEncrypt.XorIntKey | payloader_encrypt.py:20-22 | With an integer key and non-empty data, exclusive-or succeeds exactly when 0 <= key < 256, and then maps each byte `b` to `b ^ key`. |
| PayloaderEncrypt.XorStringKey | payloader_encrypt.py:14-19 | With non-empty data, an empty string key fails. Otherwise exclusive-or succeeds exactly when every key character it uses has a code below 256, and byte `i` becomes `b ^ ord(key[i % len(key)])`. |
| PayloaderEncrypt.FlipFlopAlternates | payloader_encrypt.py:23-35 | The flip-flop shift at an even position is the Caesar shift by `-k`, and at an odd position the Caesar shift by `k`. |
| PayloaderEncrypt.FormatOutput | payloader_encrypt.py:41-99 | Every language's text gives the bytes back in order, as specified by `Rendered`. hex unhexlifies to the data. python, js and the fallback notice wrap a hex string that does. c, c#, java and ps1 list one `0x` token per byte, separated by `, ` (`,` for ps1), inside the language's array declaration. vba is a wrapped `Array(...)` of the decimal values. |
| ByteLiterals.Hexlify | payloader_encrypt.py:45 | The hex string is twice as long as the data. |
| ByteLiterals.UnhexlifyHexlify | payloader_encrypt.py:45-48 | `unhexlify(hexlify(data)) == data`. |
| ByteLiterals.HexlifyIsLowerCase | payloader_encrypt.py:45 | Every character of the hex string is a lower-case hex digit. |
| ByteLiterals.ChunkTokensOfHexlify | payloader_encrypt.py:54-55 | The two-character chunks of the hex string, each with a prefix, are one token per byte, in order. |
| ByteLiterals.HexTokensRoundTrip | payloader_encrypt.py:53-71 | The token list splits back on its separator into the tokens, and each token without its prefix unhexlifies to its byte. |
| ByteLiterals.HexFramed | payloader_encrypt.py:50-51 | A hex string between a head and a tail decodes back to the data. |
| ByteLiterals.TokensFramed | payloader_encrypt.py:53-71 | A token list between a head and a tail lists the data: nothing for no bytes, otherwise one decoding token per byte. |
| ByteLiterals.ChunksFramed | payloader_encrypt.py:53-71 | The same holds for the list built from the hex string's chunks. |
| ByteLiterals.DecimalRoundTrip | payloader_encrypt.py:77 | `str(n)` reads back as `n`. |
| ByteLiterals.DecimalsSplitBack | payloader_encrypt.py:75-77 | The comma-joined numerals split back into the numerals, and each reads back as its byte. |
| ByteLiterals.VbaArrayLines | payloader_encrypt.py:79-92 | Line one starts with `buf = Array(` and later lines are indented. Every line but the last ends with ` _` and is at most 81 characters. The last line ends with `)`. With the heads and tails removed, the lines join into the comma-separated decimal values in input order. |
| ByteLiterals.VbaArray | payloader_encrypt.py:73-93 | The newline-joined lines split back into those lines, with the same properties. |
| PayloaderDecrypt.Decrypted | payloader_decrypt.py:7-28 | A successful decryption keeps the length of the data. |
| PayloaderDecrypt.FlipFlopLoop | payloader_decrypt.py:19-22 | The key is negated before each byte, and byte `i` is shifted back by the flip-flop key for `i`. |
| PayloaderDecrypt.CaesarLoop | payloader_decrypt.py:23-25 | Every byte `b` becomes `(b - k) & 0xff`. |
| PayloaderDecrypt.Decrypt | payloader_decrypt.py:7-28 | The method gives exactly `Decrypted`: the same exclusive-or, the shifts subtracted; a string key for a shift fails on non-empty data; any other name leaves the data as is. |
| PayloaderDecrypt.RoundTrip | payloader_decrypt.py:7-28 | Whenever `encrypt(alg, data, key)` succeeds, `decrypt(alg, ·, key)` of its result succeeds and gives `data` back, for every algorithm name and key. |
| PayloaderDecrypt.DecryptIsEncrypt | payloader_decrypt.py:19-25 | With an integer key `k`, decrypting with ff/flop_flop/caesar is encrypting with `-k`. Any other name gives the same result as encrypting with `k`. |
| PayloaderDecrypt.FormatOutput | payloader_decrypt.py:31-84 | The encrypt tool's promises, except two: java tokens read `(byte)0x..`, and `ps1`/`powershell` get the fallback notice followed by the hex string. |

## Left out

- File system access is left out. The template's contents, or its absence, are an argument of `GeneratePayload`, and the routine files are a map from path to contents. The files written are returned as `FileWrite` values. `os.makedirs` is not modelled.
- `list_templates` is not modelled; it only scans a directory and prints.
- Running the compiler (`subprocess.run`) is left out. The model gives the command it would run. A failure is only printed, so it changes no result. A command whose program cannot be started (for example `go build` as a single argument) is not modelled.
- `generate_payload` prints its errors. The model returns them as `Failure` values instead, and the state changes made before the error remain.
- Python's `float()` grammar is left out. Whether a value parses is the `parsesAsFloat` function, given to the constructor.
- `splitlines()` is modelled as splitting on `\n` only. Python also splits on `\r`, `\v`, `\f` and a few other separators.
- The command-line `main` functions, `parse_int_or_str`, colour codes, reading stdin and the exit status are left out. The encrypt tool's `exit(1)` is the `NumericKeyRequired` failure.
- The decrypt tool's command line passes its key as a string. No round trip is claimed for the two command lines together.
- `source` starts as `None` in the code and as the empty string here. Every path through `generate_payload` sets it before use.
- The `verbose`, `key` and `payload` fields are stored but not used by the modelled operations.
- The default key `42` of `encrypt` and `decrypt` is left out: `Encrypt` and `Decrypt` always take a key, as both command lines always pass one.
- ByteLiterals.VbaArrayLines: states the line shape, the 81-character bound and the values in order. It does not pin down where each break falls.
- PayloaderEncrypt.FormatOutput: states that each format decodes back to the data within its exact head and tail. It does not pin down the digit case inside tokens; that the hex string is lower-case is `ByteLiterals.HexlifyIsLowerCase`.
- PayloaderDecrypt.FormatOutput: same as the encrypt tool's `FormatOutput`.
