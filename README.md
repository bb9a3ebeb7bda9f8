# Plan 9 name space files: compiler and loader, in Dafny

This project models the core of a Go package that reads Plan 9 name space
files (the format of namespace(6) in the Plan 9 Programmer's Manual) and
applies them to a name space. A file is a list of lines. Each line that is not
blank, a comment or led by a space names an action (`bind`, `mount`,
`unmount`, `clear`, `cd`, `.`, `import`). An optional flag token (`-a`, `-b`,
`-c`, `-C` in any combination) follows the action, and the remaining fields are
the operands. The parser turns the text into a list of commands. The two entry
points, NewNS and AddNS, parse a file and hand it to a builder that applies it
to a name space. NewNS first clears the name space; AddNS does not.

Modules, one per part of the source:

- `Ops` (ops.dfy): the placement bits, the action codes and the `Cmd` record of
  namespace.go.
- `Strings` (strings.dfy): Go's `strings.Fields`, which parser.go uses to
  split a line. It is a reference definition, and lemmas state what it keeps,
  what it drops and that joining fields and splitting again is the identity.
- `Parser` (parser.go): `ParseLine` and `Parse` as imperative methods (the
  flag loop, the line loop with early return). Both are proved equal to the
  functions `LineCmd` and `ParseLines`, and lemmas state what those functions
  mean.
- `Render`: a canonical way to write commands back as lines. It is proved to
  be a right inverse of the parser, so parsing, printing and parsing again
  changes nothing.
- `Namespace` (namespace.go): the `Namespace` interface as a recording class,
  and `NewNS` / `AddNS` with their clear, parse, build sequence.
- `Plan9` (namespace_plan9.go): `cstring`, and the argument vector that
  `Import` builds.

Inputs that the Go code reads from the outside are parameters here. The file's
lines and the scanner's error flag are an `NsFile`. Whether `NewBuilder` fails
is a boolean. Which name space calls fail is fixed by the set `failing` of the
recording name space. The name space itself is passed explicitly instead of
the global `DefaultNamespace`.

Where the model departs from plain Go behaviour:

- A scanner error is only reported. The commands read so far are returned with
  no error. `Parser.Parse` has a `scanFailed` parameter that its result does not
  depend on.
- An unknown keyword panics in Go. An operator line without any field also
  panics in Go, because `poparg` indexes an empty slice. Such a line is one made
  only of white space that does not start with a space, such as a single tab.
  Both panics are modelled as `ParseError` values (`UnknownKeyword`,
  `NoFields`) that abort the parse with no commands.
- The flag loop reads the whole flag token, including its leading `-`. The `-`
  falls into the ignored default case, so `FlagOf` is applied to the whole
  token.

## Model

| member | source | states |
|---|---|---|
| Ops.PlacementBits | namespace.go:16-35 | REPL is 0; BEFORE, AFTER, CREATE, CACHE are pairwise disjoint single bits that together make 0x17 |
| Ops.PlacementDecomposes | namespace.go:16-35 | a placement within 0x17 is the OR of the single bits it contains, and each bit reads back, so OR-ing them loses nothing |
| Ops.ActionCodesDistinct | namespace.go:42-55 | the seven action codes BIND=2, CHDIR=3, UNMOUNT=35, MOUNT=46, RFORK=19, IMPORT=7, INCLUDE=14 are pairwise distinct |
| Strings.Fields | parser.go:81-82 | no field is the empty string, so reading the first byte of the token after the keyword is safe |
| Strings.FieldsAreFields | parser.go:49 | every field a line splits into is non-empty and contains no white space |
| Strings.FieldsEmpty | parser.go:49-54 | a line has no fields exactly when it is white space only |
| Strings.FieldsKeepContent | parser.go:49 | the fields, concatenated, are exactly the line's non-space characters in order: splitting drops white space and nothing else |
| Strings.FieldsOfWord | parser.go:49 | a field on its own splits into exactly itself |
| Strings.FieldsOfField | parser.go:49 | a field followed by white space, or by nothing, is the first field of the line |
| Strings.FieldsJoin | parser.go:49 | splitting fields joined by single spaces gives back the same fields |
| Parser.KeywordTable | parser.go:62-79 | every keyword the table accepts maps to an action code, and that code's name is the keyword again, so the table is injective |
| Parser.KeywordNameRoundTrip | parser.go:62-79 | each of the seven action codes is reached from its keyword |
| Parser.KeywordInjective | parser.go:62-79 | two keywords that map to the same code are the same keyword |
| Parser.FlagOfLetters | parser.go:85-100 | a token's placement has AFTER, BEFORE, CREATE, CACHE exactly when it contains `a`, `b`, `c`, `C`; other characters contribute nothing |
| Parser.FlagOfLettersOnly | parser.go:85-100 | two tokens with the same flag letters give the same placement, whatever their order, repetition or other characters |
| Parser.FlagOfIsPlacement | parser.go:88-97 | a token's placement never has a bit outside 0x17 |
| Parser.FlagOfNoLetters | parser.go:57-60 | a token without flag letters, such as a bare `-`, leaves the placement at REPL |
| Parser.ExampleFlagTokens | parser.go:85-100 | `-ab`, `-ba` and `-aab` all give BEFORE and AFTER; `-az` gives AFTER; `-` gives REPL |
| Parser.LineCmdErrors | parser.go:49-79 | a line fails exactly when it has no field (it is white space only) or when its first field is not a keyword, and then with the error naming that field |
| Parser.TabLineHasNoFields | parser.go:26-54 | a line holding only a tab is not ignored by the first-byte filter, and compiling it fails with `NoFields`, the case where `poparg` pops from an empty slice |
| Parser.LineCmdOk | parser.go:46-106 | a compiled line has the action its first field names and a placement within 0x17; if the second field starts with `-` the placement is `FlagOf` of that token and the operands are the fields after it, otherwise they are all fields after the keyword and the placement is REPL; no operand is empty |
| Parser.ParseFlag | parser.go:82-101 | the byte loop over the flag token, which ORs in one bit per flag letter and ignores every other byte, computes exactly `FlagOf` of the token |
| Parser.ParseLine | parser.go:46-106 | the imperative line compiler (pop the keyword, switch on it, pop an optional `-` token and OR in a bit per character, keep the rest) computes exactly `LineCmd` |
| Parser.ParseLinesOk | parser.go:24-39 | the file compiles exactly when every line that is not ignored compiles |
| Parser.ParseLinesCommands | parser.go:24-39 | each line that is not ignored yields exactly one command, in source order, and ignored lines yield none |
| Parser.ParseLinesFirstError | parser.go:34-37 | when kept line k fails to compile and every kept line before it compiles, the parse fails with exactly the error of line k |
| Parser.ParseLinesAppend | parser.go:24-39 | compiling `a + b` gives the commands of `a` followed by those of `b`, and an error in `a` hides `b` |
| Parser.ParseLinesSnoc | parser.go:34-38 | one more line that is kept and compiles appends exactly its command to the commands read so far |
| Parser.ParseLinesPrefixError | parser.go:34-37 | once a prefix of the lines fails, the whole parse fails with the same error |
| Parser.OnlyIgnoredLines | parser.go:25-33 | a file of empty, `#` and space-led lines compiles to no command |
| Parser.Parse | parser.go:19-44 | the imperative line loop, with its two `continue` filters and its early return on error, computes exactly `ParseLines`; the scanner-error flag does not change the result |
| Render.FlagTokenRoundTrip | parser.go:85-100 | the canonical token `-` plus the letters of a placement within 0x17 reads back as that placement |
| Render.CmdLineRoundTrip | parser.go:46-106 | the canonical line of a well-formed command is not ignored and compiles back to that command |
| Render.ParsedIsWellFormed | parser.go:46-106 | every command the line compiler produces is well formed (known action, placement within 0x17, operands that are fields) |
| Render.FileRoundTrip | parser.go:19-44 | writing well-formed commands one per line and parsing the result gives back the same commands |
| Render.ReparseIsIdentity | parser.go:19-44 | parsing a file, writing its commands out canonically and parsing again yields the same commands |
| Namespace.RecordingNamespace.Bind | namespace.go:71-72 | logs one bind call with its arguments and answers it; nothing else changes |
| Namespace.RecordingNamespace.Mount | namespace.go:73-74 | logs one mount call with its arguments and answers it |
| Namespace.RecordingNamespace.Unmount | namespace.go:75-76 | logs one unmount call with its arguments and answers it |
| Namespace.RecordingNamespace.Clear | namespace.go:77-78 | logs one clear call and answers it |
| Namespace.RecordingNamespace.Chdir | namespace.go:79-80 | logs one chdir call with its argument and answers it |
| Namespace.RecordingNamespace.Import | namespace.go:81-82 | logs one import call with its arguments and answers it |
| Namespace.NewBuilder | namespace.go:103-106 | returns a fresh, empty builder, and the creation error exactly when creation is set to fail |
| Namespace.Builder.Parse | namespace.go:107-109 | on a file that compiles, keeps its commands and returns no error; otherwise returns the parse error and keeps nothing |
| Namespace.Builder.BuildNs | namespace.go:110 | applies the kept file to the name space as one logged step and returns the name space's answer unchanged |
| Namespace.NewNS | namespace.go:99-111 | clears first and ignores the answer; a builder or parse error is returned with only the clear logged; otherwise the parsed file is built after the clear and the build's answer is the result |
| Namespace.AddNS | namespace.go:116-127 | the same sequence as NewNS without the clear: on a builder or parse error the name space is untouched, otherwise exactly one build step is logged and its answer returned |
| Plan9.CString | namespace_plan9.go:76-83 | the result is the prefix of the input before its first 0 byte, or all of it when there is none; it contains no 0 byte and is no longer than the input |
| Plan9.ImportArgv | namespace_plan9.go:34-53 | the argument vector is an option word (only when one of AFTER, BEFORE, CREATE is set), then the host, then the remote path only when it is non-empty, then the mount point; so its length is 2 or 3, plus 1 with an option word |
| Plan9.FlagWordUnique | namespace_plan9.go:41-50 | the option word is determined by the flag: `a`, `b`, `c` for AFTER, BEFORE, CREATE in that fixed order |
| Plan9.FlagWordIgnoresOtherBits | namespace_plan9.go:41-50 | CACHE, and any bit outside AFTER, BEFORE and CREATE, never changes the option word |
| Plan9.FlagWordShape | namespace_plan9.go:41-53 | the option word has no `-`, at most three letters, and is empty exactly when none of AFTER, BEFORE, CREATE is set |
| Plan9.FlagWordAgreesWithParser | namespace_plan9.go:41-50 | read as a name space file's flag token, the option word gives back the placement without CACHE |

## Left out

- The system calls behind the name space: `Bind`, `Chdir`, `Unmount`, the `rfork(RFCNAMEG)` of `Clear`, the open and mount of `Mount`, and the `exec` of `import`. They have no semantics visible in the source. `RecordingNamespace` logs the calls instead and answers them from the fixed `failing` set.
- `errstr`, which reads the error string through an unsafe pointer. Only its `cstring` step is modelled.
- namespace_unix.go, whose methods all panic with "not implemented".
- The builder: `NewBuilder`, `r.Parse(nsfile)` and `buildns` are called from namespace.go but defined elsewhere; their source is not part of this model. Opening the file named `nsfile` is not modelled. `Builder.Parse` compiles the lines of an `NsFile` with `Parser.Parse`, and `NewBuilder`'s failure is an input.
- Namespace.Builder.BuildNs: does not dispatch each command to the matching name space call. It logs the whole file as a single `BuildCall` step, because `buildns` is not part of this model. Fail-fast dispatch, operand positions and recursive includes are therefore not modelled.
- The `bufio.Scanner` mechanics: line splitting, carriage-return stripping and the token size limit. The input is the sequence of lines the scanner delivered, and `scanFailed` says whether it stopped on a read error.
- The diagnostic printed to the standard error stream on a scanner error, and `cmd.String`: both are output formatting only.
- Strings are sequences of Unicode characters, not bytes. The first-byte tests for `#`, space and `-` agree with first-character tests because those are ASCII. The flag loop walks bytes, and no byte of a multi-byte character equals `a`, `b`, `c` or `C`, so the placement is the same. Invalid UTF-8 inside a line is not modelled.
- Ops.MountFlag: placements are 8-bit vectors, not Go's `int`. Only bits within 0x17 are ever set by the parser or tested by `Import`, so no behaviour of the source depends on the higher bits.
- Plan9.ImportArgv: takes the placement as a `MountFlag` rather than Go's `int`; the `mountflag(flag)` conversion at namespace_plan9.go:35 is therefore not modelled, and a caller passing an `int` with bits above 0xFF is outside the model.
- The plan9 `Mount` method takes `(servername, old, flag)`, unlike the interface's `(servername, old, spec, flag)`. The model follows the interface.
- The rendering in `Render` is not part of the source. It exists to state the parse, print, parse round trip.

