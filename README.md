# biogo.external: argument building and kmeans membership, in Dafny

This project models two pieces of the Go package `biogo.external` and
proves what they promise.

**`external.Build`.** It turns a configuration struct into the argument
vector of an external command. Build walks the struct's fields in
declaration order:

- It skips unexported fields and fields without a `buildarg` tag.
- It renders each remaining tag as a `text/template` with the field's
  value as dot.
- It splits the rendered text on the split tag, the NUL character.
- It appends the non-empty pieces to the arguments.
- It stops at the first template error and returns the arguments
  gathered so far.

The templates can call five helpers: `join`, `args` (`splitargs`),
`split`, `quote` and `mprintf`. Caller-supplied function maps are laid
over them, in argument order.

**`kmeans.Membership`.** It reads the cluster listing the kmeans tool
prints:

- A line `+# <name>` is a cluster header.
- A line `+ <index>` is a point of the cluster above it.

Cluster names get ids 0, 1, 2, ... in order of first appearance. The
result has one entry per point line. Entry i is the id of the cluster
point i was last listed under, or -1 when point i was never listed. With
fewer than two clusters the result is nil with no error.

Modules:

- `Wrappers`: `Option` and `Result`.
- `Values`: the reflect-level values a struct field can hold. A field
  of interface type is encoded by its dynamic value, as
  `reflect.Value.Interface` hands it over; `Ptr` stands only for a Go
  pointer, and `Indirect` follows one.
- `Fmt`: the `fmt` verbs the templates use (`%v`, `%s`, `%d`, `%q`) and
  `strconv.Itoa`.
- `Template`: the subset of `text/template` execution the package's tags
  use. That subset is:
  - text, actions, `if`/`else` and `with`;
  - dot, `.Field` and string literals as operands;
  - function calls and pipelines.
- `External`: the helpers, the tokenizer, the helper table, `Build` and
  its properties. Build is written as a loop over a reused `Buffer`, and
  that loop is proved equal to the recursive walk `Walk`. The properties
  are proved of `Walk`.
- `ExternalExamples`: the four documented examples (samtools sort,
  samtools merge, sed and bowtie), proved to give their documented
  output.
- `Parse`: `strings.TrimSpace` and `strconv.Atoi`, as `Membership` uses
  them.
- `Kmeans`: `Membership`, written as its read loop (`ReadAll`, one
  `ParseLine` per line) and its fill loop (`Fill`). The read loop is
  proved equal to the line-by-line function `Run`, and the fill loop to
  the function `Table`.
- `KmeansProps`: what the result means, stated over the input lines alone
  and proved of `Run`.

## Model

| member | source | states |
|---|---|---|
| External.Tokens | external.go:140-146 | a field's arguments are the pieces of its text between split tags; none is empty and none holds the split tag |
| External.SplitJoin | external.go:141 | strings.Split undoes strings.Join when no element holds the separator |
| External.JoinSplit | external.go:141 | strings.Join with the separator undoes strings.Split |
| External.TokensConcat | external.go:141-145 | two texts joined by a split tag tokenize to the tokens of the first, then those of the second |
| External.ArgsTokens | external.go:82-85 | tokenizing args(a) gives back exactly the non-empty elements of a, in order, when no element holds the split tag |
| External.Split | external.go:85 | split() is a one-character string holding the split tag |
| External.SplitAddsNoArgument | external.go:85 | the split tag on its own adds no argument; it only separates |
| External.JoinShape | external.go:79 | join(sep, a) is empty for no elements; otherwise it is as long as the elements plus one separator per neighbouring pair, and it starts with the first element |
| External.JoinConcat | external.go:79 | join of two non-empty lists put together is the join of each with one separator between them, so the separator sits exactly between neighbouring elements |
| External.ArgsLength | external.go:82 | splitargs(a) is as long as the elements plus one character per neighbouring pair |
| External.ArgsConcat | external.go:82 | splitargs of two non-empty lists put together is the splitargs of each with one split tag between them |
| External.CallJoin | external.go:125 | join called from a template: the argument count is checked first; two arguments, a string and a list of strings, give join(sep, a); any other type is an execution error |
| External.CallArgs | external.go:126 | args called from a template: exactly one list of strings gives splitargs of it; anything else is an execution error |
| External.CallSplit | external.go:127 | split called from a template succeeds exactly with no arguments, and returns the split tag |
| External.CallQuote | external.go:128 | quote called from a template: one argument; a map is an execution error with quote's panic message, a slice gives a slice of the same length, anything else one %q string |
| External.CallMprintf | external.go:129 | mprintf called from a template: a format string and a value; it succeeds exactly on a slice or array after one indirection, giving one formatted string per element |
| External.BuiltinHelpers | external.go:124-130 | the built-in table names exactly join, args, split, quote and mprintf, and each, called with its Go parameter types, returns the helper's result |
| External.MprintfOf | external.go:38-55 | after one pointer is followed, a slice or array gives one Sprintf result per element, in order; any other kind gives "not a slice or array type" |
| External.Mprintf | external.go:38-55 | the loop filling a fresh slice returns what MprintfOf describes, and nil with the error otherwise |
| External.QuoteOf | external.go:60-76 | a slice gives a slice of the same length whose i-th entry is element i quoted with %q; a map is refused; any other value is quoted whole |
| External.Quote | external.go:60-76 | the loop filling a fresh slice of quoted elements agrees with QuoteOf |
| External.NewFuncs | external.go:123-133 | the table for each template is the built-ins overlaid by each caller map, in argument order |
| External.OverlayDefines | external.go:124-133 | a helper name is defined exactly when the built-ins or some caller map define it |
| External.OverlayLastWins | external.go:131-133 | a name defined by several caller maps takes the entry of the last of them, replacing any built-in |
| External.OverlayKeepsBase | external.go:124-133 | a built-in survives when no caller map defines its name |
| External.Buffer.constructor | external.go:115 | a new buffer is empty |
| External.Buffer.WriteString | external.go:136 | template output is appended to the buffer |
| External.Buffer.Reset | external.go:147 | the buffer is emptied after each rendered field |
| External.Emit | external.go:136-147 | a rendered text written to the empty buffer adds exactly its tokens to the arguments, and the buffer is empty again for the next field |
| External.AppendTokens | external.go:140-146 | the inner loop appends exactly the field's tokens to the arguments |
| External.BuildOf | external.go:106-112 | a value that is not a struct after one indirection gives no arguments and "external: not a struct" |
| External.Build | external.go:105-152 | the field loop with its reused buffer returns exactly the arguments and error of the walk BuildOf describes |
| External.WalkArgsClean | external.go:141-145 | no argument Build returns is empty or holds the split tag |
| External.WalkIgnoresUnannotated | external.go:118-122 | removing every unexported or untagged field changes neither the arguments nor the error |
| External.NoTemplatesNoArgs | external.go:118-122 | a struct with no rendered field builds no arguments and no error |
| External.WalkStopsAtFirstError | external.go:136-139 | when field k is the first to fail, the result is its error with exactly the arguments of the fields before it |
| External.WalkTokenizesRendered | external.go:116-148 | the walk fails exactly when some rendered field fails, with the first error; otherwise its arguments are each rendered text's tokens in declaration order |
| ExternalExamples.TokensOfPair | external_example_test.go:30 | an option word, the split tag and a value give two arguments |
| ExternalExamples.CmdRenders | external_example_test.go:27 | the command template gives the value when set and "samtools" otherwise |
| ExternalExamples.FlagRenders | external_example_test.go:29 | the flag template gives "-n" when set and nothing otherwise |
| ExternalExamples.OptionRenders | external_example_test.go:30 | an option template with a true value gives the option, a split tag, then the value |
| ExternalExamples.ArgsRenders | external_example_test.go:64 | `{{args .}}` over a list of strings gives the strings joined by split tags |
| ExternalExamples.HeadWalk | external_example_test.go:25-27 | the untagged Name and Comment fields add nothing before the command name |
| ExternalExamples.SamtoolsSort | external_example_test.go:22-52 | a sort record with Cmd and SortNames as in the example, any non-zero memory limit and two file names builds `samtools sort -n -m <mem> <in> <out>` |
| ExternalExamples.SamtoolsSortExample | external_example_test.go:36-51 | the documented sort record builds its documented arguments |
| ExternalExamples.SamtoolsMerge | external_example_test.go:54-84 | a pointer to a merge record with Cmd and SortNames as in the example builds `samtools merge -h <header> <out> <in>...`, one argument per input file |
| ExternalExamples.SamtoolsMergeExample | external_example_test.go:68-83 | the documented merge record builds its documented arguments |
| ExternalExamples.MprintfArgsRenders | external_example_test.go:97-98 | the sed script templates, an `if` around mprintf with a format piped into args, over a list of strings give nothing for an empty list; otherwise mprintf formats each string, and args, which gets that result as its last argument, joins them by split tags |
| ExternalExamples.ScriptTokens | external_example_test.go:97 | the sed script field's text tokenizes to `-e` and the quoted script, for each script in order, when no script holds the split tag |
| ExternalExamples.InPlaceRenders | external_example_test.go:100 | `{{if .Yes}}-i{{with .Suf}}{{.}}{{end}}{{end}}` over the InPlace struct gives `-i` then the suffix when Yes is set (just `-i` for an empty suffix), and nothing otherwise |
| ExternalExamples.JoinRenders | external_example_test.go:136-139 | `{{if .}}<prefix>{{join "," .}}{{end}}` over a list of strings gives nothing for an empty list; otherwise the prefix, then the strings joined by commas through the join helper |
| ExternalExamples.IfDotRenders | external_example_test.go:140 | `{{if .}}{{.}}{{end}}` over a string gives the string, and nothing for the empty string |
| ExternalExamples.SedBuild | external_example_test.go:86-127 | a pointer to a sed record with the example's flags unset, no script files, the in-place option set and a non-zero line length builds `sed`, then `-e` and the quoted script for each script, `-i<suf>`, `-l <len>` and the input files |
| ExternalExamples.SedExample | external_example_test.go:110-126 | the documented sed record builds its documented arguments |
| ExternalExamples.BowtieBuild | external_example_test.go:129-160 | a pointer to a bowtie record with empty paired and mixed read lists builds `bowtie <index> <unpaired reads joined by commas> <out>`; the empty lists add nothing |
| ExternalExamples.BowtieExample | external_example_test.go:144-159 | the documented bowtie record builds its documented arguments |
| ExternalExamples.NotAStructExample | external.go:110-112 | a string is refused with "external: not a struct" |
| Parse.TrimSpace | kmeans/kmeans.go:129 | the trimmed text neither starts nor ends with a space |
| Parse.TrimSpaceAround | kmeans/kmeans.go:129-153 | TrimSpace removes exactly the spaces around a text that does not start or end with one |
| Parse.Atoi | kmeans/kmeans.go:137-140 | an error carries the whole text; a result lies in the int64 range |
| Parse.AtoiAccepts | kmeans/kmeans.go:153-157 | Atoi succeeds exactly on an optional sign and one or more digits whose signed value fits in an int64 |
| Parse.AtoiValue | kmeans/kmeans.go:137-146 | an accepted text's value is the decimal value of its digits, negated for `-`: "+5" is 5, "007" is 7, "-0" is 0, so texts with the same signed value name the same cluster |
| Parse.AtoiItoa | kmeans/kmeans.go:137 | Atoi reads back the decimal text of every int64 |
| Kmeans.Table | kmeans/kmeans.go:166 | the result has one entry per point line |
| Kmeans.ParseLine | kmeans/kmeans.go:129-159 | the loop body for one line: trim, refuse a malformed line, select or hand out a cluster id, or record a point under the current cluster |
| Kmeans.ReadAll | kmeans/kmeans.go:120-160 | the read loop ends with the state, or the error, that running the lines in order gives |
| Kmeans.Fill | kmeans/kmeans.go:166-174 | a fresh array of pnts entries, entry i the recorded cluster id of point i or -1 |
| Kmeans.Membership | kmeans/kmeans.go:111-177 | the read's error; nil without error for fewer than two ids; otherwise the filled array |
| KmeansProps.StartAgrees | kmeans/kmeans.go:112-118 | the initial variables agree with an empty list of names |
| KmeansProps.AgreesDistinct | kmeans/kmeans.go:141-146 | distinct positions in the first-appearance order hold distinct names |
| KmeansProps.SelectAgrees | kmeans/kmeans.go:141-146 | a header re-selects its name's id, or hands the next id to a new name; that id is the name's position in first-appearance order |
| KmeansProps.StepAgrees | kmeans/kmeans.go:129-159 | one line keeps the agreement, counts a point line and records its index |
| KmeansProps.RunAgrees | kmeans/kmeans.go:121-160 | a successful read agrees with the names in order of first appearance, counts every point line and records every listed index |
| KmeansProps.MembershipSummary | kmeans/kmeans.go:162-174 | nil exactly when fewer than two distinct names were read; otherwise one entry per point line, -1 exactly for indices never listed, every entry in [-1, names) |
| KmeansProps.IdsByFirstAppearance | kmeans/kmeans.go:141-146 | ids are 0, 1, 2, ... in order of the first appearance of each name, and a repeated name keeps its id |
| KmeansProps.RunAppend | kmeans/kmeans.go:121-160 | reading a then b is reading a + b: the first failure ends it |
| KmeansProps.TracksHeader | kmeans/kmeans.go:141-147 | a header makes its name's id current and leaves recorded points as they are |
| KmeansProps.TracksPoint | kmeans/kmeans.go:150-159 | a point line records its index under the current cluster |
| KmeansProps.TracksStep | kmeans/kmeans.go:129-159 | each successful line keeps the current id and each point's id matching the lines read |
| KmeansProps.RunSnoc | kmeans/kmeans.go:121-160 | a successful read of ls + [line] is a successful read of ls, then a successful line |
| KmeansProps.RunTracks | kmeans/kmeans.go:121-160 | after a successful read, the current id and each recorded point's id match the lines read |
| KmeansProps.MostRecentCluster | kmeans/kmeans.go:159-174 | entry i is -1 when point i was never listed, otherwise the position, in first-appearance order, of the name it was last listed under |
| KmeansProps.FirstFailureStops | kmeans/kmeans.go:131-157 | the first failing line ends the read with its error, and later lines are never looked at |
| KmeansProps.MalformedLineFails | kmeans/kmeans.go:129-133 | a line shorter than two characters after trimming, or not starting with `+`, fails with ErrBadInput |
| KmeansProps.PointBeforeHeader | kmeans/kmeans.go:150-152 | a point line before any header fails with ErrBadInput, whatever its index text |
| KmeansProps.NonIntegerFails | kmeans/kmeans.go:136-157 | a header name, or a point index under a header, that is not a decimal int fails with its parse error |
| KmeansProps.UnterminatedTailIgnored | kmeans/kmeans.go:121-128 | text after the last newline is never read: appending it changes neither the lines nor the result |

## Left out

- text/template parsing is not modelled. Build takes a table from tag text to its parsed tree. The requirement that every rendered tag is in that table stands for template.Must not panicking.
- text/template execution covers only the forms the package's tags use. Its error messages are shortened. The model evaluates every operand of a call before the helper checks the argument count and then the argument types. text/template checks the count first, then evaluates and type-checks each argument in turn. Only which error is reported differs.
- fmt is modelled for the verbs `%v`, `%s`, `%d` and `%q` on the modelled values. Floating-point values are left out. fmt's diagnostics name composite types by their shape only.
- `%q` escaping follows strconv.Quote for ASCII only. A map prints its entries in the order they are listed, not in fmt's sorted key order.
- External.Quote: the panic on a map is returned as the error "external: map quoting not handled". Under template execution it reaches Build as "error calling quote: ..." in the way text/template turns a panicking function into an execution error.
- External.MprintfOf: follows the code. A map or a scalar is refused with "not a slice or array type".
- External.BuildOf: a tag that calls a function missing from the helper table fails text/template's parser, so template.Must at external.go:135 panics. The model parses no tags: it runs such a tag, and Build returns an execution error naming the undefined function.
- Fmt.Format: every pointer prints as `&` followed by its target. Go's fmt does that only for a top-level pointer to a struct, slice, array or map, and prints an address for any other pointer, including pointers nested inside a value. This reaches `quote` and `mprintf` on pointer values; addresses are not modelled.
- External.AsStrings: a `Value` carries no Go static type. CallJoin and CallArgs take a Slice whose elements are all strings as a Go `[]string`, and `Nil` as an untyped nil. In Go, a `[]interface{}` or `[]MyString` field is refused with "wrong type for value; expected []string", and a typed nil `*[]string` fails with a nil-pointer dereference. The type fmt's diagnostics name for any Slice is `[]interface {}`.
- Template.PrintValue: `Nil` stands for both a nil pointer and a nil interface and prints as `<nil>`. text/template prints `<no value>` for a nil interface.
- Embedded-field promotion in `.Field` lookups is not modelled. An embedded CommandBuilder is an exported, untagged field and is skipped.
- CommandBuilder, BuildCommand, exec.Command, os.Open (the universe-file check), external.Must, MakeUniverse and Xmeans are process and file-system plumbing. They are not part of this model.
- Kmeans.Membership: the reader is an in-memory string. bufio read errors other than io.EOF cannot occur.
- Kmeans.Membership: text is a sequence of code points, and invalid UTF-8 is not modelled. Go measures the trimmed line in bytes, but `+` and `#` are ASCII, so the byte checks and the code-point checks accept the same lines.
- Parse.Atoi: the *strconv.NumError is the text and the cause. Its Func field ("Atoi") is left out.
