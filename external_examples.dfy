/** The four commands of the package's examples (samtools sort,
    samtools merge, sed and bowtie), built from their annotated records. Each field's template is rendered on its own, and
    the walk over the record then puts the tokens together. */
module ExternalExamples {
  import opened Wrappers
  import opened Values
  import opened Template
  import opened External
  import Fmt

  const CmdTag: string := "{{if .}}{{.}}{{else}}samtools{{end}}"
  const HeaderTag: string := "{{if .}}-h{{split}}{{.}}{{end}}"
  const FlagN: string := "{{if .}}-n{{end}}"
  const MaxMemTag: string := "{{if .}}-m{{split}}{{.}}{{end}}"
  const DotTag: string := "{{.}}"
  const ArgsTag: string := "{{args .}}"

  /** `{{if .}}{{.}}{{else}}<default>{{end}}`: a command name with a
      default. */
  function CmdTreeFor(default: string): seq<Node>
  {
    [If([Arg(Dot)], [Action([Arg(Dot)])], [Text(default)])]
  }

  /** `{{if .}}<word>{{end}}`: a flag. */
  function FlagTreeOf(word: string): seq<Node>
  {
    [If([Arg(Dot)], [Text(word)], [])]
  }

  const CmdTree: seq<Node> := CmdTreeFor("samtools")
  const SplitBody: seq<Node> := [Action([Call("split", [])]), Action([Arg(Dot)])]
  const HeaderTree: seq<Node> := [If([Arg(Dot)], [Text("-h")] + SplitBody, [])]
  const FlagTree: seq<Node> := FlagTreeOf("-n")
  const MaxMemTree: seq<Node> := [If([Arg(Dot)], [Text("-m")] + SplitBody, [])]
  const DotTree: seq<Node> := [Action([Arg(Dot)])]
  const ArgsTree: seq<Node> := [Action([Call("args", [Dot])])]

  /** A parse table that holds the trees of the tags the examples use
      (text/template's parser is not part of this model). */
  predicate KnowsTags(parsed: map<string, seq<Node>>)
  {
    && CmdTag in parsed && parsed[CmdTag] == CmdTree
    && "sort" in parsed && parsed["sort"] == [Text("sort")]
    && "merge" in parsed && parsed["merge"] == [Text("merge")]
    && HeaderTag in parsed && parsed[HeaderTag] == HeaderTree
    && FlagN in parsed && parsed[FlagN] == FlagTree
    && MaxMemTag in parsed && parsed[MaxMemTag] == MaxMemTree
    && DotTag in parsed && parsed[DotTag] == DotTree
    && ArgsTag in parsed && parsed[ArgsTag] == ArgsTree
  }

  /** A word free of the split tag is one argument. */
  lemma TokensOfWord(w: string)
    requires w != "" && Nul !in w
    ensures Tokens(w) == [w]
  {
    SplitOnWithout(w, Nul);
    assert NonEmpty([w]) == NonEmpty([]) + [w];
  }

  /** Two words around one split tag are two arguments. */
  lemma TokensOfPair(a: string, b: string)
    requires a != "" && Nul !in a && b != "" && Nul !in b
    ensures Tokens(a + [Nul] + b) == [a, b]
  {
    TokensConcat(a, b);
    TokensOfWord(a);
    TokensOfWord(b);
  }

  lemma {:induction false} NonEmptyKeepsAll(a: seq<string>)
    requires forall k :: 0 <= k < |a| ==> a[k] != ""
    ensures NonEmpty(a) == a
  {
    if a != [] {
      NonEmptyKeepsAll(a[..|a| - 1]);
      assert a == a[..|a| - 1] + [a[|a| - 1]];
    }
  }

  /** A walk over a field without a template skips it. */
  lemma WalkSkip(f: Field, rest: seq<Field>, parsed: map<string, seq<Node>>)
    requires !Annotated(f) && TagsParse(rest, parsed)
    ensures TagsParse([f] + rest, parsed)
    ensures Walk([f] + rest, Builtins, parsed) == Walk(rest, Builtins, parsed)
  {
    assert ([f] + rest)[1..] == rest;
  }

  /** A walk over a field whose template renders to `text` starts with the
      tokens of `text`. */
  lemma WalkRender(f: Field, rest: seq<Field>, text: string, parsed: map<string, seq<Node>>)
    requires Annotated(f) && f.tag in parsed && TagsParse(rest, parsed)
    requires ExecNodes(parsed[f.tag], 0, f.value, Builtins) == Success(text)
    ensures TagsParse([f] + rest, parsed)
    ensures Walk([f] + rest, Builtins, parsed) == Prepend(Tokens(text), Walk(rest, Builtins, parsed))
  {
    assert ([f] + rest)[1..] == rest;
  }

  /** A field that renders one word puts that word in front of the rest. */
  lemma StepWord(f: Field, rest: seq<Field>, w: string, after: seq<string>, parsed: map<string, seq<Node>>)
    requires Annotated(f) && f.tag in parsed && TagsParse(rest, parsed)
    requires ExecNodes(parsed[f.tag], 0, f.value, Builtins) == Success(w) && w != "" && Nul !in w
    requires Walk(rest, Builtins, parsed) == BuildResult(after, None)
    ensures TagsParse([f] + rest, parsed)
    ensures Walk([f] + rest, Builtins, parsed) == BuildResult([w] + after, None)
  {
    TokensOfWord(w);
    WalkRender(f, rest, w, parsed);
  }

  /** A field that renders two words around the split tag puts both in
      front of the rest. */
  lemma StepPair(f: Field, rest: seq<Field>, a: string, b: string, after: seq<string>, parsed: map<string, seq<Node>>)
    requires Annotated(f) && f.tag in parsed && TagsParse(rest, parsed)
    requires ExecNodes(parsed[f.tag], 0, f.value, Builtins) == Success(a + [Nul] + b)
    requires a != "" && Nul !in a && b != "" && Nul !in b
    requires Walk(rest, Builtins, parsed) == BuildResult(after, None)
    ensures TagsParse([f] + rest, parsed)
    ensures Walk([f] + rest, Builtins, parsed) == BuildResult([a, b] + after, None)
  {
    TokensOfPair(a, b);
    WalkRender(f, rest, a + [Nul] + b, parsed);
  }

  /** A field that renders nothing adds nothing. */
  lemma StepEmpty(f: Field, rest: seq<Field>, after: seq<string>, parsed: map<string, seq<Node>>)
    requires Annotated(f) && f.tag in parsed && TagsParse(rest, parsed)
    requires ExecNodes(parsed[f.tag], 0, f.value, Builtins) == Success("")
    requires Walk(rest, Builtins, parsed) == BuildResult(after, None)
    ensures TagsParse([f] + rest, parsed)
    ensures Walk([f] + rest, Builtins, parsed) == BuildResult(after, None)
  {
    TokensOfEmpty();
    WalkRender(f, rest, "", parsed);
    assert [] + after == after;
  }

  /** A field that renders a list joined by the split tag puts the list's
      words in front of the rest. */
  lemma StepList(f: Field, rest: seq<Field>, ws: seq<string>, after: seq<string>, parsed: map<string, seq<Node>>)
    requires Annotated(f) && f.tag in parsed && TagsParse(rest, parsed)
    requires ExecNodes(parsed[f.tag], 0, f.value, Builtins) == Success(SplitArgs(ws))
    requires forall k :: 0 <= k < |ws| ==> ws[k] != "" && Nul !in ws[k]
    requires Walk(rest, Builtins, parsed) == BuildResult(after, None)
    ensures TagsParse([f] + rest, parsed)
    ensures Walk([f] + rest, Builtins, parsed) == BuildResult(ws + after, None)
  {
    ArgsTokens(ws);
    NonEmptyKeepsAll(ws);
    WalkRender(f, rest, SplitArgs(ws), parsed);
  }

  /** `{{if .}}{{.}}{{else}}<default>{{end}}`: the value when set, the
      default otherwise. */
  lemma CmdRenders(default: string, cmd: string)
    ensures ExecNodes(CmdTreeFor(default), 0, Str(cmd), Builtins) == Success(if cmd == "" then default else cmd)
  {
    var tree := CmdTreeFor(default);
    assert EvalPipeline([Arg(Dot)], 0, Str(cmd), Builtins, None) == Success(Str(cmd));
    assert ExecNodes(tree, 1, Str(cmd), Builtins) == Success("");
    if cmd == "" {
      Word(default, Str(cmd));
      assert ExecNode(tree[0], Str(cmd), Builtins) == Success(default);
      assert default + "" == default;
    } else {
      Dotted(cmd);
      assert ExecNode(tree[0], Str(cmd), Builtins) == Success(cmd);
      assert cmd + "" == cmd;
    }
  }

  lemma Word(w: string, dot: Value)
    ensures ExecNodes([Text(w)], 0, dot, Builtins) == Success(w)
  {
    assert w + "" == w;
  }

  /** `{{if .}}<word>{{end}}`: the word when set, nothing otherwise. */
  lemma FlagRenders(word: string, b: bool)
    ensures ExecNodes(FlagTreeOf(word), 0, Bool(b), Builtins) == Success(if b then word else "")
  {
    var tree := FlagTreeOf(word);
    assert EvalPipeline([Arg(Dot)], 0, Bool(b), Builtins, None) == Success(Bool(b));
    assert ExecNodes(tree, 1, Bool(b), Builtins) == Success("");
    if b {
      Word(word, Bool(b));
      assert ExecNode(tree[0], Bool(b), Builtins) == Success(word);
      assert word + "" == word;
    } else {
      assert ExecNodes([], 0, Bool(b), Builtins) == Success("");
      assert ExecNode(tree[0], Bool(b), Builtins) == Success("");
      assert "" + "" == "";
    }
  }

  lemma Dotted(s: string)
    ensures ExecNodes(DotTree, 0, Str(s), Builtins) == Success(s)
  {
    assert EvalPipeline([Arg(Dot)], 0, Str(s), Builtins, None) == Success(Str(s));
    assert PrintValue(Str(s)) == s;
    assert s + "" == s;
  }

  /** The split action followed by the value: a NUL, then the value. */
  lemma SplitThenValue(dot: Value, shown: string)
    requires PrintValue(dot) == shown
    ensures ExecNodes(SplitBody, 0, dot, Builtins) == Success([Nul] + shown)
  {
    assert EvalPipeline([Arg(Dot)], 0, dot, Builtins, None) == Success(dot);
    assert ExecNodes(SplitBody, 2, dot, Builtins) == Success("");
    assert shown + "" == shown;
    assert ExecNodes(SplitBody, 1, dot, Builtins) == Success(shown);
    assert "split" in Builtins && Builtins["split"] == CallSplit;
    assert EvalPipeline([Call("split", [])], 0, dot, Builtins, None) == Success(Str([Nul]));
    assert PrintValue(Str([Nul])) == [Nul];
  }

  /** `{{if .}}<prefix>{{split}}{{.}}{{end}}` with a true value: the prefix,
      a NUL, then the value. */
  lemma OptionRenders(prefix: string, dot: Value, shown: string)
    requires IsTrue(dot) && PrintValue(dot) == shown
    ensures ExecNodes([If([Arg(Dot)], [Text(prefix)] + SplitBody, [])], 0, dot, Builtins)
      == Success(prefix + [Nul] + shown)
  {
    var body := [Text(prefix)] + SplitBody;
    SplitThenValue(dot, shown);
    assert body[1..] == SplitBody;
    ExecNodesShift(body, dot);
    assert ExecNodes(body, 1, dot, Builtins) == Success([Nul] + shown);
    assert ExecNodes(body, 0, dot, Builtins) == Success(prefix + ([Nul] + shown));
    assert prefix + ([Nul] + shown) == prefix + [Nul] + shown;
    assert EvalPipeline([Arg(Dot)], 0, dot, Builtins, None) == Success(dot);
    var r := prefix + [Nul] + shown;
    assert r + "" == r;
  }

  /** Executing from index 1 is executing the tail from index 0. */
  lemma ExecNodesShift(ns: seq<Node>, dot: Value)
    requires ns != []
    ensures ExecNodes(ns, 1, dot, Builtins) == ExecNodes(ns[1..], 0, dot, Builtins)
  {
    ExecNodesShiftFrom(ns, 1, dot);
  }

  lemma {:induction false} ExecNodesShiftFrom(ns: seq<Node>, i: nat, dot: Value)
    requires 1 <= i <= |ns|
    ensures ExecNodes(ns, i, dot, Builtins) == ExecNodes(ns[1..], i - 1, dot, Builtins)
    decreases |ns| - i
  {
    if i < |ns| {
      assert ns[1..][i - 1] == ns[i];
      ExecNodesShiftFrom(ns, i + 1, dot);
    }
  }

  /** `{{args .}}` over a list of strings: the strings joined by NULs. */
  lemma ArgsRenders(files: seq<string>)
    ensures ExecNodes(ArgsTree, 0, Slice(Strs(files)), Builtins) == Success(SplitArgs(files))
  {
    var v := Slice(Strs(files));
    var r := SplitArgs(files);
    StringElemsOfStrs(files);
    assert AsStrings(v) == Some(files);
    assert "args" in Builtins && Builtins["args"] == CallArgs;
    assert EvalOperands([Dot], 1, v) == Success([]);
    assert [v] + [] == [v];
    assert EvalOperands([Dot], 0, v) == Success([v]);
    assert EvalPipeline([Call("args", [Dot])], 0, v, Builtins, None) == Success(Str(r));
    assert PrintValue(Str(r)) == r;
    assert r + "" == r;
  }

  /** The embedded CommandBuilder field: exported, no template. */
  const Builder: Field := Field("CommandBuilder", true, "", Nil)

  /** The fields every example record starts with: an untagged name and
      comment, then the command under its tag. */
  function Head(name: string, cmdTag: string, cmd: string, rest: seq<Field>): seq<Field>
  {
    [Field("Name", true, "", Str(name))]
    + ([Field("Comment", true, "", Str(""))]
    + ([Field("Cmd", true, cmdTag, Str(cmd))] + rest))
  }

  /** The head of a record adds only the command name. */
  lemma HeadWalk(name: string, cmdTag: string, cmd: string, word: string, rest: seq<Field>, after: seq<string>,
                 parsed: map<string, seq<Node>>)
    requires cmdTag != "" && cmdTag in parsed && ExecNodes(parsed[cmdTag], 0, Str(cmd), Builtins) == Success(word)
    requires word != "" && Nul !in word
    requires TagsParse(rest, parsed) && Walk(rest, Builtins, parsed) == BuildResult(after, None)
    ensures TagsParse(Head(name, cmdTag, cmd, rest), parsed)
    ensures Walk(Head(name, cmdTag, cmd, rest), Builtins, parsed) == BuildResult([word] + after, None)
  {
    var f0, f1, f2 := Field("Name", true, "", Str(name)), Field("Comment", true, "", Str("")),
      Field("Cmd", true, cmdTag, Str(cmd));
    StepWord(f2, rest, word, after, parsed);
    WalkSkip(f1, [f2] + rest, parsed);
    WalkSkip(f0, [f1] + ([f2] + rest), parsed);
  }

  function SortRecord(maxMem: int, inFile: string, outFile: string): seq<Field>
  {
    Head("Sort", CmdTag, "", SortOptions(maxMem, inFile, outFile))
  }

  function SortOptions(maxMem: int, inFile: string, outFile: string): seq<Field>
  {
    [Field("SubCmd", true, "sort", Struct([]))]
    + ([Field("SortNames", true, FlagN, Bool(true))]
    + ([MaxMemField(maxMem)]
    + [InFileField(inFile), OutFileField(outFile), Builder]))
  }

  function MaxMemField(maxMem: int): Field
  {
    Field("MaxMem", true, MaxMemTag, Int(maxMem))
  }

  function InFileField(inFile: string): Field
  {
    Field("InFile", true, DotTag, Str(inFile))
  }

  function OutFileField(outFile: string): Field
  {
    Field("OutFile", true, DotTag, Str(outFile))
  }

  /** The renderings the sort record's options need from the parse
      table. */
  predicate SortOptionsRender(parsed: map<string, seq<Node>>, maxMem: int, inFile: string, outFile: string)
  {
    && "sort" in parsed && ExecNodes(parsed["sort"], 0, Struct([]), Builtins) == Success("sort")
    && FlagN in parsed && ExecNodes(parsed[FlagN], 0, Bool(true), Builtins) == Success("-n")
    && MaxMemTag in parsed
    && ExecNodes(parsed[MaxMemTag], 0, Int(maxMem), Builtins) == Success("-m" + [Nul] + Fmt.IntToString(maxMem))
    && DotTag in parsed && ExecNodes(parsed[DotTag], 0, Str(inFile), Builtins) == Success(inFile)
    && ExecNodes(parsed[DotTag], 0, Str(outFile), Builtins) == Success(outFile)
  }

  lemma SortOptionsRenders(parsed: map<string, seq<Node>>, maxMem: int, inFile: string, outFile: string)
    requires KnowsTags(parsed) && maxMem != 0
    ensures SortOptionsRender(parsed, maxMem, inFile, outFile)
  {
    Word("sort", Struct([]));
    FlagRenders("-n", true);
    assert PrintValue(Int(maxMem)) == Fmt.IntToString(maxMem);
    OptionRenders("-m", Int(maxMem), Fmt.IntToString(maxMem));
    Dotted(inFile);
    Dotted(outFile);
  }

  /** The sort record's two file fields and the embedded builder. */
  lemma {:induction false} SortLast(inFile: string, outFile: string, parsed: map<string, seq<Node>>)
    requires DotTag in parsed && ExecNodes(parsed[DotTag], 0, Str(inFile), Builtins) == Success(inFile)
    requires ExecNodes(parsed[DotTag], 0, Str(outFile), Builtins) == Success(outFile)
    requires inFile != "" && Nul !in inFile && outFile != "" && Nul !in outFile
    ensures TagsParse([InFileField(inFile), OutFileField(outFile), Builder], parsed)
    ensures Walk([InFileField(inFile), OutFileField(outFile), Builder], Builtins, parsed)
      == BuildResult([inFile, outFile], None)
  {
    var f6, f7 := InFileField(inFile), OutFileField(outFile);
    assert [f6, f7, Builder] == [f6] + [f7, Builder];
    assert Walk([], Builtins, parsed) == BuildResult([], None);
    WalkSkip(Builder, [], parsed);
    assert [Builder] + [] == [Builder];
    StepWord(f7, [Builder], outFile, [], parsed);
    StepWord(f6, [f7, Builder], inFile, [outFile], parsed);
  }

  /** The sort record from its memory option on. */
  lemma SortMid(maxMem: int, inFile: string, outFile: string, parsed: map<string, seq<Node>>)
    requires MaxMemTag in parsed
    requires ExecNodes(parsed[MaxMemTag], 0, Int(maxMem), Builtins) == Success("-m" + [Nul] + Fmt.IntToString(maxMem))
    requires DotTag in parsed && ExecNodes(parsed[DotTag], 0, Str(inFile), Builtins) == Success(inFile)
    requires ExecNodes(parsed[DotTag], 0, Str(outFile), Builtins) == Success(outFile)
    requires inFile != "" && Nul !in inFile && outFile != "" && Nul !in outFile
    ensures TagsParse([MaxMemField(maxMem)] + [InFileField(inFile), OutFileField(outFile), Builder], parsed)
    ensures Walk([MaxMemField(maxMem)] + [InFileField(inFile), OutFileField(outFile), Builder], Builtins, parsed)
      == BuildResult(["-m", Fmt.IntToString(maxMem), inFile, outFile], None)
  {
    SortLast(inFile, outFile, parsed);
    StepPair(MaxMemField(maxMem), [InFileField(inFile), OutFileField(outFile), Builder],
      "-m", Fmt.IntToString(maxMem), [inFile, outFile], parsed);
  }

  /** The sort record from its subcommand on. */
  lemma {:induction false} SortTail(maxMem: int, inFile: string, outFile: string, parsed: map<string, seq<Node>>)
    requires SortOptionsRender(parsed, maxMem, inFile, outFile)
    requires inFile != "" && Nul !in inFile && outFile != "" && Nul !in outFile
    ensures TagsParse(SortOptions(maxMem, inFile, outFile), parsed)
    ensures Walk(SortOptions(maxMem, inFile, outFile), Builtins, parsed)
      == BuildResult(["sort", "-n", "-m", Fmt.IntToString(maxMem), inFile, outFile], None)
  {
    var m := Fmt.IntToString(maxMem);
    var f3, f4 := Field("SubCmd", true, "sort", Struct([])), Field("SortNames", true, FlagN, Bool(true));
    var mid := [MaxMemField(maxMem)] + [InFileField(inFile), OutFileField(outFile), Builder];
    assert ["sort"] + (["-n"] + ["-m", m, inFile, outFile]) == ["sort", "-n", "-m", m, inFile, outFile];
    SortMid(maxMem, inFile, outFile, parsed);
    StepWord(f4, mid, "-n", ["-m", m, inFile, outFile], parsed);
    StepWord(f3, [f4] + mid, "sort", ["-n"] + ["-m", m, inFile, outFile], parsed);
  }

  /** Building a record, or a pointer to one, with no caller functions
      walks its fields with the builtin helpers. */
  lemma BuildOfRecord(fs: seq<Field>, parsed: map<string, seq<Node>>)
    requires TagsParse(fs, parsed)
    ensures Parses(Struct(fs), parsed) && Parses(Ptr(Struct(fs)), parsed)
    ensures BuildOf(Struct(fs), [], parsed) == Walk(fs, Builtins, parsed)
    ensures BuildOf(Ptr(Struct(fs)), [], parsed) == Walk(fs, Builtins, parsed)
  {
    assert Overlay(Builtins, []) == Builtins;
  }

  /** A pointer to a record whose fields walk to some arguments builds
      them. */
  lemma PtrBuilds(fs: seq<Field>, args: seq<string>, parsed: map<string, seq<Node>>)
    requires TagsParse(fs, parsed) && Walk(fs, Builtins, parsed) == BuildResult(args, None)
    ensures Parses(Ptr(Struct(fs)), parsed) && BuildOf(Ptr(Struct(fs)), [], parsed) == BuildResult(args, None)
  {
    BuildOfRecord(fs, parsed);
  }

  /** A pointer to a record with the usual head builds the command name,
      then what the rest of the record walks to. */
  lemma HeadBuilds(name: string, cmdTag: string, cmd: string, word: string, rest: seq<Field>, after: seq<string>,
                   parsed: map<string, seq<Node>>)
    requires cmdTag != "" && cmdTag in parsed && ExecNodes(parsed[cmdTag], 0, Str(cmd), Builtins) == Success(word)
    requires word != "" && Nul !in word
    requires TagsParse(rest, parsed) && Walk(rest, Builtins, parsed) == BuildResult(after, None)
    ensures Parses(Ptr(Struct(Head(name, cmdTag, cmd, rest))), parsed)
    ensures BuildOf(Ptr(Struct(Head(name, cmdTag, cmd, rest))), [], parsed) == BuildResult([word] + after, None)
  {
    HeadWalk(name, cmdTag, cmd, word, rest, after, parsed);
    PtrBuilds(Head(name, cmdTag, cmd, rest), [word] + after, parsed);
  }

  /** The fixed words of the example commands are clean
      arguments, and so is the in-place option of a clean suffix. */
  lemma CleanWords(suf: string)
    requires Nul !in suf
    ensures Nul !in "samtools" && Nul !in "sed" && Nul !in "bowtie" && Nul !in "-l"
    ensures "-i" + suf != "" && Nul !in "-i" + suf
  {
    assert ("-i" + suf)[0] == '-';
    assert forall c :: c in "-i" + suf ==> c in "-i" || c in suf;
  }

  /** The sort record, given the renderings of its templates. */
  lemma {:induction false} SortWalk(maxMem: int, inFile: string, outFile: string, parsed: map<string, seq<Node>>)
    requires SortOptionsRender(parsed, maxMem, inFile, outFile)
    requires CmdTag in parsed && ExecNodes(parsed[CmdTag], 0, Str(""), Builtins) == Success("samtools")
    requires inFile != "" && Nul !in inFile && outFile != "" && Nul !in outFile
    ensures Parses(Struct(SortRecord(maxMem, inFile, outFile)), parsed)
    ensures BuildOf(Struct(SortRecord(maxMem, inFile, outFile)), [], parsed)
      == BuildResult(["samtools", "sort", "-n", "-m", Fmt.IntToString(maxMem), inFile, outFile], None)
  {
    var after := ["sort", "-n", "-m", Fmt.IntToString(maxMem), inFile, outFile];
    assert ["samtools"] + after == ["samtools", "sort", "-n", "-m", Fmt.IntToString(maxMem), inFile, outFile];
    SortTail(maxMem, inFile, outFile, parsed);
    HeadWalk("Sort", CmdTag, "", "samtools", SortOptions(maxMem, inFile, outFile), after, parsed);
    BuildOfRecord(SortRecord(maxMem, inFile, outFile), parsed);
  }

  /** samtools sort -n -m <maxMem> <in> <out>, from a record passed by
      value: the command name comes from the template's default, and the
      untagged Name and Comment fields add nothing. */
  lemma SamtoolsSort(maxMem: int, inFile: string, outFile: string, parsed: map<string, seq<Node>>)
    requires KnowsTags(parsed)
    requires maxMem != 0
    requires inFile != "" && Nul !in inFile && outFile != "" && Nul !in outFile
    ensures Parses(Struct(SortRecord(maxMem, inFile, outFile)), parsed)
    ensures BuildOf(Struct(SortRecord(maxMem, inFile, outFile)), [], parsed)
      == BuildResult(["samtools", "sort", "-n", "-m", Fmt.IntToString(maxMem), inFile, outFile], None)
  {
    SortOptionsRenders(parsed, maxMem, inFile, outFile);
    CmdRenders("samtools", "");
    SortWalk(maxMem, inFile, outFile, parsed);
  }

  lemma ItoaExample()
    ensures Fmt.IntToString(100000000) == "100000000"
  {
  }

  /** The record of the package's first example gives its documented
      output. */
  lemma SamtoolsSortExample(parsed: map<string, seq<Node>>)
    requires KnowsTags(parsed)
    ensures Parses(Struct(SortRecord(100000000, "infile", "outfile")), parsed)
    ensures BuildOf(Struct(SortRecord(100000000, "infile", "outfile")), [], parsed)
      == BuildResult(["samtools", "sort", "-n", "-m", "100000000", "infile", "outfile"], None)
  {
    ItoaExample();
    SamtoolsSort(100000000, "infile", "outfile", parsed);
  }

  function MergeRecord(header: string, outFile: string, inFiles: seq<string>): seq<Field>
  {
    Head("Merge", CmdTag, "samtools", MergeOptions(header, outFile, inFiles))
  }

  function MergeOptions(header: string, outFile: string, inFiles: seq<string>): seq<Field>
  {
    [Field("SubCmd", true, "merge", Struct([]))]
    + ([Field("HeaderFile", true, HeaderTag, Str(header))]
    + ([NamesField(false)]
    + [OutFileField(outFile), InFilesField(inFiles), Builder]))
  }

  function NamesField(b: bool): Field
  {
    Field("SortNames", true, FlagN, Bool(b))
  }

  function InFilesField(inFiles: seq<string>): Field
  {
    Field("InFiles", true, ArgsTag, Slice(Strs(inFiles)))
  }

  /** The renderings the merge record's options need from the parse
      table. */
  predicate MergeOptionsRender(parsed: map<string, seq<Node>>, header: string, outFile: string, inFiles: seq<string>)
  {
    && "merge" in parsed && ExecNodes(parsed["merge"], 0, Struct([]), Builtins) == Success("merge")
    && HeaderTag in parsed && ExecNodes(parsed[HeaderTag], 0, Str(header), Builtins) == Success("-h" + [Nul] + header)
    && FlagN in parsed && ExecNodes(parsed[FlagN], 0, Bool(false), Builtins) == Success("")
    && DotTag in parsed && ExecNodes(parsed[DotTag], 0, Str(outFile), Builtins) == Success(outFile)
    && ArgsTag in parsed && ExecNodes(parsed[ArgsTag], 0, Slice(Strs(inFiles)), Builtins) == Success(SplitArgs(inFiles))
  }

  lemma MergeOptionsRenders(parsed: map<string, seq<Node>>, header: string, outFile: string, inFiles: seq<string>)
    requires KnowsTags(parsed) && header != ""
    ensures MergeOptionsRender(parsed, header, outFile, inFiles)
  {
    Word("merge", Struct([]));
    assert PrintValue(Str(header)) == header;
    OptionRenders("-h", Str(header), header);
    FlagRenders("-n", false);
    Dotted(outFile);
    ArgsRenders(inFiles);
  }

  /** The merge record's output and input fields and the embedded
      builder. */
  lemma {:induction false} MergeLast(outFile: string, inFiles: seq<string>, parsed: map<string, seq<Node>>)
    requires DotTag in parsed && ExecNodes(parsed[DotTag], 0, Str(outFile), Builtins) == Success(outFile)
    requires ArgsTag in parsed && ExecNodes(parsed[ArgsTag], 0, Slice(Strs(inFiles)), Builtins) == Success(SplitArgs(inFiles))
    requires outFile != "" && Nul !in outFile
    requires forall k :: 0 <= k < |inFiles| ==> inFiles[k] != "" && Nul !in inFiles[k]
    ensures TagsParse([OutFileField(outFile), InFilesField(inFiles), Builder], parsed)
    ensures Walk([OutFileField(outFile), InFilesField(inFiles), Builder], Builtins, parsed)
      == BuildResult([outFile] + inFiles, None)
  {
    var f6, f7 := OutFileField(outFile), InFilesField(inFiles);
    assert [f6, f7, Builder] == [f6] + [f7, Builder];
    assert Walk([], Builtins, parsed) == BuildResult([], None);
    WalkSkip(Builder, [], parsed);
    assert [Builder] + [] == [Builder];
    StepList(f7, [Builder], inFiles, [], parsed);
    StepWord(f6, [f7, Builder], outFile, inFiles, parsed);
  }

  /** The merge record from its sort flag on. */
  lemma MergeMid(outFile: string, inFiles: seq<string>, parsed: map<string, seq<Node>>)
    requires FlagN in parsed && ExecNodes(parsed[FlagN], 0, Bool(false), Builtins) == Success("")
    requires DotTag in parsed && ExecNodes(parsed[DotTag], 0, Str(outFile), Builtins) == Success(outFile)
    requires ArgsTag in parsed && ExecNodes(parsed[ArgsTag], 0, Slice(Strs(inFiles)), Builtins) == Success(SplitArgs(inFiles))
    requires outFile != "" && Nul !in outFile
    requires forall k :: 0 <= k < |inFiles| ==> inFiles[k] != "" && Nul !in inFiles[k]
    ensures TagsParse([NamesField(false)] + [OutFileField(outFile), InFilesField(inFiles), Builder], parsed)
    ensures Walk([NamesField(false)] + [OutFileField(outFile), InFilesField(inFiles), Builder], Builtins, parsed)
      == BuildResult([outFile] + inFiles, None)
  {
    MergeLast(outFile, inFiles, parsed);
    StepEmpty(NamesField(false), [OutFileField(outFile), InFilesField(inFiles), Builder], [outFile] + inFiles, parsed);
  }

  /** The merge record from its subcommand on. */
  lemma {:induction false} MergeTail(header: string, outFile: string, inFiles: seq<string>, parsed: map<string, seq<Node>>)
    requires MergeOptionsRender(parsed, header, outFile, inFiles)
    requires header != "" && Nul !in header && outFile != "" && Nul !in outFile
    requires forall k :: 0 <= k < |inFiles| ==> inFiles[k] != "" && Nul !in inFiles[k]
    ensures TagsParse(MergeOptions(header, outFile, inFiles), parsed)
    ensures Walk(MergeOptions(header, outFile, inFiles), Builtins, parsed)
      == BuildResult(["merge", "-h", header, outFile] + inFiles, None)
  {
    var f3, f4 := Field("SubCmd", true, "merge", Struct([])), Field("HeaderFile", true, HeaderTag, Str(header));
    var mid := [NamesField(false)] + [OutFileField(outFile), InFilesField(inFiles), Builder];
    assert ["merge"] + (["-h", header] + ([outFile] + inFiles)) == ["merge", "-h", header, outFile] + inFiles;
    MergeMid(outFile, inFiles, parsed);
    StepPair(f4, mid, "-h", header, [outFile] + inFiles, parsed);
    StepWord(f3, [f4] + mid, "merge", ["-h", header] + ([outFile] + inFiles), parsed);
  }

  /** The merge record, given the renderings of its templates. */
  lemma {:induction false} MergeWalk(header: string, outFile: string, inFiles: seq<string>, parsed: map<string, seq<Node>>)
    requires MergeOptionsRender(parsed, header, outFile, inFiles)
    requires CmdTag in parsed && ExecNodes(parsed[CmdTag], 0, Str("samtools"), Builtins) == Success("samtools")
    requires header != "" && Nul !in header && outFile != "" && Nul !in outFile
    requires forall k :: 0 <= k < |inFiles| ==> inFiles[k] != "" && Nul !in inFiles[k]
    ensures Parses(Ptr(Struct(MergeRecord(header, outFile, inFiles))), parsed)
    ensures BuildOf(Ptr(Struct(MergeRecord(header, outFile, inFiles))), [], parsed)
      == BuildResult(["samtools", "merge", "-h", header, outFile] + inFiles, None)
  {
    var after := ["merge", "-h", header, outFile] + inFiles;
    MergeTail(header, outFile, inFiles, parsed);
    CleanWords("");
    HeadBuilds("Merge", CmdTag, "samtools", "samtools", MergeOptions(header, outFile, inFiles), after, parsed);
    MergeArgsShape(header, outFile, inFiles);
  }

  /** The nested argument list of the merge walk, flattened. */
  lemma MergeArgsShape(header: string, outFile: string, inFiles: seq<string>)
    ensures ["samtools"] + (["merge", "-h", header, outFile] + inFiles)
      == ["samtools", "merge", "-h", header, outFile] + inFiles
  {
  }

  /** samtools merge -h <header> <out> <in>..., from a pointer to the
      record: the pointer is followed once, the unset flag adds nothing and
      the input list is spread into one argument per file. */
  lemma SamtoolsMerge(header: string, outFile: string, inFiles: seq<string>, parsed: map<string, seq<Node>>)
    requires KnowsTags(parsed)
    requires header != "" && Nul !in header && outFile != "" && Nul !in outFile
    requires forall k :: 0 <= k < |inFiles| ==> inFiles[k] != "" && Nul !in inFiles[k]
    ensures Parses(Ptr(Struct(MergeRecord(header, outFile, inFiles))), parsed)
    ensures BuildOf(Ptr(Struct(MergeRecord(header, outFile, inFiles))), [], parsed)
      == BuildResult(["samtools", "merge", "-h", header, outFile] + inFiles, None)
  {
    MergeOptionsRenders(parsed, header, outFile, inFiles);
    CmdRenders("samtools", "samtools");
    MergeWalk(header, outFile, inFiles, parsed);
  }

  /** The record of the package's second example gives its documented
      output. */
  lemma SamtoolsMergeExample(parsed: map<string, seq<Node>>)
    requires KnowsTags(parsed)
    ensures Parses(Ptr(Struct(MergeRecord("header", "outfile", ["infile1", "infile2"]))), parsed)
    ensures BuildOf(Ptr(Struct(MergeRecord("header", "outfile", ["infile1", "infile2"]))), [], parsed)
      == BuildResult(["samtools", "merge", "-h", "header", "outfile", "infile1", "infile2"], None)
  {
    SamtoolsMerge("header", "outfile", ["infile1", "infile2"], parsed);
  }

  // ---------------------------------------------------------------------
  // The sed and bowtie examples: pipes, `.Field`, `with` and join
  // ---------------------------------------------------------------------

  /** `{{if .}}<body>{{end}}` on a false value renders nothing. */
  lemma IfFalse(body: seq<Node>, dot: Value)
    requires !IsTrue(dot)
    ensures ExecNodes([If([Arg(Dot)], body, [])], 0, dot, Builtins) == Success("")
  {
    assert EvalPipeline([Arg(Dot)], 0, dot, Builtins, None) == Success(dot);
    assert ExecNodes([], 0, dot, Builtins) == Success("");
    assert ExecNodes([If([Arg(Dot)], body, [])], 1, dot, Builtins) == Success("");
    assert "" + "" == "";
  }

  /** `{{if .}}<body>{{end}}` on a true value renders its body. */
  lemma IfTrue(body: seq<Node>, dot: Value, text: string)
    requires IsTrue(dot) && ExecNodes(body, 0, dot, Builtins) == Success(text)
    ensures ExecNodes([If([Arg(Dot)], body, [])], 0, dot, Builtins) == Success(text)
  {
    assert EvalPipeline([Arg(Dot)], 0, dot, Builtins, None) == Success(dot);
    assert ExecNodes([If([Arg(Dot)], body, [])], 1, dot, Builtins) == Success("");
    assert text + "" == text;
  }

  /** A format with no verb, once its operand is used, prints as itself. */
  lemma {:induction false} PrintfPlain(f: string, v: Value)
    requires '%' !in f
    ensures Fmt.Printf(f, v, true) == f
  {
    if f != [] {
      PrintfPlain(f[1..], v);
      assert f == [f[0]] + f[1..];
    }
  }

  /** Sprintf(pre + "%s" + post, s) puts the string between pre and
      post. */
  lemma {:induction false} PrintfString(pre: string, post: string, s: string)
    requires '%' !in pre && '%' !in post
    ensures Fmt.Printf(pre + "%s" + post, Str(s), false) == pre + s + post
  {
    if pre == [] {
      assert pre + "%s" + post == "%s" + post;
      assert ("%s" + post)[2..] == post;
      PrintfPlain(post, Str(s));
    } else {
      assert (pre + "%s" + post)[1..] == pre[1..] + "%s" + post;
      PrintfString(pre[1..], post, s);
      assert pre + s + post == [pre[0]] + (pre[1..] + s + post);
    }
  }

  /** A field whose text tokenizes to `toks` puts them in front of the
      rest. */
  lemma StepTokens(f: Field, rest: seq<Field>, text: string, toks: seq<string>, after: seq<string>,
                   parsed: map<string, seq<Node>>)
    requires Annotated(f) && f.tag in parsed && TagsParse(rest, parsed)
    requires ExecNodes(parsed[f.tag], 0, f.value, Builtins) == Success(text) && Tokens(text) == toks
    requires Walk(rest, Builtins, parsed) == BuildResult(after, None)
    ensures TagsParse([f] + rest, parsed)
    ensures Walk([f] + rest, Builtins, parsed) == BuildResult(toks + after, None)
  {
    WalkRender(f, rest, text, parsed);
  }

  /** `{{if .}}{{.}}{{else}}<default>{{end}}`, as tag text. */
  function CmdTagFor(default: string): string
  {
    "{{if .}}{{.}}{{else}}" + default + "{{end}}"
  }

  /** `{{if .}}<word>{{end}}`, as tag text. */
  function FlagTag(word: string): string
  {
    "{{if .}}" + word + "{{end}}"
  }

  /** `{{if .}}<word>{{split}}{{.}}{{end}}`, as tag text and as a tree. */
  function OptionTag(word: string): string
  {
    "{{if .}}" + word + "{{split}}{{.}}{{end}}"
  }

  function OptionTreeOf(word: string): seq<Node>
  {
    [If([Arg(Dot)], [Text(word)] + SplitBody, [])]
  }

  /** `{{if .}}{{mprintf "<format>" . | args}}{{end}}`: each element
      formatted, the list piped into args as its last argument. */
  function MprintfArgsTag(format: string): string
  {
    "{{if .}}{{mprintf \"" + format + "\" . | args}}{{end}}"
  }

  function MprintfArgsTree(format: string): seq<Node>
  {
    [If([Arg(Dot)], [Action([Call("mprintf", [StrLit(format), Dot]), Call("args", [])])], [])]
  }

  /** `{{if .}}<prefix>{{join "," .}}{{end}}`; with no prefix the parser
      makes no text node. */
  function JoinTag(prefix: string): string
  {
    "{{if .}}" + prefix + "{{join \",\" .}}{{end}}"
  }

  function JoinTreeOf(prefix: string): seq<Node>
  {
    [If([Arg(Dot)], (if prefix == "" then [] else [Text(prefix)]) + [Action([Call("join", [StrLit(","), Dot])])], [])]
  }

  const IfDotTag: string := "{{if .}}{{.}}{{end}}"
  const IfDotTree: seq<Node> := [If([Arg(Dot)], DotTree, [])]

  /** `{{if .Yes}}-i{{with .Suf}}{{.}}{{end}}{{end}}` over a struct with
      the fields Yes and Suf. */
  const InPlaceTag: string := "{{if .Yes}}-i{{with .Suf}}{{.}}{{end}}{{end}}"
  const InPlaceTree: seq<Node> :=
    [If([Arg(FieldOf("Yes"))], [Text("-i"), With([Arg(FieldOf("Suf"))], DotTree, [])], [])]

  function InPlaceValue(yes: bool, suf: string): Value
  {
    Struct([Field("Yes", true, "", Bool(yes)), Field("Suf", true, "", Str(suf))])
  }

  /** The sed script and script-file formats: the option, the split tag,
      then the operand. */
  const ScriptFormat: string := "-e" + [Nul] + "'%s'"
  const ScriptFileFormat: string := "-f" + [Nul] + "%s"

  /** The text the sed script field renders. */
  function ScriptText(scripts: seq<string>): string
  {
    if scripts == [] then "" else SplitArgs(FormatEach(ScriptFormat, Strs(scripts)))
  }

  /** `mprintf "<format>" . | args` over a list of strings: each string
      formatted, the results joined by the split tag; an empty list
      renders nothing. */
  lemma MprintfArgsRenders(format: string, ss: seq<string>)
    ensures ExecNodes(MprintfArgsTree(format), 0, Slice(Strs(ss)), Builtins)
      == Success(if ss == [] then "" else SplitArgs(FormatEach(format, Strs(ss))))
  {
    var v := Slice(Strs(ss));
    var p := [Call("mprintf", [StrLit(format), Dot]), Call("args", [])];
    var body := [Action(p)];
    if ss == [] {
      IfFalse(body, v);
    } else {
      var f := FormatEach(format, Strs(ss));
      assert "mprintf" in Builtins && Builtins["mprintf"] == CallMprintf;
      assert "args" in Builtins && Builtins["args"] == CallArgs;
      assert EvalOperands([StrLit(format), Dot], 2, v) == Success([]);
      assert [v] + [] == [v];
      assert EvalOperands([StrLit(format), Dot], 1, v) == Success([v]);
      assert [Str(format)] + [v] == [Str(format), v];
      assert EvalOperands([StrLit(format), Dot], 0, v) == Success([Str(format), v]);
      assert CallMprintf([Str(format), v]) == Success(Slice(Strs(f)));
      assert EvalCommand(p[0], v, Builtins, None) == Success(Slice(Strs(f)));
      StringElemsOfStrs(f);
      assert EvalOperands([], 0, v) == Success([]);
      assert [] + [Slice(Strs(f))] == [Slice(Strs(f))];
      assert EvalCommand(p[1], v, Builtins, Some(Slice(Strs(f)))) == Success(Str(SplitArgs(f)));
      assert EvalPipeline(p, 2, v, Builtins, Some(Str(SplitArgs(f)))) == Success(Str(SplitArgs(f)));
      assert EvalPipeline(p, 0, v, Builtins, None) == Success(Str(SplitArgs(f)));
      assert PrintValue(Str(SplitArgs(f))) == SplitArgs(f);
      assert SplitArgs(f) + "" == SplitArgs(f);
      assert ExecNodes(body, 0, v, Builtins) == Success(SplitArgs(f));
      IfTrue(body, v, SplitArgs(f));
    }
  }

  /** The arguments sed gets for its scripts: `-e` and the quoted script,
      for each script in order. */
  function ScriptArgs(ss: seq<string>): seq<string>
  {
    if ss == [] then [] else ["-e", "'" + ss[0] + "'"] + ScriptArgs(ss[1..])
  }

  /** The split tag inside the script format makes two arguments of each
      script. */
  lemma {:induction false} ScriptTokens(ss: seq<string>)
    requires forall k :: 0 <= k < |ss| ==> Nul !in ss[k]
    ensures Tokens(ScriptText(ss)) == ScriptArgs(ss)
  {
    if ss == [] {
      TokensOfEmpty();
    } else {
      var t := "'" + ss[0] + "'";
      var rest := FormatEach(ScriptFormat, Strs(ss[1..]));
      assert Strs(ss)[1..] == Strs(ss[1..]);
      assert FormatEach(ScriptFormat, Strs(ss)) == [Fmt.Sprintf(ScriptFormat, Str(ss[0]))] + rest;
      assert ScriptFormat == ("-e" + [Nul] + "'") + "%s" + "'";
      PrintfString("-e" + [Nul] + "'", "'", ss[0]);
      assert Fmt.Sprintf(ScriptFormat, Str(ss[0])) == "-e" + [Nul] + t;
      ArgsTokensCons("-e" + [Nul] + t, rest);
      TokensOfPair("-e", t);
      ScriptTokens(ss[1..]);
      if ss[1..] == [] {
        TokensOfEmpty();
        assert Tokens(SplitArgs(rest)) == [];
      }
    }
  }

  /** `{{if .Yes}}-i{{with .Suf}}{{.}}{{end}}{{end}}`: `.Yes` selects the
      field's value, and `with .Suf` renders the suffix only when it is
      set, so the result is "-i" and the suffix when Yes holds. */
  lemma InPlaceRenders(yes: bool, suf: string)
    ensures ExecNodes(InPlaceTree, 0, InPlaceValue(yes, suf), Builtins) == Success(if yes then "-i" + suf else "")
  {
    var v := InPlaceValue(yes, suf);
    var inner := [Text("-i"), With([Arg(FieldOf("Suf"))], DotTree, [])];
    assert FindField(v.fields, "Yes") == Some(v.fields[0]);
    assert v.fields[1..] == [v.fields[1]];
    assert FindField(v.fields, "Suf") == Some(v.fields[1]);
    assert EvalPipeline([Arg(FieldOf("Yes"))], 0, v, Builtins, None) == Success(Bool(yes));
    assert EvalPipeline([Arg(FieldOf("Suf"))], 0, v, Builtins, None) == Success(Str(suf));
    assert ExecNodes(InPlaceTree, 1, v, Builtins) == Success("");
    if yes {
      Dotted(suf);
      assert ExecNodes([], 0, v, Builtins) == Success("");
      assert ExecNode(inner[1], v, Builtins) == Success(suf);
      assert ExecNodes(inner, 2, v, Builtins) == Success("");
      assert suf + "" == suf;
      assert ExecNodes(inner, 1, v, Builtins) == Success(suf);
      assert ExecNodes(inner, 0, v, Builtins) == Success("-i" + suf);
      assert ("-i" + suf) + "" == "-i" + suf;
    } else {
      assert ExecNodes([], 0, v, Builtins) == Success("");
      assert "" + "" == "";
    }
  }

  /** `{{if .}}<prefix>{{join "," .}}{{end}}` over a list of strings:
      nothing for an empty list, otherwise the prefix and the strings
      joined by commas. */
  lemma JoinRenders(prefix: string, ss: seq<string>)
    ensures ExecNodes(JoinTreeOf(prefix), 0, Slice(Strs(ss)), Builtins)
      == Success(if ss == [] then "" else prefix + Join(",", ss))
  {
    var v := Slice(Strs(ss));
    var act := Action([Call("join", [StrLit(","), Dot])]);
    var body := (if prefix == "" then [] else [Text(prefix)]) + [act];
    if ss == [] {
      IfFalse(body, v);
    } else {
      var j := Join(",", ss);
      StringElemsOfStrs(ss);
      assert "join" in Builtins && Builtins["join"] == CallJoin;
      assert EvalOperands([StrLit(","), Dot], 2, v) == Success([]);
      assert [v] + [] == [v];
      assert EvalOperands([StrLit(","), Dot], 1, v) == Success([v]);
      assert [Str(",")] + [v] == [Str(","), v];
      assert EvalOperands([StrLit(","), Dot], 0, v) == Success([Str(","), v]);
      assert EvalPipeline(act.pipe, 1, v, Builtins, Some(Str(j))) == Success(Str(j));
      assert EvalPipeline(act.pipe, 0, v, Builtins, None) == Success(Str(j));
      assert PrintValue(Str(j)) == j;
      assert ExecNodes([act], 1, v, Builtins) == Success("");
      assert j + "" == j;
      assert ExecNodes([act], 0, v, Builtins) == Success(j);
      if prefix != "" {
        assert body[1..] == [act];
        ExecNodesShift(body, v);
        assert ExecNodes(body, 0, v, Builtins) == Success(prefix + j);
      } else {
        assert body == [act];
        assert prefix + j == j;
      }
      IfTrue(body, v, prefix + j);
    }
  }

  /** `{{if .}}{{.}}{{end}}` over a string: the string. */
  lemma IfDotRenders(s: string)
    ensures ExecNodes(IfDotTree, 0, Str(s), Builtins) == Success(s)
  {
    if s == "" {
      IfFalse(DotTree, Str(s));
    } else {
      Dotted(s);
      IfTrue(DotTree, Str(s), s);
    }
  }

  /** No element and no separator holds the split tag, so neither does
      their join. */
  lemma {:induction false} JoinClean(sep: string, a: seq<string>)
    requires Nul !in sep && forall k :: 0 <= k < |a| ==> Nul !in a[k]
    ensures Nul !in Join(sep, a)
  {
    if |a| > 1 {
      JoinClean(sep, a[1..]);
    }
  }

  /** The parse table holds the trees of the sed example's tags. */
  predicate SedTags(parsed: map<string, seq<Node>>)
  {
    && CmdTagFor("sed") in parsed && parsed[CmdTagFor("sed")] == CmdTreeFor("sed")
    && FlagTag("-n") in parsed && parsed[FlagTag("-n")] == FlagTreeOf("-n")
    && MprintfArgsTag(ScriptFormat) in parsed && parsed[MprintfArgsTag(ScriptFormat)] == MprintfArgsTree(ScriptFormat)
    && MprintfArgsTag(ScriptFileFormat) in parsed
    && parsed[MprintfArgsTag(ScriptFileFormat)] == MprintfArgsTree(ScriptFileFormat)
    && FlagTag("--follow-symlinks") in parsed && parsed[FlagTag("--follow-symlinks")] == FlagTreeOf("--follow-symlinks")
    && InPlaceTag in parsed && parsed[InPlaceTag] == InPlaceTree
    && OptionTag("-l") in parsed && parsed[OptionTag("-l")] == OptionTreeOf("-l")
    && FlagTag("--posix") in parsed && parsed[FlagTag("--posix")] == FlagTreeOf("--posix")
    && FlagTag("-r") in parsed && parsed[FlagTag("-r")] == FlagTreeOf("-r")
    && FlagTag("-s") in parsed && parsed[FlagTag("-s")] == FlagTreeOf("-s")
    && FlagTag("-u") in parsed && parsed[FlagTag("-u")] == FlagTreeOf("-u")
    && ArgsTag in parsed && parsed[ArgsTag] == ArgsTree
  }

  function SedFlag(name: string, word: string): Field
  {
    Field(name, true, FlagTag(word), Bool(false))
  }

  /** The sed record of ExampleBuild_3: quiet, follow, posix, extended,
      separate and unbuffered unset, no script files. */
  function SedRecord(scripts: seq<string>, suf: string, wrapAt: int, inFiles: seq<string>): seq<Field>
  {
    Head("Sed", CmdTagFor("sed"), "sed", SedOptions(scripts, suf, wrapAt, inFiles))
  }

  function SedOptions(scripts: seq<string>, suf: string, wrapAt: int, inFiles: seq<string>): seq<Field>
  {
    [SedFlag("Quiet", "-n")]
    + ([Field("Script", true, MprintfArgsTag(ScriptFormat), Slice(Strs(scripts)))]
    + ([Field("ScriptFile", true, MprintfArgsTag(ScriptFileFormat), Slice([]))]
    + ([SedFlag("Follow", "--follow-symlinks")]
    + SedMidFields(suf, wrapAt, inFiles))))
  }

  function SedMidFields(suf: string, wrapAt: int, inFiles: seq<string>): seq<Field>
  {
    [Field("InPlace", true, InPlaceTag, InPlaceValue(true, suf))]
    + ([Field("WrapAt", true, OptionTag("-l"), Int(wrapAt))]
    + SedLastFields(inFiles))
  }

  function SedLastFields(inFiles: seq<string>): seq<Field>
  {
    [SedFlag("Posix", "--posix")]
    + ([SedFlag("ExtendRE", "-r")]
    + ([SedFlag("Separate", "-s")]
    + ([SedFlag("Unbuffered", "-u")]
    + [InFilesField(inFiles), Builder])))
  }

  /** An unset flag's template renders nothing. */
  predicate FlagOff(parsed: map<string, seq<Node>>, word: string)
  {
    FlagTag(word) in parsed && ExecNodes(parsed[FlagTag(word)], 0, Bool(false), Builtins) == Success("")
  }

  /** The renderings the sed record's fields need from the parse table. */
  predicate SedRender(parsed: map<string, seq<Node>>, scripts: seq<string>, suf: string, wrapAt: int, inFiles: seq<string>)
  {
    && CmdTagFor("sed") in parsed && ExecNodes(parsed[CmdTagFor("sed")], 0, Str("sed"), Builtins) == Success("sed")
    && FlagOff(parsed, "-n")
    && MprintfArgsTag(ScriptFormat) in parsed
    && ExecNodes(parsed[MprintfArgsTag(ScriptFormat)], 0, Slice(Strs(scripts)), Builtins) == Success(ScriptText(scripts))
    && MprintfArgsTag(ScriptFileFormat) in parsed
    && ExecNodes(parsed[MprintfArgsTag(ScriptFileFormat)], 0, Slice([]), Builtins) == Success("")
    && FlagOff(parsed, "--follow-symlinks")
    && InPlaceTag in parsed && ExecNodes(parsed[InPlaceTag], 0, InPlaceValue(true, suf), Builtins) == Success("-i" + suf)
    && OptionTag("-l") in parsed
    && ExecNodes(parsed[OptionTag("-l")], 0, Int(wrapAt), Builtins) == Success("-l" + [Nul] + Fmt.IntToString(wrapAt))
    && FlagOff(parsed, "--posix") && FlagOff(parsed, "-r") && FlagOff(parsed, "-s") && FlagOff(parsed, "-u")
    && ArgsTag in parsed && ExecNodes(parsed[ArgsTag], 0, Slice(Strs(inFiles)), Builtins) == Success(SplitArgs(inFiles))
  }

  /** The sed example's trees render as SedRender says. */
  lemma SedRenders(parsed: map<string, seq<Node>>, scripts: seq<string>, suf: string, wrapAt: int, inFiles: seq<string>)
    requires SedTags(parsed) && wrapAt != 0
    ensures SedRender(parsed, scripts, suf, wrapAt, inFiles)
  {
    CmdRenders("sed", "sed");
    FlagRenders("-n", false);
    FlagRenders("--follow-symlinks", false);
    FlagRenders("--posix", false);
    FlagRenders("-r", false);
    FlagRenders("-s", false);
    FlagRenders("-u", false);
    MprintfArgsRenders(ScriptFormat, scripts);
    MprintfArgsRenders(ScriptFileFormat, []);
    assert Strs([]) == [];
    InPlaceRenders(true, suf);
    assert PrintValue(Int(wrapAt)) == Fmt.IntToString(wrapAt);
    OptionRenders("-l", Int(wrapAt), Fmt.IntToString(wrapAt));
    ArgsRenders(inFiles);
  }

  /** An unset flag of the sed record adds nothing. */
  lemma SedFlagOff(name: string, word: string, rest: seq<Field>, after: seq<string>, parsed: map<string, seq<Node>>)
    requires FlagOff(parsed, word)
    requires TagsParse(rest, parsed) && Walk(rest, Builtins, parsed) == BuildResult(after, None)
    ensures TagsParse([SedFlag(name, word)] + rest, parsed)
    ensures Walk([SedFlag(name, word)] + rest, Builtins, parsed) == BuildResult(after, None)
  {
    StepEmpty(SedFlag(name, word), rest, after, parsed);
  }

  /** The sed record's four trailing flags, its input files and the
      embedded builder. */
  lemma {:induction false} SedLast(scripts: seq<string>, suf: string, wrapAt: int, inFiles: seq<string>,
                                   parsed: map<string, seq<Node>>)
    requires SedRender(parsed, scripts, suf, wrapAt, inFiles)
    requires forall k :: 0 <= k < |inFiles| ==> inFiles[k] != "" && Nul !in inFiles[k]
    ensures TagsParse(SedLastFields(inFiles), parsed)
    ensures Walk(SedLastFields(inFiles), Builtins, parsed) == BuildResult(inFiles, None)
  {
    var files := InFilesField(inFiles);
    assert [files, Builder] == [files] + [Builder];
    assert Walk([], Builtins, parsed) == BuildResult([], None);
    WalkSkip(Builder, [], parsed);
    assert [Builder] + [] == [Builder];
    StepList(files, [Builder], inFiles, [], parsed);
    assert inFiles + [] == inFiles;
    var r0 := [files, Builder];
    SedFlagOff("Unbuffered", "-u", r0, inFiles, parsed);
    var r1 := [SedFlag("Unbuffered", "-u")] + r0;
    SedFlagOff("Separate", "-s", r1, inFiles, parsed);
    var r2 := [SedFlag("Separate", "-s")] + r1;
    SedFlagOff("ExtendRE", "-r", r2, inFiles, parsed);
    var r3 := [SedFlag("ExtendRE", "-r")] + r2;
    SedFlagOff("Posix", "--posix", r3, inFiles, parsed);
  }

  /** The sed record from its in-place option on. */
  lemma {:induction false} SedMid(scripts: seq<string>, suf: string, wrapAt: int, inFiles: seq<string>,
                                  parsed: map<string, seq<Node>>)
    requires SedRender(parsed, scripts, suf, wrapAt, inFiles) && Nul !in suf
    requires forall k :: 0 <= k < |inFiles| ==> inFiles[k] != "" && Nul !in inFiles[k]
    ensures TagsParse(SedMidFields(suf, wrapAt, inFiles), parsed)
    ensures Walk(SedMidFields(suf, wrapAt, inFiles), Builtins, parsed)
      == BuildResult(["-i" + suf] + (["-l", Fmt.IntToString(wrapAt)] + inFiles), None)
  {
    var w := Fmt.IntToString(wrapAt);
    var last := SedLastFields(inFiles);
    var wrap := Field("WrapAt", true, OptionTag("-l"), Int(wrapAt));
    SedLast(scripts, suf, wrapAt, inFiles, parsed);
    CleanWords(suf);
    StepPair(wrap, last, "-l", w, inFiles, parsed);
    StepWord(Field("InPlace", true, InPlaceTag, InPlaceValue(true, suf)), [wrap] + last, "-i" + suf,
      ["-l", w] + inFiles, parsed);
  }

  /** The sed record from its quiet flag on. */
  lemma {:induction false} SedTail(scripts: seq<string>, suf: string, wrapAt: int, inFiles: seq<string>,
                                   parsed: map<string, seq<Node>>)
    requires SedRender(parsed, scripts, suf, wrapAt, inFiles) && Nul !in suf
    requires forall k :: 0 <= k < |scripts| ==> Nul !in scripts[k]
    requires forall k :: 0 <= k < |inFiles| ==> inFiles[k] != "" && Nul !in inFiles[k]
    ensures TagsParse(SedOptions(scripts, suf, wrapAt, inFiles), parsed)
    ensures Walk(SedOptions(scripts, suf, wrapAt, inFiles), Builtins, parsed)
      == BuildResult(ScriptArgs(scripts) + (["-i" + suf] + (["-l", Fmt.IntToString(wrapAt)] + inFiles)), None)
  {
    var tail := ["-i" + suf] + (["-l", Fmt.IntToString(wrapAt)] + inFiles);
    var mid := SedMidFields(suf, wrapAt, inFiles);
    SedMid(scripts, suf, wrapAt, inFiles, parsed);
    SedFlagOff("Follow", "--follow-symlinks", mid, tail, parsed);
    var r0 := [SedFlag("Follow", "--follow-symlinks")] + mid;
    var file := Field("ScriptFile", true, MprintfArgsTag(ScriptFileFormat), Slice([]));
    StepEmpty(file, r0, tail, parsed);
    var r1 := [file] + r0;
    var script := Field("Script", true, MprintfArgsTag(ScriptFormat), Slice(Strs(scripts)));
    ScriptTokens(scripts);
    StepTokens(script, r1, ScriptText(scripts), ScriptArgs(scripts), tail, parsed);
    SedFlagOff("Quiet", "-n", [script] + r1, ScriptArgs(scripts) + tail, parsed);
  }

  /** The nested argument list of the sed walk, flattened. */
  lemma SedArgsShape(cmd: string, scriptArgs: seq<string>, inPlace: string, opt: string, w: string, inFiles: seq<string>)
    ensures [cmd] + (scriptArgs + ([inPlace] + ([opt, w] + inFiles)))
      == [cmd] + scriptArgs + [inPlace, opt, w] + inFiles
  {
  }

  /** sed from a pointer to its record, given the renderings of its
      templates. */
  lemma {:induction false} SedWalk(scripts: seq<string>, suf: string, wrapAt: int, inFiles: seq<string>,
                                   parsed: map<string, seq<Node>>)
    requires SedRender(parsed, scripts, suf, wrapAt, inFiles) && Nul !in suf
    requires forall k :: 0 <= k < |scripts| ==> Nul !in scripts[k]
    requires forall k :: 0 <= k < |inFiles| ==> inFiles[k] != "" && Nul !in inFiles[k]
    ensures Parses(Ptr(Struct(SedRecord(scripts, suf, wrapAt, inFiles))), parsed)
    ensures BuildOf(Ptr(Struct(SedRecord(scripts, suf, wrapAt, inFiles))), [], parsed)
      == BuildResult(["sed"] + ScriptArgs(scripts) + ["-i" + suf, "-l", Fmt.IntToString(wrapAt)] + inFiles, None)
  {
    var after := ScriptArgs(scripts) + (["-i" + suf] + (["-l", Fmt.IntToString(wrapAt)] + inFiles));
    SedTail(scripts, suf, wrapAt, inFiles, parsed);
    CleanWords(suf);
    HeadBuilds("Sed", CmdTagFor("sed"), "sed", "sed", SedOptions(scripts, suf, wrapAt, inFiles), after, parsed);
    SedArgsShape("sed", ScriptArgs(scripts), "-i" + suf, "-l", Fmt.IntToString(wrapAt), inFiles);
  }

  /** sed from a pointer to its record: the command name, two arguments
      per script (the mprintf list piped into args), the in-place suffix
      taken with `.Yes` and `with .Suf`, the line length, then the input
      files; the unset flags and the empty script-file list add
      nothing. */
  lemma SedBuild(scripts: seq<string>, suf: string, wrapAt: int, inFiles: seq<string>, parsed: map<string, seq<Node>>)
    requires SedTags(parsed) && wrapAt != 0 && Nul !in suf
    requires forall k :: 0 <= k < |scripts| ==> Nul !in scripts[k]
    requires forall k :: 0 <= k < |inFiles| ==> inFiles[k] != "" && Nul !in inFiles[k]
    ensures Parses(Ptr(Struct(SedRecord(scripts, suf, wrapAt, inFiles))), parsed)
    ensures BuildOf(Ptr(Struct(SedRecord(scripts, suf, wrapAt, inFiles))), [], parsed)
      == BuildResult(["sed"] + ScriptArgs(scripts) + ["-i" + suf, "-l", Fmt.IntToString(wrapAt)] + inFiles, None)
  {
    SedRenders(parsed, scripts, suf, wrapAt, inFiles);
    SedWalk(scripts, suf, wrapAt, inFiles, parsed);
  }

  /** The arguments of the third example, flattened. */
  lemma SedExampleArgs()
    ensures ["sed"] + ScriptArgs(["s/\\<hi\\>/lo/g", "s/\\<left\\>/right/g"])
      + ["-i" + "bottomright", "-l", Fmt.IntToString(76)] + ["infile1", "infile2"]
      == ["sed", "-e", "'s/\\<hi\\>/lo/g'", "-e", "'s/\\<left\\>/right/g'", "-ibottomright",
          "-l", "76", "infile1", "infile2"]
  {
    var scripts := ["s/\\<hi\\>/lo/g", "s/\\<left\\>/right/g"];
    assert scripts[1..] == ["s/\\<left\\>/right/g"] && scripts[1..][1..] == [];
    assert "'" + scripts[1] + "'" == "'s/\\<left\\>/right/g'";
    assert "'" + scripts[0] + "'" == "'s/\\<hi\\>/lo/g'";
    assert ScriptArgs(scripts[1..][1..]) == [];
    assert ScriptArgs(scripts[1..]) == ["-e", "'s/\\<left\\>/right/g'"];
    assert ScriptArgs(scripts) == ["-e", "'s/\\<hi\\>/lo/g'", "-e", "'s/\\<left\\>/right/g'"];
    assert Fmt.IntToString(76) == "76";
    assert "-i" + "bottomright" == "-ibottomright";
    var sa := ["-e", "'s/\\<hi\\>/lo/g'", "-e", "'s/\\<left\\>/right/g'"];
    assert ["sed"] + sa == ["sed", "-e", "'s/\\<hi\\>/lo/g'", "-e", "'s/\\<left\\>/right/g'"];
  }

  /** The record of the package's third example gives its documented
      output. */
  lemma SedExample(parsed: map<string, seq<Node>>)
    requires SedTags(parsed)
    ensures Parses(Ptr(Struct(SedRecord(["s/\\<hi\\>/lo/g", "s/\\<left\\>/right/g"], "bottomright", 76,
      ["infile1", "infile2"]))), parsed)
    ensures BuildOf(Ptr(Struct(SedRecord(["s/\\<hi\\>/lo/g", "s/\\<left\\>/right/g"], "bottomright", 76,
      ["infile1", "infile2"]))), [], parsed)
      == BuildResult(["sed", "-e", "'s/\\<hi\\>/lo/g'", "-e", "'s/\\<left\\>/right/g'", "-ibottomright",
                      "-l", "76", "infile1", "infile2"], None)
  {
    var scripts := ["s/\\<hi\\>/lo/g", "s/\\<left\\>/right/g"];
    SedExampleArgs();
    SedBuild(scripts, "bottomright", 76, ["infile1", "infile2"], parsed);
  }

  /** The parse table holds the trees of the bowtie example's tags. */
  predicate BowtieTags(parsed: map<string, seq<Node>>)
  {
    && CmdTagFor("bowtie") in parsed && parsed[CmdTagFor("bowtie")] == CmdTreeFor("bowtie")
    && DotTag in parsed && parsed[DotTag] == DotTree
    && JoinTag("-1") in parsed && parsed[JoinTag("-1")] == JoinTreeOf("-1")
    && JoinTag("-2") in parsed && parsed[JoinTag("-2")] == JoinTreeOf("-2")
    && JoinTag("--12") in parsed && parsed[JoinTag("--12")] == JoinTreeOf("--12")
    && JoinTag("") in parsed && parsed[JoinTag("")] == JoinTreeOf("")
    && IfDotTag in parsed && parsed[IfDotTag] == IfDotTree
  }

  /** The bowtie record of ExampleBuild_4: no paired or mixed reads. */
  function BowtieRecord(index: string, unpaired: seq<string>, outFile: string): seq<Field>
  {
    Head("Bowtie", CmdTagFor("bowtie"), "bowtie", BowtieOptions(index, unpaired, outFile))
  }

  function BowtieOptions(index: string, unpaired: seq<string>, outFile: string): seq<Field>
  {
    [Field("Index", true, DotTag, Str(index))]
    + ([Field("One", true, JoinTag("-1"), Slice([]))]
    + ([Field("Two", true, JoinTag("-2"), Slice([]))]
    + ([Field("Mixed", true, JoinTag("--12"), Slice([]))]
    + BowtieLastFields(unpaired, outFile))))
  }

  function BowtieLastFields(unpaired: seq<string>, outFile: string): seq<Field>
  {
    [Field("Unpaired", true, JoinTag(""), Slice(Strs(unpaired))),
     Field("OutFile", true, IfDotTag, Str(outFile)), Builder]
  }

  /** What the bowtie record needs of its strings: a non-empty index,
      output file and first unpaired read, and no split tag in any of
      them. */
  predicate BowtieClean(index: string, unpaired: seq<string>, outFile: string)
  {
    && index != "" && Nul !in index
    && unpaired != [] && unpaired[0] != ""
    && (forall k :: 0 <= k < |unpaired| ==> Nul !in unpaired[k])
    && outFile != "" && Nul !in outFile
  }

  /** An empty read list's template renders nothing. */
  predicate NoReads(parsed: map<string, seq<Node>>, prefix: string)
  {
    JoinTag(prefix) in parsed && ExecNodes(parsed[JoinTag(prefix)], 0, Slice([]), Builtins) == Success("")
  }

  /** The renderings the bowtie record's fields need from the parse
      table. */
  predicate BowtieRender(parsed: map<string, seq<Node>>, index: string, unpaired: seq<string>, outFile: string)
  {
    && CmdTagFor("bowtie") in parsed && ExecNodes(parsed[CmdTagFor("bowtie")], 0, Str("bowtie"), Builtins) == Success("bowtie")
    && DotTag in parsed && ExecNodes(parsed[DotTag], 0, Str(index), Builtins) == Success(index)
    && NoReads(parsed, "-1") && NoReads(parsed, "-2") && NoReads(parsed, "--12")
    && JoinTag("") in parsed
    && ExecNodes(parsed[JoinTag("")], 0, Slice(Strs(unpaired)), Builtins) == Success(Join(",", unpaired))
    && IfDotTag in parsed && ExecNodes(parsed[IfDotTag], 0, Str(outFile), Builtins) == Success(outFile)
  }

  /** The bowtie example's trees render as BowtieRender says. */
  lemma BowtieRenders(parsed: map<string, seq<Node>>, index: string, unpaired: seq<string>, outFile: string)
    requires BowtieTags(parsed) && unpaired != []
    ensures BowtieRender(parsed, index, unpaired, outFile)
  {
    CmdRenders("bowtie", "bowtie");
    Dotted(index);
    JoinRenders("-1", []);
    JoinRenders("-2", []);
    JoinRenders("--12", []);
    assert Strs([]) == [];
    JoinRenders("", unpaired);
    assert "" + Join(",", unpaired) == Join(",", unpaired);
    IfDotRenders(outFile);
  }

  /** An empty read list adds nothing. */
  lemma StepNoReads(name: string, prefix: string, rest: seq<Field>, after: seq<string>, parsed: map<string, seq<Node>>)
    requires NoReads(parsed, prefix)
    requires TagsParse(rest, parsed) && Walk(rest, Builtins, parsed) == BuildResult(after, None)
    ensures TagsParse([Field(name, true, JoinTag(prefix), Slice([]))] + rest, parsed)
    ensures Walk([Field(name, true, JoinTag(prefix), Slice([]))] + rest, Builtins, parsed) == BuildResult(after, None)
  {
    StepEmpty(Field(name, true, JoinTag(prefix), Slice([])), rest, after, parsed);
  }

  /** The unpaired reads, the output file and the embedded builder. */
  lemma {:induction false} BowtieLast(index: string, unpaired: seq<string>, outFile: string, parsed: map<string, seq<Node>>)
    requires BowtieRender(parsed, index, unpaired, outFile) && BowtieClean(index, unpaired, outFile)
    ensures TagsParse(BowtieLastFields(unpaired, outFile), parsed)
    ensures Walk(BowtieLastFields(unpaired, outFile), Builtins, parsed)
      == BuildResult([Join(",", unpaired), outFile], None)
  {
    var rs := Field("Unpaired", true, JoinTag(""), Slice(Strs(unpaired)));
    var out := Field("OutFile", true, IfDotTag, Str(outFile));
    var j := Join(",", unpaired);
    assert [rs, out, Builder] == [rs] + ([out] + [Builder]);
    assert Walk([], Builtins, parsed) == BuildResult([], None);
    WalkSkip(Builder, [], parsed);
    assert [Builder] + [] == [Builder];
    StepWord(out, [Builder], outFile, [], parsed);
    JoinShape(",", unpaired);
    JoinClean(",", unpaired);
    StepWord(rs, [out] + [Builder], j, [outFile], parsed);
  }

  /** The nested argument list of the bowtie walk, flattened. */
  lemma BowtieArgsShape(cmd: string, index: string, joined: string, outFile: string)
    ensures [cmd] + ([index] + [joined, outFile]) == [cmd, index, joined, outFile]
  {
  }

  /** bowtie from a pointer to its record, given the renderings of its
      templates. */
  lemma {:induction false} BowtieWalk(index: string, unpaired: seq<string>, outFile: string, parsed: map<string, seq<Node>>)
    requires BowtieRender(parsed, index, unpaired, outFile) && BowtieClean(index, unpaired, outFile)
    ensures Parses(Ptr(Struct(BowtieRecord(index, unpaired, outFile))), parsed)
    ensures BuildOf(Ptr(Struct(BowtieRecord(index, unpaired, outFile))), [], parsed)
      == BuildResult(["bowtie", index, Join(",", unpaired), outFile], None)
  {
    var last := BowtieLastFields(unpaired, outFile);
    var tail := [Join(",", unpaired), outFile];
    BowtieLast(index, unpaired, outFile, parsed);
    StepNoReads("Mixed", "--12", last, tail, parsed);
    var r0 := [Field("Mixed", true, JoinTag("--12"), Slice([]))] + last;
    StepNoReads("Two", "-2", r0, tail, parsed);
    var r1 := [Field("Two", true, JoinTag("-2"), Slice([]))] + r0;
    StepNoReads("One", "-1", r1, tail, parsed);
    var r2 := [Field("One", true, JoinTag("-1"), Slice([]))] + r1;
    StepWord(Field("Index", true, DotTag, Str(index)), r2, index, tail, parsed);
    CleanWords("");
    HeadBuilds("Bowtie", CmdTagFor("bowtie"), "bowtie", "bowtie", BowtieOptions(index, unpaired, outFile),
      [index] + tail, parsed);
    BowtieArgsShape("bowtie", index, Join(",", unpaired), outFile);
  }

  /** bowtie from a pointer to its record: the command name, the index,
      nothing for the empty paired and mixed read lists, the unpaired
      reads joined by commas into one argument, then the output file. */
  lemma BowtieBuild(index: string, unpaired: seq<string>, outFile: string, parsed: map<string, seq<Node>>)
    requires BowtieTags(parsed) && BowtieClean(index, unpaired, outFile)
    ensures Parses(Ptr(Struct(BowtieRecord(index, unpaired, outFile))), parsed)
    ensures BuildOf(Ptr(Struct(BowtieRecord(index, unpaired, outFile))), [], parsed)
      == BuildResult(["bowtie", index, Join(",", unpaired), outFile], None)
  {
    BowtieRenders(parsed, index, unpaired, outFile);
    BowtieWalk(index, unpaired, outFile, parsed);
  }

  /** The strings of the fourth example are clean, and its reads join
      into the documented argument. */
  lemma BowtieExampleArgs()
    ensures BowtieClean("ebwt", ["a.fa", "b.fa", "c.fa", "d.fa", "e.fa"], "oufile")
    ensures Join(",", ["a.fa", "b.fa", "c.fa", "d.fa", "e.fa"]) == "a.fa,b.fa,c.fa,d.fa,e.fa"
  {
    var rs := ["a.fa", "b.fa", "c.fa", "d.fa", "e.fa"];
    assert rs[1..] == ["b.fa", "c.fa", "d.fa", "e.fa"];
    assert rs[1..][1..] == ["c.fa", "d.fa", "e.fa"];
    assert rs[1..][1..][1..] == ["d.fa", "e.fa"];
    assert rs[1..][1..][1..][1..] == ["e.fa"];
  }

  /** The record of the package's fourth example gives its documented
      output. */
  lemma BowtieExample(parsed: map<string, seq<Node>>)
    requires BowtieTags(parsed)
    ensures Parses(Ptr(Struct(BowtieRecord("ebwt", ["a.fa", "b.fa", "c.fa", "d.fa", "e.fa"], "oufile"))), parsed)
    ensures BuildOf(Ptr(Struct(BowtieRecord("ebwt", ["a.fa", "b.fa", "c.fa", "d.fa", "e.fa"], "oufile"))), [], parsed)
      == BuildResult(["bowtie", "ebwt", "a.fa,b.fa,c.fa,d.fa,e.fa", "oufile"], None)
  {
    var rs := ["a.fa", "b.fa", "c.fa", "d.fa", "e.fa"];
    BowtieExampleArgs();
    BowtieBuild("ebwt", rs, "oufile", parsed);
  }

  /** A value that is not a struct (here a string) is refused. */
  lemma NotAStructExample(parsed: map<string, seq<Node>>)
    ensures Parses(Str("samtools"), parsed)
    ensures BuildOf(Str("samtools"), [], parsed) == BuildResult([], Some(NotAStruct))
  {
  }
}
