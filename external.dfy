/** The argument builder of external.go: the template helpers join, args,
    split, mprintf and quote, the NUL tokenizer, the helper table and Build,
    which walks a configuration struct's fields and turns each `buildarg`
    template into command-line arguments. */
module External {
  import opened Wrappers
  import opened Values
  import Fmt
  import opened Template

  /** The split tag: the NUL character, which marks argument boundaries in
      rendered text and never appears in an argument. */
  const Nul: char := 0 as char

  // ---------------------------------------------------------------------
  // Strings: strings.Join, strings.Split and the tokenizer
  // ---------------------------------------------------------------------

  /** split(): the split tag as a one-character string
      (SplitAddsNoArgument: on its own it adds no argument). */
  function Split(): (r: string)
    ensures |r| == 1 && Nul in r
  {
    [Nul]
  }

  /** The number of characters in all of `a`. */
  function TotalLength(a: seq<string>): nat
  {
    if a == [] then 0 else |a[0]| + TotalLength(a[1..])
  }

  /** join(sep, a), which is strings.Join(a, sep): the elements of `a`
      with `sep` between neighbours (JoinShape, SplitJoin). */
  function Join(sep: string, a: seq<string>): string
  {
    if a == [] then ""
    else if |a| == 1 then a[0]
    else a[0] + sep + Join(sep, a[1..])
  }

  /** join's length and first element: with no elements it is empty;
      otherwise it is as long as the elements plus one separator per
      neighbouring pair, and it starts with the first element
      (JoinConcat says what sits between the elements). */
  lemma {:induction false} JoinShape(sep: string, a: seq<string>)
    ensures a == [] ==> Join(sep, a) == ""
    ensures a != [] ==> |Join(sep, a)| == TotalLength(a) + (|a| - 1) * |sep|
    ensures a != [] ==> |a[0]| <= |Join(sep, a)| && Join(sep, a)[..|a[0]|] == a[0]
  {
    if |a| > 1 {
      JoinShape(sep, a[1..]);
      assert (|a| - 1) * |sep| == (|a| - 2) * |sep| + |sep|;
    }
  }

  /** Joining two non-empty lists is joining each, with one separator
      between the two results: the separator sits exactly between
      neighbouring elements. */
  lemma {:induction false} JoinConcat(sep: string, a: seq<string>, b: seq<string>)
    requires a != [] && b != []
    ensures Join(sep, a + b) == Join(sep, a) + sep + Join(sep, b)
  {
    assert (a + b)[0] == a[0];
    if |a| == 1 {
      assert (a + b)[1..] == b;
    } else {
      assert (a + b)[1..] == a[1..] + b;
      JoinConcat(sep, a[1..], b);
    }
  }

  /** args(a), which is splitargs: the elements of `a` joined by the split
      tag (ArgsTokens: tokenizing it gives back the non-empty
      elements). */
  function SplitArgs(a: seq<string>): string
  {
    Join(Split(), a)
  }

  /** args(a) adds one character per neighbouring pair. */
  lemma {:induction false} ArgsLength(a: seq<string>)
    ensures a != [] ==> |SplitArgs(a)| == TotalLength(a) + |a| - 1
  {
    JoinShape(Split(), a);
  }

  /** args(a + b) is args(a), the split tag, then args(b): the one
      character between neighbouring elements is the split tag. */
  lemma {:induction false} ArgsConcat(a: seq<string>, b: seq<string>)
    requires a != [] && b != []
    ensures SplitArgs(a + b) == SplitArgs(a) + [Nul] + SplitArgs(b)
  {
    JoinConcat(Split(), a, b);
  }

  /** strings.Split(s, string(c)): the pieces of `s` between occurrences of
      `c`, in order. There is always at least one piece, and no piece
      contains `c`. */
  function SplitOn(s: string, c: char): (r: seq<string>)
    ensures |r| >= 1
    ensures forall k :: 0 <= k < |r| ==> c !in r[k]
  {
    if s == [] then [""]
    else
      var rest := SplitOn(s[1..], c);
      if s[0] == c then [""] + rest else [[s[0]] + rest[0]] + rest[1..]
  }

  /** The non-empty strings of `ps`, in their order. */
  function NonEmpty(ps: seq<string>): (r: seq<string>)
    ensures forall t :: t in r ==> t in ps && t != ""
    ensures forall t :: t in ps && t != "" ==> t in r
  {
    if ps == [] then []
    else
      var last := ps[|ps| - 1];
      NonEmpty(ps[..|ps| - 1]) + (if last == "" then [] else [last])
  }

  /** The arguments one field contributes: its rendered text split on the
      split tag, with empty pieces dropped. */
  function Tokens(text: string): (r: seq<string>)
    ensures forall t :: t in r ==> t != "" && Nul !in t
  {
    NonEmpty(SplitOn(text, Nul))
  }

  lemma {:induction false} SplitOnWithout(s: string, c: char)
    requires c !in s
    ensures SplitOn(s, c) == [s]
  {
    if s != [] {
      assert s[0] != c && s == [s[0]] + s[1..];
      SplitOnWithout(s[1..], c);
    }
  }

  /** A separator splits the pieces of its two sides apart. */
  lemma {:induction false} SplitOnConcat(a: string, b: string, c: char)
    ensures SplitOn(a + [c] + b, c) == SplitOn(a, c) + SplitOn(b, c)
  {
    if a == [] {
      assert (a + [c] + b)[1..] == b;
    } else {
      assert (a + [c] + b)[1..] == a[1..] + [c] + b;
      SplitOnConcat(a[1..], b, c);
    }
  }

  /** strings.Split undoes strings.Join when no element holds the
      separator. */
  lemma {:induction false} SplitJoin(a: seq<string>, c: char)
    requires |a| >= 1
    requires forall k :: 0 <= k < |a| ==> c !in a[k]
    ensures SplitOn(Join([c], a), c) == a
  {
    if |a| == 1 {
      SplitOnWithout(a[0], c);
    } else {
      SplitOnConcat(a[0], Join([c], a[1..]), c);
      SplitOnWithout(a[0], c);
      SplitJoin(a[1..], c);
    }
  }

  /** strings.Join undoes strings.Split. */
  lemma {:induction false} JoinSplit(s: string, c: char)
    ensures Join([c], SplitOn(s, c)) == s
  {
    if s != [] {
      var rest := SplitOn(s[1..], c);
      JoinSplit(s[1..], c);
      if s[0] != c && |rest| > 1 {
        assert Join([c], rest) == rest[0] + [c] + Join([c], rest[1..]);
        assert s == [s[0]] + s[1..];
      }
    }
  }

  lemma {:induction false} NonEmptyConcat(a: seq<string>, b: seq<string>)
    ensures NonEmpty(a + b) == NonEmpty(a) + NonEmpty(b)
  {
    if b != [] {
      assert (a + b)[..|a + b| - 1] == a + b[..|b| - 1];
      NonEmptyConcat(a, b[..|b| - 1]);
    } else {
      assert a + b == a;
    }
  }

  lemma TokensOfEmpty()
    ensures Tokens("") == []
  {
    assert SplitOn("", Nul) == [""];
    assert NonEmpty([""]) == NonEmpty([]) + [];
  }

  /** A split tag on its own only separates: it adds no argument. */
  lemma SplitAddsNoArgument()
    ensures Tokens(Split()) == []
  {
    assert SplitOn([Nul], Nul) == [""] + SplitOn([], Nul);
    assert NonEmpty(["", ""]) == NonEmpty([""]) + [];
    assert NonEmpty([""]) == NonEmpty([]) + [];
  }

  /** Tokenizing two texts joined by the split tag gives the tokens of the
      first followed by the tokens of the second. */
  lemma TokensConcat(a: string, b: string)
    ensures Tokens(a + [Nul] + b) == Tokens(a) + Tokens(b)
  {
    SplitOnConcat(a, b, Nul);
    NonEmptyConcat(SplitOn(a, Nul), SplitOn(b, Nul));
  }

  /** The args/tokenize round trip: tokenizing args(a) gives back exactly
      the non-empty elements of `a`, in order, when no element holds the
      split tag. */
  lemma ArgsTokens(a: seq<string>)
    requires forall k :: 0 <= k < |a| ==> Nul !in a[k]
    ensures Tokens(SplitArgs(a)) == NonEmpty(a)
  {
    if a == [] {
      assert SplitOn("", Nul) == [""];
      assert NonEmpty([""]) == NonEmpty([]) + [];
    } else {
      SplitJoin(a, Nul);
    }
  }

  /** Tokenizing args(ts) is tokenizing each text in turn. */
  lemma ArgsTokensCons(t: string, ts: seq<string>)
    ensures Tokens(SplitArgs([t] + ts)) == Tokens(t) + Tokens(SplitArgs(ts))
  {
    if ts == [] {
      assert SplitOn("", Nul) == [""];
      assert NonEmpty([""]) == NonEmpty([]) + [];
    } else {
      assert ([t] + ts)[1..] == ts;
      TokensConcat(t, SplitArgs(ts));
    }
  }

  // ---------------------------------------------------------------------
  // mprintf and quote
  // ---------------------------------------------------------------------

  /** fmt.Sprintf(format, e) for each element, in order. */
  function FormatEach(format: string, es: seq<Value>): (r: seq<string>)
    ensures |r| == |es|
    ensures forall i :: 0 <= i < |es| ==> r[i] == Fmt.Sprintf(format, es[i])
  {
    if es == [] then [] else [Fmt.Sprintf(format, es[0])] + FormatEach(format, es[1..])
  }

  function Strs(ss: seq<string>): seq<Value>
  {
    seq(|ss|, i requires 0 <= i < |ss| => Str(ss[i]))
  }

  const NotSliceOrArray: string := "not a slice or array type"

  /** mprintf(format, x): after one pointer is followed, a
      slice or array gives one formatted string per element; anything else
      is an error. */
  function MprintfOf(format: string, x: Value): (r: Result<seq<string>, string>)
    ensures r.Success? <==> Indirect(x).Slice? || Indirect(x).Array?
    ensures r.Success? ==> |r.value| == |Indirect(x).elems|
    ensures r.Success? ==> forall i :: 0 <= i < |r.value| ==>
      r.value[i] == Fmt.Sprintf(format, Indirect(x).elems[i])
    ensures r.Failure? ==> r.error == NotSliceOrArray
  {
    match Indirect(x)
    case Slice(es) => Success(FormatEach(format, es))
    case Array(es) => Success(FormatEach(format, es))
    case _ => Failure(NotSliceOrArray)
  }

  /** mprintf as external.go writes it: a fresh slice of the element count,
      filled index by index. */
  method Mprintf(format: string, x: Value) returns (f: seq<string>, err: Option<string>)
    ensures err.None? ==> MprintfOf(format, x) == Success(f)
    ensures err.Some? ==> MprintfOf(format, x) == Failure(err.value) && f == []
  {
    var v := Indirect(x);
    if !(v.Slice? || v.Array?) {
      return [], Some(NotSliceOrArray);
    }
    var es := v.elems;
    var l := |es|;
    var a := new string[l];
    for i := 0 to l
      invariant forall j :: 0 <= j < i ==> a[j] == Fmt.Sprintf(format, es[j])
    {
      a[i] := Fmt.Sprintf(format, es[i]);
    }
    assert a[..] == FormatEach(format, es);
    f, err := a[..], None;
  }

  /** The message quote panics with when given a map. */
  const MapQuoting: string := "external: map quoting not handled"

  /** quote(x): a slice gives a slice of its elements quoted with %q; a map
      is refused; any other value (a pointer is not followed) is quoted as
      a whole. */
  function QuoteOf(x: Value): (r: Result<Value, string>)
    ensures r.Failure? <==> x.Map?
    ensures x.Slice? ==> r.Success? && r.value.Slice? && |r.value.elems| == |x.elems|
    ensures x.Slice? ==> forall i :: 0 <= i < |x.elems| ==>
      r.value.elems[i] == Str(Fmt.Sprintf("%q", x.elems[i]))
    ensures !x.Slice? && !x.Map? ==> r == Success(Str(Fmt.Sprintf("%q", x)))
  {
    match x
    case Slice(es) => Success(Slice(Strs(FormatEach("%q", es))))
    case Map(_) => Failure(MapQuoting)
    case _ => Success(Str(Fmt.Sprintf("%q", x)))
  }

  /** quote as external.go writes it; its panic on a map is returned here
      as the error. */
  method Quote(x: Value) returns (r: Result<Value, string>)
    ensures r == QuoteOf(x)
  {
    match x {
      case Slice(es) =>
        var q := new string[|es|];
        for i := 0 to |es|
          invariant forall j :: 0 <= j < i ==> q[j] == Fmt.Sprintf("%q", es[j])
        {
          q[i] := Fmt.Sprintf("%q", es[i]);
        }
        assert q[..] == FormatEach("%q", es);
        r := Success(Slice(Strs(q[..])));
      case Map(_) =>
        r := Failure(MapQuoting);
      case _ =>
        r := Success(Str(Fmt.Sprintf("%q", x)));
    }
  }

  // ---------------------------------------------------------------------
  // The helper table
  // ---------------------------------------------------------------------

  function WrongArgs(fn: string, want: nat, got: nat): string
  {
    "wrong number of args for " + fn + ": want " + Fmt.IntToString(want) + " got " + Fmt.IntToString(got)
  }

  /** A template argument passed to a `string` parameter: a string, or a
      pointer to one. */
  function AsString(v: Value): Option<string>
  {
    match v
    case Str(s) => Some(s)
    case Ptr(Str(s)) => Some(s)
    case _ => None
  }

  function StringElems(es: seq<Value>): Option<seq<string>>
  {
    if es == [] then Some([])
    else if !es[0].Str? then None
    else
      match StringElems(es[1..])
      case None => None
      case Some(rest) => Some([es[0].s] + rest)
  }

  /** A template argument passed to a `[]string` parameter: a slice of
      strings, a pointer to one, or nil (an empty slice). */
  function AsStrings(v: Value): Option<seq<string>>
  {
    match v
    case Nil => Some([])
    case Slice(es) => StringElems(es)
    case Ptr(Slice(es)) => StringElems(es)
    case _ => None
  }

  /** A list of strings passed as a template argument is read back as
      that list. */
  lemma {:induction false} StringElemsOfStrs(a: seq<string>)
    ensures StringElems(Strs(a)) == Some(a)
  {
    if a != [] {
      assert Strs(a)[1..] == Strs(a[1..]);
      StringElemsOfStrs(a[1..]);
      assert a == [a[0]] + a[1..];
    }
  }

  const ExpectedString: string := "wrong type for value; expected string"
  const ExpectedStrings: string := "wrong type for value; expected []string"

  /** join as a template calls it: two arguments, a string and a list of
      strings, give join's result; the argument count is checked first,
      then each argument's type. */
  function CallJoin(args: seq<Value>): (r: Result<Value, string>)
    ensures |args| != 2 ==> r == Failure(WrongArgs("join", 2, |args|))
    ensures r.Success? <==> |args| == 2 && AsString(args[0]).Some? && AsStrings(args[1]).Some?
    ensures r.Success? ==> r.value == Str(Join(AsString(args[0]).value, AsStrings(args[1]).value))
  {
    if |args| != 2 then Failure(WrongArgs("join", 2, |args|))
    else if AsString(args[0]).None? then Failure(ExpectedString)
    else if AsStrings(args[1]).None? then Failure(ExpectedStrings)
    else Success(Str(Join(AsString(args[0]).value, AsStrings(args[1]).value)))
  }

  /** args as a template calls it: one list of strings gives the list
      joined by the split tag. */
  function CallArgs(args: seq<Value>): (r: Result<Value, string>)
    ensures |args| != 1 ==> r == Failure(WrongArgs("args", 1, |args|))
    ensures r.Success? <==> |args| == 1 && AsStrings(args[0]).Some?
    ensures r.Success? ==> r.value == Str(SplitArgs(AsStrings(args[0]).value))
  {
    if |args| != 1 then Failure(WrongArgs("args", 1, |args|))
    else if AsStrings(args[0]).None? then Failure(ExpectedStrings)
    else Success(Str(SplitArgs(AsStrings(args[0]).value)))
  }

  /** split as a template calls it: no arguments, and the result is the
      split tag, which on its own adds no argument. */
  function CallSplit(args: seq<Value>): (r: Result<Value, string>)
    ensures r.Success? <==> args == []
    ensures r.Failure? ==> r.error == WrongArgs("split", 0, |args|)
    ensures r.Success? ==> r.value == Str(Split())
  {
    if |args| != 0 then Failure(WrongArgs("split", 0, |args|))
    else Success(Str(Split()))
  }

  /** quote as a template calls it: one argument; a map is an execution
      error carrying quote's panic message, a slice gives a slice of the
      same length, anything else one quoted string. */
  function CallQuote(args: seq<Value>): (r: Result<Value, string>)
    ensures |args| != 1 ==> r == Failure(WrongArgs("quote", 1, |args|))
    ensures |args| == 1 ==> (r.Failure? <==> args[0].Map?)
    ensures |args| == 1 && args[0].Map? ==> r == Failure("error calling quote: " + MapQuoting)
    ensures |args| == 1 && args[0].Slice? ==> r.Success? && r.value.Slice? && |r.value.elems| == |args[0].elems|
    ensures |args| == 1 && !args[0].Slice? && !args[0].Map? ==> r == Success(Str(Fmt.Sprintf("%q", args[0])))
  {
    if |args| != 1 then Failure(WrongArgs("quote", 1, |args|))
    else
      match QuoteOf(args[0])
      case Failure(e) => Failure("error calling quote: " + e)
      case Success(q) => Success(q)
  }

  /** mprintf as a template calls it: a format string and a value; a slice
      or array, after one indirection, gives a list with one formatted
      string per element, anything else an execution error. */
  function CallMprintf(args: seq<Value>): (r: Result<Value, string>)
    ensures |args| != 2 ==> r == Failure(WrongArgs("mprintf", 2, |args|))
    ensures |args| == 2 && AsString(args[0]).Some? ==>
      (r.Success? <==> Indirect(args[1]).Slice? || Indirect(args[1]).Array?)
    ensures r.Success? ==>
      && |args| == 2 && AsString(args[0]).Some? && r.value.Slice?
      && |r.value.elems| == |Indirect(args[1]).elems|
      && forall i :: 0 <= i < |r.value.elems| ==>
           r.value.elems[i] == Str(Fmt.Sprintf(AsString(args[0]).value, Indirect(args[1]).elems[i]))
  {
    if |args| != 2 then Failure(WrongArgs("mprintf", 2, |args|))
    else if AsString(args[0]).None? then Failure(ExpectedString)
    else
      match MprintfOf(AsString(args[0]).value, args[1])
      case Failure(e) => Failure("error calling mprintf: " + e)
      case Success(f) => Success(Slice(Strs(f)))
  }

  /** The built-in helpers Build installs in every template. */
  const Builtins: FuncMap := map[
    "join" := CallJoin,
    "args" := CallArgs,
    "split" := CallSplit,
    "quote" := CallQuote,
    "mprintf" := CallMprintf
  ]

  /** The helper table names exactly the five helpers, and a template call
      with arguments of each helper's Go parameter types returns what the
      helper returns. */
  lemma BuiltinHelpers(sep: string, a: seq<string>, format: string, x: Value)
    ensures Builtins.Keys == {"join", "args", "split", "quote", "mprintf"}
    ensures Builtins["join"]([Str(sep), Slice(Strs(a))]) == Success(Str(Join(sep, a)))
    ensures Builtins["args"]([Slice(Strs(a))]) == Success(Str(SplitArgs(a)))
    ensures Builtins["split"]([]) == Success(Str(Split()))
    ensures !x.Map? ==> Builtins["quote"]([x]) == QuoteOf(x)
    ensures MprintfOf(format, x).Success? ==>
      Builtins["mprintf"]([Str(format), x]) == Success(Slice(Strs(MprintfOf(format, x).value)))
    ensures MprintfOf(format, x).Failure? ==>
      Builtins["mprintf"]([Str(format), x]).Failure?
  {
    StringElemsOfStrs(a);
  }

  /** The table after tmpl.Funcs(fm) has been called with each caller map in
      turn: each call adds its entries, replacing any of the same name. */
  function Overlay(base: FuncMap, funcs: seq<FuncMap>): FuncMap
  {
    if funcs == [] then base
    else Overlay(base, funcs[..|funcs| - 1]) + funcs[|funcs| - 1]
  }

  /** No map after funcs[k] defines `name`. */
  predicate LastDefines(funcs: seq<FuncMap>, k: nat, name: string)
  {
    forall j :: k < j < |funcs| ==> name !in funcs[j]
  }

  /** Helper precedence, presence: a name is defined when the base or
      some caller map defines it. */
  lemma {:induction false} OverlayDefines(base: FuncMap, funcs: seq<FuncMap>, name: string)
    ensures name in Overlay(base, funcs) <==>
      name in base || exists k :: 0 <= k < |funcs| && name in funcs[k]
  {
    if funcs != [] {
      var init := funcs[..|funcs| - 1];
      OverlayDefines(base, init, name);
      assert forall k :: 0 <= k < |init| ==> init[k] == funcs[k];
    }
  }

  /** Helper precedence, later wins: the last caller map that defines a
      name gives its entry. */
  lemma {:induction false} OverlayLastWins(base: FuncMap, funcs: seq<FuncMap>, name: string, k: nat)
    requires k < |funcs| && name in funcs[k] && LastDefines(funcs, k, name)
    ensures name in Overlay(base, funcs) && Overlay(base, funcs)[name] == funcs[k][name]
  {
    var init := funcs[..|funcs| - 1];
    if k < |funcs| - 1 {
      assert init[k] == funcs[k];
      assert LastDefines(init, k, name);
      OverlayLastWins(base, init, name, k);
    }
  }

  /** Helper precedence, built-ins: a base entry survives when no caller
      map defines the name. */
  lemma {:induction false} OverlayKeepsBase(base: FuncMap, funcs: seq<FuncMap>, name: string)
    requires name in base && forall k :: 0 <= k < |funcs| ==> name !in funcs[k]
    ensures name in Overlay(base, funcs) && Overlay(base, funcs)[name] == base[name]
  {
    if funcs != [] {
      var init := funcs[..|funcs| - 1];
      assert forall k :: 0 <= k < |init| ==> init[k] == funcs[k];
      OverlayKeepsBase(base, init, name);
    }
  }

  /** The helper table Build assembles for each template: the built-ins,
      then each caller map in argument order. */
  method NewFuncs(funcs: seq<FuncMap>) returns (table: FuncMap)
    ensures table == Overlay(Builtins, funcs)
  {
    table := Builtins;
    for k := 0 to |funcs|
      invariant table == Overlay(Builtins, funcs[..k])
    {
      assert funcs[..k + 1][..k] == funcs[..k];
      table := table + funcs[k];
    }
    assert funcs[..|funcs|] == funcs;
  }

  // ---------------------------------------------------------------------
  // Build
  // ---------------------------------------------------------------------

  /** The bytes.Buffer a template writes into. */
  class Buffer {
    var contents: string

    constructor ()
      ensures contents == ""
    {
      contents := "";
    }

    function Len(): nat
      reads this
    {
      |contents|
    }

    function String(): string
      reads this
    {
      contents
    }

    method WriteString(s: string)
      modifies this
      ensures contents == old(contents) + s
    {
      contents := contents + s;
    }

    method Reset()
      modifies this
      ensures contents == ""
    {
      contents := "";
    }
  }

  datatype Error =
    | NotAStruct            // "external: not a struct"
    | ExecError(msg: string) // a template execution error

  datatype BuildResult = BuildResult(args: seq<string>, err: Option<Error>)

  /** A field Build renders: exported, with a non-empty buildarg tag. */
  predicate Annotated(f: Field)
  {
    f.exported && f.tag != ""
  }

  /** Every tag Build would render has a parsed template: `parsed` maps
      tag text to its tree. Tags are not parsed here, so a call to a
      function missing from the helper table is found when the template
      runs, not when it is parsed. */
  predicate TagsParse(fs: seq<Field>, parsed: map<string, seq<Node>>)
  {
    forall f :: f in fs && Annotated(f) ==> f.tag in parsed
  }

  predicate Parses(cb: Value, parsed: map<string, seq<Node>>)
  {
    Indirect(cb).Struct? ==> TagsParse(Indirect(cb).fields, parsed)
  }

  /** The text one annotated field's template renders, executed with the
      field's value as dot. */
  function FieldText(f: Field, table: FuncMap, parsed: map<string, seq<Node>>): Result<string, Error>
    requires Annotated(f) && f.tag in parsed
  {
    match Execute(f.name, parsed[f.tag], f.value, table)
    case Failure(e) => Failure(ExecError(e))
    case Success(t) => Success(t)
  }

  /** The fields' arguments, in declaration order; the first render error
      stops the walk and is returned with the arguments gathered before
      it (WalkArgsClean: every argument is non-empty and free of the
      split tag). */
  function Walk(fs: seq<Field>, table: FuncMap, parsed: map<string, seq<Node>>): (r: BuildResult)
    requires TagsParse(fs, parsed)
  {
    if fs == [] then BuildResult([], None)
    else
      assert fs[0] in fs;
      if !Annotated(fs[0]) then Walk(fs[1..], table, parsed)
      else
        match FieldText(fs[0], table, parsed)
        case Failure(e) => BuildResult([], Some(e))
        case Success(text) =>
          var rest := Walk(fs[1..], table, parsed);
          BuildResult(Tokens(text) + rest.args, rest.err)
  }

  /** No argument Build returns is empty or holds the split tag: empty
      pieces of a split are dropped, whatever the templates render. */
  lemma {:induction false} WalkArgsClean(fs: seq<Field>, table: FuncMap, parsed: map<string, seq<Node>>)
    requires TagsParse(fs, parsed)
    ensures forall t :: t in Walk(fs, table, parsed).args ==> t != "" && Nul !in t
  {
    if fs != [] {
      assert fs[0] in fs;
      WalkArgsClean(fs[1..], table, parsed);
    }
  }

  /** Build(cb, funcs...): a value that is not a struct after one pointer
      is followed gives no arguments and NotAStruct;
      otherwise the struct's fields are walked with the built-in helpers
      overlaid by the caller maps. */
  function BuildOf(cb: Value, funcs: seq<FuncMap>, parsed: map<string, seq<Node>>): (r: BuildResult)
    requires Parses(cb, parsed)
    ensures !Indirect(cb).Struct? ==> r == BuildResult([], Some(NotAStruct))
  {
    match Indirect(cb)
    case Struct(fs) => Walk(fs, Overlay(Builtins, funcs), parsed)
    case _ => BuildResult([], Some(NotAStruct))
  }

  /** One step of the walk, stated for the loop of Build. */
  lemma WalkStep(fs: seq<Field>, table: FuncMap, parsed: map<string, seq<Node>>)
    requires TagsParse(fs, parsed) && fs != []
    ensures fs[0] in fs && TagsParse(fs[1..], parsed)
    ensures Walk(fs, table, parsed) ==
      if !Annotated(fs[0]) then Walk(fs[1..], table, parsed)
      else if FieldText(fs[0], table, parsed).Failure? then
        BuildResult([], Some(FieldText(fs[0], table, parsed).error))
      else Prepend(Tokens(FieldText(fs[0], table, parsed).value), Walk(fs[1..], table, parsed))
  {
    assert fs[0] in fs;
  }

  function Prepend(args: seq<string>, r: BuildResult): BuildResult
  {
    BuildResult(args + r.args, r.err)
  }

  /** The inner loop of Build: split the buffer's text on the split tag and
      append each non-empty piece. */
  method AppendTokens(args: seq<string>, text: string) returns (out: seq<string>)
    ensures out == args + Tokens(text)
  {
    var pieces := SplitOn(text, Nul);
    out := args;
    for j := 0 to |pieces|
      invariant out == args + NonEmpty(pieces[..j])
    {
      assert pieces[..j + 1][..j] == pieces[..j];
      if |pieces[j]| > 0 {
        out := out + [pieces[j]];
      }
    }
    assert pieces[..|pieces|] == pieces;
  }

  /** One rendered field through the buffer: the text is written, its
      non-empty pieces are appended when the buffer is not empty, and the
      buffer is reset for the next field. */
  method Emit(b: Buffer, args: seq<string>, text: string) returns (out: seq<string>)
    requires b.contents == ""
    modifies b
    ensures b.contents == "" && out == args + Tokens(text)
  {
    b.WriteString(text);
    assert b.String() == text;
    if b.Len() > 0 {
      out := AppendTokens(args, b.String());
    } else {
      TokensOfEmpty();
      out := args;
    }
    b.Reset();
  }

  /** The walk after `fields[..i]`, as Build's loop sees it: `args` holds
      the tokens gathered so far. */
  predicate WalkedTo(fields: seq<Field>, i: nat, args: seq<string>, table: FuncMap, parsed: map<string, seq<Node>>)
    requires i <= |fields|
  {
    TagsParse(fields[i..], parsed) && TagsParse(fields, parsed)
    && Prepend(args, Walk(fields[i..], table, parsed)) == Walk(fields, table, parsed)
  }

  /** A field Build skips leaves the gathered tokens as they are. */
  lemma WalkedPastSkip(fields: seq<Field>, i: nat, args: seq<string>, table: FuncMap, parsed: map<string, seq<Node>>)
    requires i < |fields| && WalkedTo(fields, i, args, table, parsed) && !Annotated(fields[i])
    ensures WalkedTo(fields, i + 1, args, table, parsed)
  {
    assert fields[i..][0] == fields[i] && fields[i..][1..] == fields[i + 1..];
    WalkStep(fields[i..], table, parsed);
  }

  /** A field that renders adds the tokens of its text. */
  lemma WalkedPastRender(fields: seq<Field>, i: nat, args: seq<string>, table: FuncMap, parsed: map<string, seq<Node>>)
    requires i < |fields| && WalkedTo(fields, i, args, table, parsed) && Annotated(fields[i])
    requires fields[i].tag in parsed && FieldText(fields[i], table, parsed).Success?
    ensures WalkedTo(fields, i + 1, args + Tokens(FieldText(fields[i], table, parsed).value), table, parsed)
  {
    assert fields[i..][0] == fields[i] && fields[i..][1..] == fields[i + 1..];
    WalkStep(fields[i..], table, parsed);
  }

  /** A field whose template fails ends the walk with that error. */
  lemma WalkedToError(fields: seq<Field>, i: nat, args: seq<string>, table: FuncMap, parsed: map<string, seq<Node>>)
    requires i < |fields| && WalkedTo(fields, i, args, table, parsed) && Annotated(fields[i])
    requires fields[i].tag in parsed && FieldText(fields[i], table, parsed).Failure?
    ensures Walk(fields, table, parsed) == BuildResult(args, Some(FieldText(fields[i], table, parsed).error))
  {
    assert fields[i..][0] == fields[i] && fields[i..][1..] == fields[i + 1..];
    WalkStep(fields[i..], table, parsed);
  }

  /** Build as external.go writes it: one loop over the fields, one reused
      buffer, reset after each rendered field. */
  method Build(cb: Value, funcs: seq<FuncMap>, parsed: map<string, seq<Node>>)
    returns (args: seq<string>, err: Option<Error>)
    requires Parses(cb, parsed)
    ensures BuildResult(args, err) == BuildOf(cb, funcs, parsed)
  {
    var v := Indirect(cb);
    if !v.Struct? {
      return [], Some(NotAStruct);
    }
    var fields := v.fields;
    var n := |fields|;
    var b := new Buffer();
    ghost var table := Overlay(Builtins, funcs);
    args, err := [], None;
    assert fields[0..] == fields;
    for i := 0 to n
      invariant b.contents == ""
      invariant WalkedTo(fields, i, args, table, parsed)
    {
      var f := fields[i];
      if !f.exported || f.tag == "" {
        WalkedPastSkip(fields, i, args, table, parsed);
      } else {
        assert fields[i] in fields;
        var fm := NewFuncs(funcs);
        assert fm == table;
        var r := FieldText(f, fm, parsed);
        if r.Failure? {
          WalkedToError(fields, i, args, table, parsed);
          return args, Some(r.error);
        }
        WalkedPastRender(fields, i, args, table, parsed);
        args := Emit(b, args, r.value);
      }
    }
    assert fields[n..] == [];
  }

  // ---------------------------------------------------------------------
  // Properties of the walk
  // ---------------------------------------------------------------------

  /** The fields Build renders, in declaration order. */
  function Annotations(fs: seq<Field>): seq<Field>
  {
    if fs == [] then []
    else if Annotated(fs[0]) then [fs[0]] + Annotations(fs[1..])
    else Annotations(fs[1..])
  }

  /** Skipped fields: dropping every unexported or untagged field changes
      neither the arguments nor the error. */
  lemma {:induction false} WalkIgnoresUnannotated(fs: seq<Field>, table: FuncMap, parsed: map<string, seq<Node>>)
    requires TagsParse(fs, parsed)
    ensures TagsParse(Annotations(fs), parsed)
    ensures Walk(fs, table, parsed) == Walk(Annotations(fs), table, parsed)
  {
    if fs != [] {
      assert fs[0] in fs;
      WalkIgnoresUnannotated(fs[1..], table, parsed);
      if Annotated(fs[0]) {
        var a := Annotations(fs);
        assert a[0] == fs[0] && a[1..] == Annotations(fs[1..]);
      }
    }
  }

  /** A record none of whose fields is rendered builds no arguments and no
      error. */
  lemma {:induction false} NoTemplatesNoArgs(fs: seq<Field>, table: FuncMap, parsed: map<string, seq<Node>>)
    requires forall k :: 0 <= k < |fs| ==> !Annotated(fs[k])
    ensures TagsParse(fs, parsed)
    ensures Walk(fs, table, parsed) == BuildResult([], None)
  {
    if fs != [] {
      NoTemplatesNoArgs(fs[1..], table, parsed);
    }
  }

  /** Partial result on error: when field k is the first rendered field
      whose template fails, the walk returns that field's error with
      exactly the arguments of the fields before it; later fields play no
      part. */
  lemma {:induction false} WalkStopsAtFirstError(fs: seq<Field>, table: FuncMap, parsed: map<string, seq<Node>>, k: nat)
    requires TagsParse(fs, parsed)
    requires k < |fs| && Annotated(fs[k]) && fs[k].tag in parsed
    requires FieldText(fs[k], table, parsed).Failure?
    requires forall j :: 0 <= j < k && Annotated(fs[j]) ==>
      fs[j].tag in parsed && FieldText(fs[j], table, parsed).Success?
    ensures TagsParse(fs[..k], parsed)
    ensures Walk(fs[..k], table, parsed).err == None
    ensures Walk(fs, table, parsed) ==
      BuildResult(Walk(fs[..k], table, parsed).args, Some(FieldText(fs[k], table, parsed).error))
  {
    if k == 0 {
      assert fs[..k] == [];
    } else {
      assert fs[0] in fs;
      assert fs[..k][1..] == fs[1..][..k - 1];
      assert fs[..k][0] == fs[0];
      WalkStopsAtFirstError(fs[1..], table, parsed, k - 1);
    }
  }

  /** The rendered texts of the rendered fields, in declaration order, or
      the first render error. */
  function Rendered(fs: seq<Field>, table: FuncMap, parsed: map<string, seq<Node>>): Result<seq<string>, Error>
    requires TagsParse(fs, parsed)
  {
    if fs == [] then Success([])
    else
      assert fs[0] in fs;
      if !Annotated(fs[0]) then Rendered(fs[1..], table, parsed)
      else
        match FieldText(fs[0], table, parsed)
        case Failure(e) => Failure(e)
        case Success(t) =>
          match Rendered(fs[1..], table, parsed)
          case Failure(e) => Failure(e)
          case Success(ts) => Success([t] + ts)
  }

  /** Result shape: the walk fails exactly when some rendered field fails,
      with the first such error; on success its arguments are the tokens of
      all rendered texts joined by the split tag, that is, each field's
      tokens in declaration order. */
  lemma {:induction false} WalkTokenizesRendered(fs: seq<Field>, table: FuncMap, parsed: map<string, seq<Node>>)
    requires TagsParse(fs, parsed)
    ensures Walk(fs, table, parsed).err.None? <==> Rendered(fs, table, parsed).Success?
    ensures Rendered(fs, table, parsed).Failure? ==>
      Walk(fs, table, parsed).err == Some(Rendered(fs, table, parsed).error)
    ensures Rendered(fs, table, parsed).Success? ==>
      Walk(fs, table, parsed).args == Tokens(SplitArgs(Rendered(fs, table, parsed).value))
  {
    if fs == [] {
      assert SplitOn("", Nul) == [""];
      assert NonEmpty([""]) == NonEmpty([]) + [];
    } else {
      assert fs[0] in fs;
      WalkTokenizesRendered(fs[1..], table, parsed);
      if Annotated(fs[0]) && FieldText(fs[0], table, parsed).Success? {
        var rest := Rendered(fs[1..], table, parsed);
        if rest.Success? {
          ArgsTokensCons(FieldText(fs[0], table, parsed).value, rest.value);
        }
      }
    }
  }
}
