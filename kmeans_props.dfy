/** What Membership promises about its result, proved of the model in
    module Kmeans: cluster ids follow the first appearance of names, the
    result is nil exactly when fewer than two names were seen, has one
    entry per point line, and holds -1 exactly for the indices never
    listed; and which line makes it fail. */
module KmeansProps {
  import opened Wrappers
  import opened Parse
  import opened Kmeans

  // ---------------------------------------------------------------------
  // What the lines say, independently of the parser's variables
  // ---------------------------------------------------------------------

  /** The cluster name a header line gives, when it is an integer. */
  function HeaderName(line: string): Option<int>
  {
    match Classify(line)
    case Header(t) => if Atoi(t).Success? then Some(Atoi(t).value) else None
    case _ => None
  }

  /** The point index a point line gives, when it is an integer. */
  function PointIndex(line: string): Option<int>
  {
    match Classify(line)
    case Point(t) => if Atoi(t).Success? then Some(Atoi(t).value) else None
    case _ => None
  }

  /** `order` extended with a name it does not hold yet. */
  function AddName(order: seq<int>, name: Option<int>): (r: seq<int>)
    ensures name.Some? && name.value !in order ==> r == order + [name.value]
    ensures name.None? || name.value in order ==> r == order
  {
    if name.Some? && name.value !in order then order + [name.value] else order
  }

  /** The distinct header names of `ls`, after those in `order`, in order of
      first appearance. */
  function Appearance(order: seq<int>, ls: seq<string>): seq<int>
    decreases |ls|
  {
    if ls == [] then order else Appearance(AddName(order, HeaderName(ls[0])), ls[1..])
  }

  /** The number of point lines. */
  function PointLines(ls: seq<string>): nat
    decreases |ls|
  {
    if ls == [] then 0 else (if Classify(ls[0]).Point? then 1 else 0) + PointLines(ls[1..])
  }

  /** The integer point indices listed. */
  function PointIndices(ls: seq<string>): set<int>
    decreases |ls|
  {
    if ls == [] then {}
    else (if PointIndex(ls[0]).Some? then {PointIndex(ls[0]).value} else {}) + PointIndices(ls[1..])
  }

  /** The parser's variables agree with the names seen so far, listed in
      `order` by first appearance: the id of `order[k]` is k, the last id
      handed out is the last position, no cluster is current before the
      first header, and every recorded point has a handed-out id. */
  ghost predicate Agrees(st: State, order: seq<int>)
  {
    && st.lastId == |order| - 1
    && (forall n :: n in st.seen <==> n in order)
    && (forall k :: 0 <= k < |order| ==> order[k] in st.seen && st.seen[order[k]] == k)
    && -1 <= st.currId <= st.lastId
    && (st.currId < 0 <==> order == [])
    && (forall p :: p in st.classes ==> 0 <= st.classes[p] <= st.lastId)
  }

  lemma StartAgrees()
    ensures Agrees(Start, [])
  {
  }

  /** Every id agreement gives names distinct ids. */
  lemma AgreesDistinct(st: State, order: seq<int>)
    requires Agrees(st, order)
    ensures forall i, j :: 0 <= i < j < |order| ==> order[i] != order[j]
  {
    forall i, j | 0 <= i < j < |order|
      ensures order[i] != order[j]
    {
      assert st.seen[order[i]] == i && st.seen[order[j]] == j;
    }
  }

  /** A header selects the id of its name: the one it already has, or the
      next one, which is its position in the order of first appearance. */
  lemma SelectAgrees(st: State, order: seq<int>, name: int)
    requires Agrees(st, order)
    ensures Agrees(Select(st, name), AddName(order, Some(name)))
    ensures Select(st, name).currId == Select(st, name).seen[name]
    ensures name !in order ==> Select(st, name).currId == |order|
  {
    var n := Select(st, name);
    var o := AddName(order, Some(name));
    if name in order {
      assert o == order;
      assert n.seen == st.seen;
    } else {
      assert o == order + [name];
      forall k | 0 <= k < |o|
        ensures o[k] in n.seen && n.seen[o[k]] == k
      {
        if k < |order| {
          assert o[k] == order[k] && order[k] != name;
        }
      }
    }
  }

  /** One line keeps the agreement, counts a point line, and records its
      index. */
  lemma StepAgrees(st: State, order: seq<int>, line: string)
    requires Agrees(st, order)
    ensures Step(st, line).Success? ==>
      var n := Step(st, line).value;
      && Agrees(n, AddName(order, HeaderName(line)))
      && n.pnts == st.pnts + (if Classify(line).Point? then 1 else 0)
      && n.classes.Keys == st.classes.Keys + (if PointIndex(line).Some? then {PointIndex(line).value} else {})
  {
    match Classify(line)
    case Malformed =>
    case Header(t) =>
      if Atoi(t).Success? {
        SelectAgrees(st, order, Atoi(t).value);
      }
    case Point(t) =>
      if st.currId >= 0 && Atoi(t).Success? {
        assert HeaderName(line) == None;
        assert AddName(order, None) == order;
      }
  }

  /** A successful run keeps the agreement with the first appearance of
      names, counts every point line, and records every listed index. */
  lemma {:induction false} RunAgrees(st: State, order: seq<int>, ls: seq<string>)
    requires Agrees(st, order)
    ensures Run(st, ls).Success? ==>
      var n := Run(st, ls).value;
      && Agrees(n, Appearance(order, ls))
      && n.pnts == st.pnts + PointLines(ls)
      && n.classes.Keys == st.classes.Keys + PointIndices(ls)
    decreases |ls|
  {
    if ls != [] && Step(st, ls[0]).Success? {
      StepAgrees(st, order, ls[0]);
      RunAgrees(Step(st, ls[0]).value, AddName(order, HeaderName(ls[0])), ls[1..]);
    }
  }

  // ---------------------------------------------------------------------
  // The result
  // ---------------------------------------------------------------------

  /** On success: the result is nil exactly when fewer than two distinct
      cluster names were read; otherwise it has one entry per point line,
      entry i is -1 exactly when no point line lists index i, and every
      other entry is the id of a cluster that was named. */
  lemma MembershipSummary(input: string)
    ensures MembershipOf(input).Success? ==>
      var names := Appearance([], Lines(input));
      var out := MembershipOf(input).value;
      && (out.None? <==> |names| < 2)
      && (out.Some? ==>
            && |out.value| == PointLines(Lines(input))
            && forall i :: 0 <= i < |out.value| ==>
                 && (out.value[i] == -1 <==> i !in PointIndices(Lines(input)))
                 && -1 <= out.value[i] < |names|)
  {
    StartAgrees();
    RunAgrees(Start, [], Lines(input));
  }

  /** Cluster ids are handed out 0, 1, 2, ... in order of the first
      appearance of each name, and a repeated name keeps its id. */
  lemma IdsByFirstAppearance(input: string)
    ensures Run(Start, Lines(input)).Success? ==>
      var names := Appearance([], Lines(input));
      var st := Run(Start, Lines(input)).value;
      && (forall i, j :: 0 <= i < j < |names| ==> names[i] != names[j])
      && (forall k :: 0 <= k < |names| ==> names[k] in st.seen && st.seen[names[k]] == k)
      && (forall n :: n in st.seen <==> n in names)
  {
    StartAgrees();
    RunAgrees(Start, [], Lines(input));
    if Run(Start, Lines(input)).Success? {
      AgreesDistinct(Run(Start, Lines(input)).value, Appearance([], Lines(input)));
    }
  }

  // ---------------------------------------------------------------------
  // Which cluster each point was last listed under
  // ---------------------------------------------------------------------

  /** Running `a` then `b` is running `a + b`: the first failure ends it. */
  lemma {:induction false} RunAppend(st: State, a: seq<string>, b: seq<string>)
    ensures Run(st, a + b) == if Run(st, a).Failure? then Failure(Run(st, a).error) else Run(Run(st, a).value, b)
    decreases |a|
  {
    if a == [] {
      assert a + b == b;
    } else {
      assert (a + b)[0] == a[0] && (a + b)[1..] == a[1..] + b;
      if Step(st, a[0]).Success? {
        RunAppend(Step(st, a[0]).value, a[1..], b);
      }
    }
  }

  /** The name of the last header line, if any. */
  function CurrentName(ls: seq<string>): Option<int>
    decreases |ls|
  {
    if ls == [] then None
    else if HeaderName(ls[|ls| - 1]).Some? then HeaderName(ls[|ls| - 1])
    else CurrentName(ls[..|ls| - 1])
  }

  /** The name of the header in effect at the last point line listing `p`. */
  function LastListing(ls: seq<string>, p: int): Option<int>
    decreases |ls|
  {
    if ls == [] then None
    else if PointIndex(ls[|ls| - 1]) == Some(p) then CurrentName(ls[..|ls| - 1])
    else LastListing(ls[..|ls| - 1], p)
  }

  /** The current id is the id of the last header's name, and each recorded
      point holds the id of the name it was last listed under. */
  ghost predicate Tracks(st: State, ls: seq<string>)
  {
    && (CurrentName(ls).None? <==> st.currId < 0)
    && (CurrentName(ls).Some? ==> CurrentName(ls).value in st.seen && st.currId == st.seen[CurrentName(ls).value])
    && (forall p :: p in st.classes <==> LastListing(ls, p).Some?)
    && (forall p :: p in st.classes ==> LastListing(ls, p).value in st.seen && st.classes[p] == st.seen[LastListing(ls, p).value])
  }

  /** The last line of `ls + [line]` is `line`. */
  lemma Snoc(ls: seq<string>, line: string, p: int)
    ensures CurrentName(ls + [line]) == if HeaderName(line).Some? then HeaderName(line) else CurrentName(ls)
    ensures LastListing(ls + [line], p) == if PointIndex(line) == Some(p) then CurrentName(ls) else LastListing(ls, p)
  {
    var ls' := ls + [line];
    assert ls'[|ls'| - 1] == line && ls'[..|ls'| - 1] == ls;
  }

  lemma TracksHeader(st: State, order: seq<int>, ls: seq<string>, line: string, name: int)
    requires Agrees(st, order) && Tracks(st, ls)
    requires HeaderName(line) == Some(name) && PointIndex(line) == None
    ensures Tracks(Select(st, name), ls + [line])
  {
    var n := Select(st, name);
    SelectAgrees(st, order, name);
    Snoc(ls, line, 0);
    forall p
      ensures p in n.classes <==> LastListing(ls + [line], p).Some?
      ensures p in n.classes ==> LastListing(ls + [line], p).value in n.seen && n.classes[p] == n.seen[LastListing(ls + [line], p).value]
    {
      Snoc(ls, line, p);
    }
  }

  lemma TracksPoint(st: State, ls: seq<string>, line: string, q: int)
    requires Tracks(st, ls) && st.currId >= 0
    requires HeaderName(line) == None && PointIndex(line) == Some(q)
    ensures Tracks(st.(pnts := st.pnts + 1, classes := st.classes[q := st.currId]), ls + [line])
  {
    var n := st.(pnts := st.pnts + 1, classes := st.classes[q := st.currId]);
    Snoc(ls, line, q);
    forall p
      ensures p in n.classes <==> LastListing(ls + [line], p).Some?
      ensures p in n.classes ==> LastListing(ls + [line], p).value in n.seen && n.classes[p] == n.seen[LastListing(ls + [line], p).value]
    {
      Snoc(ls, line, p);
    }
  }

  lemma TracksStep(st: State, order: seq<int>, ls: seq<string>, line: string)
    requires Agrees(st, order) && Tracks(st, ls) && Step(st, line).Success?
    ensures Tracks(Step(st, line).value, ls + [line])
  {
    match Classify(line)
    case Header(t) =>
      assert PointIndex(line) == None;
      TracksHeader(st, order, ls, line, Atoi(t).value);
    case Point(t) =>
      assert HeaderName(line) == None;
      TracksPoint(st, ls, line, Atoi(t).value);
  }

  /** A successful run of `ls + [line]` is a successful run of `ls`
      followed by a successful step on `line`. */
  lemma RunSnoc(st: State, ls: seq<string>, line: string)
    requires Run(st, ls + [line]).Success?
    ensures Run(st, ls).Success? && Step(Run(st, ls).value, line).Success?
    ensures Run(st, ls + [line]) == Step(Run(st, ls).value, line)
  {
    RunAppend(st, ls, [line]);
    var m := Run(st, ls).value;
    assert [line] == [line] + [];
    if Step(m, line).Failure? {
      RunFails(m, line, []);
    } else {
      RunGoesOn(m, line, []);
    }
  }

  /** A successful run from the start tracks its lines. */
  lemma {:induction false} RunTracks(ls: seq<string>)
    ensures Run(Start, ls).Success? ==> Tracks(Run(Start, ls).value, ls)
    decreases |ls|
  {
    if ls != [] && Run(Start, ls).Success? {
      var init, line := ls[..|ls| - 1], ls[|ls| - 1];
      assert ls == init + [line];
      RunSnoc(Start, init, line);
      var st := Run(Start, init).value;
      RunTracks(init);
      StartAgrees();
      RunAgrees(Start, [], init);
      assert Tracks(st, init) && Agrees(st, Appearance([], init));
      TracksStep(st, Appearance([], init), init, line);
      assert Run(Start, ls) == Step(st, line);
    }
  }

  /** Entry i of the result is the id of the cluster under which point i
      was most recently listed: -1 when it never was, otherwise the
      position of that cluster's name in the order of first appearance. */
  lemma MostRecentCluster(input: string)
    ensures MembershipOf(input).Success? && MembershipOf(input).value.Some? ==>
      var ls := Lines(input);
      var names := Appearance([], ls);
      var v := MembershipOf(input).value.value;
      forall i :: 0 <= i < |v| ==>
        && (v[i] == -1 <==> LastListing(ls, i).None?)
        && (v[i] != -1 ==> 0 <= v[i] < |names| && names[v[i]] == LastListing(ls, i).value)
  {
    var ls := Lines(input);
    StartAgrees();
    RunAgrees(Start, [], ls);
    RunTracks(ls);
    if Run(Start, ls).Success? {
      AgreesDistinct(Run(Start, ls).value, Appearance([], ls));
    }
  }

  // ---------------------------------------------------------------------
  // Where the read stops
  // ---------------------------------------------------------------------

  /** The first line that fails ends the read with its error; the lines
      after it are never looked at. */
  lemma FirstFailureStops(a: seq<string>, line: string, b: seq<string>)
    requires Run(Start, a).Success? && Step(Run(Start, a).value, line).Failure?
    ensures Run(Start, a + [line] + b) == Failure(Step(Run(Start, a).value, line).error)
  {
    RunAppend(Start, a, [line] + b);
    assert a + [line] + b == a + ([line] + b);
    RunFails(Run(Start, a).value, line, b);
  }

  /** A line that is too short after trimming, or does not start with
      `+`, makes Membership fail with ErrBadInput. */
  lemma MalformedLineFails(input: string, a: seq<string>, line: string, b: seq<string>)
    requires Lines(input) == a + [line] + b
    requires Run(Start, a).Success? && (|TrimSpace(line)| < 2 || TrimSpace(line)[0] != '+')
    ensures MembershipOf(input) == Failure(ErrBadInput)
  {
    FirstFailureStops(a, line, b);
  }

  /** A point line read before any header line makes Membership fail with
      ErrBadInput, whatever its index text. */
  lemma PointBeforeHeader(input: string, a: seq<string>, line: string, b: seq<string>)
    requires Lines(input) == a + [line] + b
    requires Run(Start, a).Success? && CurrentName(a).None? && Classify(line).Point?
    ensures MembershipOf(input) == Failure(ErrBadInput)
  {
    RunTracks(a);
    FirstFailureStops(a, line, b);
  }

  /** A header name, or the index of a point line under a header, that is
      not a decimal int makes Membership fail with the parse error. */
  lemma NonIntegerFails(input: string, a: seq<string>, line: string, b: seq<string>)
    requires Lines(input) == a + [line] + b && Run(Start, a).Success?
    requires || (Classify(line).Header? && Atoi(Classify(line).name).Failure?)
             || (Classify(line).Point? && CurrentName(a).Some? && Atoi(Classify(line).index).Failure?)
    ensures Classify(line).Header? ==> MembershipOf(input) == Failure(AtoiError(Atoi(Classify(line).name).error))
    ensures Classify(line).Point? ==> MembershipOf(input) == Failure(AtoiError(Atoi(Classify(line).index).error))
  {
    RunTracks(a);
    FirstFailureStops(a, line, b);
  }

  lemma {:induction false} NewlineFromNone(u: string, k: nat)
    requires k <= |u| && forall j :: k <= j < |u| ==> u[j] != '\n'
    ensures NewlineFrom(u, k) == |u|
    decreases |u| - k
  {
    if k < |u| {
      NewlineFromNone(u, k + 1);
    }
  }

  lemma {:induction false} NewlineFromPrefix(s: string, t: string, k: nat)
    requires k < |s| && s[|s| - 1] == '\n'
    ensures NewlineFrom(s + t, k) == NewlineFrom(s, k) < |s|
    decreases |s| - k
  {
    assert (s + t)[k] == s[k];
    if s[k] != '\n' {
      NewlineFromPrefix(s, t, k + 1);
    }
  }

  lemma {:induction false} LinesFromPrefix(s: string, t: string, pos: nat)
    requires pos <= |s| && (s == [] || s[|s| - 1] == '\n') && '\n' !in t
    ensures LinesFrom(s + t, pos) == LinesFrom(s, pos)
    decreases |s| - pos
  {
    if pos == |s| {
      forall j | pos <= j < |s + t|
        ensures (s + t)[j] != '\n'
      {
        assert (s + t)[j] == t[j - |s|];
      }
      NewlineFromNone(s + t, pos);
    } else {
      NewlineFromPrefix(s, t, pos);
      var k := NewlineFrom(s, pos);
      assert (s + t)[pos..k + 1] == s[pos..k + 1];
      LinesFromPrefix(s, t, k + 1);
    }
  }

  /** Text after the last newline is never read: a final line without its
      newline changes nothing. */
  lemma UnterminatedTailIgnored(s: string, t: string)
    requires (s == [] || s[|s| - 1] == '\n') && '\n' !in t
    ensures Lines(s + t) == Lines(s) && MembershipOf(s + t) == MembershipOf(s)
  {
    LinesFromPrefix(s, t, 0);
  }
}
