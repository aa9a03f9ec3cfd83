/** kmeans.Membership: reading the cluster membership the kmeans tool
    prints. Each line is either a cluster header `+# <name>` or a point
    `+ <index>`; points belong to the cluster of the header above them.
    Cluster names receive dense ids 0, 1, 2, ... in order of first
    appearance, and the result maps each point index below the number of
    point lines to the id of the cluster it was last listed under, or -1. */
module Kmeans {
  import opened Wrappers
  import opened Parse

  /** ErrBadInput, or the *strconv.NumError of a name or index that is not
      a 64-bit decimal integer. */
  datatype Error = ErrBadInput | AtoiError(e: NumError)

  // ---------------------------------------------------------------------
  // Input: the lines bufio.Reader.ReadString('\n') returns without error
  // ---------------------------------------------------------------------

  /** The first newline at or after `k`, or the end of `s`. */
  function NewlineFrom(s: string, k: nat): (r: nat)
    requires k <= |s|
    ensures k <= r <= |s| && (r < |s| ==> s[r] == '\n')
    decreases |s| - k
  {
    if k == |s| || s[k] == '\n' then k else NewlineFrom(s, k + 1)
  }

  /** The newline-terminated lines of `s` from `pos` on, each with its
      newline. Text after the last newline is not a line: ReadString
      returns it with io.EOF and the loop stops without handling it. */
  function LinesFrom(s: string, pos: nat): seq<string>
    requires pos <= |s|
    decreases |s| - pos
  {
    var k := NewlineFrom(s, pos);
    if k == |s| then [] else [s[pos..k + 1]] + LinesFrom(s, k + 1)
  }

  function Lines(s: string): seq<string>
  {
    LinesFrom(s, 0)
  }

  // ---------------------------------------------------------------------
  // One line
  // ---------------------------------------------------------------------

  /** A trimmed line: too short or without the leading `+` (malformed), a
      header `+#` with the trimmed name text, or a point with the trimmed
      index text. */
  datatype Kind = Malformed | Header(name: string) | Point(index: string)

  function Classify(line: string): Kind
  {
    var l := TrimSpace(line);
    if |l| < 2 || l[0] != '+' then Malformed
    else if l[1] == '#' then Header(TrimSpace(l[2..]))
    else Point(TrimSpace(l[1..]))
  }

  /** The parser's variables between lines: the current cluster id, the
      last id handed out, the ids by cluster name, the cluster id by point
      index, and the number of point lines read. */
  datatype State = State(currId: int, lastId: int, seen: map<int, int>, classes: map<int, int>, pnts: nat)

  const Start: State := State(-1, -1, map[], map[], 0)

  /** A header selects the id of a cluster already seen, or hands out the
      next id. */
  function Select(st: State, name: int): State
  {
    if name in st.seen then st.(currId := st.seen[name])
    else st.(lastId := st.lastId + 1, currId := st.lastId + 1, seen := st.seen[name := st.lastId + 1])
  }

  /** One line of the loop. A point line before any header is refused
      before its index is parsed. */
  function Step(st: State, line: string): Result<State, Error>
  {
    match Classify(line)
    case Malformed => Failure(ErrBadInput)
    case Header(t) =>
      (match Atoi(t)
       case Failure(e) => Failure(AtoiError(e))
       case Success(name) => Success(Select(st, name)))
    case Point(t) =>
      if st.currId < 0 then Failure(ErrBadInput)
      else
        match Atoi(t)
        case Failure(e) => Failure(AtoiError(e))
        case Success(p) => Success(st.(pnts := st.pnts + 1, classes := st.classes[p := st.currId]))
  }

  /** The lines in order; the first failing line ends the run. */
  function Run(st: State, ls: seq<string>): Result<State, Error>
    decreases |ls|, 1
  {
    if ls == [] then Success(st) else RunLine(st, ls[0], ls[1..])
  }

  /** One line, then the rest unless the line fails. */
  function RunLine(st: State, line: string, rest: seq<string>): Result<State, Error>
    decreases |rest| + 1, 0
  {
    match Step(st, line)
    case Failure(e) => Failure(e)
    case Success(next) => Run(next, rest)
  }

  /** A first line that fails ends the run with its error. */
  lemma RunFails(st: State, line: string, rest: seq<string>)
    requires Step(st, line).Failure?
    ensures Run(st, [line] + rest) == Failure(Step(st, line).error)
  {
    assert ([line] + rest)[0] == line;
  }

  /** The first line either ends the run with its error or hands its
      state to the rest. */
  lemma RunStep(st: State, line: string, rest: seq<string>, next: Result<State, Error>)
    requires next == Step(st, line)
    ensures Run(st, [line] + rest) == if next.Failure? then Failure(next.error) else Run(next.value, rest)
  {
    if next.Failure? {
      RunFails(st, line, rest);
    } else {
      RunGoesOn(st, line, rest);
    }
  }

  /** A first line that succeeds hands its state to the rest. */
  lemma RunGoesOn(st: State, line: string, rest: seq<string>)
    requires Step(st, line).Success?
    ensures Run(st, [line] + rest) == Run(Step(st, line).value, rest)
  {
    assert ([line] + rest)[0] == line && ([line] + rest)[1..] == rest;
  }

  /** The result after the loop: nil when fewer than two ids were handed
      out, otherwise one entry per point line counted. */
  function Output(st: State): Option<seq<int>>
  {
    if st.lastId <= 0 then None else Some(Table(st.classes, st.pnts))
  }

  /** The slice Membership returns: for each index below `pnts`, the
      cluster id recorded for it, or -1. */
  function Table(classes: map<int, int>, pnts: nat): (r: seq<int>)
    ensures |r| == pnts
  {
    seq(pnts, i => if i in classes then classes[i] else -1)
  }

  function MembershipOf(input: string): Result<Option<seq<int>>, Error>
  {
    match Run(Start, Lines(input))
    case Failure(e) => Failure(e)
    case Success(st) => Success(Output(st))
  }

  /** The body of Membership's read loop for one line: trim it, refuse a
      malformed line, select or hand out a cluster id for a header, and
      record a point under the current cluster. */
  method ParseLine(st: State, line: string) returns (r: Result<State, Error>)
    ensures r == Step(st, line)
  {
    var State(currId, lastId, seen, classes, pnts) := st;
    var l := TrimSpace(line);
    if |l| < 2 || l[0] != '+' {
      assert Classify(line) == Malformed;
      return Failure(ErrBadInput);
    }
    if l[1] == '#' {
      assert Classify(line) == Header(TrimSpace(l[2..]));
      l := TrimSpace(l[2..]);
      var cname := Atoi(l);
      if cname.Failure? {
        return Failure(AtoiError(cname.error));
      }
      if cname.value in seen {
        currId := seen[cname.value];
      } else {
        lastId := lastId + 1;
        currId := lastId;
        seen := seen[cname.value := currId];
      }
      return Success(State(currId, lastId, seen, classes, pnts));
    }
    assert Classify(line) == Point(TrimSpace(l[1..]));
    if currId < 0 {
      return Failure(ErrBadInput);
    }
    l := TrimSpace(l[1..]);
    var pnt := Atoi(l);
    if pnt.Failure? {
      return Failure(AtoiError(pnt.error));
    }
    pnts := pnts + 1;
    classes := classes[pnt.value := currId];
    return Success(State(currId, lastId, seen, classes, pnts));
  }

  /** The loop after reading: a fresh slice of `pnts` entries, each the
      recorded cluster id or -1. */
  method Fill(classes: map<int, int>, pnts: nat) returns (mi: array<int>)
    ensures fresh(mi) && mi[..] == Table(classes, pnts)
  {
    mi := new int[pnts];
    for i := 0 to pnts
      invariant forall j :: 0 <= j < i ==> mi[j] == if j in classes then classes[j] else -1
    {
      if i in classes {
        mi[i] := classes[i];
      } else {
        mi[i] := -1;
      }
    }
  }

  /** A newline at or after `pos` ends the next line there. */
  lemma NextLine(input: string, pos: nat)
    requires pos <= |input| && NewlineFrom(input, pos) < |input|
    ensures LinesFrom(input, pos) ==
      [input[pos..NewlineFrom(input, pos) + 1]] + LinesFrom(input, NewlineFrom(input, pos) + 1)
  {
  }

  /** Membership's read loop: each newline-terminated line in turn goes
      through the loop body until one fails or the input runs out. */
  method ReadAll(input: string) returns (r: Result<State, Error>)
    ensures r == Run(Start, Lines(input))
  {
    var st := Start;
    var pos := 0;
    ghost var want := Run(Start, Lines(input));
    while true
      invariant pos <= |input|
      invariant want == Run(st, LinesFrom(input, pos))
      decreases |input| - pos
    {
      var k := NewlineFrom(input, pos);
      if k == |input| {
        return Success(st);
      }
      var line := input[pos..k + 1];
      var next := ParseLine(st, line);
      NextLine(input, pos);
      RunStep(st, line, LinesFrom(input, k + 1), next);
      if next.Failure? {
        return next;
      }
      st, pos := next.value, k + 1;
    }
  }

  /** kmeans.Membership: the read loop, then nil for fewer than two
      clusters, otherwise the filled slice. A nil slice is `null`. */
  method Membership(input: string) returns (mi: array?<int>, err: Option<Error>)
    ensures match MembershipOf(input)
      case Failure(e) => mi == null && err == Some(e)
      case Success(None) => mi == null && err == None
      case Success(Some(v)) => mi != null && mi[..] == v && err == None
  {
    var r := ReadAll(input);
    if r.Failure? {
      return null, Some(r.error);
    }
    var st := r.value;
    if st.lastId <= 0 {
      return null, None;
    }
    mi := Fill(st.classes, st.pnts);
    err := None;
  }
}
