/** The statistics file: a weighted undirected graph as text in the METIS format, and what the
    partitioner reads from any text. */
module Metis {
  import opened Strings

  const INT_MAX: int := 0x7FFF_FFFF
  const INT_MIN: int := -0x8000_0000

  datatype Option<+T> = None | Some(value: T)

  /** Vertices count from 0 here and from 1 in the file. */
  datatype Neighbour = Neighbour(vertex: int, weight: int)

  datatype Row = Row(name: string, neighbours: seq<Neighbour>)

  // ------------------------------------------------------------------------------------------
  // Lines
  // ------------------------------------------------------------------------------------------

  function LineEnd(t: string): (k: nat)
    ensures k <= |t| && '\n' !in t[..k] && (k < |t| ==> t[k] == '\n')
  {
    if t == "" || t[0] == '\n' then 0
    else
      var k := 1 + LineEnd(t[1..]);
      assert t[..k] == [t[0]] + t[1..][..k - 1];
      k
  }

  /** What getline gives until it fails. */
  function Lines(t: string): seq<string> {
    if t == "" then []
    else if LineEnd(t) == |t| then [t]
    else [t[..LineEnd(t)]] + Lines(t[LineEnd(t) + 1..])
  }

  /** Lines behind a first one. */
  function Tail(lines: seq<string>): string {
    if lines == [] then "" else Tail(lines[..|lines| - 1]) + "\n" + lines[|lines| - 1]
  }

  function Joined(lines: seq<string>): string
    requires lines != []
  {
    lines[0] + Tail(lines[1..]) + "\n"
  }

  lemma {:induction false} LineEndIsFirst(l: string, more: string)
    requires '\n' !in l
    ensures LineEnd(l + "\n" + more) == |l|
  {
    if l != "" {
      LineEndIsFirst(l[1..], more);
      assert (l + "\n" + more)[1..] == l[1..] + "\n" + more;
    }
  }

  lemma FirstLine(l: string, more: string)
    requires '\n' !in l
    ensures Lines(l + "\n" + more) == [l] + Lines(more)
  {
    var t := l + "\n" + more;
    LineEndIsFirst(l, more);
    assert t[..|l|] == l && t[|l| + 1..] == more;
  }

  lemma {:induction false} TailFirst(lines: seq<string>)
    requires lines != []
    ensures Tail(lines) == "\n" + lines[0] + Tail(lines[1..])
  {
    if |lines| == 1 {
      assert lines[..0] == [] && lines[1..] == [];
    } else {
      var front := lines[..|lines| - 1];
      TailFirst(front);
      assert front[1..] == lines[1..][..|lines| - 2];
      assert ("\n" + lines[0] + Tail(front[1..])) + "\n" + lines[|lines| - 1]
          == "\n" + lines[0] + (Tail(front[1..]) + "\n" + lines[|lines| - 1]);
    }
  }

  predicate OneLineEach(lines: seq<string>) {
    forall k :: 0 <= k < |lines| ==> '\n' !in lines[k]
  }

  lemma {:induction false} LinesOfJoined(lines: seq<string>)
    requires lines != [] && OneLineEach(lines)
    ensures Lines(Joined(lines)) == lines
  {
    var rest := lines[1..];
    if rest == [] {
      assert Tail(rest) == "";
      assert Joined(lines) == lines[0] + "\n" + "";
      FirstLine(lines[0], "");
      assert Lines("") == [];
    } else {
      TailFirst(rest);
      assert Joined(lines) == lines[0] + "\n" + Joined(rest);
      FirstLine(lines[0], Joined(rest));
      LinesOfJoined(rest);
    }
  }

  // ------------------------------------------------------------------------------------------
  // Integers
  // ------------------------------------------------------------------------------------------

  predicate IsSpace(c: char) { c == ' ' || 9 as char <= c <= 13 as char }

  function SkipSpaces(t: string): (r: string)
    ensures |r| <= |t|
  {
    if t != "" && IsSpace(t[0]) then SkipSpaces(t[1..]) else t
  }

  /** The number of digits at the start. */
  function DigitsAt(t: string): (k: nat)
    ensures k <= |t| && AllDigits(t[..k]) && (k < |t| ==> !IsDigit(t[k]))
  {
    if t == "" || !IsDigit(t[0]) then 0
    else
      var k := 1 + DigitsAt(t[1..]);
      assert t[..k] == [t[0]] + t[1..][..k - 1];
      k
  }

  datatype ReadInteger = NoInteger | ReadInteger(n: int, rest: string)

  /** operator>> into an int, which fails outside the type's range. */
  function ReadInt(t: string): (r: ReadInteger)
    ensures r.ReadInteger? ==> |r.rest| < |t|
  {
    var s := SkipSpaces(t);
    var negative := s != "" && s[0] == '-';
    var u := if negative || (s != "" && s[0] == '+') then s[1..] else s;
    var k := DigitsAt(u);
    var m: int := Horner(u[..k], 0);
    var n := if negative then -m else m;
    if k == 0 || n < INT_MIN || n > INT_MAX then NoInteger else ReadInteger(n, u[k..])
  }

  /** Pairs of integers, until one cannot be read. */
  function ReadPairs(t: string): seq<Neighbour>
    decreases |t|
  {
    match ReadInt(t)
    case NoInteger => []
    case ReadInteger(v, rest) =>
      match ReadInt(rest)
      case NoInteger => []
      case ReadInteger(w, more) => [Neighbour(v - 1, w)] + ReadPairs(more)
  }

  lemma {:induction false} DigitsAtStart(t: string, more: string)
    requires AllDigits(t) && (more != "" ==> !IsDigit(more[0]))
    ensures DigitsAt(t + more) == |t|
  {
    if t == "" {
      assert "" + more == more;
    } else {
      assert t[0] in t;
      DigitsAtStart(t[1..], more);
      assert (t + more)[1..] == t[1..] + more;
    }
  }

  /** A number that was printed is read back, if it is in range. */
  lemma PrintedIsRead(n: nat, more: string)
    ensures ReadInt(Digits(n) + " " + more) == if n <= INT_MAX then ReadInteger(n, " " + more) else NoInteger
  {
    var d := Digits(n);
    var t := d + (" " + more);
    assert d + " " + more == t;
    HornerOfDigits(n);
    assert d[0] in d && t[0] == d[0];
    DigitsAtStart(d, " " + more);
    assert t[..|d|] == d && t[|d|..] == " " + more;
  }

  lemma SpaceIsSkipped(t: string)
    ensures ReadInt(" " + t) == ReadInt(t)
  {
    assert (" " + t)[1..] == t;
  }

  // ------------------------------------------------------------------------------------------
  // The file
  // ------------------------------------------------------------------------------------------

  function PairText(n: Neighbour): string
    requires n.vertex >= 0 && n.weight >= 0
  {
    Digits(n.vertex + 1) + " " + Digits(n.weight) + " "
  }

  predicate Printable(ns: seq<Neighbour>) {
    forall k :: 0 <= k < |ns| ==> ns[k].vertex >= 0 && ns[k].weight >= 0
  }

  function PairsText(ns: seq<Neighbour>): string
    requires Printable(ns)
  {
    if ns == [] then "" else PairsText(ns[..|ns| - 1]) + PairText(ns[|ns| - 1])
  }

  predicate Fits(n: Neighbour) {
    n.vertex < INT_MAX && n.weight <= INT_MAX
  }

  /** What can be read of a row: the pairs before the first one that is too large for an int. */
  function Readable(ns: seq<Neighbour>): (r: seq<Neighbour>)
    ensures r <= ns && (forall k :: 0 <= k < |r| ==> Fits(r[k]))
    ensures r == ns <==> forall k :: 0 <= k < |ns| ==> Fits(ns[k])
  {
    if ns == [] || !Fits(ns[0]) then [] else [ns[0]] + Readable(ns[1..])
  }

  lemma {:induction false} PairsFirst(ns: seq<Neighbour>)
    requires Printable(ns) && ns != []
    ensures PairsText(ns) == PairText(ns[0]) + PairsText(ns[1..])
  {
    if |ns| == 1 {
      assert ns[..0] == [] && ns[1..] == [];
      assert PairText(ns[0]) + "" == PairText(ns[0]) == "" + PairText(ns[0]);
    } else {
      var front := ns[..|ns| - 1];
      PairsFirst(front);
      assert front[1..] == ns[1..][..|ns| - 2];
      Associate(PairText(ns[0]), PairsText(front[1..]), PairText(ns[|ns| - 1]));
    }
  }

  lemma Associate(a: string, b: string, c: string)
    ensures (a + b) + c == a + (b + c)
  {
  }

  lemma PairFirst(n: Neighbour, more: string)
    requires n.vertex >= 0 && n.weight >= 0
    ensures PairText(n) + more == Digits(n.vertex + 1) + " " + (Digits(n.weight) + " " + more)
  {
    hide Digits;
  }

  lemma PairIsRead(n: Neighbour, more: string)
    requires n.vertex >= 0 && n.weight >= 0
    ensures ReadPairs(PairText(n) + more) == if Fits(n) then [n] + ReadPairs(" " + more) else []
    ensures ReadPairs(" " + (PairText(n) + more)) == ReadPairs(PairText(n) + more)
  {
    var second := Digits(n.weight) + " " + more;
    PairFirst(n, more);
    PrintedIsRead(n.vertex + 1, second);
    PrintedIsRead(n.weight, more);
    SpaceIsSkipped(second);
    SpaceIsSkipped(PairText(n) + more);
    hide Digits, ReadInt, PairText;
  }

  lemma {:induction false} PairsAreRead(ns: seq<Neighbour>)
    requires Printable(ns)
    ensures ReadPairs(PairsText(ns)) == ReadPairs(" " + PairsText(ns)) == Readable(ns)
  {
    if ns == [] {
      NothingIsRead();
      hide ReadInt;
    } else {
      PairsFirst(ns);
      PairIsRead(ns[0], PairsText(ns[1..]));
      PairsAreRead(ns[1..]);
      hide PairsText, ReadPairs, PairText;
    }
  }

  lemma NothingIsRead()
    ensures ReadInt("") == NoInteger && ReadInt(" ") == NoInteger && " " + "" == " "
  {
    SpaceIsSkipped("");
    assert " " + "" == " ";
  }

  /** A line that the reader skips. */
  predicate IsComment(line: string) {
    |line| >= 2 && line[0] == '%' == line[1] && '\n' !in line
  }

  /** The lines that only people read: before the line with the counts, and behind it. */
  datatype About = About(first: seq<string>, other: seq<string>)

  predicate AreComments(c: About) {
    && (forall k :: 0 <= k < |c.first| ==> IsComment(c.first[k]))
    && (forall k :: 0 <= k < |c.other| ==> IsComment(c.other[k]))
  }

  function CountLine(vertices: nat, edges: nat): string {
    Digits(vertices) + " " + (Digits(edges) + " " + "001 ")
  }

  predicate PrintableRows(rows: seq<Row>) {
    forall k :: 0 <= k < |rows| ==> Printable(rows[k].neighbours)
  }

  function RowLines(rows: seq<Row>): seq<string>
    requires PrintableRows(rows)
  {
    if rows == [] then []
    else
      var row := rows[|rows| - 1];
      RowLines(rows[..|rows| - 1]) + ["%: " + row.name, PairsText(row.neighbours)]
  }

  function HeaderLines(c: About, vertices: nat, edges: nat): seq<string> {
    c.first + [CountLine(vertices, edges)] + c.other
  }

  function FileLines(c: About, rows: seq<Row>, edges: nat): seq<string>
    requires PrintableRows(rows)
  {
    HeaderLines(c, |rows|, edges) + RowLines(rows)
  }

  function FileText(c: About, rows: seq<Row>, edges: nat): string
    requires PrintableRows(rows)
  {
    Joined(FileLines(c, rows, edges))
  }

  // ------------------------------------------------------------------------------------------
  // The reader
  // ------------------------------------------------------------------------------------------

  datatype Error = BadFormat | TooManyVertices | OutOfRange

  /** Between two lines. */
  datatype State =
    | State(i: nat, nvtxs: int, xadj: seq<nat>, adjncy: seq<int>, adjwgt: seq<int>, lpNames: seq<string>)
    | Failed(error: Error)

  function VerticesOf(ns: seq<Neighbour>): (r: seq<int>)
    ensures |r| == |ns| && forall k :: 0 <= k < |ns| ==> r[k] == ns[k].vertex
  {
    seq(|ns|, k requires 0 <= k < |ns| => ns[k].vertex)
  }

  function WeightsOf(ns: seq<Neighbour>): (r: seq<int>)
    ensures |r| == |ns| && forall k :: 0 <= k < |ns| ==> r[k] == ns[k].weight
  {
    seq(|ns|, k requires 0 <= k < |ns| => ns[k].weight)
  }

  function Nameless(numLps: nat): seq<string> { seq(numLps, k => "") }

  function Start(numLps: nat): State { State(0, 0, [0], [], [], Nameless(numLps)) }

  /** A format that could not be read is taken for a wrong one. */
  function ReadCounts(s: State, line: string): State
    requires s.State?
  {
    match ReadInt(line)
    case NoInteger => Failed(BadFormat)
    case ReadInteger(nvtxs, a) =>
      match ReadInt(a)
      case NoInteger => Failed(BadFormat)
      case ReadInteger(_, b) =>
        match ReadInt(b)
        case NoInteger => Failed(BadFormat)
        case ReadInteger(format, _) =>
          if format != 1 then Failed(BadFormat)
          else if nvtxs < 0 || nvtxs > |s.lpNames| then Failed(TooManyVertices)
          else s.(nvtxs := nvtxs, i := 1)
  }

  function Step(s: State, line: string): State {
    if s.Failed? then s
    else if line != "" && line[0] == '%' then
      if |line| < 2 || line[1] != ':' then s
      else if |line| < 3 || s.i == 0 || s.i - 1 >= |s.lpNames| then Failed(OutOfRange)
      else s.(lpNames := s.lpNames[s.i - 1 := line[3..]])
    else if s.i == 0 then ReadCounts(s, line)
    else
      var ns := ReadPairs(line);
      s.(adjncy := s.adjncy + VerticesOf(ns), adjwgt := s.adjwgt + WeightsOf(ns),
         xadj := s.xadj + [|s.adjncy| + |ns|], i := s.i + 1)
  }

  function Run(s: State, lines: seq<string>): State
    decreases |lines|
  {
    if lines == [] then s else Run(Step(s, lines[0]), lines[1..])
  }

  lemma {:induction false} RunParts(s: State, a: seq<string>, b: seq<string>)
    ensures Run(s, a + b) == Run(Run(s, a), b)
    decreases |a|
  {
    hide Step;
    if a == [] {
      assert a + b == b;
    } else {
      assert (a + b)[1..] == a[1..] + b;
      RunParts(Step(s, a[0]), a[1..], b);
    }
  }

  /** What is read of the rows, one behind the other. */
  function Flat(rows: seq<Row>): seq<Neighbour> {
    if rows == [] then [] else Flat(rows[..|rows| - 1]) + Readable(rows[|rows| - 1].neighbours)
  }

  function Offsets(rows: seq<Row>): (r: seq<nat>)
    ensures |r| == |rows| + 1
  {
    if rows == [] then [0] else Offsets(rows[..|rows| - 1]) + [|Flat(rows)|]
  }

  function NamesOf(rows: seq<Row>, numLps: nat): (r: seq<string>)
    ensures |r| == numLps && forall k :: 0 <= k < numLps ==> r[k] == if k < |rows| then rows[k].name else ""
  {
    seq(numLps, k requires 0 <= k => if k < |rows| then rows[k].name else "")
  }

  function AfterRows(rows: seq<Row>, nvtxs: int, numLps: nat): State {
    State(1 + |rows|, nvtxs, Offsets(rows), VerticesOf(Flat(rows)), WeightsOf(Flat(rows)), NamesOf(rows, numLps))
  }

  lemma PairsTextIsData(ns: seq<Neighbour>)
    requires Printable(ns)
    ensures PairsText(ns) == "" || PairsText(ns)[0] != '%'
  {
    if ns != [] {
      PairsFirst(ns);
      var d := Digits(ns[0].vertex + 1);
      assert d[0] in d && PairsText(ns)[0] == d[0];
    }
  }

  lemma NameIsRead(rows: seq<Row>, nvtxs: int, numLps: nat, name: string)
    requires |rows| < numLps
    ensures Step(AfterRows(rows, nvtxs, numLps), "%: " + name) ==
            AfterRows(rows, nvtxs, numLps).(lpNames := NamesOf(rows, numLps)[|rows| := name])
  {
    var line := "%: " + name;
    assert line[0] == '%' && line[1] == ':' && line[3..] == name;
  }

  lemma FlatGrows(rows: seq<Row>)
    requires rows != []
    ensures var front, ns := rows[..|rows| - 1], Readable(rows[|rows| - 1].neighbours);
            && Flat(rows) == Flat(front) + ns && Offsets(rows) == Offsets(front) + [|Flat(front)| + |ns|]
            && VerticesOf(Flat(rows)) == VerticesOf(Flat(front)) + VerticesOf(ns)
            && WeightsOf(Flat(rows)) == WeightsOf(Flat(front)) + WeightsOf(ns)
  {
    hide Readable;
  }

  lemma DataIsRead(s: State, line: string)
    requires s.State? && s.i > 0 && (line == "" || line[0] != '%')
    ensures var ns := ReadPairs(line);
            Step(s, line) == s.(adjncy := s.adjncy + VerticesOf(ns), adjwgt := s.adjwgt + WeightsOf(ns),
                                xadj := s.xadj + [|s.adjncy| + |ns|], i := s.i + 1)
  {
    hide ReadPairs, ReadCounts;
  }

  lemma PairsLineIsRead(s: State, ns: seq<Neighbour>)
    requires s.State? && s.i > 0 && Printable(ns)
    ensures Step(s, PairsText(ns)) ==
            s.(adjncy := s.adjncy + VerticesOf(Readable(ns)), adjwgt := s.adjwgt + WeightsOf(Readable(ns)),
               xadj := s.xadj + [|s.adjncy| + |Readable(ns)|], i := s.i + 1)
  {
    hide PairsText, ReadPairs, Readable, Step;
    PairsTextIsData(ns);
    PairsAreRead(ns);
    DataIsRead(s, PairsText(ns));
  }

  lemma RowIsRead(rows: seq<Row>, nvtxs: int, numLps: nat)
    requires rows != [] && PrintableRows(rows) && |rows| <= numLps
    ensures var front, row := rows[..|rows| - 1], rows[|rows| - 1];
            Step(Step(AfterRows(front, nvtxs, numLps), "%: " + row.name), PairsText(row.neighbours)) ==
            AfterRows(rows, nvtxs, numLps)
  {
    hide PairsText, ReadPairs, Readable, Step, Flat, Offsets;
    var front, row := rows[..|rows| - 1], rows[|rows| - 1];
    var s := AfterRows(front, nvtxs, numLps);
    NameIsRead(front, nvtxs, numLps, row.name);
    PairsLineIsRead(s.(lpNames := s.lpNames[|front| := row.name]), row.neighbours);
    FlatGrows(rows);
    assert NamesOf(rows, numLps) == NamesOf(front, numLps)[|front| := row.name];
  }

  lemma {:induction false} RowsAreRead(rows: seq<Row>, nvtxs: int, numLps: nat)
    requires PrintableRows(rows) && |rows| <= numLps
    ensures Run(AfterRows([], nvtxs, numLps), RowLines(rows)) == AfterRows(rows, nvtxs, numLps)
    decreases |rows|
  {
    if rows != [] {
      var front, row := rows[..|rows| - 1], rows[|rows| - 1];
      RowsAreRead(front, nvtxs, numLps);
      RowIsRead(rows, nvtxs, numLps);
      hide AfterRows, PairsText, Step;
      var two := ["%: " + row.name, PairsText(row.neighbours)];
      RunParts(AfterRows([], nvtxs, numLps), RowLines(front), two);
      TwoLines(AfterRows(front, nvtxs, numLps), two[0], two[1]);
    }
  }

  lemma TwoLines(s: State, a: string, b: string)
    ensures Run(s, [a, b]) == Step(Step(s, a), b)
  {
    hide Step;
    assert [a, b][1..] == [b] && [b][1..] == [];
    assert Run(Step(s, a), [b]) == Run(Step(Step(s, a), b), []);
  }

  lemma {:induction false} CommentsAreSkipped(s: State, lines: seq<string>)
    requires forall k :: 0 <= k < |lines| ==> IsComment(lines[k])
    ensures Run(s, lines) == s
    decreases |lines|
  {
    if lines != [] {
      CommentsAreSkipped(s, lines[1..]);
    }
  }

  lemma CountsAreRead(vertices: nat, edges: nat, numLps: nat)
    requires vertices <= INT_MAX && edges <= INT_MAX
    ensures Step(Start(numLps), CountLine(vertices, edges)) ==
            if vertices > numLps then Failed(TooManyVertices) else Start(numLps).(nvtxs := vertices, i := 1)
  {
    var last := "001 ";
    var second := Digits(edges) + " " + last;
    PrintedIsRead(vertices, second);
    PrintedIsRead(edges, last);
    SpaceIsSkipped(second);
    SpaceIsSkipped(last);
    FormatIsRead();
    var d := Digits(vertices);
    assert d[0] in d && CountLine(vertices, edges)[0] == d[0];
    hide Digits, ReadInt;
    assert CountLine(vertices, edges) == d + " " + second;
  }

  lemma FormatIsRead()
    ensures ReadInt("001 ").ReadInteger? && ReadInt("001 ").n == 1
  {
    DigitsAtStart("001", " ");
    assert "001" + " " == "001 " && "001 "[..3] == "001";
    assert "001"[1..] == "01" && "01"[1..] == "1" && "1"[1..] == "";
    assert Horner("1", 0) == Horner("", 1) == 1;
    assert Horner("01", 0) == Horner("1", 0);
  }

  lemma {:induction false} FailedStays(e: Error, lines: seq<string>)
    ensures Run(Failed(e), lines) == Failed(e)
    decreases |lines|
  {
    if lines != [] {
      FailedStays(e, lines[1..]);
    }
  }

  lemma HeaderIsRead(c: About, vertices: nat, edges: nat, numLps: nat)
    requires AreComments(c) && vertices <= INT_MAX && edges <= INT_MAX
    ensures Run(Start(numLps), HeaderLines(c, vertices, edges)) ==
            if vertices > numLps then Failed(TooManyVertices) else AfterRows([], vertices, numLps)
  {
    var s, line := Start(numLps), CountLine(vertices, edges);
    CountsAreRead(vertices, edges, numLps);
    hide CountLine, Step, IsComment, Run;
    CommentsAreSkipped(s, c.first);
    RunParts(s, c.first + [line], c.other);
    RunParts(s, c.first, [line]);
    OneLine(s, line);
    if vertices > numLps {
      FailedStays(TooManyVertices, c.other);
    } else {
      assert NamesOf([], numLps) == Nameless(numLps);
      CommentsAreSkipped(AfterRows([], vertices, numLps), c.other);
    }
  }

  lemma OneLine(s: State, a: string)
    ensures Run(s, [a]) == Step(s, a)
  {
    hide Step;
    assert [a][1..] == [];
  }

  predicate NamesAreLines(rows: seq<Row>) {
    forall k :: 0 <= k < |rows| ==> '\n' !in rows[k].name
  }

  lemma {:induction false} PairsAreOneLine(ns: seq<Neighbour>)
    requires Printable(ns)
    ensures '\n' !in PairsText(ns)
  {
    if ns != [] {
      PairsAreOneLine(ns[..|ns| - 1]);
    }
  }

  lemma {:induction false} RowsAreLines(rows: seq<Row>)
    requires PrintableRows(rows) && NamesAreLines(rows)
    ensures OneLineEach(RowLines(rows))
  {
    if rows != [] {
      RowsAreLines(rows[..|rows| - 1]);
      PairsAreOneLine(rows[|rows| - 1].neighbours);
      hide PairsText;
    }
  }

  lemma CountIsOneLine(vertices: nat, edges: nat)
    ensures '\n' !in CountLine(vertices, edges)
  {
    hide Digits;
  }

  lemma HeaderIsLines(c: About, vertices: nat, edges: nat)
    requires AreComments(c)
    ensures OneLineEach(HeaderLines(c, vertices, edges))
  {
    CountIsOneLine(vertices, edges);
    hide CountLine;
  }

  /** Whatever is printed is read, up to weights that are too large. */
  lemma FileIsRead(c: About, rows: seq<Row>, edges: nat, numLps: nat)
    requires AreComments(c) && PrintableRows(rows) && NamesAreLines(rows) && |rows| <= INT_MAX && edges <= INT_MAX
    ensures Run(Start(numLps), Lines(FileText(c, rows, edges))) ==
            if |rows| > numLps then Failed(TooManyVertices) else AfterRows(rows, |rows|, numLps)
  {
    HeaderIsLines(c, |rows|, edges);
    RowsAreLines(rows);
    hide HeaderLines, RowLines, Step, AfterRows, CountLine;
    LinesOfFile(c, rows, edges);
    HeaderIsRead(c, |rows|, edges, numLps);
    RunParts(Start(numLps), HeaderLines(c, |rows|, edges), RowLines(rows));
    if |rows| > numLps {
      FailedStays(TooManyVertices, RowLines(rows));
    } else {
      RowsAreRead(rows, |rows|, numLps);
    }
  }

  lemma LinesOfFile(c: About, rows: seq<Row>, edges: nat)
    requires PrintableRows(rows) && OneLineEach(HeaderLines(c, |rows|, edges)) && OneLineEach(RowLines(rows))
    ensures Lines(FileText(c, rows, edges)) == FileLines(c, rows, edges)
  {
    hide CountLine, RowLines, Lines, Joined;
    assert FileLines(c, rows, edges)[|c.first|] == CountLine(|rows|, edges);
    LinesOfJoined(FileLines(c, rows, edges));
  }

  // ------------------------------------------------------------------------------------------
  // Lines that were not printed by the writer
  // ------------------------------------------------------------------------------------------

  /** The white space of the C locale. */
  predicate IsBlank(c: char) {
    c == ' ' || c == '\t' || c == '\n' || c == 11 as char || c == 12 as char || c == '\r'
  }

  lemma {:induction false} BlanksAreSkipped(blanks: string, more: string)
    requires (forall c :: c in blanks ==> IsBlank(c)) && (more != "" ==> !IsBlank(more[0]))
    ensures SkipSpaces(blanks + more) == more
  {
    if blanks == "" {
      assert "" + more == more;
    } else {
      assert blanks[0] in blanks;
      BlanksAreSkipped(blanks[1..], more);
      assert (blanks + more)[1..] == blanks[1..] + more;
    }
  }

  lemma NothingIsSkipped(blanks: string, t: string)
    requires (forall c :: c in blanks ==> IsBlank(c)) && (t != "" ==> !IsBlank(t[0]))
    ensures ReadInt(blanks + t) == ReadInt(t) && SkipSpaces(t) == t
  {
    hide ReadInt, SkipSpaces;
    BlanksAreSkipped(blanks, t);
    BlanksAreSkipped("", t);
    assert "" + t == t;
    SameRestSameInteger(blanks + t, t);
  }

  lemma SameRestSameInteger(a: string, b: string)
    requires SkipSpaces(a) == SkipSpaces(b)
    ensures ReadInt(a) == ReadInt(b)
  {
    hide SkipSpaces, DigitsAt, Horner, AllDigits;
  }

  lemma DigitsAreRead(t: string, negative: bool, digits: string, more: string)
    requires SkipSpaces(t) == t && t != "" && (negative <==> t[0] == '-')
    requires (if negative || t[0] == '+' then t[1..] else t) == digits + more
    requires digits != "" && AllDigits(digits) && (more != "" ==> !IsDigit(more[0]))
    ensures var n: int := if negative then -(Horner(digits, 0) as int) else Horner(digits, 0);
            ReadInt(t) == if -0x8000_0000 <= n <= 0x7FFF_FFFF then ReadInteger(n, more) else NoInteger
  {
    DigitsAtStart(digits, more);
    assert (digits + more)[..|digits|] == digits && (digits + more)[|digits|..] == more;
    hide SkipSpaces, DigitsAt, Horner, AllDigits;
  }

  /** Blanks, a sign and digits are read as the number they show, if an int can hold it. */
  lemma IntegerIsRead(blanks: string, sign: string, digits: string, more: string)
    requires (forall c :: c in blanks ==> IsBlank(c)) && (sign == "" || sign == "+" || sign == "-")
    requires digits != "" && AllDigits(digits) && (more != "" ==> !IsDigit(more[0]))
    ensures var n: int := if sign == "-" then -(Horner(digits, 0) as int) else Horner(digits, 0);
            ReadInt(blanks + (sign + (digits + more))) ==
              if -0x8000_0000 <= n <= 0x7FFF_FFFF then ReadInteger(n, more) else NoInteger
  {
    var u := digits + more;
    assert digits[0] in digits && u[0] == digits[0];
    assert sign == "" ==> sign + u == u;
    assert sign != "" ==> (sign + u)[0] == sign[0] && (sign + u)[1..] == u;
    hide ReadInt, SkipSpaces, Horner, DigitsAt;
    NothingIsSkipped(blanks, sign + u);
    DigitsAreRead(sign + u, sign == "-", digits, more);
  }

  /** Without a digit behind them nothing is read. */
  lemma NoDigitNoInteger(blanks: string, sign: string, more: string)
    requires (forall c :: c in blanks ==> IsBlank(c)) && (sign == "" || sign == "+" || sign == "-")
    requires more != "" ==> !IsDigit(more[0]) && (sign == "" ==> !IsBlank(more[0]) && more[0] != '+' && more[0] != '-')
    ensures ReadInt(blanks + (sign + more)) == NoInteger
  {
    assert sign == "" ==> sign + more == more;
    assert sign != "" ==> (sign + more)[0] == sign[0] && (sign + more)[1..] == more;
    NothingIsSkipped(blanks, sign + more);
  }

  /** So is one with a negative number of vertices. */
  lemma NegativeCountFails(vertices: nat, edges: nat, numLps: nat)
    requires 0 < vertices <= INT_MAX && edges <= INT_MAX
    ensures Step(Start(numLps), "-" + (Digits(vertices) + (" " + (Digits(edges) + " " + (Digits(1) + " " + ""))))) == Failed(TooManyVertices)
  {
    var last := Digits(1) + " " + "";
    var second := Digits(edges) + " " + last;
    var d := Digits(vertices);
    HornerOfDigits(vertices);
    IntegerIsRead("", "-", d, " " + second);
    assert "" + ("-" + (d + (" " + second))) == "-" + (d + (" " + second));
    PrintedIsRead(edges, last);
    PrintedIsRead(1, "");
    SpaceIsSkipped(second);
    SpaceIsSkipped(last);
    hide Digits, ReadInt, Horner;
  }

  /** A first line with another format than 1 is refused. */
  lemma OtherFormatsFail(vertices: nat, edges: nat, format: nat, numLps: nat)
    requires format != 1
    ensures Step(Start(numLps), Digits(vertices) + " " + (Digits(edges) + " " + (Digits(format) + " " + ""))) == Failed(BadFormat)
  {
    var last := Digits(format) + " " + "";
    var second := Digits(edges) + " " + last;
    PrintedIsRead(vertices, second);
    PrintedIsRead(edges, last);
    PrintedIsRead(format, "");
    SpaceIsSkipped(second);
    SpaceIsSkipped(last);
    var d := Digits(vertices);
    assert d[0] in d && (d + " " + second)[0] == d[0];
    hide Digits, ReadInt;
  }
}
