/** From recorded events to a statistics file and back to the arrays that METIS takes. */
module MetisFiles {
  import opened Strings
  import opened Metis

  datatype Edge = Edge(first: string, second: string)

  function MakeEdge(a: string, b: string): Edge {
    if NameLess(b, a) then Edge(b, a) else Edge(a, b)
  }

  lemma EdgesHaveNoDirection(a: string, b: string)
    ensures MakeEdge(a, b) == MakeEdge(b, a)
    ensures MakeEdge(a, b) == Edge(a, b) || MakeEdge(a, b) == Edge(b, a)
  {
    NamesAreOrdered(a, b, a);
  }

  /** How often each pair of LPs exchanged an event. */
  type Stats = map<Edge, nat>

  ghost predicate Normalized(stats: Stats) {
    forall e :: e in stats ==> e == MakeEdge(e.first, e.second)
  }

  predicate Adjacent(stats: Stats, a: string, b: string) {
    a != b && MakeEdge(a, b) in stats
  }

  /** METIS wants weights that are not zero. */
  function Weight(stats: Stats, a: string, b: string): (w: nat)
    requires Adjacent(stats, a, b)
    ensures w > 0
  {
    var n := stats[MakeEdge(a, b)];
    if n < 1 then 1 else n
  }

  ghost predicate IsVertex(stats: Stats, x: string) {
    exists y :: Adjacent(stats, x, y)
  }

  ghost predicate AscendingNames(names: seq<string>) {
    forall i, j :: 0 <= i < j < |names| ==> NameLess(names[i], names[j])
  }

  ghost predicate VerticesInOrder(stats: Stats, names: seq<string>) {
    AscendingNames(names) && forall x :: x in names <==> IsVertex(stats, x)
  }

  // ------------------------------------------------------------------------------------------
  // The rows of the file
  // ------------------------------------------------------------------------------------------

  function NeighboursUpTo(stats: Stats, names: seq<string>, i: nat, k: nat): (ns: seq<Neighbour>)
    requires i < |names| && k <= |names|
    ensures forall n :: n in ns <==>
              0 <= n.vertex < k && Adjacent(stats, names[i], names[n.vertex])
              && n.weight == Weight(stats, names[i], names[n.vertex])
  {
    if k == 0 then []
    else
      var ns := NeighboursUpTo(stats, names, i, k - 1);
      if Adjacent(stats, names[i], names[k - 1]) then
        ns + [Neighbour(k - 1, Weight(stats, names[i], names[k - 1]))]
      else ns
  }

  function RowsUpTo(stats: Stats, names: seq<string>, k: nat): (rows: seq<Row>)
    requires k <= |names|
    ensures |rows| == k
    ensures forall i :: 0 <= i < k ==> rows[i] == Row(names[i], NeighboursUpTo(stats, names, i, |names|))
  {
    if k == 0 then []
    else RowsUpTo(stats, names, k - 1) + [Row(names[k - 1], NeighboursUpTo(stats, names, k - 1, |names|))]
  }

  lemma NobodyUpTo(stats: Stats, names: seq<string>, i: nat)
    requires i < |names|
    ensures NeighboursUpTo(stats, names, i, 0) == []
  {
  }

  lemma NextUpTo(stats: Stats, names: seq<string>, i: nat, k: nat)
    requires i < |names| && k < |names|
    ensures NeighboursUpTo(stats, names, i, k + 1) ==
            if Adjacent(stats, names[i], names[k]) then
              NeighboursUpTo(stats, names, i, k) + [Neighbour(k, Weight(stats, names[i], names[k]))]
            else NeighboursUpTo(stats, names, i, k)
  {
  }

  lemma NeighboursArePrintable(stats: Stats, names: seq<string>, i: nat, k: nat)
    requires i < |names| && k <= |names|
    ensures Printable(NeighboursUpTo(stats, names, i, k))
  {
    var ns := NeighboursUpTo(stats, names, i, k);
    forall m | 0 <= m < |ns|
      ensures ns[m].vertex >= 0 && ns[m].weight >= 0
    {
      assert ns[m] in ns;
    }
  }

  lemma RowsArePrintable(stats: Stats, names: seq<string>, k: nat)
    requires k <= |names|
    ensures PrintableRows(RowsUpTo(stats, names, k))
  {
    forall i | 0 <= i < k
      ensures Printable(RowsUpTo(stats, names, k)[i].neighbours)
    {
      NeighboursArePrintable(stats, names, i, |names|);
    }
  }

  // ------------------------------------------------------------------------------------------
  // Reading the graph back
  // ------------------------------------------------------------------------------------------

  /** The arrays say that vertex i has neighbour j with weight w. */
  ghost predicate Has(s: State, i: nat, j: int, w: int) {
    && s.State? && i + 1 < |s.xadj| && |s.adjwgt| == |s.adjncy|
    && exists p :: s.xadj[i] <= p < s.xadj[i + 1] && p < |s.adjncy| && s.adjncy[p] == j && s.adjwgt[p] == w
  }

  /** The recorded events say so. */
  ghost predicate Recorded(stats: Stats, names: seq<string>, i: nat, j: int, w: int)
    requires i < |names|
  {
    0 <= j < |names| && Adjacent(stats, names[i], names[j]) && w == Weight(stats, names[i], names[j])
  }

  lemma {:induction false} OffsetsDelimitRows(rows: seq<Row>, i: nat)
    requires i < |rows|
    ensures Offsets(rows)[i] <= Offsets(rows)[i + 1] <= |Flat(rows)| == Offsets(rows)[|rows|]
    ensures Flat(rows)[Offsets(rows)[i]..Offsets(rows)[i + 1]] == Readable(rows[i].neighbours)
    decreases |rows|
  {
    var front, last := rows[..|rows| - 1], Readable(rows[|rows| - 1].neighbours);
    FlatGrows(rows);
    LastOffset(front);
    LastOffset(rows);
    if i < |front| {
      OffsetsDelimitRows(front, i);
      hide Flat, Offsets, Readable;
      PartOfFirst(Flat(front), last, Offsets(front)[i], Offsets(front)[i + 1]);
    } else {
      hide Flat, Offsets, Readable;
      assert (Flat(front) + last)[|Flat(front)|..] == last;
    }
  }

  lemma PartOfFirst(a: seq<Neighbour>, b: seq<Neighbour>, from: nat, to: nat)
    requires from <= to <= |a|
    ensures (a + b)[from..to] == a[from..to]
  {
  }

  lemma LastOffset(rows: seq<Row>)
    ensures Offsets(rows)[|rows|] == |Flat(rows)|
  {
    hide Readable;
  }

  ghost predicate Between(flat: seq<Neighbour>, a: nat, b: nat, j: int, w: int) {
    exists p :: a <= p < b && p < |flat| && VerticesOf(flat)[p] == j && WeightsOf(flat)[p] == w
  }

  lemma BetweenIsSlice(flat: seq<Neighbour>, a: nat, b: nat, j: int, w: int)
    requires a <= b <= |flat|
    ensures Between(flat, a, b, j, w) <==> Neighbour(j, w) in flat[a..b]
  {
    if Neighbour(j, w) in flat[a..b] {
      var k :| 0 <= k < b - a && flat[a..b][k] == Neighbour(j, w);
      assert VerticesOf(flat)[a + k] == j && WeightsOf(flat)[a + k] == w;
    }
    if p :| a <= p < b && p < |flat| && VerticesOf(flat)[p] == j && WeightsOf(flat)[p] == w {
      assert flat[a..b][p - a] == Neighbour(j, w);
    }
  }

  lemma HasExactlyReadable(rows: seq<Row>, nvtxs: int, numLps: nat, i: nat, j: int, w: int)
    requires i < |rows|
    ensures Has(AfterRows(rows, nvtxs, numLps), i, j, w) <==> Neighbour(j, w) in Readable(rows[i].neighbours)
  {
    hide Flat, Offsets, Readable;
    OffsetsDelimitRows(rows, i);
    BetweenIsSlice(Flat(rows), Offsets(rows)[i], Offsets(rows)[i + 1], j, w);
    HasIsBetween(rows, nvtxs, numLps, i, j, w);
    hide Between, Has;
  }

  lemma HasIsBetween(rows: seq<Row>, nvtxs: int, numLps: nat, i: nat, j: int, w: int)
    requires i < |rows|
    ensures Has(AfterRows(rows, nvtxs, numLps), i, j, w) <==> Between(Flat(rows), Offsets(rows)[i], Offsets(rows)[i + 1], j, w)
  {
    hide Flat, Offsets, NamesOf;
  }

  ghost predicate WeightsFit(stats: Stats) {
    forall a, b :: Adjacent(stats, a, b) ==> Weight(stats, a, b) <= INT_MAX
  }

  ghost predicate RowFits(stats: Stats, names: seq<string>, i: nat)
    requires i < |names|
  {
    forall j :: 0 <= j < |names| && Adjacent(stats, names[i], names[j]) ==> Weight(stats, names[i], names[j]) <= INT_MAX
  }

  lemma WeightsFitByRow(stats: Stats, names: seq<string>)
    requires VerticesInOrder(stats, names)
    ensures WeightsFit(stats) <==> forall i :: 0 <= i < |names| ==> RowFits(stats, names, i)
  {
    hide Weight;
    if forall i :: 0 <= i < |names| ==> RowFits(stats, names, i) {
      forall a, b | Adjacent(stats, a, b)
        ensures Weight(stats, a, b) <= INT_MAX
      {
        EdgesHaveNoDirection(a, b);
        assert Adjacent(stats, b, a);
        assert IsVertex(stats, a) && IsVertex(stats, b);
        var i :| 0 <= i < |names| && names[i] == a;
        var j :| 0 <= j < |names| && names[j] == b;
        assert RowFits(stats, names, i);
      }
    }
  }

  /** All pairs that a row of the file has can be read exactly if its weights fit. */
  lemma RowIsReadable(stats: Stats, names: seq<string>, i: nat)
    requires i < |names| <= INT_MAX
    ensures var ns := NeighboursUpTo(stats, names, i, |names|);
            && (forall n :: n in Readable(ns) ==> n in ns)
            && ((forall n :: n in ns ==> n in Readable(ns)) <==> RowFits(stats, names, i))
  {
    var ns := NeighboursUpTo(stats, names, i, |names|);
    var r := Readable(ns);
    assert forall n :: n in r ==> n in ns[..|r|];
    if j :| 0 <= j < |names| && Adjacent(stats, names[i], names[j]) && Weight(stats, names[i], names[j]) > INT_MAX {
      assert Neighbour(j, Weight(stats, names[i], names[j])) in ns;
    }
  }

  ghost predicate NothingInvented(stats: Stats, names: seq<string>, s: State, i: nat)
    requires i < |names|
  {
    forall j, w :: Has(s, i, j, w) ==> Recorded(stats, names, i, j, w)
  }

  ghost predicate NothingMissing(stats: Stats, names: seq<string>, s: State, i: nat)
    requires i < |names|
  {
    forall j, w :: Recorded(stats, names, i, j, w) ==> Has(s, i, j, w)
  }

  lemma RowComesBack(stats: Stats, names: seq<string>, numLps: nat, i: nat)
    requires i < |names| <= INT_MAX
    ensures var s := AfterRows(RowsUpTo(stats, names, |names|), |names|, numLps);
            NothingInvented(stats, names, s, i) && (NothingMissing(stats, names, s, i) <==> RowFits(stats, names, i))
  {
    var rows := RowsUpTo(stats, names, |names|);
    var ns := rows[i].neighbours;
    var s := AfterRows(rows, |names|, numLps);
    RowIsReadable(stats, names, i);
    hide Has, Readable, AfterRows, RowFits, NeighboursUpTo, RowsUpTo;
    forall j: int, w: int
      ensures Has(s, i, j, w) <==> Neighbour(j, w) in Readable(ns)
      ensures Neighbour(j, w) in ns <==> Recorded(stats, names, i, j, w)
    {
      HasExactlyReadable(rows, |names|, numLps, i, j, w);
    }
    if NothingMissing(stats, names, s, i) {
      forall n | n in ns
        ensures n in Readable(ns)
      {
        assert n == Neighbour(n.vertex, n.weight);
        assert Recorded(stats, names, i, n.vertex, n.weight);
      }
    }
  }

  /** The text that is printed for the recorded events. */
  function FileOf(c: About, stats: Stats, names: seq<string>, edges: nat): string {
    RowsArePrintable(stats, names, |names|);
    FileText(c, RowsUpTo(stats, names, |names|), edges)
  }

  lemma FileOfIsRead(c: About, stats: Stats, names: seq<string>, edges: nat, numLps: nat)
    requires AreComments(c) && (forall x :: x in names ==> '\n' !in x) && |names| <= INT_MAX && edges <= INT_MAX
    ensures Run(Start(numLps), Lines(FileOf(c, stats, names, edges))) ==
            if |names| > numLps then Failed(TooManyVertices)
            else AfterRows(RowsUpTo(stats, names, |names|), |names|, numLps)
  {
    RowsArePrintable(stats, names, |names|);
    hide FileText, Run, Lines, AfterRows, NeighboursUpTo, Printable;
    var rows := RowsUpTo(stats, names, |names|);
    assert NamesAreLines(rows);
    FileIsRead(c, rows, edges, numLps);
  }

  /** The file's text is read without an error, the vertices get their names back, and nothing is read
      that was not recorded.  All that was recorded is read if and only if every weight fits an int. */
  lemma RecordedGraphComesBack(c: About, stats: Stats, names: seq<string>, edges: nat, numLps: nat)
    requires AreComments(c) && VerticesInOrder(stats, names) && (forall x :: x in names ==> '\n' !in x)
    requires |names| <= INT_MAX && edges <= INT_MAX && |names| <= numLps
    ensures var s := Run(Start(numLps), Lines(FileOf(c, stats, names, edges)));
            && s.State? && s.nvtxs == |names| && |s.xadj| == |names| + 1
            && |s.lpNames| == numLps && s.lpNames[..|names|] == names
            && (forall i :: 0 <= i < |names| ==> NothingInvented(stats, names, s, i))
            && ((forall i :: 0 <= i < |names| ==> NothingMissing(stats, names, s, i)) <==> WeightsFit(stats))
  {
    FileOfIsRead(c, stats, names, edges, numLps);
    WeightsFitByRow(stats, names);
    hide NothingInvented, NothingMissing, RowFits, WeightsFit, Run, Lines, FileOf, NeighboursUpTo, VerticesInOrder, Flat, Offsets;
    var s := AfterRows(RowsUpTo(stats, names, |names|), |names|, numLps);
    forall i | 0 <= i < |names|
      ensures NothingInvented(stats, names, s, i)
      ensures NothingMissing(stats, names, s, i) <==> RowFits(stats, names, i)
    {
      RowComesBack(stats, names, numLps, i);
    }
    assert s.lpNames[..|names|] == names;
  }

  /** The graph that was recorded is undirected, and so is the one that is read. */
  lemma RecordedIsSymmetric(stats: Stats, names: seq<string>, i: nat, j: nat, w: int)
    requires i < |names| && j < |names|
    ensures Recorded(stats, names, i, j, w) <==> Recorded(stats, names, j, i, w)
  {
    EdgesHaveNoDirection(names[i], names[j]);
  }

  // ------------------------------------------------------------------------------------------
  // The writer
  // ------------------------------------------------------------------------------------------

  /** All lines but for the last line break. */
  function Unfinished(lines: seq<string>): string
    requires lines != []
  {
    lines[0] + Tail(lines[1..])
  }

  lemma OneMoreLine(lines: seq<string>, line: string)
    requires lines != []
    ensures Unfinished(lines + [line]) == Unfinished(lines) + "\n" + line
  {
    var tail := lines[1..] + [line];
    assert (lines + [line])[1..] == tail && tail[..|tail| - 1] == lines[1..];
    Associate(lines[0], Tail(lines[1..]), "\n" + line);
    assert Tail(tail) == Tail(lines[1..]) + ("\n" + line);
    assert (lines[0] + Tail(lines[1..])) + ("\n" + line) == lines[0] + Tail(lines[1..]) + "\n" + line;
  }

  lemma LongerLastLine(lines: seq<string>, line: string, more: string)
    requires lines != []
    ensures Unfinished(lines + [line + more]) == Unfinished(lines + [line]) + more
  {
    OneMoreLine(lines, line);
    OneMoreLine(lines, line + more);
    hide Unfinished;
    assert Unfinished(lines) + "\n" + (line + more) == (Unfinished(lines) + "\n" + line) + more;
  }

  /** The lines up to and including a row that may be empty so far, and then is not there at all. */
  function LinesSoFar(header: seq<string>, rows: seq<Row>, name: string, ns: seq<Neighbour>): (lines: seq<string>)
    requires PrintableRows(rows) && Printable(ns)
    ensures header != [] ==> lines != []
  {
    header + RowLines(rows) + if ns == [] then [] else ["%: " + name, PairsText(ns)]
  }

  lemma OneMorePair(header: seq<string>, rows: seq<Row>, name: string, ns: seq<Neighbour>, n: Neighbour)
    requires header != [] && PrintableRows(rows) && Printable(ns + [n]) && Printable(ns) && n.vertex >= 0 && n.weight >= 0
    ensures Unfinished(LinesSoFar(header, rows, name, ns + [n])) ==
            Unfinished(LinesSoFar(header, rows, name, ns)) + (if ns == [] then "\n%: " + name + "\n" else "") + PairText(n)
  {
    hide RowLines, Unfinished, PairText;
    var lines := header + RowLines(rows);
    assert (ns + [n])[..|ns|] == ns;
    assert PairsText(ns + [n]) == PairsText(ns) + PairText(n);
    hide PairsText;
    if ns == [] {
      EmptyRow();
      OneMoreLine(lines, "%: " + name);
      OneMoreLine(lines + ["%: " + name], PairText(n));
      assert "" + PairText(n) == PairText(n);
      assert lines + ["%: " + name, PairText(n)] == (lines + ["%: " + name]) + [PairText(n)];
      assert lines + [] == lines;
      assert "\n%: " + name + "\n" == "\n" + ("%: " + name) + "\n";
      RegroupLines(Unfinished(lines), "%: " + name, PairText(n));
    } else {
      LongerLastLine(lines + ["%: " + name], PairsText(ns), PairText(n));
      assert lines + ["%: " + name, PairsText(ns)] == (lines + ["%: " + name]) + [PairsText(ns)];
      assert lines + ["%: " + name, PairsText(ns + [n])] == (lines + ["%: " + name]) + [PairsText(ns + [n])];
      assert "" + PairText(n) == PairText(n);
    }
  }

  lemma EmptyRow()
    ensures PairsText([]) == ""
  {
  }

  lemma RegroupLines(t: string, a: string, b: string)
    ensures t + "\n" + a + "\n" + b == t + ("\n" + a + "\n") + b
  {
    assert t + "\n" + a + "\n" == t + ("\n" + a + "\n");
  }

  /** How a std::set of names is traversed. */
  method InOrder(names: set<string>) returns (s: seq<string>)
    ensures AscendingNames(s) && forall x :: x in s <==> x in names
  {
    s := [];
    var left := names;
    while left != {}
      invariant AscendingNames(s) && left <= names
      invariant forall x :: x in names <==> x in s || x in left
      invariant forall x, y :: x in s && y in left ==> NameLess(x, y)
      decreases left
    {
      var least := Least(left);
      left := left - {least};
      s := s + [least];
    }
  }

  method Least(names: set<string>) returns (least: string)
    requires names != {}
    ensures least in names && forall x :: x in names && x != least ==> NameLess(least, x)
  {
    least :| least in names;
    var left := names - {least};
    while left != {}
      invariant least in names && left <= names
      invariant forall x :: x in names && x !in left && x != least ==> NameLess(least, x)
      decreases left
    {
      var x :| x in left;
      left := left - {x};
      NamesAreOrdered(x, least, x);
      if NameLess(x, least) {
        forall y | y in names && y !in left && y != x && y != least
          ensures NameLess(x, y)
        {
          NamesAreOrdered(x, least, y);
        }
        least := x;
      }
    }
  }

  /** The text so far, with a row that may be empty so far. */
  ghost predicate Printed(text: string, header: seq<string>, rows: seq<Row>, name: string, ns: seq<Neighbour>) {
    && header != [] && PrintableRows(rows) && Printable(ns)
    && text == Unfinished(LinesSoFar(header, rows, name, ns))
  }

  /** Each recorded edge between two vertices, in both directions. */
  ghost predicate IsFullGraph(stats: Stats, fullGraph: Stats) {
    && (forall a, b :: Edge(a, b) in fullGraph <==> Adjacent(stats, a, b))
    && (forall e :: e in fullGraph ==> Adjacent(stats, e.first, e.second) && fullGraph[e] == stats[MakeEdge(e.first, e.second)])
  }

  lemma PairOfFullGraph(stats: Stats, fullGraph: Stats, a: string, b: string)
    requires IsFullGraph(stats, fullGraph)
    ensures Edge(a, b) in fullGraph <==> Adjacent(stats, a, b)
    ensures Edge(a, b) in fullGraph ==>
              Weight(stats, a, b) == if fullGraph[Edge(a, b)] < 1 then 1 else fullGraph[Edge(a, b)]
  {
  }

  class AggregateEventStatistics {
    const about: About
    var edgeStats: Stats

    ghost predicate Valid()
      reads this
    {
      Normalized(edgeStats)
    }

    constructor (about: About)
      ensures Valid() && this.about == about && edgeStats == map[]
    {
      this.about := about;
      edgeStats := map[];
    }

    /** The count is a 32-bit unsigned integer. */
    method Record(source: string, receiver: string)
      requires Valid()
      modifies this
      ensures Valid()
      ensures var e := MakeEdge(source, receiver);
              edgeStats == old(edgeStats)[e := if e in old(edgeStats) then (old(edgeStats)[e] + 1) % 0x1_0000_0000 else 1]
    {
      NamesAreOrdered(source, receiver, source);
      var e := MakeEdge(source, receiver);
      edgeStats := edgeStats[e := if e in edgeStats then (edgeStats[e] + 1) % 0x1_0000_0000 else 1];
    }

    /** The full graph has each edge in both directions; vertices are its ends. */
    method FullGraph() returns (fullGraph: Stats, vertices: set<string>)
      requires Valid()
      ensures IsFullGraph(edgeStats, fullGraph)
      ensures forall x :: x in vertices <==> IsVertex(edgeStats, x)
    {
      fullGraph, vertices := map[], {};
      var left := edgeStats.Keys;
      while left != {}
        invariant left <= edgeStats.Keys
        invariant forall e :: e in fullGraph <==> e.first != e.second && MakeEdge(e.first, e.second) in edgeStats.Keys - left
        invariant forall e :: e in fullGraph ==> fullGraph[e] == edgeStats[MakeEdge(e.first, e.second)]
        invariant forall x :: x in vertices <==> exists y :: Edge(x, y) in fullGraph
        decreases left
      {
        var e :| e in left;
        left := left - {e};
        if e.first != e.second {
          DirectionsOf(e);
          ghost var before, known := fullGraph, vertices;
          vertices := vertices + {e.first, e.second};
          fullGraph := fullGraph[e := edgeStats[e]];
          fullGraph := fullGraph[Edge(e.second, e.first) := edgeStats[e]];
          EndsAreVertices(before, fullGraph, known, e);
        }
      }
    }

    /** Prints nothing if there is no vertex. */
    method PrintMetis() returns (text: string, ghost names: seq<string>)
      requires Valid()
      ensures VerticesInOrder(edgeStats, names)
      ensures names == [] ==> text == ""
      ensures names != [] && "" !in names ==> text == FileOf(about, edgeStats, names, |Directed(edgeStats)| / 2)
    {
      var fullGraph, vertices := FullGraph();
      DirectedIsAdjacent(edgeStats);
      assert fullGraph.Keys == Directed(edgeStats);
      assert |fullGraph| == |fullGraph.Keys|;
      var ordered := InOrder(vertices);
      names := ordered;
      if ordered == [] {
        return "", names;
      }
      text := PrintRows(fullGraph, ordered, |fullGraph| / 2);
    }

    /** One turn of the loop over the full graph: a vertex that is not the last one gets its comment line. */
    static method PrintPair(name: string, last: string, n: Neighbour, before: string,
                            ghost header: seq<string>, ghost rows: seq<Row>, ghost ns: seq<Neighbour>)
      returns (text: string)
      requires n.vertex >= 0 && n.weight >= 0
      ensures Printed(before, header, rows, name, ns) && (name != last <==> ns == []) ==>
                Printed(text, header, rows, name, ns + [n])
    {
      if Printed(before, header, rows, name, ns) {
        OneMorePair(header, rows, name, ns, n);
      }
      hide Unfinished, LinesSoFar, PairText, PrintableRows;
      text := before;
      if name != last {
        text := text + ("\n%: " + name + "\n");
      } else {
        assert text + "" == text;
      }
      text := text + PairText(n);
    }

    /** The part of the traversal with vertex i as the first end. */
    static method PrintNeighbours(fullGraph: Stats, names: seq<string>, i: nat, before: string, last: string,
                                  ghost stats: Stats, ghost header: seq<string>, ghost rows: seq<Row>)
      returns (text: string, lastVertex: string)
      requires i < |names| && IsFullGraph(stats, fullGraph)
      ensures lastVertex == if NeighboursUpTo(stats, names, i, |names|) != [] then names[i] else last
      ensures Printed(before, header, rows, names[i], []) && names[i] != last ==>
                Printed(text, header, rows, names[i], NeighboursUpTo(stats, names, i, |names|))
    {
      NobodyUpTo(stats, names, i);
      hide IsFullGraph, Adjacent, Weight, NeighboursUpTo, MakeEdge, Printed;
      ghost var ns: seq<Neighbour> := [];
      text, lastVertex := before, last;
      for k := 0 to |names|
        invariant ns == NeighboursUpTo(stats, names, i, k)
        invariant Printed(before, header, rows, names[i], []) && names[i] != last ==> Printed(text, header, rows, names[i], ns)
        invariant lastVertex == if ns != [] then names[i] else last
      {
        NextUpTo(stats, names, i, k);
        PairOfFullGraph(stats, fullGraph, names[i], names[k]);
        var edge := Edge(names[i], names[k]);
        if edge in fullGraph {
          var n := Neighbour(k, if fullGraph[edge] < 1 then 1 else fullGraph[edge]);
          text := PrintPair(names[i], lastVertex, n, text, header, rows, ns);
          ns := ns + [n];
          lastVertex := names[i];
        }
      }
    }

    /** A std::map is traversed in the order of its keys: by the first end of an edge, then by the second. */
    method PrintRows(fullGraph: Stats, names: seq<string>, edges: nat) returns (text: string)
      requires names != [] && VerticesInOrder(edgeStats, names)
      requires IsFullGraph(edgeStats, fullGraph)
      ensures "" !in names ==> text == FileOf(about, edgeStats, names, edges)
    {
      hide Unfinished, RowsUpTo, RowLines, HeaderLines, PairsText, IsVertex, Printable, PrintableRows;
      ghost var header := HeaderLines(about, |names|, edges);
      HeaderIsNotEmpty(about, |names|, edges);
      text := Unfinished(HeaderLines(about, |names|, edges));
      var lastVertex := "";
      RowsArePrintable(edgeStats, names, 0);
      NoRows(header, edgeStats, names);
      for i := 0 to |names|
        invariant PrintableRows(RowsUpTo(edgeStats, names, i))
        invariant "" !in names ==> text == Unfinished(header + RowLines(RowsUpTo(edgeStats, names, i)))
        invariant lastVertex == if i == 0 then "" else names[i - 1]
      {
        PreviousDiffers(names, i);
        NoNeighbours(header, RowsUpTo(edgeStats, names, i), names[i]);
        assert names[i] in names;
        text, lastVertex := PrintNeighbours(fullGraph, names, i, text, lastVertex, edgeStats, header, RowsUpTo(edgeStats, names, i));
        RowIsNotEmpty(edgeStats, names, i);
        RowsArePrintable(edgeStats, names, i + 1);
        RowIsComplete(header, edgeStats, names, i);
      }
      text := text + "\n";
      FileIsFinished(about, edgeStats, names, edges);
    }
  }

  ghost function Directed(stats: Stats): set<Edge> {
    (set e | e in stats && e.first != e.second) + (set e | e in stats && e.first != e.second :: Edge(e.second, e.first))
  }

  lemma DirectedIsAdjacent(stats: Stats)
    requires Normalized(stats)
    ensures forall a, b :: Edge(a, b) in Directed(stats) <==> Adjacent(stats, a, b)
    ensures forall e :: e in Directed(stats) <==> Adjacent(stats, e.first, e.second)
  {
    forall a, b
      ensures Edge(a, b) in Directed(stats) <==> Adjacent(stats, a, b)
    {
      EdgesHaveNoDirection(a, b);
    }
    forall e
      ensures e in Directed(stats) <==> Adjacent(stats, e.first, e.second)
    {
      assert e == Edge(e.first, e.second);
    }
  }

  lemma HeaderIsNotEmpty(about: About, vertices: nat, edges: nat)
    ensures HeaderLines(about, vertices, edges) != []
  {
    hide CountLine;
    assert HeaderLines(about, vertices, edges)[|about.first|] == CountLine(vertices, edges);
  }

  lemma NoRows(header: seq<string>, stats: Stats, names: seq<string>)
    ensures RowsUpTo(stats, names, 0) == [] && header + RowLines(RowsUpTo(stats, names, 0)) == header
  {
    assert RowLines(RowsUpTo(stats, names, 0)) == [];
  }

  lemma NoNeighbours(header: seq<string>, rows: seq<Row>, name: string)
    requires PrintableRows(rows)
    ensures Printable([]) && LinesSoFar(header, rows, name, []) == header + RowLines(rows)
  {
    hide RowLines;
  }

  lemma PreviousDiffers(names: seq<string>, i: nat)
    requires AscendingNames(names) && i < |names|
    ensures i > 0 ==> names[i] != names[i - 1]
  {
    if i > 0 {
      NamesAreOrdered(names[i], names[i], names[i]);
    }
  }

  lemma RowIsNotEmpty(stats: Stats, names: seq<string>, i: nat)
    requires VerticesInOrder(stats, names) && i < |names|
    ensures NeighboursUpTo(stats, names, i, |names|) != []
  {
    assert names[i] in names;
    var y :| Adjacent(stats, names[i], y);
    EdgesHaveNoDirection(names[i], y);
    assert Adjacent(stats, y, names[i]);
    assert IsVertex(stats, y);
    var j :| 0 <= j < |names| && names[j] == y;
    assert Neighbour(j, Weight(stats, names[i], y)) in NeighboursUpTo(stats, names, i, |names|);
  }

  lemma RowIsComplete(header: seq<string>, stats: Stats, names: seq<string>, i: nat)
    requires i < |names| && NeighboursUpTo(stats, names, i, |names|) != []
    requires PrintableRows(RowsUpTo(stats, names, i)) && PrintableRows(RowsUpTo(stats, names, i + 1))
    requires Printable(NeighboursUpTo(stats, names, i, |names|))
    ensures LinesSoFar(header, RowsUpTo(stats, names, i), names[i], NeighboursUpTo(stats, names, i, |names|)) ==
            header + RowLines(RowsUpTo(stats, names, i + 1))
  {
    hide PairsText, NeighboursUpTo;
    var rows, all := RowsUpTo(stats, names, i), RowsUpTo(stats, names, i + 1);
    assert all[..|all| - 1] == rows;
    var two := ["%: " + names[i], PairsText(NeighboursUpTo(stats, names, i, |names|))];
    assert RowLines(all) == RowLines(rows) + two;
    assert (header + RowLines(rows)) + two == header + (RowLines(rows) + two);
  }

  lemma FileIsFinished(about: About, stats: Stats, names: seq<string>, edges: nat)
    ensures HeaderLines(about, |names|, edges) != [] && PrintableRows(RowsUpTo(stats, names, |names|))
    ensures FileOf(about, stats, names, edges) ==
            Unfinished(HeaderLines(about, |names|, edges) + RowLines(RowsUpTo(stats, names, |names|))) + "\n"
  {
    RowsArePrintable(stats, names, |names|);
    HeaderIsNotEmpty(about, |names|, edges);
    hide HeaderLines, RowLines, RowsUpTo;
  }

  /** Both directions of an edge are the same edge. */
  lemma DirectionsOf(e: Edge)
    requires e.first != e.second
    ensures forall a, b :: a != b ==> (MakeEdge(a, b) == MakeEdge(e.first, e.second) <==>
                             Edge(a, b) == e || Edge(a, b) == Edge(e.second, e.first))
  {
    forall a, b | a != b
      ensures MakeEdge(a, b) == MakeEdge(e.first, e.second) <==> Edge(a, b) == e || Edge(a, b) == Edge(e.second, e.first)
    {
      EdgesHaveNoDirection(a, b);
      EdgesHaveNoDirection(e.first, e.second);
    }
  }

  lemma EndsAreVertices(before: Stats, after: Stats, known: set<string>, e: Edge)
    requires forall x :: x in known <==> exists y :: Edge(x, y) in before
    requires after.Keys == before.Keys + {e, Edge(e.second, e.first)}
    ensures forall x :: x in known + {e.first, e.second} <==> exists y :: Edge(x, y) in after
  {
    assert Edge(e.first, e.second) in after && Edge(e.second, e.first) in after;
    forall x
      ensures x in known + {e.first, e.second} <==> exists y :: Edge(x, y) in after
    {
      if x in known {
        var y :| Edge(x, y) in before;
        assert Edge(x, y) in after;
      }
      if y :| Edge(x, y) in after {
        assert Edge(x, y) in before || Edge(x, y) == e || Edge(x, y) == Edge(e.second, e.first);
      }
    }
  }

  // ------------------------------------------------------------------------------------------
  // The reader
  // ------------------------------------------------------------------------------------------

  lemma PairIsNext(line: string)
    ensures ReadPairs(line) ==
            match ReadInt(line)
            case NoInteger => []
            case ReadInteger(v, rest) =>
              match ReadInt(rest)
              case NoInteger => []
              case ReadInteger(w, more) => [Neighbour(v - 1, w)] + ReadPairs(more)
  {
    hide ReadInt;
  }

  lemma LineIsNext(s: State, t: string)
    requires t != ""
    ensures var k := LineEnd(t);
            Run(s, Lines(t)) == Run(Step(s, t[..k]), Lines(if k < |t| then t[k + 1..] else ""))
  {
    hide Step, LineEnd;
    var k := LineEnd(t);
    if k == |t| {
      assert Lines(t) == [t] && [t][1..] == [] && t[..k] == t;
    } else {
      assert Lines(t)[1..] == Lines(t[k + 1..]);
    }
  }

  class ProfileGuidedPartitioner {
    /** The loop over the pairs of a line. */
    static method ReadNeighbours(line: string) returns (adjncy: seq<int>, adjwgt: seq<int>)
      ensures adjncy == VerticesOf(ReadPairs(line)) && adjwgt == WeightsOf(ReadPairs(line))
    {
      hide ReadInt, ReadPairs;
      ghost var ns: seq<Neighbour> := [];
      adjncy, adjwgt := [], [];
      var left := line;
      assert [] + ReadPairs(left) == ReadPairs(left);
      while true
        invariant ns + ReadPairs(left) == ReadPairs(line)
        invariant adjncy == VerticesOf(ns) && adjwgt == WeightsOf(ns)
        decreases |left|
      {
        PairIsNext(left);
        var vertex := ReadInt(left);
        if vertex.NoInteger? {
          break;
        }
        var weight := ReadInt(vertex.rest);
        if weight.NoInteger? {
          break;
        }
        adjncy := adjncy + [vertex.n - 1];
        adjwgt := adjwgt + [weight.n];
        ns := ns + [Neighbour(vertex.n - 1, weight.n)];
        left := weight.rest;
      }
      assert ns + [] == ns;
    }

    /** The line loop of partition(); `numLps` is lps.size(). */
    static method ReadGraph(input: string, numLps: nat) returns (graph: State)
      ensures graph == Run(Start(numLps), Lines(input))
    {
      hide Step, LineEnd, Lines, Run;
      graph := Start(numLps);
      var left := input;
      while left != ""
        invariant Run(graph, Lines(left)) == Run(Start(numLps), Lines(input))
        decreases |left|
      {
        LineIsNext(graph, left);
        var k := LineEnd(left);
        var line := left[..k];
        left := if k < |left| then left[k + 1..] else "";
        graph := ReadLine(graph, line);
        if graph.Failed? {
          FailedStays(graph.error, Lines(left));
          return;
        }
      }
      NoLines(graph);
    }

    static method ReadLine(graph: State, line: string) returns (next: State)
      ensures next == Step(graph, line)
      ensures graph.State? && line != "" && line[0] == '%' && (|line| == 1 || line[1] != ':') ==> next == graph
      ensures graph.State? && line == "%:" ==> next == Failed(OutOfRange)
      ensures graph.State? && |line| >= 3 && line[0] == '%' && line[1] == ':' ==>
                next == if 0 < graph.i <= |graph.lpNames| then graph.(lpNames := graph.lpNames[graph.i - 1 := line[3..]])
                        else Failed(OutOfRange)
    {
      hide ReadInt, ReadPairs;
      if graph.Failed? {
        return graph;
      }
      if line != "" && line[0] == '%' {
        if |line| < 2 || line[1] != ':' {
          return graph;
        }
        if |line| < 3 || graph.i == 0 || graph.i - 1 >= |graph.lpNames| {
          return Failed(OutOfRange);
        }
        return graph.(lpNames := graph.lpNames[graph.i - 1 := line[3..]]);
      }
      if graph.i == 0 {
        next := ReadCounts(graph, line);
      } else {
        var vertices, weights := ReadNeighbours(line);
        var adjncy := graph.adjncy + vertices;
        next := graph.(adjncy := adjncy, adjwgt := graph.adjwgt + weights, xadj := graph.xadj + [|adjncy|], i := graph.i + 1);
      }
    }
  }

  lemma NoLines(s: State)
    ensures Run(s, Lines("")) == s
  {
  }

  // ------------------------------------------------------------------------------------------
  // From the events to the arrays
  // ------------------------------------------------------------------------------------------

  /** How many of the events (sender and receiver) went from a to b or from b to a. */
  function Exchanged(history: seq<(string, string)>, a: string, b: string): nat {
    if history == [] then 0
    else
      var event := history[|history| - 1];
      Exchanged(history[..|history| - 1], a, b) + if event == (a, b) || event == (b, a) then 1 else 0
  }

  function Wrapped(n: nat): nat { n % 0x1_0000_0000 }

  /** The statistics count the events of the history, with 32 bits for each pair. */
  ghost predicate Tallies(stats: Stats, history: seq<(string, string)>) {
    forall a, b :: TalliesPair(stats, MakeEdge(a, b), Exchanged(history, a, b))
  }

  predicate TalliesPair(stats: Stats, e: Edge, exchanged: nat) {
    && (e in stats <==> exchanged > 0)
    && (e in stats ==> stats[e] == Wrapped(exchanged))
  }

  lemma SameEdge(a: string, b: string, c: string, d: string)
    ensures MakeEdge(a, b) == MakeEdge(c, d) <==> (c, d) == (a, b) || (c, d) == (b, a)
  {
    EdgesHaveNoDirection(a, b);
    EdgesHaveNoDirection(c, d);
  }

  lemma OneMoreEvent(stats: Stats, history: seq<(string, string)>, source: string, receiver: string)
    requires Tallies(stats, history)
    ensures var e := MakeEdge(source, receiver);
            Tallies(stats[e := if e in stats then (stats[e] + 1) % 0x1_0000_0000 else 1], history + [(source, receiver)])
  {
    hide MakeEdge;
    var e, more := MakeEdge(source, receiver), history + [(source, receiver)];
    var stats' := stats[e := if e in stats then (stats[e] + 1) % 0x1_0000_0000 else 1];
    OneMoreExchange(history, source, receiver, source, receiver);
    assert TalliesPair(stats, e, Exchanged(history, source, receiver));
    hide Exchanged, TalliesPair;
    forall a, b
      ensures TalliesPair(stats', MakeEdge(a, b), Exchanged(more, a, b))
    {
      OneMoreExchange(history, source, receiver, a, b);
      OneMoreTally(stats, e, MakeEdge(a, b), Exchanged(history, a, b));
    }
  }

  lemma OneMoreExchange(history: seq<(string, string)>, source: string, receiver: string, a: string, b: string)
    ensures Exchanged(history + [(source, receiver)], a, b) ==
            Exchanged(history, a, b) + if MakeEdge(a, b) == MakeEdge(source, receiver) then 1 else 0
  {
    SameEdge(a, b, source, receiver);
    hide MakeEdge;
    assert (history + [(source, receiver)])[..|history|] == history;
  }

  lemma OneMoreTally(stats: Stats, e: Edge, f: Edge, exchanged: nat)
    requires TalliesPair(stats, f, exchanged)
    ensures var stats' := stats[e := if e in stats then (stats[e] + 1) % 0x1_0000_0000 else 1];
            TalliesPair(stats', f, exchanged + if f == e then 1 else 0)
  {
  }

  /** What the arrays ought to say about vertices i and j. */
  ghost predicate Counted(history: seq<(string, string)>, names: seq<string>, i: nat, j: int, w: int)
    requires i < |names|
  {
    && 0 <= j < |names| && names[i] != names[j] && Exchanged(history, names[i], names[j]) > 0
    && w == if Wrapped(Exchanged(history, names[i], names[j])) < 1 then 1 else Wrapped(Exchanged(history, names[i], names[j]))
  }

  lemma RecordedIsCounted(stats: Stats, history: seq<(string, string)>, names: seq<string>, i: nat, j: int, w: int)
    requires Tallies(stats, history) && i < |names|
    ensures Recorded(stats, names, i, j, w) <==> Counted(history, names, i, j, w)
  {
    hide Exchanged, MakeEdge, Wrapped;
  }

  /** The arrays say what was counted, and say it in both directions. */
  ghost predicate GraphIsCounted(history: seq<(string, string)>, names: seq<string>, s: State) {
    && (forall i: nat, j, w :: i < |names| ==> (Has(s, i, j, w) <==> Counted(history, names, i, j, w)))
    && (forall i: nat, j: nat, w :: i < |names| && j < |names| ==> (Has(s, i, j, w) <==> Has(s, j, i, w)))
  }

  lemma AllThatWasCounted(stats: Stats, history: seq<(string, string)>, names: seq<string>, s: State)
    requires Tallies(stats, history)
    requires forall i :: 0 <= i < |names| ==> NothingInvented(stats, names, s, i)
    ensures GraphIsCounted(history, names, s) <==> forall i :: 0 <= i < |names| ==> NothingMissing(stats, names, s, i)
  {
    hide Has, Recorded, Counted, Tallies;
    forall i: nat, j: int, w: int | i < |names|
      ensures Recorded(stats, names, i, j, w) <==> Counted(history, names, i, j, w)
    {
      RecordedIsCounted(stats, history, names, i, j, w);
    }
    if forall i :: 0 <= i < |names| ==> NothingMissing(stats, names, s, i) {
      forall i: nat, j: int, w: int | i < |names|
        ensures Has(s, i, j, w) <==> Recorded(stats, names, i, j, w)
      {
        assert NothingMissing(stats, names, s, i) && NothingInvented(stats, names, s, i);
      }
      forall i: nat, j: nat, w: int | i < |names| && j < |names|
        ensures Has(s, i, j, w) <==> Has(s, j, i, w)
      {
        RecordedIsSymmetric(stats, names, i, j, w);
      }
    }
    if GraphIsCounted(history, names, s) {
      forall i: nat, j: int, w: int | i < |names| && Recorded(stats, names, i, j, w)
        ensures Has(s, i, j, w)
      {
        assert Counted(history, names, i, j, w);
      }
    }
  }

  method RecordAll(about: About, history: seq<(string, string)>) returns (s: AggregateEventStatistics)
    ensures fresh(s) && s.Valid() && s.about == about && Tallies(s.edgeStats, history)
  {
    hide Tallies, MakeEdge;
    s := new AggregateEventStatistics(about);
    NothingRecorded();
    assert history[..0] == [];
    for k := 0 to |history|
      invariant s.Valid() && fresh(s) && Tallies(s.edgeStats, history[..k])
    {
      assert history[..k + 1] == history[..k] + [(history[k].0, history[k].1)];
      OneMoreEvent(s.edgeStats, history[..k], history[k].0, history[k].1);
      s.Record(history[k].0, history[k].1);
    }
    assert history[..|history|] == history;
  }

  lemma NothingRecorded()
    ensures Tallies(map[], [])
  {
  }

  /** One simulation records events and prints them, the next one reads the file: it gets the vertices
      with their names, and of each the neighbours and how many events were exchanged, without
      direction; nothing is ever invented, and nothing is missing exactly if all weights fit an int. */
  method RecordPrintRead(about: About, history: seq<(string, string)>, numLps: nat)
    returns (graph: State, ghost stats: Stats, ghost names: seq<string>)
    requires AreComments(about)
    ensures Tallies(stats, history) && VerticesInOrder(stats, names)
    ensures IsPrintable(stats, names, numLps) ==>
              && graph.State? && graph.nvtxs == |names| && |graph.xadj| == |names| + 1
              && |graph.lpNames| == numLps && graph.lpNames[..|names|] == names
              && (forall i :: 0 <= i < |names| ==> NothingInvented(stats, names, graph, i))
              && (GraphIsCounted(history, names, graph) <==> WeightsFit(stats))
  {
    var s := RecordAll(about, history);
    stats := s.edgeStats;
    hide Tallies, VerticesInOrder, GraphIsCounted, WeightsFit, NothingInvented, NothingMissing, FileOf, Run, Lines;
    var text;
    text, names := s.PrintMetis();
    graph := ProfileGuidedPartitioner.ReadGraph(text, numLps);
    if IsPrintable(stats, names, numLps) {
      RecordedGraphComesBack(about, stats, names, |Directed(stats)| / 2, numLps);
      AllThatWasCounted(stats, history, names, graph);
    }
  }

  /** There is something to print, names are not empty and have no line break, the next simulation has
      as many LPs, and the two numbers of the first line fit an int. */
  ghost predicate IsPrintable(stats: Stats, names: seq<string>, numLps: nat) {
    && names != [] && "" !in names && (forall x :: x in names ==> '\n' !in x)
    && |names| <= numLps && |names| <= INT_MAX && |Directed(stats)| / 2 <= INT_MAX
  }
}
