/**
 * The in-memory part of `Octopus.get_patterns`: resolving the edge ids of
 * mined patterns through the alignment graph and building the sorted rows
 * of the pattern table.  The lines of `edges.json` and `graphs.json` are
 * given as record sequences; writing the CSV file is not modelled.
 */
module Patterns {
  import opened Common
  import opened PyStrings
  import KarmaGraph

  /** A line of `edges.json`: its `id` and `data.alignId`. */
  datatype EdgeRecord = EdgeRecord(id: string, alignId: string)

  /** A line of `graphs.json`: `id`, `data.support` and `data.__variable_mapping`. */
  datatype GraphRecord = GraphRecord(id: string, support: int, variableMapping: string)

  /** A row `[pattern, support, num_edges, edge_keys]` of the pattern table. */
  datatype PatternRow = PatternRow(pattern: string, support: int, numEdges: nat, edgeKeys: seq<nat>)

  // ------------------------------------------------------------- uri_lookup

  /** `uri_lookup`: each alignment edge's `alignId` mapped to its edge key, later edges overwriting. */
  function UriLookup(edges: seq<KarmaGraph.Edge>): map<string, nat>
  {
    if edges == [] then map[]
    else UriLookup(edges[..|edges| - 1])[edges[|edges| - 1].alignId := edges[|edges| - 1].key]
  }

  /** `uri_lookup` holds every alignId, with the key of the last edge that carries it. */
  lemma {:induction false} UriLookupSpec(edges: seq<KarmaGraph.Edge>, a: string)
    ensures a in UriLookup(edges) <==> exists i :: 0 <= i < |edges| && edges[i].alignId == a
    ensures a in UriLookup(edges) ==>
              exists i :: 0 <= i < |edges| && edges[i].alignId == a && UriLookup(edges)[a] == edges[i].key
                && forall j :: i < j < |edges| ==> edges[j].alignId != a
    decreases |edges|
  {
    if edges != [] {
      var front, n := edges[..|edges| - 1], |edges| - 1;
      UriLookupSpec(front, a);
      if edges[n].alignId == a {
        assert UriLookup(edges)[a] == edges[n].key;
      } else if a in UriLookup(front) {
        var i :| 0 <= i < |front| && front[i].alignId == a && UriLookup(front)[a] == front[i].key
                 && forall j :: i < j < |front| ==> front[j].alignId != a;
        assert edges[i] == front[i];
        forall j | i < j < |edges|
          ensures edges[j].alignId != a
        {
          if j < n {
            assert edges[j] == front[j];
          }
        }
      } else {
        assert forall i :: 0 <= i < |front| ==> front[i] == edges[i];
      }
    }
  }

  method BuildUriLookup(edges: seq<KarmaGraph.Edge>) returns (uriLookup: map<string, nat>)
    ensures uriLookup == UriLookup(edges)
  {
    uriLookup := map[];
    for i := 0 to |edges|
      invariant uriLookup == UriLookup(edges[..i])
    {
      assert edges[..i + 1][..i] == edges[..i];
      uriLookup := uriLookup[edges[i].alignId := edges[i].key];
    }
    assert edges[..|edges|] == edges;
  }

  // ------------------------------------------------------------- edge_lines

  /**
   * `edge_lines`: each edge record whose alignId is in `uriLookup` maps its
   * id to that alignId's edge key; the other records are skipped.
   */
  function EdgeLines(records: seq<EdgeRecord>, uriLookup: map<string, nat>): map<string, nat>
  {
    if records == [] then map[]
    else
      var m := EdgeLines(records[..|records| - 1], uriLookup);
      var r := records[|records| - 1];
      if r.alignId in uriLookup then m[r.id := uriLookup[r.alignId]] else m
  }

  /** An id is in `edge_lines` exactly when a resolvable record has it; the last one decides. */
  lemma {:induction false} EdgeLinesSpec(records: seq<EdgeRecord>, uriLookup: map<string, nat>, id: string)
    ensures id in EdgeLines(records, uriLookup) <==>
              exists i :: 0 <= i < |records| && records[i].id == id && records[i].alignId in uriLookup
    ensures id in EdgeLines(records, uriLookup) ==>
              exists i :: 0 <= i < |records| && records[i].id == id && records[i].alignId in uriLookup
                && EdgeLines(records, uriLookup)[id] == uriLookup[records[i].alignId]
                && forall j :: i < j < |records| ==> !(records[j].id == id && records[j].alignId in uriLookup)
    decreases |records|
  {
    if records != [] {
      var front, n := records[..|records| - 1], |records| - 1;
      EdgeLinesSpec(front, uriLookup, id);
      if records[n].id == id && records[n].alignId in uriLookup {
        assert EdgeLines(records, uriLookup)[id] == uriLookup[records[n].alignId];
      } else if id in EdgeLines(front, uriLookup) {
        var i :| 0 <= i < |front| && front[i].id == id && front[i].alignId in uriLookup
                 && EdgeLines(front, uriLookup)[id] == uriLookup[front[i].alignId]
                 && forall j :: i < j < |front| ==> !(front[j].id == id && front[j].alignId in uriLookup);
        assert records[i] == front[i];
        forall j | i < j < |records|
          ensures !(records[j].id == id && records[j].alignId in uriLookup)
        {
          if j < n {
            assert records[j] == front[j];
          }
        }
      } else {
        assert forall i :: 0 <= i < |front| ==> front[i] == records[i];
      }
    }
  }

  method BuildEdgeLines(records: seq<EdgeRecord>, uriLookup: map<string, nat>)
    returns (edgeLines: map<string, nat>)
    ensures edgeLines == EdgeLines(records, uriLookup)
  {
    edgeLines := map[];
    for i := 0 to |records|
      invariant edgeLines == EdgeLines(records[..i], uriLookup)
    {
      assert records[..i + 1][..i] == records[..i];
      var proc := records[i];
      if proc.alignId in uriLookup {
        edgeLines := edgeLines[proc.id := uriLookup[proc.alignId]];
      }
    }
    assert records[..|records|] == records;
  }

  // ------------------------------------------------------ variable mappings

  /** The entries of a `__variable_mapping`: braces removed, split on commas. */
  function MappingEntries(mapping: string): seq<string>
  {
    Split(RemoveChar(RemoveChar(mapping, '}'), '{'), ",")
  }

  /** The `key=value` parts of one entry, after stripping whitespace. */
  function EntryParts(entry: string): seq<string>
  {
    Split(Strip(entry), "=")
  }

  /** An edge entry (its key starts with `__e`) that has no value: `pos[1]` raises. */
  predicate Malformed(entry: string)
  {
    StartsWith(EntryParts(entry)[0], "__e") && |EntryParts(entry)| < 2
  }

  /** The edge keys of the `__e` entries whose value is in `edge_lines`, in entry order. */
  function ResolveEdges(entries: seq<string>, edgeLines: map<string, nat>): (r: Result<seq<nat>>)
    ensures r.Ok? ==> |r.value| <= |entries|
  {
    if entries == [] then Ok([])
    else
      match ResolveEdges(entries[..|entries| - 1], edgeLines)
      case Err(e) => Err(e)
      case Ok(edges) =>
        var entry := entries[|entries| - 1];
        var pos := EntryParts(entry);
        if StartsWith(pos[0], "__e") then
          if |pos| < 2 then Err(MissingEdgeValue(entry))
          else if pos[1] in edgeLines then Ok(edges + [edgeLines[pos[1]]])
          else Ok(edges)
        else Ok(edges)
  }

  lemma {:induction false} ResolveEdgesErrPersists(entries: seq<string>, k: nat,
      edgeLines: map<string, nat>, e: Error)
    requires k <= |entries| && ResolveEdges(entries[..k], edgeLines) == Err(e)
    ensures ResolveEdges(entries, edgeLines) == Err(e)
    decreases |entries| - k
  {
    if k < |entries| {
      var front := entries[..|entries| - 1];
      assert front[..k] == entries[..k];
      ResolveEdgesErrPersists(front, k, edgeLines, e);
    } else {
      assert entries[..k] == entries;
    }
  }

  /** Every resolved edge key is a value of `edge_lines`. */
  lemma {:induction false} ResolveEdgesKnown(entries: seq<string>, edgeLines: map<string, nat>)
    requires ResolveEdges(entries, edgeLines).Ok?
    ensures forall k :: 0 <= k < |ResolveEdges(entries, edgeLines).value| ==>
              ResolveEdges(entries, edgeLines).value[k] in edgeLines.Values
    decreases |entries|
  {
    if entries != [] {
      var front := entries[..|entries| - 1];
      ResolveEdgesKnown(front, edgeLines);
      var pos := EntryParts(entries[|entries| - 1]);
      if StartsWith(pos[0], "__e") && pos[1] in edgeLines {
        assert edgeLines[pos[1]] in edgeLines.Values;
      }
    }
  }

  /** An edge entry whose value is an id of `edge_lines`: the entries that contribute a key. */
  predicate Known(entry: string, edgeLines: map<string, nat>)
  {
    var pos := EntryParts(entry);
    StartsWith(pos[0], "__e") && |pos| >= 2 && pos[1] in edgeLines
  }

  /**
   * `r` is the filter-map of `entries`: `idx` lists, in increasing order,
   * exactly the positions of the known entries, and `r[k]` is the key of
   * the value of entry `idx[k]`.
   */
  ghost predicate ResolvedBy(entries: seq<string>, edgeLines: map<string, nat>, idx: seq<nat>, r: seq<nat>)
  {
    && |idx| == |r|
    && (forall k :: 0 <= k < |idx| ==>
          idx[k] < |entries| && Known(entries[idx[k]], edgeLines)
          && r[k] == edgeLines[EntryParts(entries[idx[k]])[1]])
    && (forall k, l :: 0 <= k < l < |idx| ==> idx[k] < idx[l])
    && (forall i :: 0 <= i < |entries| && Known(entries[i], edgeLines) ==> i in idx)
  }

  /** The last entry either adds the key of its value or is skipped. */
  lemma ResolveEdgesLast(entries: seq<string>, edgeLines: map<string, nat>)
    requires entries != [] && ResolveEdges(entries, edgeLines).Ok?
    ensures var front, last := entries[..|entries| - 1], entries[|entries| - 1];
      && ResolveEdges(front, edgeLines).Ok?
      && (Known(last, edgeLines) ==>
            ResolveEdges(entries, edgeLines).value
              == ResolveEdges(front, edgeLines).value + [edgeLines[EntryParts(last)[1]]])
      && (!Known(last, edgeLines) ==>
            ResolveEdges(entries, edgeLines).value == ResolveEdges(front, edgeLines).value)
  {
  }

  /** A filter-map of all but the last entry extends to one of all entries. */
  lemma ResolvedByStep(entries: seq<string>, edgeLines: map<string, nat>, idx: seq<nat>,
                       rf: seq<nat>, r: seq<nat>)
    requires entries != [] && ResolvedBy(entries[..|entries| - 1], edgeLines, idx, rf)
    requires var last := entries[|entries| - 1];
      && (Known(last, edgeLines) ==> r == rf + [edgeLines[EntryParts(last)[1]]])
      && (!Known(last, edgeLines) ==> r == rf)
    ensures exists idx2 :: ResolvedBy(entries, edgeLines, idx2, r)
  {
    var last := |entries| - 1;
    var front := entries[..last];
    assert forall i :: 0 <= i < last ==> entries[i] == front[i];
    assert forall k :: 0 <= k < |idx| ==> idx[k] < last;
    if Known(entries[last], edgeLines) {
      var idx2 := idx + [last];
      assert forall k :: 0 <= k < |idx| ==> idx2[k] == idx[k];
      assert ResolvedBy(entries, edgeLines, idx2, r);
    } else {
      assert ResolvedBy(entries, edgeLines, idx, r);
    }
  }

  /**
   * The collected edge keys are exactly those of the known entries, one
   * per entry and in entry order.
   */
  lemma {:induction false} ResolveEdgesExact(entries: seq<string>, edgeLines: map<string, nat>)
    requires ResolveEdges(entries, edgeLines).Ok?
    ensures exists idx :: ResolvedBy(entries, edgeLines, idx, ResolveEdges(entries, edgeLines).value)
    decreases |entries|
  {
    if entries == [] {
      assert ResolvedBy(entries, edgeLines, [], []);
    } else {
      var front := entries[..|entries| - 1];
      ResolveEdgesLast(entries, edgeLines);
      ResolveEdgesExact(front, edgeLines);
      var idx: seq<nat> :| ResolvedBy(front, edgeLines, idx, ResolveEdges(front, edgeLines).value);
      ResolvedByStep(entries, edgeLines, idx, ResolveEdges(front, edgeLines).value,
                     ResolveEdges(entries, edgeLines).value);
    }
  }

  /** Resolving raises exactly when some edge entry has no value; unknown ids are skipped. */
  lemma {:induction false} ResolveEdgesFails(entries: seq<string>, edgeLines: map<string, nat>)
    ensures ResolveEdges(entries, edgeLines).Err? <==>
              exists i :: 0 <= i < |entries| && Malformed(entries[i])
    decreases |entries|
  {
    if entries != [] {
      var front := entries[..|entries| - 1];
      ResolveEdgesFails(front, edgeLines);
      if ResolveEdges(front, edgeLines).Err? {
        var i :| 0 <= i < |front| && Malformed(front[i]);
        assert entries[i] == front[i];
      } else {
        var last := entries[|entries| - 1];
        assert ResolveEdges(entries, edgeLines).Err? <==> Malformed(last);
        assert forall i :: 0 <= i < |front| ==> !Malformed(entries[i]) by {
          assert forall i :: 0 <= i < |front| ==> front[i] == entries[i];
        }
      }
    }
  }

  /** The row of one graph record: id, support, the number of edges and the sorted edges. */
  function RowOf(rec: GraphRecord, edgeLines: map<string, nat>): Result<PatternRow>
  {
    match ResolveEdges(MappingEntries(rec.variableMapping), edgeLines)
    case Err(e) => Err(e)
    case Ok(edges) => Ok(PatternRow(rec.id, rec.support, |edges|, SortNats(edges)))
  }

  /** A row lists the record's resolved edges, sorted, and counts them. */
  lemma RowOfSpec(rec: GraphRecord, edgeLines: map<string, nat>)
    requires RowOf(rec, edgeLines).Ok?
    ensures var row, edges := RowOf(rec, edgeLines).value,
                              ResolveEdges(MappingEntries(rec.variableMapping), edgeLines).value;
      && row.pattern == rec.id && row.support == rec.support
      && row.numEdges == |row.edgeKeys| == |edges|
      && NatsSorted(row.edgeKeys)
      && multiset(row.edgeKeys) == multiset(edges)
  {
    var edges := ResolveEdges(MappingEntries(rec.variableMapping), edgeLines).value;
    var keys := SortNats(edges);
    assert RowOf(rec, edgeLines).value == PatternRow(rec.id, rec.support, |edges|, keys);
    SortNatsSpec(edges);
    assert |keys| == |multiset(keys)| == |multiset(edges)| == |edges|;
  }

  /** The row, or the error, of each graph record in turn. */
  function RowResults(records: seq<GraphRecord>, edgeLines: map<string, nat>): (rs: seq<Result<PatternRow>>)
    ensures |rs| == |records|
    ensures forall i :: 0 <= i < |records| ==> rs[i] == RowOf(records[i], edgeLines)
  {
    seq(|records|, i requires 0 <= i < |records| => RowOf(records[i], edgeLines))
  }

  /** `graph_lines` before sorting: the row of every record, or the first record's error. */
  function RowsOf(records: seq<GraphRecord>, edgeLines: map<string, nat>): Result<seq<PatternRow>>
  {
    AllOk(RowResults(records, edgeLines))
  }

  /** Row `i` is record `i`'s row; building fails exactly when some record's row does. */
  lemma RowsOfSpec(records: seq<GraphRecord>, edgeLines: map<string, nat>)
    ensures RowsOf(records, edgeLines).Err? <==>
              exists i :: 0 <= i < |records| && RowOf(records[i], edgeLines).Err?
    ensures RowsOf(records, edgeLines).Ok? ==>
              |RowsOf(records, edgeLines).value| == |records| &&
              forall i :: 0 <= i < |records| ==>
                RowOf(records[i], edgeLines) == Ok(RowsOf(records, edgeLines).value[i])
  {
    AllOkSpec(RowResults(records, edgeLines));
  }

  /** The inner loop of `graph_lines`: collecting the edge keys of one record's entries. */
  method ResolveEntries(el: seq<string>, edgeLines: map<string, nat>) returns (r: Result<seq<nat>>)
    ensures r == ResolveEdges(el, edgeLines)
  {
    var edges: seq<nat> := [];
    for j := 0 to |el|
      invariant ResolveEdges(el[..j], edgeLines) == Ok(edges)
    {
      assert el[..j + 1][..j] == el[..j];
      var pos := Split(Strip(el[j]), "=");
      if StartsWith(pos[0], "__e") {
        if |pos| < 2 {
          ResolveEdgesErrPersists(el, j + 1, edgeLines, MissingEdgeValue(el[j]));
          return Err(MissingEdgeValue(el[j]));
        }
        if pos[1] in edgeLines {
          edges := edges + [edgeLines[pos[1]]];
        }
      }
    }
    assert el[..|el|] == el;
    r := Ok(edges);
  }

  /** The outer loop of `graph_lines`: one row per graph record. */
  method BuildGraphLines(records: seq<GraphRecord>, edgeLines: map<string, nat>)
    returns (r: Result<seq<PatternRow>>)
    ensures r == RowsOf(records, edgeLines)
  {
    var graphLines: seq<PatternRow> := [];
    for i := 0 to |records|
      invariant AllOk(RowResults(records, edgeLines)[..i]) == Ok(graphLines)
    {
      var err;
      err, graphLines := AddGraphLine(records, i, edgeLines, graphLines);
      if err.Some? {
        return Err(err.value);
      }
    }
    assert RowResults(records, edgeLines)[..|records|] == RowResults(records, edgeLines);
    r := Ok(graphLines);
  }

  /** One pass of the outer loop: record `i`'s row appended, or its error returned. */
  method AddGraphLine(records: seq<GraphRecord>, i: nat, edgeLines: map<string, nat>,
                      graphLines: seq<PatternRow>)
    returns (err: Option<Error>, graphLines': seq<PatternRow>)
    requires i < |records| && AllOk(RowResults(records, edgeLines)[..i]) == Ok(graphLines)
    ensures err.Some? ==> RowsOf(records, edgeLines) == Err(err.value)
    ensures err.None? ==> AllOk(RowResults(records, edgeLines)[..i + 1]) == Ok(graphLines')
  {
    ghost var rs := RowResults(records, edgeLines);
    var row := GraphLine(records[i], edgeLines);
    assert rs[i] == row;
    AllOkStep(rs, i, graphLines);
    if row.Err? {
      return Some(row.error), graphLines;
    }
    err, graphLines' := None, graphLines + [row.value];
  }

  /** The body of the outer loop: the edge keys of one record's mapping, counted and sorted. */
  method GraphLine(proc: GraphRecord, edgeLines: map<string, nat>) returns (r: Result<PatternRow>)
    ensures r == RowOf(proc, edgeLines)
  {
    var edges := ResolveEntries(Split(RemoveChar(RemoveChar(proc.variableMapping, '}'), '{'), ","), edgeLines);
    if edges.Err? {
      return Err(edges.error);
    }
    r := Ok(PatternRow(proc.id, proc.support, |edges.value|, SortNats(edges.value)));
  }

  // ---------------------------------------------------- sorting edge keys

  predicate NatsSorted(s: seq<nat>)
  {
    forall i, j :: 0 <= i < j < |s| ==> s[i] <= s[j]
  }

  function InsertNat(x: nat, s: seq<nat>): (r: seq<nat>)
    ensures multiset(r) == multiset{x} + multiset(s)
  {
    if s == [] || x <= s[0] then [x] + s
    else
      assert s == [s[0]] + s[1..];
      [s[0]] + InsertNat(x, s[1..])
  }

  /** `sorted(edges)` */
  function SortNats(s: seq<nat>): (r: seq<nat>)
    ensures multiset(r) == multiset(s)
  {
    if s == [] then []
    else
      assert s == [s[0]] + s[1..];
      InsertNat(s[0], SortNats(s[1..]))
  }

  lemma {:induction false} InsertNatSorted(x: nat, s: seq<nat>)
    requires NatsSorted(s)
    ensures NatsSorted(InsertNat(x, s))
    decreases |s|
  {
    if s != [] && x > s[0] {
      InsertNatSorted(x, s[1..]);
      var rest := InsertNat(x, s[1..]);
      forall k | 0 <= k < |rest| ensures s[0] <= rest[k] {
        assert rest[k] in multiset(rest);
        assert rest[k] == x || rest[k] in multiset(s[1..]);
        if rest[k] != x {
          var m :| 0 <= m < |s[1..]| && s[1..][m] == rest[k];
          assert s[1 + m] == rest[k];
        }
      }
    }
  }

  /** `sorted(edges)` is ascending and holds the same keys. */
  lemma {:induction false} SortNatsSpec(s: seq<nat>)
    ensures NatsSorted(SortNats(s)) && multiset(SortNats(s)) == multiset(s)
    decreases |s|
  {
    if s != [] {
      SortNatsSpec(s[1..]);
      InsertNatSorted(s[0], SortNats(s[1..]));
    }
  }

  // ------------------------------------------- sorting rows by edge list

  /** Python's `<` on lists of integers: lexicographic, a proper prefix first. */
  predicate LexLess(a: seq<nat>, b: seq<nat>)
    decreases |a|
  {
    b != [] && (a == [] || a[0] < b[0] || (a[0] == b[0] && LexLess(a[1..], b[1..])))
  }

  lemma {:induction false} LexLessIrreflexive(a: seq<nat>)
    ensures !LexLess(a, a)
    decreases |a|
  {
    if a != [] { LexLessIrreflexive(a[1..]); }
  }

  lemma {:induction false} LexLessAsymmetric(a: seq<nat>, b: seq<nat>)
    requires LexLess(a, b)
    ensures !LexLess(b, a)
    decreases |a|
  {
    if a != [] && a[0] == b[0] { LexLessAsymmetric(a[1..], b[1..]); }
  }

  lemma {:induction false} LexLessTransitive(a: seq<nat>, b: seq<nat>, c: seq<nat>)
    requires LexLess(a, b) && LexLess(b, c)
    ensures LexLess(a, c)
    decreases |a|
  {
    if a != [] && a[0] == b[0] && b[0] == c[0] {
      LexLessTransitive(a[1..], b[1..], c[1..]);
    }
  }

  lemma {:induction false} LexLessTotal(a: seq<nat>, b: seq<nat>)
    ensures LexLess(a, b) || LexLess(b, a) || a == b
    decreases |a|
  {
    if a != [] && b != [] && a[0] == b[0] {
      LexLessTotal(a[1..], b[1..]);
      if a[1..] == b[1..] {
        assert a == [a[0]] + a[1..] && b == [b[0]] + b[1..];
      }
    }
  }

  /** Not-less is transitive: the order `sort` relies on. */
  lemma LexNotLessTransitive(a: seq<nat>, b: seq<nat>, c: seq<nat>)
    requires !LexLess(b, a) && !LexLess(c, b)
    ensures !LexLess(c, a)
  {
    LexLessTotal(a, b);
    if LexLess(c, a) && LexLess(a, b) {
      LexLessTransitive(c, a, b);
    }
  }

  /** No later row's edge list is less than an earlier one's. */
  predicate RowsSorted(rows: seq<PatternRow>)
  {
    forall i, j :: 0 <= i < j < |rows| ==> !LexLess(rows[j].edgeKeys, rows[i].edgeKeys)
  }

  /** Inserting `x` before the first row whose edge list is not less than its own. */
  function InsertRow(x: PatternRow, s: seq<PatternRow>): (r: seq<PatternRow>)
    ensures multiset(r) == multiset{x} + multiset(s)
  {
    if s == [] || !LexLess(s[0].edgeKeys, x.edgeKeys) then [x] + s
    else
      assert s == [s[0]] + s[1..];
      [s[0]] + InsertRow(x, s[1..])
  }

  /** `graph_lines.sort(key=lambda x: x[3])`: a stable sort by edge list. */
  function SortRows(rows: seq<PatternRow>): (r: seq<PatternRow>)
    ensures multiset(r) == multiset(rows)
  {
    if rows == [] then []
    else
      assert rows == [rows[0]] + rows[1..];
      InsertRow(rows[0], SortRows(rows[1..]))
  }

  lemma {:induction false} InsertRowSorted(x: PatternRow, s: seq<PatternRow>)
    requires RowsSorted(s)
    ensures RowsSorted(InsertRow(x, s))
    decreases |s|
  {
    if s == [] || !LexLess(s[0].edgeKeys, x.edgeKeys) {
      var r := [x] + s;
      forall i, j | 0 <= i < j < |r| ensures !LexLess(r[j].edgeKeys, r[i].edgeKeys) {
        if i == 0 {
          if j > 1 { LexNotLessTransitive(x.edgeKeys, s[0].edgeKeys, s[j - 1].edgeKeys); }
        }
      }
    } else {
      InsertRowSorted(x, s[1..]);
      var rest := InsertRow(x, s[1..]);
      var r := [s[0]] + rest;
      forall k | 0 <= k < |rest| ensures !LexLess(rest[k].edgeKeys, s[0].edgeKeys) {
        assert rest[k] in multiset(rest);
        if rest[k] == x {
          LexLessAsymmetric(s[0].edgeKeys, x.edgeKeys);
        } else {
          assert rest[k] in multiset(s[1..]);
          var m :| 0 <= m < |s[1..]| && s[1..][m] == rest[k];
          assert s[1 + m] == rest[k];
        }
      }
      forall i, j | 0 <= i < j < |r| ensures !LexLess(r[j].edgeKeys, r[i].edgeKeys) {
        if i == 0 { assert r[j] == rest[j - 1]; }
      }
    }
  }

  lemma {:induction false} SortRowsSorted(rows: seq<PatternRow>)
    ensures RowsSorted(SortRows(rows))
    decreases |rows|
  {
    if rows != [] {
      SortRowsSorted(rows[1..]);
      InsertRowSorted(rows[0], SortRows(rows[1..]));
    }
  }

  /** The rows whose edge list is `k`, in order. */
  function WithEdges(rows: seq<PatternRow>, k: seq<nat>): seq<PatternRow>
  {
    if rows == [] then []
    else (if rows[0].edgeKeys == k then [rows[0]] else []) + WithEdges(rows[1..], k)
  }

  lemma {:induction false} InsertRowWithEdges(x: PatternRow, s: seq<PatternRow>, k: seq<nat>)
    ensures WithEdges(InsertRow(x, s), k) == (if x.edgeKeys == k then [x] else []) + WithEdges(s, k)
    decreases |s|
  {
    if s == [] || !LexLess(s[0].edgeKeys, x.edgeKeys) {
      assert ([x] + s)[1..] == s;
    } else {
      var rest := InsertRow(x, s[1..]);
      InsertRowWithEdges(x, s[1..], k);
      assert InsertRow(x, s) == [s[0]] + rest;
      assert ([s[0]] + rest)[1..] == rest;
      if s[0].edgeKeys == k {
        LexLessIrreflexive(x.edgeKeys);
        assert x.edgeKeys != k;
        assert WithEdges(InsertRow(x, s), k) == [s[0]] + WithEdges(rest, k);
      } else {
        assert WithEdges(InsertRow(x, s), k) == WithEdges(rest, k);
        assert WithEdges(s, k) == WithEdges(s[1..], k);
      }
    }
  }

  /** The sort is stable: rows with the same edge list keep their input order. */
  lemma {:induction false} SortRowsStable(rows: seq<PatternRow>, k: seq<nat>)
    ensures WithEdges(SortRows(rows), k) == WithEdges(rows, k)
    decreases |rows|
  {
    if rows != [] {
      SortRowsStable(rows[1..], k);
      InsertRowWithEdges(rows[0], SortRows(rows[1..]), k);
    }
  }

  // ------------------------------------------------------------ the table

  /**
   * The rows `get_patterns` writes, or the exception it raises: the octopus
   * must be stored with a session and trained, its alignment must convert,
   * and the rows are sorted by edge list.
   */
  function PatternTable(stored: bool, hasSession: bool, trainingComplete: bool,
                        alignment: KarmaGraph.KarmaData, getLabel: string -> string,
                        getPrefix: string -> string, edgeRecords: seq<EdgeRecord>,
                        graphRecords: seq<GraphRecord>): Result<seq<PatternRow>>
  {
    if !stored || !hasSession then Err(NotStored)
    else if !trainingComplete then Err(NotTrained)
    else
      match KarmaGraph.Convert(alignment, getLabel, getPrefix)
      case Err(e) => Err(e)
      case Ok(g) =>
        match RowsOf(graphRecords, EdgeLines(edgeRecords, UriLookup(g.edges)))
        case Err(e) => Err(e)
        case Ok(rows) => Ok(SortRows(rows))
  }

  method GetPatterns(stored: bool, hasSession: bool, trainingComplete: bool,
                     alignment: KarmaGraph.KarmaData, getLabel: string -> string,
                     getPrefix: string -> string, edgeRecords: seq<EdgeRecord>,
                     graphRecords: seq<GraphRecord>) returns (r: Result<seq<PatternRow>>)
    ensures r == PatternTable(stored, hasSession, trainingComplete, alignment, getLabel, getPrefix,
                              edgeRecords, graphRecords)
  {
    if !stored || !hasSession {
      return Err(NotStored);
    }
    if !trainingComplete {
      return Err(NotTrained);
    }
    var g := KarmaGraph.ConvertKarmaGraph(alignment, getLabel, getPrefix);
    if g.Err? {
      return Err(g.error);
    }
    var uriLookup := BuildUriLookup(g.value.edges);
    var edgeLines := BuildEdgeLines(edgeRecords, uriLookup);
    var graphLines := BuildGraphLines(graphRecords, edgeLines);
    if graphLines.Err? {
      return Err(graphLines.error);
    }
    r := Ok(SortRows(graphLines.value));
  }

  /**
   * The table holds one row per graph record (row of record `i` as
   * `RowOf` builds it), ordered by edge list, and rows with equal edge
   * lists stay in record order.
   */
  lemma PatternTableSpec(stored: bool, hasSession: bool, trainingComplete: bool,
                         alignment: KarmaGraph.KarmaData, getLabel: string -> string,
                         getPrefix: string -> string, edgeRecords: seq<EdgeRecord>,
                         graphRecords: seq<GraphRecord>, k: seq<nat>)
    requires PatternTable(stored, hasSession, trainingComplete, alignment, getLabel, getPrefix,
                          edgeRecords, graphRecords).Ok?
    ensures stored && hasSession && trainingComplete
    ensures KarmaGraph.Convert(alignment, getLabel, getPrefix).Ok?
    ensures var table := PatternTable(stored, hasSession, trainingComplete, alignment, getLabel,
                                      getPrefix, edgeRecords, graphRecords).value;
      var edgeLines := EdgeLines(edgeRecords, UriLookup(KarmaGraph.Convert(alignment, getLabel, getPrefix).value.edges));
      var rows := RowsOf(graphRecords, edgeLines).value;
      && RowsOf(graphRecords, edgeLines).Ok?
      && (forall i :: 0 <= i < |graphRecords| ==> RowOf(graphRecords[i], edgeLines) == Ok(rows[i]))
      && multiset(table) == multiset(rows)
      && RowsSorted(table)
      && WithEdges(table, k) == WithEdges(rows, k)
  {
    var g := KarmaGraph.Convert(alignment, getLabel, getPrefix).value;
    var edgeLines := EdgeLines(edgeRecords, UriLookup(g.edges));
    RowsOfSpec(graphRecords, edgeLines);
    var rows := RowsOf(graphRecords, edgeLines).value;
    SortRowsSorted(rows);
    SortRowsStable(rows, k);
  }
}
