/**
 * The index file: a Map in insertion order in memory, one JSON line a row on disk, and the JSONL bridge between
 * the two tools. `show` and `parse` stand for JSON.stringify and for JSON.parse with its shape checks.
 */
module IndexStore {
  import opened Lists
  import opened Sorting
  import opened Similarity

  /** `ok` are the rows that have a text: those of machine numbers, say, and not all rows of real numbers. */
  datatype Codec = Codec(ok: Row -> bool, show: Row -> string, parse: string -> Option<Row>)

  predicate Blank(c: char) {
    c == ' ' || c == '\t' || c == '\r' || c == '\n'
  }

  function Trim(s: string): string {
    if s == "" then s
    else if Blank(s[0]) then Trim(s[1..])
    else if Blank(s[|s| - 1]) then Trim(s[..|s| - 1])
    else s
  }

  predicate OneLine(text: string) {
    text != "" && '\n' !in text && Trim(text) == text
  }

  /** A row that has a text prints as one line, with nothing to trim, that parses back; parsing yields such rows only. */
  ghost predicate Faithful(codec: Codec) {
    && (forall r: Row :: codec.ok(r) ==> codec.parse(codec.show(r)) == Some(r) && OneLine(codec.show(r)))
    && (forall line: string :: codec.parse(line).Some? ==> codec.ok(codec.parse(line).value))
  }

  predicate AllOk(codec: Codec, rows: seq<Row>) {
    forall r :: r in rows ==> codec.ok(r)
  }

  // ---- Such codecs exist --------------------------------------------------------------------

  function Bracketed(r: Row): string {
    "{" + r.relPath + "}"
  }

  /** Rows without hash and components, written as the path in braces. */
  function PathCodec(): Codec {
    Codec((r: Row) => r.sha == "" && r.embedding == [] && '\n' !in r.relPath,
          Bracketed,
          (line: string) => if |line| >= 2 && line[0] == '{' && line[|line| - 1] == '}' && '\n' !in line
                            then Some(Row(line[1..|line| - 1], "", [])) else None)
  }

  /** The assumption about codecs can be met, with infinitely many rows. */
  lemma PathCodecFaithful()
    ensures Faithful(PathCodec())
  {
    var codec := PathCodec();
    forall r: Row | codec.ok(r) ensures codec.parse(codec.show(r)) == Some(r) && OneLine(codec.show(r)) {
      var text := Bracketed(r);
      assert text[0] == '{' && text[|text| - 1] == '}' && text[1..|text| - 1] == r.relPath;
    }
  }

  // ---- Lines --------------------------------------------------------------------------------

  /** Split at newlines: one part more than there are newlines. */
  function Split(text: string): (parts: seq<string>)
    ensures |parts| > 0
  {
    if text == "" then [""]
    else
      var parts, c := Split(text[..|text| - 1]), text[|text| - 1];
      if c == '\n' then parts + [""] else parts[..|parts| - 1] + [parts[|parts| - 1] + [c]]
  }

  /** Every row on a line of its own. */
  function Render(codec: Codec, rows: seq<Row>): string {
    if rows == [] then "" else Render(codec, rows[..|rows| - 1]) + codec.show(rows[|rows| - 1]) + "\n"
  }

  function Printed(codec: Codec, rows: seq<Row>): seq<string> {
    if rows == [] then [] else Printed(codec, rows[..|rows| - 1]) + [codec.show(rows[|rows| - 1])]
  }

  lemma {:induction false} SplitExtend(text: string, s: string, before: seq<string>)
    requires Split(text) == before + [""] && '\n' !in s
    ensures Split(text + s) == before + [s]
  {
    if s == "" {
      assert text + s == text;
    } else {
      var n := |s| - 1;
      SplitExtend(text, s[..n], before);
      assert (text + s)[..|text + s| - 1] == text + s[..n];
      assert s[n] in s;
      var parts := Split(text + s[..n]);
      assert parts[..|parts| - 1] == before && parts[|parts| - 1] + [s[n]] == s;
    }
  }

  lemma {:induction false} SplitRender(codec: Codec, rows: seq<Row>)
    requires Faithful(codec) && AllOk(codec, rows)
    ensures Split(Render(codec, rows)) == Printed(codec, rows) + [""]
  {
    if rows != [] {
      var init, s := rows[..|rows| - 1], codec.show(rows[|rows| - 1]);
      SplitRender(codec, init);
      SplitExtend(Render(codec, init), s, Printed(codec, init));
      var text := Render(codec, init) + s;
      assert (text + "\n")[..|text + "\n"| - 1] == text;
    }
  }

  /** The rows that loadAll reads: empty and malformed lines are passed over. */
  function Loaded(codec: Codec, lines: seq<string>): seq<Row> {
    if lines == [] then []
    else
      var line := lines[|lines| - 1];
      Loaded(codec, lines[..|lines| - 1]) +
      (if line != "" && codec.parse(line).Some? then [codec.parse(line).value] else [])
  }

  function LoadAll(codec: Codec, text: string): seq<Row> {
    Loaded(codec, Split(text))
  }

  method ReadRows(codec: Codec, text: string) returns (out: seq<Row>)
    ensures out == LoadAll(codec, text)
  {
    var lines := Split(text);
    out := [];
    for i := 0 to |lines|
      invariant out == Loaded(codec, lines[..i])
    {
      assert lines[..i + 1][..i] == lines[..i];
      if |lines[i]| == 0 {
        continue;
      }
      var parsed := codec.parse(lines[i]);
      if parsed.Some? {
        out := out + [parsed.value];
      }
    }
    assert lines[..|lines|] == lines;
  }

  lemma {:induction false} LoadedPrinted(codec: Codec, rows: seq<Row>)
    requires Faithful(codec) && AllOk(codec, rows)
    ensures Loaded(codec, Printed(codec, rows)) == rows
  {
    if rows != [] {
      var init := rows[..|rows| - 1];
      LoadedPrinted(codec, init);
      assert Printed(codec, rows)[..|Printed(codec, init)|] == Printed(codec, init);
      assert rows == init + [rows[|rows| - 1]];
    }
  }

  lemma {:induction false} LoadedOk(codec: Codec, lines: seq<string>)
    requires Faithful(codec)
    ensures AllOk(codec, Loaded(codec, lines))
  {
    if lines != [] {
      LoadedOk(codec, lines[..|lines| - 1]);
    }
  }

  /** loadAll inverts what commit and export write. */
  lemma LoadInvertsRender(codec: Codec, rows: seq<Row>)
    requires Faithful(codec) && AllOk(codec, rows)
    ensures LoadAll(codec, Render(codec, rows)) == rows
  {
    SplitRender(codec, rows);
    LoadedPrinted(codec, rows);
    var lines := Printed(codec, rows) + [""];
    assert lines[..|lines| - 1] == Printed(codec, rows);
  }

  // ---- The Map ------------------------------------------------------------------------------

  predicate DistinctPaths(rows: seq<Row>) {
    forall i, j | 0 <= i < j < |rows| :: rows[i].relPath != rows[j].relPath
  }

  /** Map.set: an existing key keeps its place, a new one goes to the end. */
  function Put(rows: seq<Row>, row: Row): seq<Row> {
    if rows == [] then [row]
    else if rows[0].relPath == row.relPath then [row] + rows[1..]
    else [rows[0]] + Put(rows[1..], row)
  }

  function PutAll(rows: seq<Row>, more: seq<Row>): seq<Row> {
    if more == [] then rows else Put(PutAll(rows, more[..|more| - 1]), more[|more| - 1])
  }

  /** The rows as a map from path to row; the last row of a path wins. */
  function MapOf(rows: seq<Row>): map<string, Row> {
    if rows == [] then map[] else MapOf(rows[..|rows| - 1])[rows[|rows| - 1].relPath := rows[|rows| - 1]]
  }

  lemma {:induction false} MapOfCons(row: Row, rows: seq<Row>)
    ensures MapOf([row] + rows) == map[row.relPath := row] + MapOf(rows)
  {
    if rows == [] {
      assert [row] + rows == [row] && [row][..0] == [];
    } else {
      assert ([row] + rows)[..|rows|] == [row] + rows[..|rows| - 1];
      MapOfCons(row, rows[..|rows| - 1]);
    }
  }

  lemma {:induction false} MapOfKeys(rows: seq<Row>)
    ensures forall path :: path in MapOf(rows) <==> exists r :: r in rows && r.relPath == path
  {
    if rows != [] {
      MapOfKeys(rows[..|rows| - 1]);
      assert rows == rows[..|rows| - 1] + [rows[|rows| - 1]];
      assert rows[|rows| - 1] in rows;
    }
  }

  lemma Override(m: map<string, Row>, p: string, a: Row, b: Row)
    requires p !in m
    ensures (map[p := a] + m)[p := b] == map[p := b] + m
  {
  }

  lemma Commute(m: map<string, Row>, p: string, a: Row, q: string, b: Row)
    requires p != q
    ensures map[p := a] + m[q := b] == (map[p := a] + m)[q := b]
  {
  }

  lemma {:induction false} MapOfPut(rows: seq<Row>, row: Row)
    requires DistinctPaths(rows)
    ensures MapOf(Put(rows, row)) == MapOf(rows)[row.relPath := row]
  {
    if rows == [] {
      assert [row][..0] == [];
    } else {
      var rest := rows[1..];
      assert rows == [rows[0]] + rest;
      MapOfCons(rows[0], rest);
      MapOfKeys(rest);
      var m := MapOf(rest);
      hide MapOf;
      if rows[0].relPath == row.relPath {
        MapOfCons(row, rest);
        assert row.relPath !in m;
        Override(m, row.relPath, rows[0], row);
      } else {
        MapOfPut(rest, row);
        MapOfCons(rows[0], Put(rest, row));
        Commute(m, rows[0].relPath, rows[0], row.relPath, row);
      }
    }
  }

  lemma {:induction false} PutPaths(rows: seq<Row>, row: Row)
    ensures forall r :: r in Put(rows, row) ==> r == row || r in rows
    ensures DistinctPaths(rows) ==> DistinctPaths(Put(rows, row))
  {
    if rows != [] && rows[0].relPath != row.relPath {
      PutPaths(rows[1..], row);
      var put := Put(rows[1..], row);
      if DistinctPaths(rows) {
        forall r | r in put ensures r.relPath != rows[0].relPath {
        }
      }
    }
  }

  lemma {:induction false} PutAllMembers(rows: seq<Row>, more: seq<Row>)
    ensures forall r :: r in PutAll(rows, more) ==> r in rows || r in more
  {
    if more != [] {
      PutAllMembers(rows, more[..|more| - 1]);
      PutPaths(PutAll(rows, more[..|more| - 1]), more[|more| - 1]);
    }
  }

  lemma {:induction false} PutAllDistinct(rows: seq<Row>, more: seq<Row>)
    requires DistinctPaths(rows)
    ensures DistinctPaths(PutAll(rows, more))
  {
    hide DistinctPaths;
    if more != [] {
      PutAllDistinct(rows, more[..|more| - 1]);
      PutPaths(PutAll(rows, more[..|more| - 1]), more[|more| - 1]);
    }
  }

  lemma {:induction false} MapOfPutAll(rows: seq<Row>, more: seq<Row>)
    requires DistinctPaths(rows)
    ensures MapOf(PutAll(rows, more)) == MapOf(rows) + MapOf(more)
  {
    hide DistinctPaths;
    if more != [] {
      MapOfPutAll(rows, more[..|more| - 1]);
      PutAllDistinct(rows, more[..|more| - 1]);
      MapOfPut(PutAll(rows, more[..|more| - 1]), more[|more| - 1]);
    }
  }

  lemma {:induction false} PutNew(rows: seq<Row>, row: Row)
    requires forall r :: r in rows ==> r.relPath != row.relPath
    ensures Put(rows, row) == rows + [row]
  {
    if rows != [] {
      PutNew(rows[1..], row);
    }
  }

  lemma {:induction false} PutAllDistinctIsSelf(rows: seq<Row>)
    requires DistinctPaths(rows)
    ensures PutAll([], rows) == rows
  {
    if rows != [] {
      PutAllDistinctIsSelf(rows[..|rows| - 1]);
      PutNew(rows[..|rows| - 1], rows[|rows| - 1]);
    }
  }

  lemma {:induction false} MapOfMembers(rows: seq<Row>)
    requires DistinctPaths(rows)
    ensures forall r :: r in rows <==> r.relPath in MapOf(rows) && MapOf(rows)[r.relPath] == r
    ensures forall path :: path in MapOf(rows) ==> MapOf(rows)[path].relPath == path
    ensures forall r :: multiset(rows)[r] == if r in rows then 1 else 0
  {
    if rows != [] {
      var init, last := rows[..|rows| - 1], rows[|rows| - 1];
      MapOfMembers(init);
      assert rows == init + [last];
      forall r | r in init ensures r.relPath != last.relPath {
      }
      forall r: Row | r.relPath == last.relPath ensures r !in init {
      }
    }
  }

  /** Rows with distinct paths are, up to order, what their map says. */
  lemma SameMapSameRows(a: seq<Row>, b: seq<Row>)
    requires DistinctPaths(a) && DistinctPaths(b)
    ensures MapOf(a) == MapOf(b) <==> multiset(a) == multiset(b)
  {
    MapOfMembers(a);
    MapOfMembers(b);
    if MapOf(a) == MapOf(b) {
      forall r: Row ensures multiset(a)[r] == multiset(b)[r] {
      }
    } else if multiset(a) == multiset(b) {
      forall r: Row ensures r in a <==> r in b {
        assert r in a <==> multiset(a)[r] == 1;
      }
      forall path ensures path in MapOf(a) <==> path in MapOf(b) {
        if path in MapOf(a) {
          assert MapOf(a)[path] in b;
        }
        if path in MapOf(b) {
          assert MapOf(b)[path] in a;
        }
      }
      forall path | path in MapOf(a) ensures MapOf(a)[path] == MapOf(b)[path] {
        assert MapOf(a)[path] in b;
      }
    }
  }

  // ---- The canonical form -------------------------------------------------------------------

  /** Rows in the order of their paths; `before` is the collation. */
  function ByPath(before: (string, string) -> bool): (Row, Row) -> bool {
    (a: Row, b: Row) => before(a.relPath, b.relPath)
  }

  lemma ByPathOrder(before: (string, string) -> bool)
    requires KeyOrder(before)
    ensures KeyOrder(ByPath(before))
  {
    var higher := ByPath(before);
    forall x: Row ensures !higher(x, x) {
      assert !before(x.relPath, x.relPath);
    }
    forall x: Row, y: Row | higher(x, y) ensures !higher(y, x) {
      assert before(x.relPath, y.relPath);
    }
    forall x: Row, y: Row, z: Row | !higher(x, y) && !higher(y, z) ensures !higher(x, z) {
      assert !before(x.relPath, y.relPath) && !before(y.relPath, z.relPath);
    }
  }

  function CommitText(codec: Codec, before: (string, string) -> bool, rows: seq<Row>): string {
    Render(codec, SortDown(rows, ByPath(before)))
  }

  /** The collation never calls the paths of two rows equal when they differ. */
  ghost predicate Separates(codec: Codec, before: (string, string) -> bool) {
    forall x: Row, y: Row :: codec.ok(x) && codec.ok(y) && x.relPath != y.relPath ==>
      before(x.relPath, y.relPath) || before(y.relPath, x.relPath)
  }

  lemma SortedDistinct(rows: seq<Row>, before: (string, string) -> bool)
    requires KeyOrder(before) && DistinctPaths(rows)
    ensures DistinctPaths(SortDown(rows, ByPath(before)))
    ensures forall r :: r in SortDown(rows, ByPath(before)) ==> r in rows
    ensures MapOf(SortDown(rows, ByPath(before))) == MapOf(rows)
  {
    hide SortDown, KeyOrder, ByPath, Descending;
    var s := SortDown(rows, ByPath(before));
    ByPathOrder(before);
    Sorted(rows, ByPath(before));
    OncePerPath(rows, s);
    SameMapSameRows(rows, s);
    assert forall r :: r in s <==> r in multiset(s);
  }

  lemma OncePerPath(rows: seq<Row>, s: seq<Row>)
    requires DistinctPaths(rows) && multiset(s) == multiset(rows)
    ensures DistinctPaths(s)
  {
    MapOfMembers(rows);
    forall i, j | 0 <= i < j < |s| ensures s[i].relPath != s[j].relPath {
      assert s[i] in multiset(s) && s[j] in multiset(s);
      if s[i].relPath == s[j].relPath {
        assert s[i] == s[j];
        Twice(s, i, j);
        assert false;
      }
    }
  }

  lemma Twice(s: seq<Row>, i: nat, j: nat)
    requires i < j < |s| && s[i] == s[j]
    ensures multiset(s)[s[i]] >= 2
  {
    assert s == s[..j] + [s[j]] + s[j + 1..];
    assert s[i] == s[..j][i];
    assert s[i] in multiset(s[..j]);
  }

  /** What is on disk after a commit is what is in memory. */
  lemma CommitRoundTrip(codec: Codec, before: (string, string) -> bool, rows: seq<Row>)
    requires Faithful(codec) && AllOk(codec, rows) && KeyOrder(before) && DistinctPaths(rows)
    ensures MapOf(LoadAll(codec, CommitText(codec, before, rows))) == MapOf(rows)
  {
    SortedDistinct(rows, before);
    LoadInvertsRender(codec, SortDown(rows, ByPath(before)));
  }

  /** The lines of the rows, one after the other, each ended by a newline. */
  function Lines(codec: Codec, rows: seq<Row>): string {
    if rows == [] then "" else codec.show(rows[0]) + "\n" + Lines(codec, rows[1..])
  }

  lemma {:induction false} LinesSnoc(codec: Codec, rows: seq<Row>, row: Row)
    ensures Lines(codec, rows + [row]) == Lines(codec, rows) + (codec.show(row) + "\n")
  {
    if |rows| == 0 {
      assert rows + [row] == [row] && [row][1..] == [];
    } else {
      assert (rows + [row])[1..] == rows[1..] + [row];
      LinesSnoc(codec, rows[1..], row);
    }
  }

  lemma {:induction false} RenderedLines(codec: Codec, rows: seq<Row>)
    ensures Render(codec, rows) == Lines(codec, rows)
  {
    if |rows| > 0 {
      RenderedLines(codec, rows[..|rows| - 1]);
      LinesSnoc(codec, rows[..|rows| - 1], rows[|rows| - 1]);
      assert rows[..|rows| - 1] + [rows[|rows| - 1]] == rows;
    }
  }

  /**
   * A committed file holds one line a row, in the order of the collation: a row never stands behind one whose path
   * comes later.
   */
  lemma CommitOrdered(codec: Codec, before: (string, string) -> bool, rows: seq<Row>) returns (sorted: seq<Row>)
    requires KeyOrder(before)
    ensures CommitText(codec, before, rows) == Lines(codec, sorted) && multiset(sorted) == multiset(rows)
    ensures forall i, j | 0 <= i < j < |sorted| :: !before(sorted[j].relPath, sorted[i].relPath)
  {
    sorted := SortDown(rows, ByPath(before));
    ByPathOrder(before);
    Sorted(rows, ByPath(before));
    RenderedLines(codec, sorted);
    hide SortDown;
    forall i, j | 0 <= i < j < |sorted| ensures !before(sorted[j].relPath, sorted[i].relPath) {
      assert !ByPath(before)(sorted[j], sorted[i]);
    }
  }

  /**
   * Main result: the file depends only on the final map, whatever the history of upserts, exactly when the
   * collation separates every two different paths: the sort is stable, so tied paths keep their Map order.
   */
  lemma CommitCanonicalIff(codec: Codec, before: (string, string) -> bool)
    requires Faithful(codec) && KeyOrder(before)
    ensures (forall a: seq<Row>, b: seq<Row> ::
               AllOk(codec, a) && AllOk(codec, b) && DistinctPaths(a) && DistinctPaths(b) && MapOf(a) == MapOf(b) ==>
                 CommitText(codec, before, a) == CommitText(codec, before, b))
            <==> Separates(codec, before)
  {
    if Separates(codec, before) {
      forall a: seq<Row>, b: seq<Row> | AllOk(codec, a) && DistinctPaths(a) && DistinctPaths(b) && MapOf(a) == MapOf(b)
        ensures CommitText(codec, before, a) == CommitText(codec, before, b)
      {
        MapOfMembers(a);
        SameMapSameRows(a, b);
        ByPathOrder(before);
        NoTiedRows(codec, before, a);
        SortCanonical(a, b, ByPath(before));
      }
    } else {
      var x: Row, y: Row :| codec.ok(x) && codec.ok(y) && x.relPath != y.relPath &&
                            !before(x.relPath, y.relPath) && !before(y.relPath, x.relPath);
      TiedPathsDiffer(codec, before, x, y);
    }
  }

  lemma NoTiedRows(codec: Codec, before: (string, string) -> bool, rows: seq<Row>)
    requires Separates(codec, before) && AllOk(codec, rows) && DistinctPaths(rows)
    ensures NoTies(rows, ByPath(before))
  {
    forall x, y | x in rows && y in rows && x != y ensures before(x.relPath, y.relPath) || before(y.relPath, x.relPath) {
      var i :| 0 <= i < |rows| && rows[i] == x;
      var j :| 0 <= j < |rows| && rows[j] == y;
    }
  }

  lemma TiedPathsDiffer(codec: Codec, before: (string, string) -> bool, x: Row, y: Row)
    requires Faithful(codec) && codec.ok(x) && codec.ok(y) && x.relPath != y.relPath && !before(x.relPath, y.relPath) && !before(y.relPath, x.relPath)
    ensures MapOf([x, y]) == MapOf([y, x]) && DistinctPaths([x, y]) && DistinctPaths([y, x])
    ensures CommitText(codec, before, [x, y]) != CommitText(codec, before, [y, x])
  {
    hide SortDown, Render, LoadAll, Faithful, MapOf;
    PairMap(x, y);
    PairMap(y, x);
    SortIdempotent([x, y], ByPath(before));
    SortIdempotent([y, x], ByPath(before));
    LoadInvertsRender(codec, [x, y]);
    LoadInvertsRender(codec, [y, x]);
    assert [x, y][0] != [y, x][0];
  }

  lemma PairMap(x: Row, y: Row)
    requires x.relPath != y.relPath
    ensures MapOf([x, y]) == map[x.relPath := x, y.relPath := y]
  {
    assert MapOf([x]) == map[x.relPath := x] by {
      assert [x][..0] == [];
    }
    assert [x, y][..1] == [x];
  }

  // ---- Import -------------------------------------------------------------------------------

  /** The row of an import line. */
  function RowOf(codec: Codec, line: string): Option<Row> {
    codec.parse(Trim(line))
  }

  function Imported(codec: Codec, lines: seq<string>): seq<Row> {
    if lines == [] then []
    else
      var line := lines[|lines| - 1];
      Imported(codec, lines[..|lines| - 1]) +
      (if Trim(line) != "" && RowOf(codec, line).Some? then [RowOf(codec, line).value] else [])
  }

  function NonBlank(lines: seq<string>): nat {
    if lines == [] then 0 else NonBlank(lines[..|lines| - 1]) + (if Trim(lines[|lines| - 1]) == "" then 0 else 1)
  }

  /** Line by line: loadAll passes over empty and malformed lines. */
  lemma {:induction false} LoadedFromFront(codec: Codec, line: string, lines: seq<string>)
    ensures Loaded(codec, [line] + lines) ==
            (if line != "" && codec.parse(line).Some? then [codec.parse(line).value] else []) + Loaded(codec, lines)
  {
    var all := [line] + lines;
    if |lines| == 0 {
      assert all == [line] && [line][..0] == [];
    } else {
      assert all[..|all| - 1] == [line] + lines[..|lines| - 1];
      LoadedFromFront(codec, line, lines[..|lines| - 1]);
    }
  }

  /** Line by line: an import passes over blank and malformed lines, and counts those that are not blank. */
  lemma {:induction false} ImportedFromFront(codec: Codec, line: string, lines: seq<string>)
    ensures Imported(codec, [line] + lines) ==
            (if Trim(line) != "" && codec.parse(Trim(line)).Some? then [codec.parse(Trim(line)).value] else []) + Imported(codec, lines)
    ensures NonBlank([line] + lines) == (if Trim(line) == "" then 0 else 1) + NonBlank(lines)
  {
    hide Trim;
    var all := [line] + lines;
    if |lines| == 0 {
      assert all == [line] && [line][..0] == [];
    } else {
      assert all[..|all| - 1] == [line] + lines[..|lines| - 1];
      ImportedFromFront(codec, line, lines[..|lines| - 1]);
    }
  }

  lemma ParsedOk(codec: Codec, line: string)
    requires Faithful(codec) && codec.parse(line).Some?
    ensures codec.ok(codec.parse(line).value)
  {
  }

  lemma PutOneMore(rows: seq<Row>, more: seq<Row>, row: Row)
    ensures PutAll(rows, more + [row]) == Put(PutAll(rows, more), row)
  {
    assert (more + [row])[..|more|] == more;
  }

  lemma NothingPut(rows: seq<Row>)
    ensures PutAll(rows, []) == rows
  {
  }

  class Index {
    const codec: Codec
    const before: (string, string) -> bool
    var byPath: seq<Row>
    var dirty: bool
    var disk: string

    /** A clean index agrees with its file. */
    ghost predicate Valid()
      reads this
    {
      && Faithful(codec) && KeyOrder(before) && DistinctPaths(byPath) && AllOk(codec, byPath)
      && (!dirty ==> MapOf(LoadAll(codec, disk)) == MapOf(byPath))
    }

    constructor (codec: Codec, before: (string, string) -> bool, disk: string)
      requires Faithful(codec) && KeyOrder(before)
      ensures Valid() && !dirty && this.disk == disk && this.codec == codec && this.before == before
      ensures byPath == PutAll([], LoadAll(codec, disk))
    {
      this.codec, this.before, this.disk, dirty := codec, before, disk, false;
      var entries := ReadRows(codec, disk);
      byPath := PutAll([], entries);
      LoadedOk(codec, Split(disk));
      PutAllMembers([], entries);
      MapOfPutAll([], entries);
      PutAllDistinct([], entries);
    }

    method Upsert(entry: Row)
      requires Valid() && codec.ok(entry)
      modifies this`byPath, this`dirty
      ensures Valid() && dirty && byPath == Put(old(byPath), entry)
    {
      PutPaths(byPath, entry);
      byPath := Put(byPath, entry);
      dirty := true;
    }

    method UpsertMany(entries: seq<Row>) returns (n: nat)
      requires Valid() && AllOk(codec, entries)
      modifies this`byPath, this`dirty
      ensures Valid() && n == |entries| && byPath == PutAll(old(byPath), entries)
      ensures dirty == (old(dirty) || entries != [])
    {
      for i := 0 to |entries|
        invariant byPath == PutAll(old(byPath), entries[..i]) && dirty == old(dirty)
      {
        assert entries[..i + 1][..i] == entries[..i];
        byPath := Put(byPath, entries[i]);
      }
      assert entries[..|entries|] == entries;
      PutAllDistinct(old(byPath), entries);
      PutAllMembers(old(byPath), entries);
      if |entries| > 0 {
        dirty := true;
      }
      n := |entries|;
    }

    method Clear() returns (n: nat)
      requires Valid()
      modifies this`byPath, this`dirty
      ensures Valid() && n == |old(byPath)| && byPath == [] && dirty
    {
      n := |byPath|;
      byPath, dirty := [], true;
    }

    /** Write the sorted rows, unless nothing changed. */
    method Commit()
      requires Valid()
      modifies this`dirty, this`disk
      ensures Valid() && !dirty
      ensures disk == if old(dirty) then CommitText(codec, before, byPath) else old(disk)
    {
      if !dirty {
        return;
      }
      disk := CommitText(codec, before, byPath);
      CommitRoundTrip(codec, before, byPath);
      dirty := false;
    }

    method ExportJsonl() returns (text: string)
      requires Valid()
      ensures text == CommitText(codec, before, byPath)
    {
      text := "";
      var sorted := SortDown(byPath, ByPath(before));
      for i := 0 to |sorted|
        invariant text == Render(codec, sorted[..i])
      {
        assert sorted[..i + 1][..i] == sorted[..i];
        text := text + codec.show(sorted[i]) + "\n";
      }
      assert sorted[..|sorted|] == sorted;
    }

    /** Upsert every well-formed line, count the others, commit. */
    method ImportJsonl(text: string) returns (rows: nat, skipped: nat)
      requires Valid()
      modifies this
      ensures Valid() && !dirty && byPath == PutAll(old(byPath), Imported(codec, Split(text)))
      ensures rows == |Imported(codec, Split(text))| && rows + skipped == NonBlank(Split(text))
      ensures MapOf(LoadAll(codec, disk)) == MapOf(old(byPath)) + MapOf(Imported(codec, Split(text)))
    {
      hide PutAll, Put, MapOf, LoadAll, DistinctPaths, CommitText, Faithful, KeyOrder, Split;
      var lines := Split(text);
      rows, skipped := 0, 0;
      NothingPut(byPath);
      for i := 0 to |lines|
        invariant Valid() && disk == old(disk)
        invariant byPath == PutAll(old(byPath), Imported(codec, lines[..i]))
        invariant rows == |Imported(codec, lines[..i])| && rows + skipped == NonBlank(lines[..i])
      {
        assert lines[..i + 1][..i] == lines[..i];
        ghost var done := Imported(codec, lines[..i]);
        var trimmed := Trim(lines[i]);
        if |trimmed| == 0 {
          assert Imported(codec, lines[..i + 1]) == done;
          continue;
        }
        var parsed := codec.parse(trimmed);
        if parsed.None? {
          assert Imported(codec, lines[..i + 1]) == done;
          skipped := skipped + 1;
          continue;
        }
        ParsedOk(codec, trimmed);
        Upsert(parsed.value);
        PutOneMore(old(byPath), done, parsed.value);
        assert Imported(codec, lines[..i + 1]) == done + [parsed.value];
        rows := rows + 1;
      }
      assert lines[..|lines|] == lines;
      Commit();
      MapOfPutAll(old(byPath), Imported(codec, lines));
    }
  }

  lemma {:induction false} ImportedAppend(codec: Codec, a: seq<string>, b: seq<string>)
    ensures Imported(codec, a + b) == Imported(codec, a) + Imported(codec, b)
  {
    if b == [] {
      assert a + b == a;
    } else {
      assert (a + b)[..|a + b| - 1] == a + b[..|b| - 1];
      ImportedAppend(codec, a, b[..|b| - 1]);
    }
  }

  /** Malformed lines never change what an import does. */
  lemma {:induction false} MalformedLinesIgnored(codec: Codec, a: seq<string>, bad: seq<string>, b: seq<string>)
    requires forall line :: line in bad ==> RowOf(codec, line).None?
    ensures Imported(codec, a + bad + b) == Imported(codec, a + b)
  {
    ImportedAppend(codec, a + bad, b);
    ImportedAppend(codec, a, b);
    if bad == [] {
      assert a + bad == a;
    } else {
      ImportedAppend(codec, a, bad);
      NothingImported(codec, bad);
    }
  }

  lemma {:induction false} NothingImported(codec: Codec, bad: seq<string>)
    requires forall line :: line in bad ==> RowOf(codec, line).None?
    ensures Imported(codec, bad) == []
  {
    if bad != [] {
      NothingImported(codec, bad[..|bad| - 1]);
    }
  }

  lemma {:induction false} ImportedPrinted(codec: Codec, rows: seq<Row>)
    requires Faithful(codec) && AllOk(codec, rows)
    ensures Imported(codec, Printed(codec, rows)) == rows
  {
    if rows != [] {
      var init := rows[..|rows| - 1];
      ImportedPrinted(codec, init);
      assert Printed(codec, rows)[..|Printed(codec, init)|] == Printed(codec, init);
      assert rows == init + [rows[|rows| - 1]];
    }
  }

  /**
   * Main result: an export imported into an empty index gives back the index, its export is the very same text,
   * and imported into any index it overrides the rows of the same path.
   */
  lemma ExportThenImport(codec: Codec, before: (string, string) -> bool, rows: seq<Row>, into: seq<Row>)
    requires Faithful(codec) && AllOk(codec, rows) && KeyOrder(before) && DistinctPaths(rows) && DistinctPaths(into)
    ensures var text := CommitText(codec, before, rows);
            var taken := Imported(codec, Split(text));
            && MapOf(PutAll([], taken)) == MapOf(rows)
            && CommitText(codec, before, PutAll([], taken)) == text
            && MapOf(PutAll(into, taken)) == MapOf(into) + MapOf(rows)
  {
    hide SortDown, KeyOrder, ByPath, Descending, Faithful, DistinctPaths, MapOf, PutAll, Render, Split, Imported, Printed;
    var sorted := SortDown(rows, ByPath(before));
    SortedDistinct(rows, before);
    SplitRender(codec, sorted);
    ImportedAppend(codec, Printed(codec, sorted), [""]);
    ImportedPrinted(codec, sorted);
    NothingFromBlank(codec);
    assert sorted + [] == sorted;
    assert Imported(codec, Split(CommitText(codec, before, rows))) == sorted;
    ByPathOrder(before);
    PutAllDistinctIsSelf(sorted);
    MapOfPutAll(into, sorted);
    Sorted(rows, ByPath(before));
    SortIdempotent(sorted, ByPath(before));
  }

  lemma NothingFromBlank(codec: Codec)
    ensures Imported(codec, [""]) == []
  {
    assert [""][..0] == [];
  }

  lemma {:induction false} InsertLast<T(!new)>(x: T, xs: seq<T>, higher: (T, T) -> bool)
    requires forall y :: y in xs ==> !higher(x, y)
    ensures Insert(x, xs, higher) == xs + [x]
  {
    if xs != [] {
      InsertLast(x, xs[1..], higher);
    }
  }

  lemma {:induction false} SortIdempotent<T(!new)>(xs: seq<T>, higher: (T, T) -> bool)
    requires Descending(xs, higher)
    ensures SortDown(xs, higher) == xs
  {
    if xs != [] {
      SortIdempotent(xs[..|xs| - 1], higher);
      InsertLast(xs[|xs| - 1], xs[..|xs| - 1], higher);
    }
  }
}
