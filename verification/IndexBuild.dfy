/**
 * Building the embedding index: incremental, in batches of 16, in both of its twins. The Python twin commits every
 * batch; the TypeScript twin works in memory and commits once, at the end of a pass that succeeded.
 */
module IndexBuild {
  import opened Lists
  import opened Similarity

  const BATCH: nat := 16

  type Bytes = seq<bv8>

  /** Hash, decoder and embedding model; the model answers every text on its own. */
  datatype Env = Env(sha: Bytes -> string, text: Bytes -> string, embed: string -> Vector)

  /** A walked file; no content means that it cannot be read. A walk can yield one path twice: `git ls-files` does in
      a merge, and the Python twin writes both separators as one. */
  datatype File = File(path: string, content: Option<Bytes>)

  datatype Stored = Stored(sha: string, embedding: Vector)

  type Table = map<string, Stored>

  datatype Stats = Stats(walked: nat, embedded: nat, upToDate: nat, unreadable: nat)

  function RowFor(env: Env, content: Bytes): Stored {
    Stored(env.sha(content), env.embed(env.text(content)))
  }

  /** The row holds the hash of a content and the embedding of its text. */
  predicate Holds(env: Env, t: Table, path: string, content: Bytes) {
    path in t && t[path].sha == env.sha(content) && t[path].embedding == env.embed(env.text(content))
  }

  predicate Unchanged(env: Env, t: Table, f: File) {
    f.content.Some? && f.path in t && t[f.path].sha == env.sha(f.content.value)
  }

  predicate IsStale(env: Env, t: Table, f: File) {
    f.content.Some? && !Unchanged(env, t, f)
  }

  /** The table after those files that can be read have been embedded one by one. */
  function Flushed(env: Env, t: Table, fs: seq<File>): Table {
    if fs == [] then t
    else
      var before, f := Flushed(env, t, fs[..|fs| - 1]), fs[|fs| - 1];
      if f.content.None? then before else before[f.path := RowFor(env, f.content.value)]
  }

  /** How far a pass has come: the files it has embedded, those it waits with, and those it found up to date. */
  datatype Progress = Progress(flushed: seq<File>, waiting: seq<File>, upToDate: nat)

  /** A pass over an index that began as `t`: a file is compared with what has been flushed by then. */
  function Scan(env: Env, t: Table, files: seq<File>): Progress {
    if files == [] then Progress([], [], 0)
    else Next(env, t, Scan(env, t, files[..|files| - 1]), files[|files| - 1])
  }

  function Next(env: Env, t: Table, p: Progress, f: File): Progress {
    var now := Flushed(env, t, p.flushed);
    if f.content.None? then p
    else if Unchanged(env, now, f) then p.(upToDate := p.upToDate + 1)
    else if |p.waiting| + 1 >= BATCH then Progress(p.flushed + (p.waiting + [f]), [], p.upToDate)
    else p.(waiting := p.waiting + [f])
  }

  /** The files that a pass embeds, in order. */
  function Todo(env: Env, t: Table, files: seq<File>): seq<File> {
    Scan(env, t, files).flushed + Scan(env, t, files).waiting
  }

  function Unreadable(files: seq<File>): nat {
    if files == [] then 0
    else Unreadable(files[..|files| - 1]) + (if files[|files| - 1].content.None? then 1 else 0)
  }

  // ---- The pass -----------------------------------------------------------------------------

  datatype Pending = Pending(path: string, sha: string, text: string)

  class EmbeddingIndex {
    /** Whether every batch is committed (Python) or only a whole pass (TypeScript). */
    const commitsBatches: bool
    var rows: Table
    var disk: Table
    // What a pass keeps while it runs.
    var pending: seq<Pending>
    var embedded: nat
    var batches: nat
    ghost var flushed: seq<File>

    constructor (commitsBatches: bool)
      ensures this.commitsBatches == commitsBatches && disk == map[] && rows == map[]
    {
      this.commitsBatches := commitsBatches;
      rows, disk, pending, embedded, batches, flushed := map[], map[], [], 0, 0, [];
    }

    /** In a pass over an index that began as `t`, with the files `waiting` pending. */
    ghost predicate InPass(env: Env, t: Table, waiting: seq<File>)
      reads this
    {
      && embedded == |flushed|
      && Matching(env, pending, waiting)
      && rows == Flushed(env, t, flushed)
      && disk == (if commitsBatches then rows else t)
    }

    /** Embed the pending files and store their rows; false if the endpoint fails. */
    method Flush(env: Env, works: nat -> bool, ghost t: Table, ghost waiting: seq<File>) returns (ok: bool)
      requires InPass(env, t, waiting)
      modifies this
      ensures ok == (|waiting| == 0 || works(old(batches)))
      ensures ok ==> InPass(env, t, []) && flushed == old(flushed) + waiting
      ensures ok ==> batches == old(batches) + (if |waiting| == 0 then 0 else 1)
      ensures !ok ==> InPass(env, t, waiting) && flushed == old(flushed) && batches == old(batches)
    {
      if pending == [] {
        assert flushed == flushed + waiting;
        return true;
      }
      if !works(batches) {
        return false;
      }
      for i := 0 to |pending|
        invariant rows == Flushed(env, old(rows), waiting[..i])
        invariant disk == old(disk) && pending == old(pending) && embedded == old(embedded)
        invariant flushed == old(flushed) && batches == old(batches)
      {
        assert waiting[..i + 1][..i] == waiting[..i];
        rows := rows[pending[i].path := Stored(pending[i].sha, env.embed(pending[i].text))];
      }
      assert waiting[..|waiting|] == waiting;
      FlushedAppend(env, t, flushed, waiting);
      if commitsBatches {
        disk := rows;
      }
      embedded, pending, batches := embedded + |pending|, [], batches + 1;
      flushed := flushed + waiting;
      ok := true;
    }

    /** Between two files of a pass that has come as far as `p`. */
    ghost predicate At(env: Env, t: Table, p: Progress)
      reads this
    {
      InPass(env, t, p.waiting) && flushed == p.flushed && embedded == batches * BATCH && |p.waiting| < BATCH
    }

    /** The body of the walk: skip the file or let it wait, and flush a full batch. */
    method Visit(env: Env, f: File, works: nat -> bool, ghost t: Table, ghost p: Progress) returns (ok: bool, isUpToDate: bool)
      requires At(env, t, p)
      modifies this
      ensures ok ==> At(env, t, Next(env, t, p, f)) && isUpToDate == Unchanged(env, Flushed(env, t, p.flushed), f)
      ensures ok ==> batches == old(batches) || (batches == old(batches) + 1 && works(old(batches)))
      ensures !ok ==> InPass(env, t, p.waiting + [f]) && flushed == p.flushed && batches == old(batches) && !works(batches)
      ensures !ok ==> Next(env, t, p, f).flushed == p.flushed + (p.waiting + [f])
    {
      hide Flushed;
      if f.content.None? {
        return true, false;
      }
      var sha := env.sha(f.content.value);
      if f.path in rows && rows[f.path].sha == sha {
        return true, true;
      }
      pending := pending + [Pending(f.path, sha, env.text(f.content.value))];
      ok, isUpToDate := true, false;
      if |pending| >= BATCH {
        ok := Flush(env, works, t, p.waiting + [f]);
      }
    }

    /** One pass over the tree; `works(j)` says whether the endpoint answers batch `j`. */
    method Build(env: Env, files: seq<File>, works: nat -> bool) returns (stats: Option<Stats>)
      modifies this
      ensures var todo := Todo(env, old(disk), files);
              && flushed <= todo && rows == Flushed(env, old(disk), flushed)
              && (stats.None? ==> |flushed| == batches * BATCH < |todo| && !works(batches))
              && (stats.Some? ==>
                    && flushed == todo && |todo| <= batches * BATCH
                    && stats.value == Stats(|files|, |todo|, Scan(env, old(disk), files).upToDate, Unreadable(files)))
      ensures forall j | 0 <= j < batches :: works(j)
      ensures disk == if stats.Some? || commitsBatches then rows else old(disk)
      ensures forall path :: if Has(flushed, path) then LatestHeld(env, rows, flushed, path) else SameRow(old(disk), rows, path)
    {
      hide Flushed, Scan, Unreadable, Unchanged;
      ghost var t := disk;
      Nothing(env, t);
      rows, pending, embedded, batches, flushed := disk, [], 0, 0, [];
      var upToDate, unreadable := 0, 0;
      for i := 0 to |files|
        invariant At(env, t, Scan(env, t, files[..i])) && upToDate == Scan(env, t, files[..i]).upToDate
        invariant forall j | 0 <= j < batches :: works(j)
        invariant unreadable == Unreadable(files[..i])
      {
        ScanStep(env, t, files, i);
        TodoGrows(env, t, files, i + 1);
        var ok, isUpToDate := Visit(env, files[i], works, t, Scan(env, t, files[..i]));
        if !ok {
          FlushedRows(env, t, files, flushed);
          return None;
        }
        if files[i].content.None? {
          unreadable := unreadable + 1;
        } else if isUpToDate {
          upToDate := upToDate + 1;
        }
      }
      assert files[..|files|] == files;
      var ok := Flush(env, works, t, Scan(env, t, files).waiting);
      FlushedRows(env, t, files, flushed);
      if !ok {
        return None;
      }
      disk := rows;
      stats := Some(Stats(|files|, embedded, upToDate, unreadable));
    }
  }

  ghost predicate Matching(env: Env, pending: seq<Pending>, fs: seq<File>) {
    && |pending| == |fs|
    && forall i | 0 <= i < |fs| ::
         fs[i].content.Some? && pending[i] == Pending(fs[i].path, env.sha(fs[i].content.value), env.text(fs[i].content.value))
  }

  lemma Nothing(env: Env, t: Table)
    ensures Scan(env, t, []) == Progress([], [], 0) && Flushed(env, t, []) == t && Unreadable([]) == 0
  {
  }

  lemma ScanStep(env: Env, t: Table, files: seq<File>, i: nat)
    requires i < |files|
    ensures Scan(env, t, files[..i + 1]) == Next(env, t, Scan(env, t, files[..i]), files[i])
    ensures Unreadable(files[..i + 1]) == Unreadable(files[..i]) + (if files[i].content.None? then 1 else 0)
  {
    assert files[..i + 1][..i] == files[..i];
  }

  lemma {:induction false} TodoGrows(env: Env, t: Table, files: seq<File>, i: nat)
    requires i <= |files|
    ensures var p := Scan(env, t, files[..i]); p.flushed + p.waiting <= Todo(env, t, files)
    decreases |files|
  {
    if i < |files| {
      TodoGrows(env, t, files[..|files| - 1], i);
      assert files[..|files| - 1][..i] == files[..i];
    } else {
      assert files[..i] == files;
    }
  }

  lemma {:induction false} FlushedAppend(env: Env, t: Table, a: seq<File>, b: seq<File>)
    ensures Flushed(env, t, a + b) == Flushed(env, Flushed(env, t, a), b)
  {
    if b == [] {
      assert a + b == a;
    } else {
      var n := |b| - 1;
      assert (a + b)[..|a + b| - 1] == a + b[..n];
      FlushedAppend(env, t, a, b[..n]);
    }
  }

  /** The latest flushed file with the path gave the row. */
  ghost predicate LatestHeld(env: Env, t: Table, fs: seq<File>, path: string) {
    exists k | 0 <= k < |fs| ::
      && fs[k].path == path && fs[k].content.Some? && Holds(env, t, path, fs[k].content.value)
      && forall j | k < j < |fs| :: fs[j].path != path
  }

  predicate SameRow(t: Table, t': Table, path: string) {
    (path in t' <==> path in t) && (path in t ==> t'[path] == t[path])
  }

  /** What flushing does, path by path. */
  lemma {:induction false} FlushedRow(env: Env, t: Table, fs: seq<File>, path: string)
    requires forall f :: f in fs ==> f.content.Some?
    ensures var t' := Flushed(env, t, fs);
            if Has(fs, path) then LatestHeld(env, t', fs, path) else SameRow(t, t', path)
  {
    if fs != [] {
      var init, f := fs[..|fs| - 1], fs[|fs| - 1];
      assert f in fs && fs == init + [f];
      FlushedRow(env, t, init, path);
      var t' := Flushed(env, t, fs);
      if f.path == path {
        assert Holds(env, t', path, f.content.value);
        assert fs[|fs| - 1].path == path;
      } else if Has(init, path) {
        var before := Flushed(env, t, init);
        assert LatestHeld(env, before, init, path);
        var k :| 0 <= k < |init| && init[k].path == path && init[k].content.Some? && Holds(env, before, path, init[k].content.value)
                 && forall j | k < j < |init| :: init[j].path != path;
        assert fs[k] == init[k] && Holds(env, t', path, fs[k].content.value);
        assert forall j | k < j < |fs| :: fs[j].path != path;
      }
    }
  }

  lemma FlushedRows(env: Env, t: Table, files: seq<File>, fs: seq<File>)
    requires fs <= Todo(env, t, files)
    ensures var t' := Flushed(env, t, fs);
            forall path :: if Has(fs, path) then LatestHeld(env, t', fs, path) else SameRow(t, t', path)
  {
    TodoMembers(env, t, files);
    forall path ensures var t' := Flushed(env, t, fs); if Has(fs, path) then LatestHeld(env, t', fs, path) else SameRow(t, t', path) {
      FlushedRow(env, t, fs, path);
    }
  }

  // ---- What a pass embeds -------------------------------------------------------------------

  /** Every walked file is embedded, up to date or unreadable. */
  lemma {:induction false} CountsAddUp(env: Env, t: Table, files: seq<File>)
    ensures |Todo(env, t, files)| + Scan(env, t, files).upToDate + Unreadable(files) == |files|
  {
    if files != [] {
      CountsAddUp(env, t, files[..|files| - 1]);
    }
  }

  predicate Has(fs: seq<File>, path: string) {
    exists f :: f in fs && f.path == path
  }

  lemma {:induction false} TodoMembers(env: Env, t: Table, files: seq<File>)
    ensures forall f :: f in Todo(env, t, files) ==> f in files && f.content.Some?
  {
    if files != [] {
      TodoMembers(env, t, files[..|files| - 1]);
      assert files == files[..|files| - 1] + [files[|files| - 1]];
    }
  }

  /** A path that was not flushed has the row it had. */
  lemma {:induction false} Untouched(env: Env, t: Table, fs: seq<File>, path: string)
    requires !Has(fs, path)
    ensures var t' := Flushed(env, t, fs);
            (path in t' <==> path in t) && (path in t ==> t'[path] == t[path])
  {
    if fs != [] {
      var init, f := fs[..|fs| - 1], fs[|fs| - 1];
      assert f in fs && forall g :: g in init ==> g in fs;
      Untouched(env, t, init, path);
    }
  }

  /** A path that was flushed has the row of a file that was. */
  lemma {:induction false} Written(env: Env, t: Table, fs: seq<File>, path: string) returns (f: File)
    requires Has(fs, path) && forall g :: g in fs ==> g.content.Some?
    ensures f in fs && f.path == path && f.content.Some?
    ensures Holds(env, Flushed(env, t, fs), path, f.content.value)
  {
    f := fs[|fs| - 1];
    if f.path != path {
      assert fs == fs[..|fs| - 1] + [f];
      f := Written(env, t, fs[..|fs| - 1], path);
    }
  }

  /** A file whose path is not embedded was up to date. */
  lemma {:induction false} NotEmbedded(env: Env, t: Table, files: seq<File>, f: File)
    requires f in files && f.content.Some? && !Has(Todo(env, t, files), f.path)
    ensures Unchanged(env, t, f)
  {
    hide Flushed;
    var init, last := files[..|files| - 1], files[|files| - 1];
    var p, todo := Scan(env, t, init), Todo(env, t, files);
    assert files == init + [last];
    assert forall g :: g in p.flushed || g in p.waiting ==> g in todo;
    if f in init {
      assert !Has(Todo(env, t, init), f.path);
      NotEmbedded(env, t, init, f);
    } else {
      assert f in p.waiting + [f];
      assert Unchanged(env, Flushed(env, t, p.flushed), f);
      assert !Has(p.flushed, f.path);
      Untouched(env, t, p.flushed, f.path);
    }
  }

  /** No path is walked twice with two hashes. */
  predicate OneHash(env: Env, files: seq<File>) {
    forall f, g | f in files && g in files && f.path == g.path && f.content.Some? && g.content.Some? ::
      env.sha(f.content.value) == env.sha(g.content.value)
  }

  lemma OneHashOfFirst(env: Env, files: seq<File>)
    requires files != [] && OneHash(env, files)
    ensures OneHash(env, files[..|files| - 1])
  {
  }

  /** A file that was up to date is not embedded, nor is another with its path. */
  lemma {:induction false} LeftAlone(env: Env, t: Table, files: seq<File>, f: File)
    requires Unchanged(env, t, f)
    requires forall g :: g in files && g.path == f.path && g.content.Some? ==> env.sha(g.content.value) == env.sha(f.content.value)
    ensures !Has(Todo(env, t, files), f.path)
  {
    hide Flushed;
    if files != [] {
      var init, last := files[..|files| - 1], files[|files| - 1];
      var p := Scan(env, t, init);
      assert files == init + [last];
      LeftAlone(env, t, init, f);
      assert forall g :: g in p.flushed || g in p.waiting ==> g in Todo(env, t, init);
      assert !Has(p.flushed, f.path);
      if last.path == f.path {
        Untouched(env, t, p.flushed, f.path);
      }
    }
  }

  /**
   * Of a walk in which no path has two hashes, a pass embeds exactly the paths of stale files, whatever its batches.
   */
  lemma EmbedsStale(env: Env, t: Table, files: seq<File>, f: File)
    requires OneHash(env, files) && f in files && f.content.Some?
    ensures Has(Todo(env, t, files), f.path) <==> IsStale(env, t, f)
  {
    hide Todo;
    if Unchanged(env, t, f) {
      LeftAlone(env, t, files, f);
    } else if !Has(Todo(env, t, files), f.path) {
      NotEmbedded(env, t, files, f);
    }
  }

  // ---- What a pass achieves -----------------------------------------------------------------

  /** Where the index already has a file's hash it has the embedding of its text. */
  ghost predicate FaithfulOn(env: Env, t: Table, files: seq<File>) {
    forall f :: f in files && Unchanged(env, t, f) ==> Holds(env, t, f.path, f.content.value)
  }

  /** No path is walked twice with two rows. */
  predicate OneRow(env: Env, files: seq<File>) {
    forall f, g | f in files && g in files && f.path == g.path && f.content.Some? && g.content.Some? ::
      env.sha(f.content.value) == env.sha(g.content.value) && env.embed(env.text(f.content.value)) == env.embed(env.text(g.content.value))
  }

  /** The row that a fresh build gives a file. */
  ghost predicate UpToDateRow(env: Env, t: Table, f: File) {
    f.content.Some? ==> Holds(env, t, f.path, f.content.value)
  }

  /**
   * Main result: a successful pass gives every readable file the row of a fresh one-by-one build exactly when no path
   * was walked with two rows and the index was faithful on the walked files; it leaves every other row as it was.
   */
  lemma PassMatchesFreshBuild(env: Env, t: Table, files: seq<File>)
    ensures var t' := Flushed(env, t, Todo(env, t, files));
            && ((forall f :: f in files && f.content.Some? ==>
                   && f.path in t' && t'[f.path].sha == env.sha(f.content.value)
                   && t'[f.path].embedding == env.embed(env.text(f.content.value)))
                <==> OneRow(env, files) && FaithfulOn(env, t, files))
            && (forall path :: (forall f :: f in files && f.content.Some? ==> f.path != path) ==>
                  (path in t' <==> path in t) && (path in t ==> t'[path] == t[path]))
  {
    hide Flushed, Todo;
    var todo := Todo(env, t, files);
    var t' := Flushed(env, t, todo);
    TodoMembers(env, t, files);
    if OneRow(env, files) {
      assert OneHash(env, files);
      forall f | f in files && f.content.Some?
        ensures UpToDateRow(env, t', f) <==> (Unchanged(env, t, f) ==> Holds(env, t, f.path, f.content.value))
      {
        EmbedsStale(env, t, files, f);
        if Has(todo, f.path) {
          var g := Written(env, t, todo, f.path);
        } else {
          Untouched(env, t, todo, f.path);
        }
      }
    }
    forall path | forall f :: f in files && f.content.Some? ==> f.path != path
      ensures (path in t' <==> path in t) && (path in t ==> t'[path] == t[path])
    {
      Untouched(env, t, todo, path);
    }
  }

  /** The hash tells contents apart. */
  ghost predicate Injective(sha: Bytes -> string) {
    forall a, b :: sha(a) == sha(b) ==> a == b
  }

  /** Every row was computed from some content. */
  ghost predicate Faithful(env: Env, t: Table) {
    forall path :: path in t ==> exists c: Bytes :: Holds(env, t, path, c)
  }

  /** With a hash that tells contents apart, a faithful index is faithful on any tree. */
  lemma FaithfulEverywhere(env: Env, t: Table, files: seq<File>)
    requires Injective(env.sha) && Faithful(env, t)
    ensures FaithfulOn(env, t, files)
  {
    forall f | f in files && Unchanged(env, t, f) ensures Holds(env, t, f.path, f.content.value) {
      var c: Bytes :| Holds(env, t, f.path, c);
      assert env.sha(c) == env.sha(f.content.value);
    }
  }

  /** Flushing keeps an index faithful, however far it gets. */
  lemma {:induction false} FlushedFaithful(env: Env, t: Table, fs: seq<File>)
    requires Faithful(env, t)
    ensures Faithful(env, Flushed(env, t, fs))
  {
    if fs != [] {
      var before, f := Flushed(env, t, fs[..|fs| - 1]), fs[|fs| - 1];
      FlushedFaithful(env, t, fs[..|fs| - 1]);
      var t' := Flushed(env, t, fs);
      forall path | path in t' ensures exists c: Bytes :: Holds(env, t', path, c) {
        if f.content.Some? && f.path == path {
          assert Holds(env, t', path, f.content.value);
        } else {
          var c: Bytes :| Holds(env, before, path, c);
          assert Holds(env, t', path, c);
        }
      }
    }
  }

  /**
   * From an empty index: a build leaves exactly the paths of the readable files, each with the row of one of its
   * files, which is the row of all of them exactly when no path was walked with two rows.
   */
  lemma FreshBuild(env: Env, files: seq<File>)
    ensures var t := Flushed(env, map[], Todo(env, map[], files));
            && (forall path :: path in t <==> exists f :: f in files && f.content.Some? && f.path == path)
            && (forall path :: path in t ==>
                  exists f :: && f in files && f.content.Some? && f.path == path
                              && t[path].sha == env.sha(f.content.value) && t[path].embedding == env.embed(env.text(f.content.value)))
            && ((forall f :: f in files && f.content.Some? ==>
                   && f.path in t && t[f.path].sha == env.sha(f.content.value)
                   && t[f.path].embedding == env.embed(env.text(f.content.value)))
                <==> OneRow(env, files))
  {
    hide Flushed, Todo, OneRow;
    var todo := Todo(env, map[], files);
    var t := Flushed(env, map[], todo);
    PassMatchesFreshBuild(env, map[], files);
    TodoMembers(env, map[], files);
    forall path | path in t
      ensures exists f :: f in files && f.content.Some? && f.path == path && Holds(env, t, path, f.content.value)
    {
      if Has(todo, path) {
        var f := Written(env, map[], todo, path);
      } else {
        Untouched(env, map[], todo, path);
      }
    }
    forall f | f in files && f.content.Some? ensures f.path in t {
      if Has(todo, f.path) {
        var g := Written(env, map[], todo, f.path);
      } else {
        NotEmbedded(env, map[], files, f);
      }
    }
  }

  // ---- The next pass ------------------------------------------------------------------------

  lemma {:induction false} NothingStale(env: Env, t: Table, files: seq<File>)
    requires forall f :: f in files && f.content.Some? ==> Unchanged(env, t, f)
    ensures Todo(env, t, files) == []
  {
    if files != [] {
      NothingStale(env, t, files[..|files| - 1]);
      assert files[|files| - 1] in files;
    }
  }

  /**
   * A second pass over the same tree has nothing to embed exactly when no path is walked with two hashes.
   */
  lemma SecondPassIdle(env: Env, t: Table, files: seq<File>)
    ensures Todo(env, Flushed(env, t, Todo(env, t, files)), files) == [] <==> OneHash(env, files)
  {
    hide Flushed, Todo;
    var todo := Todo(env, t, files);
    var t' := Flushed(env, t, todo);
    TodoMembers(env, t, files);
    if OneHash(env, files) {
      forall f | f in files && f.content.Some? ensures Unchanged(env, t', f) {
        if Has(todo, f.path) {
          var g := Written(env, t, todo, f.path);
        } else {
          NotEmbedded(env, t, files, f);
          Untouched(env, t, todo, f.path);
        }
      }
      NothingStale(env, t', files);
    } else if Todo(env, t', files) == [] {
      forall f | f in files && f.content.Some? ensures Unchanged(env, t', f) {
        NotEmbedded(env, t', files, f);
      }
    }
  }

  /** Full batches are flushed, the rest waits. */
  lemma {:induction false} Batches(env: Env, t: Table, files: seq<File>)
    ensures var p := Scan(env, t, files);
            |p.flushed| % BATCH == 0 && |p.waiting| < BATCH
  {
    if files != [] {
      Batches(env, t, files[..|files| - 1]);
    }
  }

  lemma OneMore(env: Env, t: Table, files: seq<File>)
    requires files != []
    ensures var init, todo := Todo(env, t, files[..|files| - 1]), Todo(env, t, files);
            init <= todo && |todo| <= |init| + 1
  {
    hide Flushed;
  }

  lemma Alike(env: Env, t: Table, p: Progress, t': Table, q: Progress, f: File, k: nat)
    requires k <= |p.flushed| && q.flushed == p.flushed[k..] && q.waiting == p.waiting
    requires Flushed(env, t, p.flushed) == Flushed(env, t', q.flushed)
    ensures k <= |Next(env, t, p, f).flushed|
    ensures Next(env, t', q, f).flushed == Next(env, t, p, f).flushed[k..]
    ensures Next(env, t', q, f).waiting == Next(env, t, p, f).waiting
  {
    hide Flushed;
    assert (p.flushed + (p.waiting + [f]))[k..] == p.flushed[k..] + (p.waiting + [f]);
  }

  /** A pass that takes up the work after `k` flushed files, in whole batches, flushes the others alike. */
  lemma {:induction false} Resumes(env: Env, t: Table, files: seq<File>, k: nat)
    requires OneHash(env, files) && k % BATCH == 0 && k <= |Todo(env, t, files)|
    ensures k <= |Scan(env, t, files).flushed|
    ensures var p, q := Scan(env, t, files), Scan(env, Flushed(env, t, Todo(env, t, files)[..k]), files);
            q.flushed == p.flushed[k..] && q.waiting == p.waiting
  {
    hide Flushed, OneHash, Next;
    var p := Scan(env, t, files);
    Batches(env, t, files);
    if files != [] {
      var init, f := files[..|files| - 1], files[|files| - 1];
      var p0 := Scan(env, t, init);
      var done := Todo(env, t, files)[..k];
      OneHashOfFirst(env, files);
      OneMore(env, t, files);
      if k <= |Todo(env, t, init)| {
        assert done == Todo(env, t, init)[..k];
        Resumes(env, t, init, k);
        assert done + p0.flushed[k..] == p0.flushed;
        FlushedAppend(env, t, done, p0.flushed[k..]);
        Alike(env, t, p0, Flushed(env, t, done), Scan(env, Flushed(env, t, done), init), f, k);
      } else {
        assert done == Todo(env, t, files);
        SecondPassIdle(env, t, files);
      }
    }
  }

  /** The work can stop after `k` files: after whole batches or with all of them done. */
  predicate Boundary(k: nat, n: nat) {
    k <= n && (k % BATCH == 0 || k == n)
  }

  lemma LeftAt(env: Env, t: Table, files: seq<File>, k: nat)
    requires OneHash(env, files) && Boundary(k, |Todo(env, t, files)|)
    ensures Todo(env, Flushed(env, t, Todo(env, t, files)[..k]), files) == Todo(env, t, files)[k..]
  {
    hide Flushed, Scan, OneHash;
    var todo := Todo(env, t, files);
    if k % BATCH == 0 {
      Resumes(env, t, files, k);
    } else {
      assert todo[..k] == todo && todo[k..] == [];
      SecondPassIdle(env, t, files);
    }
  }

  /**
   * Wherever a pass stops, exactly the files that it did not flush are left, in their order - and this holds of all
   * the places where it can stop exactly when no path is walked with two hashes.
   */
  lemma TodoShrinksIff(env: Env, t: Table, files: seq<File>)
    ensures var todo := Todo(env, t, files);
            (forall k: nat | Boundary(k, |todo|) :: Todo(env, Flushed(env, t, todo[..k]), files) == todo[k..]) <==> OneHash(env, files)
  {
    hide Flushed, Todo, OneHash;
    var todo := Todo(env, t, files);
    if OneHash(env, files) {
      forall k: nat | Boundary(k, |todo|) ensures Todo(env, Flushed(env, t, todo[..k]), files) == todo[k..] {
        LeftAt(env, t, files, k);
      }
    } else {
      assert todo[..|todo|] == todo && todo[|todo|..] == [];
      assert Boundary(|todo|, |todo|);
      SecondPassIdle(env, t, files);
    }
  }

  // ---- Watching -----------------------------------------------------------------------------

  /** How many of `n` files a pass flushes that starts at batch `j`: whole batches, up to the first that fails. */
  function Reached(n: nat, works: nat -> bool, j: nat): (k: nat)
    ensures Boundary(k, n)
  {
    if n == 0 || !works(j) then 0 else if n <= BATCH then n else BATCH + Reached(n - BATCH, works, j + 1)
  }

  /** What Build promises determines how many files it has flushed. */
  lemma {:induction false} ReachedIs(n: nat, works: nat -> bool, j: nat, b: nat)
    requires forall i: nat | j <= i < j + b :: works(i)
    ensures n <= b * BATCH ==> Reached(n, works, j) == n
    ensures b * BATCH < n && !works(j + b) ==> Reached(n, works, j) == b * BATCH
    decreases b
  {
    if b > 0 && n > BATCH {
      ReachedIs(n - BATCH, works, j + 1, b - 1);
    }
  }

  /** How many of `n` files stay in the index: those of a failed pass only if its batches are committed. */
  function Kept(commitsBatches: bool, n: nat, works: nat -> bool): (k: nat)
    ensures Boundary(k, n)
  {
    var k := Reached(n, works, 0);
    if commitsBatches || k == n then k else 0
  }

  lemma KeptWithin(commitsBatches: bool, n: nat, works: nat -> bool)
    ensures Kept(commitsBatches, n, works) <= n
  {
  }

  /** The index after `i` passes over one tree; `works(i)(j)` says whether the endpoint answers batch `j` of pass `i`. */
  function Watched(commitsBatches: bool, env: Env, t: Table, files: seq<File>, works: nat -> nat -> bool, i: nat): Table {
    if i == 0 then t
    else
      var before := Watched(commitsBatches, env, t, files, works, i - 1);
      var todo := Todo(env, before, files);
      Flushed(env, before, todo[..Kept(commitsBatches, |todo|, works(i - 1))])
  }

  /** watch_index, over any unchanged tree and with any failures. */
  method WatchIndex(idx: EmbeddingIndex, env: Env, files: seq<File>, works: nat -> nat -> bool, maxIterations: int)
    returns (iterations: nat)
    modifies idx
    ensures iterations == if maxIterations > 0 then maxIterations else 0
    ensures idx.disk == Watched(idx.commitsBatches, env, old(idx.disk), files, works, iterations)
  {
    hide Flushed, Todo;
    iterations := 0;
    while iterations < maxIterations
      invariant 0 <= iterations && (maxIterations > 0 ==> iterations <= maxIterations) && (maxIterations <= 0 ==> iterations == 0)
      invariant idx.disk == Watched(idx.commitsBatches, env, old(idx.disk), files, works, iterations)
      decreases maxIterations - iterations
    {
      ghost var before := idx.disk;
      ghost var todo := Todo(env, before, files);
      var stats := idx.Build(env, files, works(iterations));
      ReachedIs(|todo|, works(iterations), 0, idx.batches);
      assert idx.flushed == todo[..|idx.flushed|] && todo[..0] == [];
      NothingFlushed(env, before);
      iterations := iterations + 1;
    }
  }

  lemma NothingFlushed(env: Env, t: Table)
    ensures Flushed(env, t, []) == t
  {
  }

  /** Whatever is walked and fails, watching keeps a faithful index faithful. */
  lemma {:induction false} WatchedFaithful(commitsBatches: bool, env: Env, t: Table, files: seq<File>, works: nat -> nat -> bool,
                                           i: nat)
    requires Faithful(env, t)
    ensures Faithful(env, Watched(commitsBatches, env, t, files, works, i))
  {
    hide Flushed, Todo, Kept, Faithful;
    if i > 0 {
      var before := Watched(commitsBatches, env, t, files, works, i - 1);
      var todo := Todo(env, before, files);
      WatchedFaithful(commitsBatches, env, t, files, works, i - 1);
      KeptWithin(commitsBatches, |todo|, works(i - 1));
      FlushedFaithful(env, before, todo[..Kept(commitsBatches, |todo|, works(i - 1))]);
    }
  }

  /** How many of `n` files are left after `i` passes. */
  function Remaining(commitsBatches: bool, n: nat, works: nat -> nat -> bool, i: nat): (m: nat)
    ensures m <= n
  {
    if i == 0 then n
    else
      var before := Remaining(commitsBatches, n, works, i - 1);
      before - Kept(commitsBatches, before, works(i - 1))
  }

  lemma {:induction false} RemainingBoundary(commitsBatches: bool, n: nat, works: nat -> nat -> bool, i: nat)
    ensures Boundary(n - Remaining(commitsBatches, n, works, i), n)
  {
    if i > 0 {
      RemainingBoundary(commitsBatches, n, works, i - 1);
    }
  }

  /**
   * Main result: where no path has two hashes, watching flushes what one successful pass would embed, in its order,
   * and after `i` passes exactly the files are left that no kept batch had reached.
   */
  lemma {:induction false} WatchingProgress(commitsBatches: bool, env: Env, t: Table, files: seq<File>, works: nat -> nat -> bool,
                                            i: nat)
    requires OneHash(env, files)
    ensures var todo, end := Todo(env, t, files), Watched(commitsBatches, env, t, files, works, i);
            var done := |todo| - Remaining(commitsBatches, |todo|, works, i);
            end == Flushed(env, t, todo[..done]) && Todo(env, end, files) == todo[done..]
  {
    hide Flushed, Todo, OneHash, Boundary, Kept;
    var todo := Todo(env, t, files);
    if i == 0 {
      NothingFlushed(env, t);
    } else {
      WatchingProgress(commitsBatches, env, t, files, works, i - 1);
      var done := |todo| - Remaining(commitsBatches, |todo|, works, i - 1);
      var k := Kept(commitsBatches, |todo| - done, works(i - 1));
      assert k <= |todo| - done by { KeptWithin(commitsBatches, |todo| - done, works(i - 1)); }
      FlushedAppend(env, t, todo[..done], todo[done..][..k]);
      assert todo[..done] + todo[done..][..k] == todo[..done + k];
      RemainingBoundary(commitsBatches, |todo|, works, i);
      assert done + k == |todo| - Remaining(commitsBatches, |todo|, works, i);
      LeftAt(env, t, files, done + k);
    }
  }

  /**
   * When the work is done: without commits of batches, when some pass met no failure among the batches it needed;
   * with them, at the latest then, and the k-th pass whose first batch is answered has done k batches.
   */
  lemma {:induction false} WatchingEnds(n: nat, works: nat -> nat -> bool, i: nat)
    ensures Remaining(false, n, works, i) == (if n == 0 || exists p: nat :: p < i && Reached(n, works(p), 0) == n then 0 else n)
    ensures (exists p: nat :: p < i && AlwaysAnswers(works(p))) ==> Remaining(true, n, works, i) == 0
    ensures var m := Remaining(true, n, works, i);
            m == 0 || m + Answered(works, i) * BATCH <= n
  {
    if i > 0 {
      WatchingEnds(n, works, i - 1);
      var m := Remaining(true, n, works, i - 1);
      if AlwaysAnswers(works(i - 1)) {
        ReachedIs(m, works(i - 1), 0, m);
      }
    }
  }

  ghost predicate AlwaysAnswers(works: nat -> bool) {
    forall j :: works(j)
  }

  /** The passes whose first batch is answered. */
  function Answered(works: nat -> nat -> bool, i: nat): nat {
    if i == 0 then 0 else Answered(works, i - 1) + (if works(i - 1)(0) then 1 else 0)
  }
}
