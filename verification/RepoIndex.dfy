/**
  The repository index: four tables that an incremental update is meant to keep
  as a full rebuild would leave them.
 */
module RepoIndex {
  import opened JsonValue

  type Path = string

  datatype Content = Utf8(text: string) | Undecodable(bytes: seq<bv8>)

  datatype Extraction<Symbol, Reference> = Extraction(symbols: seq<Symbol>, references: seq<Reference>, error: string)

  /** Hashing, measuring and parsing, which the index only calls. */
  datatype Tools<!Symbol, !Reference> = Tools(
    hash: Content -> string,
    size: Content -> nat,
    language: Path -> Option<string>,
    extract: (string, Path) -> Extraction<Symbol, Reference>)

  ghost predicate InjectiveHash<Symbol, Reference>(tools: Tools<Symbol, Reference>) {
    forall a, b :: tools.hash(a) == tools.hash(b) ==> a == b
  }

  datatype FileRow = FileRow(language: Option<string>, size: nat, hash: string, error: string)

  datatype Tagged<T> = Tagged(path: Path, item: T)

  datatype Rows<Symbol, Reference> = Rows(
    files: map<Path, FileRow>,
    symbols: seq<Tagged<Symbol>>,
    references: seq<Tagged<Reference>>,
    texts: seq<Tagged<string>>)

  // -------------------------------------------------------- rows of one path

  function Without<T>(rows: seq<Tagged<T>>, path: Path): seq<Tagged<T>> {
    if rows == [] then []
    else if rows[0].path == path then Without(rows[1..], path)
    else [rows[0]] + Without(rows[1..], path)
  }

  /** The text table is cleaned by row id: only the first row found goes. */
  function WithoutFirst<T>(rows: seq<Tagged<T>>, path: Path): seq<Tagged<T>> {
    if rows == [] then []
    else if rows[0].path == path then rows[1..]
    else [rows[0]] + WithoutFirst(rows[1..], path)
  }

  function OfPath<T>(rows: seq<Tagged<T>>, path: Path): seq<T> {
    if rows == [] then []
    else if rows[0].path == path then [rows[0].item] + OfPath(rows[1..], path)
    else OfPath(rows[1..], path)
  }

  function Tag<T>(path: Path, items: seq<T>): seq<Tagged<T>> {
    seq(|items|, i requires 0 <= i < |items| => Tagged(path, items[i]))
  }

  lemma {:induction false} OfPathAppend<T>(a: seq<Tagged<T>>, b: seq<Tagged<T>>, path: Path)
    ensures OfPath(a + b, path) == OfPath(a, path) + OfPath(b, path)
  {
    if a == [] { assert a + b == b; }
    else {
      assert (a + b)[1..] == a[1..] + b;
      OfPathAppend(a[1..], b, path);
    }
  }

  lemma {:induction false} OfPathTagged<T>(path: Path, items: seq<T>, q: Path)
    ensures OfPath(Tag(path, items), q) == if q == path then items else []
  {
    if items != [] {
      OfPathTagged(path, items[1..], q);
      assert Tag(path, items)[1..] == Tag(path, items[1..]);
    }
  }

  lemma {:induction false} OfPathWithout<T>(rows: seq<Tagged<T>>, path: Path, q: Path)
    ensures OfPath(Without(rows, path), q) == if q == path then [] else OfPath(rows, q)
  {
    if rows != [] { OfPathWithout(rows[1..], path, q); }
  }

  lemma {:induction false} OfPathWithoutFirst<T>(rows: seq<Tagged<T>>, path: Path, q: Path)
    ensures OfPath(WithoutFirst(rows, path), q) ==
      if q == path && OfPath(rows, q) != [] then OfPath(rows, q)[1..] else OfPath(rows, q)
  {
    if rows != [] { OfPathWithoutFirst(rows[1..], path, q); }
  }

  // ----------------------------------------------------------- specification

  /** What the index says about one path. */
  datatype View<Symbol, Reference> = View(
    file: Option<FileRow>, symbols: seq<Symbol>, references: seq<Reference>, texts: seq<string>)

  function ViewOf<Symbol, Reference>(rows: Rows<Symbol, Reference>, path: Path): View<Symbol, Reference> {
    View(if path in rows.files then Some(rows.files[path]) else None,
         OfPath(rows.symbols, path), OfPath(rows.references, path), OfPath(rows.texts, path))
  }

  /** What it should say about a file with this text. */
  function Expected<Symbol, Reference>(tools: Tools<Symbol, Reference>, path: Path, text: string): View<Symbol, Reference> {
    var e := tools.extract(text, path);
    View(Some(FileRow(tools.language(path), tools.size(Utf8(text)), tools.hash(Utf8(text)), e.error)), e.symbols, e.references, [text])
  }

  function EmptyRows<Symbol, Reference>(): Rows<Symbol, Reference> {
    Rows(map[], [], [], [])
  }

  function Deleted<Symbol, Reference>(rows: Rows<Symbol, Reference>, path: Path): Rows<Symbol, Reference> {
    Rows(rows.files - {path}, Without(rows.symbols, path), Without(rows.references, path), WithoutFirst(rows.texts, path))
  }

  /** An undecodable file leaves every row of its path as it was. */
  function Indexed<Symbol, Reference>(tools: Tools<Symbol, Reference>, rows: Rows<Symbol, Reference>, path: Path, content: Content)
    : Rows<Symbol, Reference>
  {
    match content
    case Undecodable(_) => rows
    case Utf8(text) =>
      var e := tools.extract(text, path);
      var clean := Deleted(rows, path);
      Rows(clean.files[path := FileRow(tools.language(path), tools.size(content), tools.hash(content), e.error)],
           clean.symbols + Tag(path, e.symbols), clean.references + Tag(path, e.references), clean.texts + [Tagged(path, text)])
  }

  datatype File = File(path: Path, content: Content)

  ghost predicate DistinctPaths(files: seq<File>) {
    forall i, j | 0 <= i < j < |files| :: files[i].path != files[j].path
  }

  function PathsOf(files: seq<File>): set<Path> {
    set f | f in files :: f.path
  }

  /** Missing files lose their row in the file table, and only that one. */
  function Trimmed<Symbol, Reference>(rows: Rows<Symbol, Reference>, present: set<Path>): Rows<Symbol, Reference> {
    rows.(files := map p | p in rows.files && p in present :: rows.files[p])
  }

  function RebuiltUpTo<Symbol, Reference>(tools: Tools<Symbol, Reference>, files: seq<File>, n: nat): Rows<Symbol, Reference>
    requires n <= |files|
  {
    if n == 0 then EmptyRows() else Indexed(tools, RebuiltUpTo(tools, files, n - 1), files[n - 1].path, files[n - 1].content)
  }

  function UpdatedUpTo<Symbol, Reference>(
    tools: Tools<Symbol, Reference>, start: Rows<Symbol, Reference>, files: seq<File>, n: nat): Rows<Symbol, Reference>
    requires n <= |files|
  {
    if n == 0 then start
    else
      var before, f := UpdatedUpTo(tools, start, files, n - 1), files[n - 1];
      if f.path in start.files && start.files[f.path].hash == tools.hash(f.content) then before
      else Indexed(tools, before, f.path, f.content)
  }

  function Rebuilt<Symbol, Reference>(tools: Tools<Symbol, Reference>, files: seq<File>): Rows<Symbol, Reference> {
    RebuiltUpTo(tools, files, |files|)
  }

  function Updated<Symbol, Reference>(tools: Tools<Symbol, Reference>, rows: Rows<Symbol, Reference>, files: seq<File>)
    : Rows<Symbol, Reference>
  {
    UpdatedUpTo(tools, Trimmed(rows, PathsOf(files)), files, |files|)
  }

  // --------------------------------------------------------------- the object

  class Index<!Symbol, !Reference> {
    var files: map<Path, FileRow>
    var symbols: seq<Tagged<Symbol>>
    var references: seq<Tagged<Reference>>
    var texts: seq<Tagged<string>>

    function Contents(): Rows<Symbol, Reference>
      reads this
    {
      Rows(files, symbols, references, texts)
    }

    constructor ()
      ensures Contents() == EmptyRows()
    {
      files, symbols, references, texts := map[], [], [], [];
    }

    /** `_remove_missing_files`. */
    method RemoveMissing(present: set<Path>)
      modifies this
      ensures Contents() == Trimmed(old(Contents()), present)
    {
      var rest := files.Keys;
      ghost var before := files;
      while rest != {}
        invariant symbols == old(symbols) && references == old(references) && texts == old(texts)
        invariant rest <= before.Keys
        invariant forall p :: p in files <==> p in before && (p in rest || p in present)
        invariant forall p | p in files :: files[p] == before[p]
        decreases rest
      {
        var p :| p in rest;
        rest := rest - {p};
        if p !in present { files := files - {p}; }
      }
    }

    /** `_delete_file_index`. */
    method DeleteFileIndex(path: Path)
      modifies this
      ensures Contents() == Deleted(old(Contents()), path)
    {
      files := files - {path};
      symbols := Without(symbols, path);
      references := Without(references, path);
      texts := WithoutFirst(texts, path);
    }

    /** `_index_file`. */
    method IndexFile(tools: Tools<Symbol, Reference>, path: Path, content: Content)
      modifies this
      ensures Contents() == Indexed(tools, old(Contents()), path, content)
    {
      if content.Undecodable? { return; }
      var extraction := tools.extract(content.text, path);
      DeleteFileIndex(path);
      files := files[path := FileRow(tools.language(path), tools.size(content), tools.hash(content), extraction.error)];
      texts := texts + [Tagged(path, content.text)];
      InsertSymbols(path, extraction.symbols);
      InsertReferences(path, extraction.references);
    }

    method InsertSymbols(path: Path, items: seq<Symbol>)
      modifies this`symbols
      ensures symbols == old(symbols) + Tag(path, items)
    {
      for k := 0 to |items|
        invariant symbols == old(symbols) + Tag(path, items[..k])
      {
        symbols := symbols + [Tagged(path, items[k])];
        assert Tag(path, items[..k + 1]) == Tag(path, items[..k]) + [Tagged(path, items[k])];
      }
      assert items[..|items|] == items;
    }

    method InsertReferences(path: Path, items: seq<Reference>)
      modifies this`references
      ensures references == old(references) + Tag(path, items)
    {
      for k := 0 to |items|
        invariant references == old(references) + Tag(path, items[..k])
      {
        references := references + [Tagged(path, items[k])];
        assert Tag(path, items[..k + 1]) == Tag(path, items[..k]) + [Tagged(path, items[k])];
      }
      assert items[..|items|] == items;
    }

    /** `rebuild`, for the files that were collected. */
    method Rebuild(tools: Tools<Symbol, Reference>, collected: seq<File>)
      modifies this
      ensures Contents() == Rebuilt(tools, collected)
    {
      files, symbols, references, texts := map[], [], [], [];
      RemoveMissing(PathsOf(collected));
      assert files == map[];
      for n := 0 to |collected|
        invariant Contents() == RebuiltUpTo(tools, collected, n)
      {
        IndexFile(tools, collected[n].path, collected[n].content);
      }
    }

    /** `update`, for the files that were collected: only changed hashes are indexed again. */
    method Update(tools: Tools<Symbol, Reference>, collected: seq<File>)
      modifies this
      ensures Contents() == Updated(tools, old(Contents()), collected)
    {
      RemoveMissing(PathsOf(collected));
      ghost var start := Contents();
      var existing := files;
      for n := 0 to |collected|
        invariant Contents() == UpdatedUpTo(tools, start, collected, n) && existing == start.files
      {
        var f := collected[n];
        if f.path in existing && existing[f.path].hash == tools.hash(f.content) { continue; }
        IndexFile(tools, f.path, f.content);
      }
    }
  }

  // ------------------------------------------------------------ the refinement

  /** Indexing a decodable file makes its path read as expected, and touches no other path. */
  lemma IndexedView<Symbol, Reference>(
    tools: Tools<Symbol, Reference>, rows: Rows<Symbol, Reference>, path: Path, text: string, q: Path)
    requires |OfPath(rows.texts, path)| <= 1
    ensures ViewOf(Indexed(tools, rows, path, Utf8(text)), q) == if q == path then Expected(tools, path, text) else ViewOf(rows, q)
  {
    var e := tools.extract(text, path);
    OfPathWithout(rows.symbols, path, q);
    OfPathWithout(rows.references, path, q);
    OfPathWithoutFirst(rows.texts, path, q);
    OfPathTagged(path, e.symbols, q);
    OfPathTagged(path, e.references, q);
    OfPathTagged(path, [text], q);
    assert Tag(path, [text]) == [Tagged(path, text)];
    hide OfPath, Without, WithoutFirst, Tag;
    OfPathAppend(Without(rows.symbols, path), Tag(path, e.symbols), q);
    OfPathAppend(Without(rows.references, path), Tag(path, e.references), q);
    OfPathAppend(WithoutFirst(rows.texts, path), [Tagged(path, text)], q);
  }

  /** A path with a file row reads as the file whose hash the row holds; no path has two texts. */
  ghost predicate CoherentAt<Symbol, Reference>(tools: Tools<Symbol, Reference>, rows: Rows<Symbol, Reference>, path: Path) {
    && |OfPath(rows.texts, path)| <= 1
    && (path in rows.files ==> exists text :: ViewOf(rows, path) == Expected(tools, path, text))
  }

  ghost predicate Coherent<Symbol, Reference>(tools: Tools<Symbol, Reference>, rows: Rows<Symbol, Reference>) {
    forall path: Path :: CoherentAt(tools, rows, path)
  }

  lemma IndexingKeepsCoherent<Symbol, Reference>(
    tools: Tools<Symbol, Reference>, rows: Rows<Symbol, Reference>, path: Path, content: Content)
    requires Coherent(tools, rows)
    ensures Coherent(tools, Indexed(tools, rows, path, content))
  {
    if content.Utf8? {
      assert CoherentAt(tools, rows, path);
      hide OfPath, Indexed, Expected;
      forall q: Path ensures CoherentAt(tools, Indexed(tools, rows, path, content), q) {
        IndexedView(tools, rows, path, content.text, q);
        assert CoherentAt(tools, rows, q);
        ViewFields(rows, q);
        ViewFields(Indexed(tools, rows, path, content), q);
        ExpectedFields(tools, path, content.text);
      }
    }
  }

  lemma ViewFields<Symbol, Reference>(rows: Rows<Symbol, Reference>, path: Path)
    ensures ViewOf(rows, path).file.Some? <==> path in rows.files
    ensures path in rows.files ==> ViewOf(rows, path).file == Some(rows.files[path])
    ensures ViewOf(rows, path).texts == OfPath(rows.texts, path)
  {
    hide OfPath;
  }

  lemma ExpectedFields<Symbol, Reference>(tools: Tools<Symbol, Reference>, path: Path, text: string)
    ensures Expected(tools, path, text).file.Some? && Expected(tools, path, text).file.value.hash == tools.hash(Utf8(text))
    ensures |Expected(tools, path, text).texts| == 1
  {
  }

  lemma TrimmingKeepsCoherent<Symbol, Reference>(tools: Tools<Symbol, Reference>, rows: Rows<Symbol, Reference>, present: set<Path>)
    requires Coherent(tools, rows)
    ensures Coherent(tools, Trimmed(rows, present))
  {
    hide OfPath, Expected;
    forall path: Path ensures CoherentAt(tools, Trimmed(rows, present), path) {
      assert CoherentAt(tools, rows, path);
      if path in Trimmed(rows, present).files {
        assert ViewOf(Trimmed(rows, present), path) == ViewOf(rows, path);
      }
    }
  }

  lemma EmptyIsCoherent<Symbol, Reference>(tools: Tools<Symbol, Reference>)
    ensures Coherent(tools, EmptyRows())
  {
  }

  lemma {:induction false} UpdatingKeepsCoherent<Symbol, Reference>(
    tools: Tools<Symbol, Reference>, start: Rows<Symbol, Reference>, files: seq<File>, n: nat)
    requires n <= |files| && Coherent(tools, start)
    ensures Coherent(tools, UpdatedUpTo(tools, start, files, n))
  {
    hide Coherent, Indexed;
    if n > 0 {
      UpdatingKeepsCoherent(tools, start, files, n - 1);
      IndexingKeepsCoherent(tools, UpdatedUpTo(tools, start, files, n - 1), files[n - 1].path, files[n - 1].content);
    }
  }

  lemma {:induction false} RebuildingIsCoherent<Symbol, Reference>(tools: Tools<Symbol, Reference>, files: seq<File>, n: nat)
    requires n <= |files|
    ensures Coherent(tools, RebuiltUpTo(tools, files, n))
  {
    hide Coherent, Indexed;
    if n == 0 {
      EmptyIsCoherent(tools);
    } else {
      RebuildingIsCoherent(tools, files, n - 1);
      IndexingKeepsCoherent(tools, RebuiltUpTo(tools, files, n - 1), files[n - 1].path, files[n - 1].content);
    }
  }

  /** Files other than `path` do not change what the index says about it. */
  lemma {:induction false} OthersDoNotTouch<Symbol, Reference>(
    tools: Tools<Symbol, Reference>, start: Rows<Symbol, Reference>, files: seq<File>, n: nat, path: Path)
    requires n <= |files| && Coherent(tools, start)
    requires forall i | 0 <= i < n :: files[i].path != path
    ensures ViewOf(UpdatedUpTo(tools, start, files, n), path) == ViewOf(start, path)
  {
    hide Coherent, Indexed, ViewOf;
    if n > 0 {
      var before, f := UpdatedUpTo(tools, start, files, n - 1), files[n - 1];
      OthersDoNotTouch(tools, start, files, n - 1, path);
      UpdatingKeepsCoherent(tools, start, files, n - 1);
      IndexedElsewhere(tools, before, f.path, f.content, path);
    }
  }

  lemma IndexedElsewhere<Symbol, Reference>(
    tools: Tools<Symbol, Reference>, rows: Rows<Symbol, Reference>, path: Path, content: Content, q: Path)
    requires Coherent(tools, rows) && q != path
    ensures ViewOf(Indexed(tools, rows, path, content), q) == ViewOf(rows, q)
  {
    if content.Utf8? {
      assert CoherentAt(tools, rows, path);
      hide Indexed, ViewOf, Expected;
      IndexedView(tools, rows, path, content.text, q);
    }
  }

  /** Once the file at `i` has been met, its path reads as expected. */
  lemma {:induction false} UpdatedView<Symbol, Reference>(
    tools: Tools<Symbol, Reference>, start: Rows<Symbol, Reference>, files: seq<File>, n: nat, i: nat)
    requires i < n <= |files| && Coherent(tools, start) && InjectiveHash(tools) && DistinctPaths(files)
    requires files[i].content.Utf8?
    ensures ViewOf(UpdatedUpTo(tools, start, files, n), files[i].path) == Expected(tools, files[i].path, files[i].content.text)
    decreases n
  {
    hide Coherent, Indexed, ViewOf, Expected;
    var before, f := UpdatedUpTo(tools, start, files, n - 1), files[n - 1];
    UpdatingKeepsCoherent(tools, start, files, n - 1);
    if i < n - 1 {
      UpdatedView(tools, start, files, n - 1, i);
      IndexedElsewhere(tools, before, f.path, f.content, files[i].path);
    } else {
      OthersDoNotTouch(tools, start, files, n - 1, f.path);
      MetView(tools, start, before, f);
    }
  }

  lemma MetView<Symbol, Reference>(tools: Tools<Symbol, Reference>, start: Rows<Symbol, Reference>, before: Rows<Symbol, Reference>, f: File)
    requires Coherent(tools, start) && Coherent(tools, before) && InjectiveHash(tools) && f.content.Utf8?
    requires ViewOf(before, f.path) == ViewOf(start, f.path)
    ensures f.path in start.files && start.files[f.path].hash == tools.hash(f.content) ==>
      ViewOf(before, f.path) == Expected(tools, f.path, f.content.text)
    ensures ViewOf(Indexed(tools, before, f.path, f.content), f.path) == Expected(tools, f.path, f.content.text)
  {
    assert CoherentAt(tools, start, f.path) && CoherentAt(tools, before, f.path);
    hide Indexed, ViewOf, Expected, OfPath;
    IndexedView(tools, before, f.path, f.content.text, f.path);
    if f.path in start.files && start.files[f.path].hash == tools.hash(f.content) {
      var text :| ViewOf(start, f.path) == Expected(tools, f.path, text);
      ViewFields(start, f.path);
      ExpectedFields(tools, f.path, text);
      assert Utf8(text) == f.content;
    }
  }

  lemma {:induction false} RebuiltIsUpdated<Symbol, Reference>(tools: Tools<Symbol, Reference>, files: seq<File>, n: nat)
    requires n <= |files|
    ensures RebuiltUpTo(tools, files, n) == UpdatedUpTo(tools, EmptyRows(), files, n)
  {
    hide Indexed;
    if n > 0 { RebuiltIsUpdated(tools, files, n - 1); }
  }

  /**
    One update agrees with a rebuild: for every decodable file that is present,
    the file, symbol, reference and text rows are the same.
   */
  lemma UpdateAgreesWithRebuild<Symbol, Reference>(
    tools: Tools<Symbol, Reference>, rows: Rows<Symbol, Reference>, files: seq<File>, i: nat)
    requires Coherent(tools, rows) && InjectiveHash(tools) && DistinctPaths(files)
    requires i < |files| && files[i].content.Utf8?
    ensures ViewOf(Updated(tools, rows, files), files[i].path) == ViewOf(Rebuilt(tools, files), files[i].path)
    ensures ViewOf(Updated(tools, rows, files), files[i].path) == Expected(tools, files[i].path, files[i].content.text)
    ensures Coherent(tools, Updated(tools, rows, files))
  {
    hide Coherent, ViewOf, Expected, UpdatedUpTo, RebuiltUpTo, Trimmed;
    TrimmingKeepsCoherent(tools, rows, PathsOf(files));
    UpdatingKeepsCoherent(tools, Trimmed(rows, PathsOf(files)), files, |files|);
    UpdatedView(tools, Trimmed(rows, PathsOf(files)), files, |files|, i);
    EmptyIsCoherent(tools);
    UpdatedView(tools, EmptyRows(), files, |files|, i);
    RebuiltIsUpdated(tools, files, |files|);
  }

  // ------------------------------------------------------------ whole histories

  /** Any mix of updates and rebuilds, each over the files as they then are. */
  datatype Pass = Pass(files: seq<File>, full: bool)

  function AfterPasses<Symbol, Reference>(tools: Tools<Symbol, Reference>, passes: seq<Pass>): Rows<Symbol, Reference> {
    if passes == [] then EmptyRows()
    else
      var before, last := AfterPasses(tools, passes[..|passes| - 1]), passes[|passes| - 1];
      if last.full then Rebuilt(tools, last.files) else Updated(tools, before, last.files)
  }

  lemma {:induction false} PassesKeepCoherent<Symbol, Reference>(tools: Tools<Symbol, Reference>, passes: seq<Pass>)
    ensures Coherent(tools, AfterPasses(tools, passes))
  {
    hide Coherent, UpdatedUpTo, RebuiltUpTo, Trimmed;
    if passes == [] {
      EmptyIsCoherent(tools);
    } else {
      var before, last := AfterPasses(tools, passes[..|passes| - 1]), passes[|passes| - 1];
      PassesKeepCoherent(tools, passes[..|passes| - 1]);
      TrimmingKeepsCoherent(tools, before, PathsOf(last.files));
      UpdatingKeepsCoherent(tools, Trimmed(before, PathsOf(last.files)), last.files, |last.files|);
      RebuildingIsCoherent(tools, last.files, |last.files|);
    }
  }

  /**
    Incremental indexing refines rebuilding: after any history of edits, updates
    and rebuilds, a path removed and added again included, the index says about
    each decodable file that is present what a rebuild would say.
   */
  lemma IncrementalRefinesRebuild<Symbol, Reference>(tools: Tools<Symbol, Reference>, passes: seq<Pass>, i: nat)
    requires InjectiveHash(tools) && passes != [] && DistinctPaths(passes[|passes| - 1].files)
    requires i < |passes[|passes| - 1].files| && passes[|passes| - 1].files[i].content.Utf8?
    ensures var last := passes[|passes| - 1];
      ViewOf(AfterPasses(tools, passes), last.files[i].path) == ViewOf(Rebuilt(tools, last.files), last.files[i].path)
  {
    hide Coherent, ViewOf, Updated, Rebuilt, InjectiveHash, DistinctPaths;
    PassesKeepCoherent(tools, passes[..|passes| - 1]);
    UpdateAgreesWithRebuild(tools, AfterPasses(tools, passes[..|passes| - 1]), passes[|passes| - 1].files, i);
  }

  /**
    About a path that is not present an update agrees with a rebuild exactly when
    no symbol, reference or text row of it was there: removal deletes the row of
    the file table only.
   */
  lemma AbsentAgreesExactly<Symbol, Reference>(
    tools: Tools<Symbol, Reference>, rows: Rows<Symbol, Reference>, files: seq<File>, path: Path)
    requires Coherent(tools, rows) && path !in PathsOf(files)
    ensures ViewOf(Updated(tools, rows, files), path) == ViewOf(Rebuilt(tools, files), path) <==>
      OfPath(rows.symbols, path) == [] && OfPath(rows.references, path) == [] && OfPath(rows.texts, path) == []
  {
    var trimmed := Trimmed(rows, PathsOf(files));
    forall i | 0 <= i < |files| ensures files[i].path != path { assert files[i] in files; }
    TrimmingKeepsCoherent(tools, rows, PathsOf(files));
    OthersDoNotTouch(tools, trimmed, files, |files|, path);
    EmptyIsCoherent(tools);
    OthersDoNotTouch(tools, EmptyRows(), files, |files|, path);
    RebuiltIsUpdated(tools, files, |files|);
    hide Coherent, UpdatedUpTo, RebuiltUpTo;
  }
}
