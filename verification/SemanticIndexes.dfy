/** The semantic index: chunks of files, and builds that a generation counter fences from one another. */
module SemanticIndexes {
  import opened Outcomes
  import opened Text

  datatype File = File(path: string, content: string)

  /** What the term analysis of a text yields; the analysis itself is a parameter. */
  datatype Analysis = Analysis(terms: set<string>, tokenCount: nat)

  datatype Options = Options(chunkLines: nat, overlapLines: nat)

  datatype Chunk = Chunk(path: string, startLine: nat, endLine: nat, text: string, analysis: Analysis)

  predicate ValidOptions(o: Options) { o.chunkLines >= 1 && o.overlapLines < o.chunkLines }

  // ----- Chunks -----

  /** `split` at line feeds, a carriage return before one being dropped. */
  function Lines(content: string): (r: seq<string>)
    ensures r != []
  {
    SplitChar(ReplaceCrLf(content), '\n', "")
  }

  function ChunkAt(path: string, lines: seq<string>, start: nat, o: Options, analyze: string -> Analysis): Chunk
    requires start <= |lines|
  {
    var end := if start + o.chunkLines < |lines| then start + o.chunkLines else |lines|;
    var text := Join(lines[start..end], "\n");
    Chunk(path, start + 1, end, text, analyze(text))
  }

  function ChunksFrom(path: string, lines: seq<string>, start: nat, o: Options, analyze: string -> Analysis): seq<Chunk>
    requires ValidOptions(o)
    decreases |lines| - start
  {
    if start >= |lines| then []
    else [ChunkAt(path, lines, start, o, analyze)]
         + ChunksFrom(path, lines, start + (o.chunkLines - o.overlapLines), o, analyze)
  }

  function FileChunks(file: File, o: Options, analyze: string -> Analysis): seq<Chunk>
    requires ValidOptions(o)
  {
    ChunksFrom(NormalizePath(file.path), Lines(file.content), 0, o, analyze)
  }

  /** `toChunks`. */
  method ToChunks(file: File, o: Options, analyze: string -> Analysis) returns (chunks: seq<Chunk>)
    requires ValidOptions(o)
    ensures chunks == FileChunks(file, o, analyze)
  {
    hide Lines, NormalizePath;
    var lines, path := Lines(file.content), NormalizePath(file.path);
    chunks := [];
    var start, step := 0, o.chunkLines - o.overlapLines;
    while start < |lines|
      invariant FileChunks(file, o, analyze) == chunks + ChunksFrom(path, lines, start, o, analyze)
      decreases |lines| - start
    {
      chunks := chunks + [ChunkAt(path, lines, start, o, analyze)];
      start := start + step;
    }
  }

  /** Some chunk begins at the line, or at most a step before it. */
  lemma {:induction false} ChunkNear(path: string, lines: seq<string>, start: nat, o: Options,
      analyze: string -> Analysis, first: nat) returns (s: nat)
    requires ValidOptions(o) && start <= first < |lines|
    ensures s <= first < s + (o.chunkLines - o.overlapLines)
    ensures ChunkAt(path, lines, s, o, analyze) in ChunksFrom(path, lines, start, o, analyze)
    decreases |lines| - start
  {
    hide ChunkAt;
    var step := o.chunkLines - o.overlapLines;
    if first < start + step {
      s := start;
    } else {
      s := ChunkNear(path, lines, start + step, o, analyze, first);
    }
  }

  /** The chunk holds the lines from `first` on, `width` of them, as they stand in the file. */
  predicate Holds(c: Chunk, file: File, first: nat, width: nat)
  {
    && c.path == NormalizePath(file.path) && 1 <= c.startLine <= first + 1
        && first + width <= c.endLine <= |Lines(file.content)|
    && c.text == Join(Lines(file.content)[c.startLine - 1..c.endLine], "\n")
  }

  /** Any window of at most one line more than the overlap lies inside one chunk. */
  lemma WindowInOneChunk(file: File, o: Options, analyze: string -> Analysis, first: nat, width: nat)
    requires ValidOptions(o) && 1 <= width <= o.overlapLines + 1 && first + width <= |Lines(file.content)|
    ensures exists c :: c in FileChunks(file, o, analyze) && Holds(c, file, first, width)
  {
    hide Lines, Join, NormalizePath;
    var lines, path := Lines(file.content), NormalizePath(file.path);
    var s := ChunkNear(path, lines, 0, o, analyze, first);
    var c := ChunkAt(path, lines, s, o, analyze);
    assert c in FileChunks(file, o, analyze) && Holds(c, file, first, width);
  }

  /** The chunk is lines `first + 1` to at most `first + chunkLines` of the file, as they stand. */
  predicate Covers(c: Chunk, file: File, first: nat, o: Options, analyze: string -> Analysis)
  {
    var lines := Lines(file.content);
    && first < |lines| && c.path == NormalizePath(file.path) && c.startLine == first + 1
    && c.endLine == (if first + o.chunkLines < |lines| then first + o.chunkLines else |lines|)
    && c.text == Join(lines[first..c.endLine], "\n") && c.analysis == analyze(c.text)
  }

  lemma {:induction false} ChunksFromTile(file: File, start: nat, o: Options, analyze: string -> Analysis, k: nat)
    requires ValidOptions(o)
    ensures var lines, step := Lines(file.content), o.chunkLines - o.overlapLines;
            var chunks := ChunksFrom(NormalizePath(file.path), lines, start, o, analyze);
            && (k < |chunks| <==> start + LinesBefore(k, o) < |lines|)
            && (k < |chunks| ==> Covers(chunks[k], file, start + LinesBefore(k, o), o, analyze))
    decreases k
  {
    hide Lines, NormalizePath, Join;
    var step := o.chunkLines - o.overlapLines;
    if k > 0 {
      ChunksFromTile(file, start + step, o, analyze, k - 1);
      hide Covers, ChunkAt;
    }
  }

  /** How many lines `k` chunks move on. */
  function LinesBefore(k: nat, o: Options): nat
    requires ValidOptions(o)
  {
    if k == 0 then 0 else LinesBefore(k - 1, o) + (o.chunkLines - o.overlapLines)
  }

  /** The chunks of a file begin one step apart, as many as begin inside the file, each as long as a chunk may be or up
      to the end. */
  lemma ChunksTile(file: File, o: Options, analyze: string -> Analysis, k: nat)
    requires ValidOptions(o)
    ensures var chunks, first := FileChunks(file, o, analyze), LinesBefore(k, o);
            && (k < |chunks| <==> first < |Lines(file.content)|)
            && (k < |chunks| ==> Covers(chunks[k], file, first, o, analyze))
  {
    ChunksFromTile(file, 0, o, analyze, k);
    hide Covers, Lines, NormalizePath, ChunksFrom;
  }

  // ----- A whole build -----

  function ChunksOf(files: seq<File>, o: Options, analyze: string -> Analysis): seq<Chunk>
    requires ValidOptions(o)
  {
    if files == [] then []
    else ChunksOf(files[..|files| - 1], o, analyze) + FileChunks(files[|files| - 1], o, analyze)
  }

  /** In how many chunks each term occurs. */
  function Frequency(chunks: seq<Chunk>, term: string): nat
  {
    if chunks == [] then 0
    else Frequency(chunks[..|chunks| - 1], term) + if term in chunks[|chunks| - 1].analysis.terms then 1 else 0
  }

  /** The table counts the terms of the chunks, and holds no other. */
  ghost predicate Counts(frequency: map<string, nat>, chunks: seq<Chunk>)
  {
    forall t ::
      && (t in frequency <==> Frequency(chunks, t) > 0)
      && (t in frequency ==> frequency[t] == Frequency(chunks, t))
  }

  function CountChunk(frequency: map<string, nat>, terms: set<string>): map<string, nat>
  {
    map t | t in frequency.Keys + terms :: (if t in frequency then frequency[t] else 0) + if t in terms then 1 else 0
  }

  function CountChunks(frequency: map<string, nat>, chunks: seq<Chunk>): map<string, nat>
  {
    if chunks == [] then frequency
    else CountChunk(CountChunks(frequency, chunks[..|chunks| - 1]), chunks[|chunks| - 1].analysis.terms)
  }

  lemma {:induction false} CountedChunks(frequency: map<string, nat>, before: seq<Chunk>, chunks: seq<Chunk>)
    requires Counts(frequency, before)
    ensures Counts(CountChunks(frequency, chunks), before + chunks)
  {
    if chunks == [] {
      assert before + chunks == before;
    } else {
      var n := |chunks| - 1;
      CountedChunks(frequency, before, chunks[..n]);
      assert (before + chunks)[..|before + chunks| - 1] == before + chunks[..n];
    }
  }

  // ----- Normalization -----

  function Slashes(path: string): string
  {
    seq(|path|, i requires 0 <= i < |path| => if path[i] == '\\' then '/' else path[i])
  }

  function NormalizePath(path: string): string
  {
    var p := Slashes(path);
    if "./" <= p then p[2..] else p
  }

  /** One pass strips one leading `./`, so a second pass changes the path exactly when one is still there. */
  lemma NormalizedTwice(path: string)
    ensures var once := NormalizePath(path);
            NormalizePath(once) == once <==> !("./" <= once)
  {
    var once := NormalizePath(path);
    assert Slashes(once) == once;
  }

  predicate Indexable(file: File) { NormalizePath(file.path) != "" && '\0' !in file.content }

  /** The indexable files by normalized path; none if two of them meet under one path. */
  function Normalize(files: seq<File>): Option<map<string, string>>
  {
    if files == [] then Some(map[])
    else
      var last := files[|files| - 1];
      match Normalize(files[..|files| - 1])
      case None => None
      case Some(m) =>
        if !Indexable(last) then Some(m)
        else if NormalizePath(last.path) in m then None
        else Some(m[NormalizePath(last.path) := last.content])
  }

  /** The files of a table, in order of path. */
  function Listed(table: map<string, string>): seq<File>
  {
    var keys := SortedKeys(table.Keys);
    seq(|keys|, i requires 0 <= i < |keys| => assert keys[i] in keys; File(keys[i], table[keys[i]]))
  }

  // ----- The index -----

  datatype Status = Idle | Indexing | Ready | Unavailable | Failed

  /** A call of `index` that has not returned. */
  datatype Build = Build(generation: nat, files: seq<File>, done: nat, chunks: seq<Chunk>, frequency: map<string, nat>)

  datatype Index = Index(status: Status, generation: nat, files: map<string, string>, desired: map<string, string>,
                         chunks: seq<Chunk>, frequency: map<string, nat>, builds: seq<Build>)

  const NEW_INDEX := Index(Idle, 0, map[], map[], [], map[], [])

  datatype Step =
    | Start(files: seq<File>)
    | Update(files: seq<File>, removed: seq<string>)
    | Advance(build: nat)
    | Break(build: nat)
    | Cancel
    | MarkUnavailable

  function Without(builds: seq<Build>, k: nat): seq<Build>
    requires k < |builds|
  {
    builds[..k] + builds[k + 1..]
  }

  /** `index` up to its first await. */
  function Begin(i: Index, files: seq<File>): Index
  {
    match Normalize(files)
    case None => i
    case Some(m) =>
      i.(status := Indexing, generation := i.generation + 1, desired := m,
         builds := i.builds + [Build(i.generation + 1, Listed(m), 0, [], map[])])
  }

  function AfterRemoval(table: map<string, string>, removed: seq<string>): map<string, string>
  {
    table - set p | p in removed :: NormalizePath(p)
  }

  function Updated(i: Index, files: seq<File>, removed: seq<string>): Index
  {
    match Normalize(files)
    case None => i
    case Some(m) => Begin(i, Listed(AfterRemoval(i.desired, removed) + m))
  }

  /** A build goes on for one file, or publishes; if it has been superseded it returns. */
  function Advanced(i: Index, k: nat, o: Options, analyze: string -> Analysis): Index
    requires k < |i.builds| && ValidOptions(o)
  {
    var b := i.builds[k];
    if b.generation != i.generation then i.(builds := Without(i.builds, k))
    else if b.done < |b.files| then
      var chunks := FileChunks(b.files[b.done], o, analyze);
      i.(builds := i.builds[k := b.(done := b.done + 1, chunks := b.chunks + chunks,
                                    frequency := CountChunks(b.frequency, chunks))])
    else
      i.(status := Ready, files := TableOf(b.files), chunks := b.chunks, frequency := b.frequency,
         builds := Without(i.builds, k))
  }

  function TableOf(files: seq<File>): map<string, string>
  {
    if files == [] then map[]
    else TableOf(files[..|files| - 1])[files[|files| - 1].path := files[|files| - 1].content]
  }

  function Next(i: Index, s: Step, o: Options, analyze: string -> Analysis): Index
    requires ValidOptions(o)
  {
    match s
    case Start(files) => Begin(i, files)
    case Update(files, removed) => Updated(i, files, removed)
    case Advance(k) => if k < |i.builds| then Advanced(i, k, o, analyze) else i
    case Break(k) =>
      if k >= |i.builds| then i
      else if i.builds[k].generation != i.generation then i.(builds := Without(i.builds, k))
      else i.(status := Failed, builds := Without(i.builds, k))
    case Cancel => i.(status := Idle, generation := i.generation + 1)
    case MarkUnavailable => i.(status := Unavailable, generation := i.generation + 1)
  }

  function Play(steps: seq<Step>, o: Options, analyze: string -> Analysis): Index
    requires ValidOptions(o)
  {
    if steps == [] then NEW_INDEX
    else Next(Play(steps[..|steps| - 1], o, analyze), steps[|steps| - 1], o, analyze)
  }

  // ----- The invariant -----

  /** A build that has not been superseded is one of the files last asked for, and right as far as it has come. */
  ghost predicate BuildOk(i: Index, b: Build, o: Options, analyze: string -> Analysis)
    requires ValidOptions(o)
  {
    && b.generation <= i.generation
    && (b.generation == i.generation ==>
          && i.status == Indexing && b.files == Listed(i.desired) && b.done <= |b.files|
          && b.chunks == ChunksOf(b.files[..b.done], o, analyze) && Counts(b.frequency, b.chunks))
  }

  /** What is published is what a build of these files from scratch would publish. */
  ghost predicate IsFresh(i: Index, o: Options, analyze: string -> Analysis)
    requires ValidOptions(o)
  {
    i.files == i.desired && i.chunks == ChunksOf(Listed(i.desired), o, analyze) && Counts(i.frequency, i.chunks)
  }

  ghost predicate Sound(i: Index, o: Options, analyze: string -> Analysis)
    requires ValidOptions(o)
  {
    && (forall k :: 0 <= k < |i.builds| ==> BuildOk(i, i.builds[k], o, analyze))
    && (forall k, l :: 0 <= k < l < |i.builds| ==> i.builds[k].generation != i.builds[l].generation)
    && (i.status == Ready ==> IsFresh(i, o, analyze))
  }

  lemma ListedTable(table: map<string, string>)
    ensures TableOf(Listed(table)) == table
  {
    var keys, files := SortedKeys(table.Keys), Listed(table);
    hide SortedKeys, TableOf;
    assert forall i :: 0 <= i < |keys| ==> keys[i] in keys && files[i].path == keys[i];
    assert files[..|keys|] == files;
    TableHolds(files, |keys|, table);
    forall p | p in table ensures p in TableOf(files) {
      var i :| 0 <= i < |keys| && keys[i] == p;
      assert files[i].path == p;
    }
  }

  lemma {:induction false} TableHolds(files: seq<File>, n: nat, table: map<string, string>)
    requires n <= |files| && forall i :: 0 <= i < |files| ==>
        files[i].path in table && files[i].content == table[files[i].path]
    ensures forall p :: p in TableOf(files[..n]) <==> exists i :: 0 <= i < n && files[i].path == p
    ensures forall p :: p in TableOf(files[..n]) ==> p in table && TableOf(files[..n])[p] == table[p]
  {
    if n > 0 {
      TableHolds(files, n - 1, table);
      assert files[..n][..n - 1] == files[..n - 1];
    }
  }

  lemma BeginSound(i: Index, files: seq<File>, o: Options, analyze: string -> Analysis)
    requires ValidOptions(o) && Sound(i, o, analyze)
    ensures Sound(Begin(i, files), o, analyze)
  {
    hide FileChunks, Normalize, Listed;
    var next := Begin(i, files);
    if Normalize(files).Some? {
      var m := Normalize(files).value;
      assert ChunksOf(Listed(m)[..0], o, analyze) == [];
      forall k | 0 <= k < |next.builds| ensures BuildOk(next, next.builds[k], o, analyze) {
        if k < |i.builds| {
          assert BuildOk(i, i.builds[k], o, analyze);
        }
      }
      forall k, l | 0 <= k < l < |next.builds| ensures next.builds[k].generation != next.builds[l].generation {
        assert BuildOk(i, i.builds[k], o, analyze);
      }
    }
  }

  lemma WithoutSound(i: Index, k: nat, o: Options, analyze: string -> Analysis)
    requires ValidOptions(o) && Sound(i, o, analyze) && k < |i.builds|
    ensures Sound(i.(builds := Without(i.builds, k)), o, analyze)
    ensures forall b :: b in Without(i.builds, k) ==> b.generation != i.builds[k].generation && b in i.builds
  {
    var next := i.(builds := Without(i.builds, k));
    assert forall j :: 0 <= j < |next.builds| ==> next.builds[j] == i.builds[if j < k then j else j + 1];
    forall j | 0 <= j < |next.builds| ensures BuildOk(next, next.builds[j], o, analyze) {
      assert BuildOk(i, i.builds[if j < k then j else j + 1], o, analyze);
    }
  }

  /** Once the current build is out of the way, a change of status touches no other. */
  lemma EndSound(i: Index, k: nat, next: Index, o: Options, analyze: string -> Analysis)
    requires ValidOptions(o) && Sound(i, o, analyze) && k < |i.builds| && i.builds[k].generation == i.generation
    requires next.builds == Without(i.builds, k) && next.generation == i.generation
    requires next.status == Ready ==> IsFresh(next, o, analyze)
    ensures Sound(next, o, analyze)
  {
    WithoutSound(i, k, o, analyze);
    var middle := i.(builds := Without(i.builds, k));
    forall j | 0 <= j < |next.builds| ensures BuildOk(next, next.builds[j], o, analyze) {
      assert next.builds[j] in Without(i.builds, k);
      assert BuildOk(middle, middle.builds[j], o, analyze);
    }
  }

  lemma AdvancedSound(i: Index, k: nat, o: Options, analyze: string -> Analysis)
    requires ValidOptions(o) && Sound(i, o, analyze) && k < |i.builds|
    ensures Sound(Advanced(i, k, o, analyze), o, analyze)
  {
    hide FileChunks, Listed;
    var b, next := i.builds[k], Advanced(i, k, o, analyze);
    assert BuildOk(i, b, o, analyze);
    if b.generation != i.generation {
      WithoutSound(i, k, o, analyze);
    } else if b.done < |b.files| {
      var chunks := FileChunks(b.files[b.done], o, analyze);
      CountedChunks(b.frequency, b.chunks, chunks);
      assert b.files[..b.done + 1][..b.done] == b.files[..b.done];
      forall j | 0 <= j < |next.builds| ensures BuildOk(next, next.builds[j], o, analyze) {
        assert BuildOk(i, i.builds[j], o, analyze);
      }
    } else {
      ListedTable(i.desired);
      assert b.files[..b.done] == b.files;
      EndSound(i, k, next, o, analyze);
    }
  }

  lemma SupersededSound(i: Index, status: Status, o: Options, analyze: string -> Analysis)
    requires ValidOptions(o) && Sound(i, o, analyze) && status != Ready
    ensures Sound(i.(status := status, generation := i.generation + 1), o, analyze)
  {
    var next := i.(status := status, generation := i.generation + 1);
    forall k | 0 <= k < |next.builds| ensures BuildOk(next, next.builds[k], o, analyze) {
      assert BuildOk(i, i.builds[k], o, analyze);
    }
  }

  lemma BrokenSound(i: Index, k: nat, o: Options, analyze: string -> Analysis)
    requires ValidOptions(o) && Sound(i, o, analyze)
    ensures Sound(Next(i, Break(k), o, analyze), o, analyze)
  {
    hide Sound, Listed, FileChunks;
    if k < |i.builds| {
      WithoutSound(i, k, o, analyze);
      if i.builds[k].generation == i.generation {
        EndSound(i, k, Next(i, Break(k), o, analyze), o, analyze);
      }
    }
  }

  lemma UpdatedSound(i: Index, files: seq<File>, removed: seq<string>, o: Options, analyze: string -> Analysis)
    requires ValidOptions(o) && Sound(i, o, analyze)
    ensures Sound(Updated(i, files, removed), o, analyze)
  {
    hide Sound, Begin, Normalize, Listed;
    if Normalize(files).Some? {
      BeginSound(i, Listed(AfterRemoval(i.desired, removed) + Normalize(files).value), o, analyze);
    }
  }

  lemma NextSound(i: Index, s: Step, o: Options, analyze: string -> Analysis)
    requires ValidOptions(o) && Sound(i, o, analyze)
    ensures Sound(Next(i, s, o, analyze), o, analyze)
  {
    hide Sound, Begin, Advanced, Updated;
    match s
    case Start(files) => BeginSound(i, files, o, analyze);
    case Update(files, removed) => UpdatedSound(i, files, removed, o, analyze);
    case Advance(k) => if k < |i.builds| { AdvancedSound(i, k, o, analyze); }
    case Break(k) => BrokenSound(i, k, o, analyze);
    case Cancel => SupersededSound(i, Idle, o, analyze);
    case MarkUnavailable => SupersededSound(i, Unavailable, o, analyze);
  }

  lemma {:induction false} AlwaysSound(steps: seq<Step>, o: Options, analyze: string -> Analysis)
    requires ValidOptions(o)
    ensures Sound(Play(steps, o, analyze), o, analyze)
    decreases |steps|
  {
    hide Next;
    if steps != [] {
      AlwaysSound(steps[..|steps| - 1], o, analyze);
      hide Sound;
      NextSound(Play(steps[..|steps| - 1], o, analyze), steps[|steps| - 1], o, analyze);
    }
  }

  /** However index, update, cancel and markUnavailable interleave with the builds in flight, an index that says it is
      ready has published exactly what a fresh build of the files last asked for would publish. */
  lemma ReadyIsFresh(steps: seq<Step>, o: Options, analyze: string -> Analysis)
    requires ValidOptions(o) && Play(steps, o, analyze).status == Ready
    ensures IsFresh(Play(steps, o, analyze), o, analyze)
  {
    AlwaysSound(steps, o, analyze);
    hide Play, IsFresh;
  }

  /** What a reader of the index sees. */
  function Published(i: Index): (Status, map<string, string>, seq<Chunk>, map<string, nat>)
  {
    (i.status, i.files, i.chunks, i.frequency)
  }

  lemma PlaySnoc(steps: seq<Step>, s: Step, o: Options, analyze: string -> Analysis)
    requires ValidOptions(o)
    ensures Play(steps + [s], o, analyze) == Next(Play(steps, o, analyze), s, o, analyze)
  {
    hide Next;
    assert (steps + [s])[..|steps|] == steps;
  }

  lemma {:induction false} GenerationsGrow(steps: seq<Step>, more: seq<Step>, o: Options, analyze: string -> Analysis)
    requires ValidOptions(o)
    ensures Play(steps, o, analyze).generation <= Play(steps + more, o, analyze).generation
    decreases |more|
  {
    hide Play, Next;
    if more == [] {
      assert steps + more == steps;
    } else {
      var n := |more| - 1;
      GenerationsGrow(steps, more[..n], o, analyze);
      assert steps + more == (steps + more[..n]) + [more[n]];
      PlaySnoc(steps + more[..n], more[n], o, analyze);
      GenerationGrows(Play(steps + more[..n], o, analyze), more[n], o, analyze);
    }
  }

  lemma GenerationGrows(i: Index, s: Step, o: Options, analyze: string -> Analysis)
    requires ValidOptions(o)
    ensures i.generation <= Next(i, s, o, analyze).generation
  {
    hide Normalize, FileChunks, Listed, CountChunks;
  }

  /** A superseded build never publishes: in no continuation does its going on, or its failing, change what a reader
      sees. */
  lemma SupersededIsSilent(steps: seq<Step>, more: seq<Step>, k: nat, s: Step, o: Options, analyze: string -> Analysis)
    requires ValidOptions(o) && s in {Advance(k), Break(k)}
    requires k < |Play(steps + more, o, analyze).builds|
    requires Play(steps + more, o, analyze).builds[k].generation < Play(steps, o, analyze).generation
    ensures Published(Play(steps + more + [s], o, analyze)) == Published(Play(steps + more, o, analyze))
  {
    GenerationsGrow(steps, more, o, analyze);
    PlaySnoc(steps + more, s, o, analyze);
    hide Play;
  }

  lemma NextPublishes(i: Index, s: Step, o: Options, analyze: string -> Analysis)
    requires ValidOptions(o)
    ensures var next := Next(i, s, o, analyze);
            (next.files, next.chunks, next.frequency) == (i.files, i.chunks, i.frequency) || next.status == Ready
  {
    hide Normalize, FileChunks, Listed, CountChunks, TableOf;
  }

  /** What is published changes, in any history, only to what a fresh build of the files last asked for would
      publish. */
  lemma PublishesFresh(steps: seq<Step>, s: Step, o: Options, analyze: string -> Analysis)
    requires ValidOptions(o)
    ensures var before, after := Play(steps, o, analyze), Play(steps + [s], o, analyze);
            (after.files, after.chunks, after.frequency) == (before.files, before.chunks, before.frequency)
            || (after.status == Ready && IsFresh(after, o, analyze))
  {
    hide Play, IsFresh, Next;
    AlwaysSound(steps + [s], o, analyze);
    PlaySnoc(steps, s, o, analyze);
    NextPublishes(Play(steps, o, analyze), s, o, analyze);
  }

  lemma NormalizesOne(rest: string, content: string)
    requires rest != "" && '\\' !in rest && '\0' !in content
    ensures Normalize([File("./" + rest, content)]) == Some(map[rest := content])
  {
    var file := File("./" + rest, content);
    assert Slashes(file.path) == file.path;
    assert NormalizePath(file.path) == rest;
    assert [file][..0] == [];
    assert Normalize([]) == Some(map[]);
    hide NormalizePath;
  }

  lemma ListsOne(path: string, content: string)
    ensures Listed(map[path := content]) == [File(path, content)]
  {
    hide SortedKeys;
    var table := map[path := content];
    assert table.Keys == {path};
    assert SortedKeys({path})[0] in SortedKeys({path});
  }

  lemma StartsOne(i: Index, rest: string, content: string, o: Options, analyze: string -> Analysis)
    requires ValidOptions(o) && rest != "" && '\\' !in rest && '\0' !in content
    ensures Next(i, Start([File("./" + rest, content)]), o, analyze).desired == map[rest := content]
  {
    NormalizesOne(rest, content);
    hide Normalize, Listed;
  }

  lemma UpdatesOne(i: Index, rest: string, content: string, o: Options, analyze: string -> Analysis)
    requires ValidOptions(o) && rest != "" && '\\' !in rest && '\0' !in content
    requires i.desired == map["./" + rest := content]
    ensures Next(i, Update([], []), o, analyze).desired == map[rest := content]
  {
    NormalizesOne(rest, content);
    ListsOne("./" + rest, content);
    assert Normalize([]) == Some(map[]);
    assert AfterRemoval(i.desired, []) + map[] == i.desired;
    hide Normalize, Listed;
  }

  /** The file `././a` is indexed as `./a`, and an update that names no file renames it to `a`. */
  lemma UpdateRenames(content: string, o: Options, analyze: string -> Analysis)
    requires ValidOptions(o) && '\0' !in content
    ensures Play([Start([File("././a", content)])], o, analyze).desired == map["./a" := content]
    ensures Play([Start([File("././a", content)])] + [Update([], [])], o, analyze).desired == map["a" := content]
  {
    hide Next;
    var first := Start([File("././a", content)]);
    assert [first] == [] + [first];
    PlaySnoc([], first, o, analyze);
    PlaySnoc([first], Update([], []), o, analyze);
    hide Play;
    assert "././a" == "./" + "./a" && "./a" == "./" + "a";
    StartsOne(NEW_INDEX, "./a", content, o, analyze);
    UpdatesOne(Next(NEW_INDEX, first, o, analyze), "a", content, o, analyze);
  }

  // ----- What an update leaves -----

  /** The paths are there, have only forward slashes, and hold texts. */
  predicate Clean(table: map<string, string>)
  {
    forall p :: p in table ==> p != "" && Slashes(p) == p && '\0' !in table[p]
  }

  predicate Undotted(table: map<string, string>) { forall p :: p in table ==> !("./" <= p) }

  /** The indexable files, each under its normalized path. */
  lemma {:induction false} NormalizeMeans(files: seq<File>)
    ensures Normalize(files).Some? ==>
              var m := Normalize(files).value;
              && (forall p :: p in m <==> exists i :: 0 <= i < |files| && IsAt(files, i, p))
              && (forall i, p :: 0 <= i < |files| && IsAt(files, i, p) ==> p in m && m[p] == files[i].content)
    ensures Normalize(files).None? <==>
              exists i, j, p :: 0 <= i < j < |files| && IsAt(files, i, p) && IsAt(files, j, p)
  {
    hide NormalizePath, Indexable;
    if files != [] {
      var n := |files| - 1;
      NormalizeMeans(files[..n]);
      assert forall i, p :: 0 <= i < n ==> (IsAt(files[..n], i, p) <==> IsAt(files, i, p));
      if Normalize(files[..n]).None? {
        var i, j, p :| 0 <= i < j < n && IsAt(files[..n], i, p) && IsAt(files[..n], j, p);
        assert IsAt(files, i, p) && IsAt(files, j, p);
      } else if Indexable(files[n]) {
        var p := NormalizePath(files[n].path);
        assert IsAt(files, n, p);
      }
    }
  }

  predicate IsAt(files: seq<File>, i: nat, p: string)
    requires i < |files|
  {
    Indexable(files[i]) && NormalizePath(files[i].path) == p
  }

  lemma NormalizedClean(files: seq<File>)
    requires Normalize(files).Some?
    ensures Clean(Normalize(files).value)
  {
    NormalizeMeans(files);
    hide Normalize;
    var m := Normalize(files).value;
    forall p | p in m ensures p != "" && Slashes(p) == p && '\0' !in m[p] {
      var i :| 0 <= i < |files| && IsAt(files, i, p);
    }
  }

  /** The files of a table with such paths come to the same table again. */
  lemma ListedNormalizes(table: map<string, string>)
    requires Clean(table) && Undotted(table)
    ensures Normalize(Listed(table)) == Some(table)
  {
    hide SortedKeys, Normalize, Listed, IsAt, Clean, Undotted;
    var keys, files := SortedKeys(table.Keys), Listed(table);
    NormalizeMeans(files);
    assert |files| == |keys| by { ListedAt(table, 0); }
    forall i, p | 0 <= i < |files| ensures IsAt(files, i, p) <==> p == keys[i] {
      ListedAt(table, i);
    }
    forall i, j, p | 0 <= i < j < |files| ensures !(IsAt(files, i, p) && IsAt(files, j, p)) {
      assert keys[i] != keys[j];
    }
    var m := Normalize(files).value;
    forall p ensures (p in table <==> p in m) && (p in table ==> m[p] == table[p]) {
      if p in table {
        var i :| 0 <= i < |keys| && keys[i] == p;
        ListedAt(table, i);
        assert IsAt(files, i, p);
      }
      if p in m {
        var i :| 0 <= i < |files| && IsAt(files, i, p);
        ListedAt(table, i);
      }
    }
    assert m == table;
  }

  lemma ListedAt(table: map<string, string>, i: nat)
    requires Clean(table) && Undotted(table)
    ensures var keys, files := SortedKeys(table.Keys), Listed(table);
            && |files| == |keys|
            && (i < |keys| ==>
                  && keys[i] in table && files[i] == File(keys[i], table[keys[i]])
                  && forall p :: IsAt(files, i, p) <==> p == keys[i])
  {
    hide SortedKeys;
    var keys := SortedKeys(table.Keys);
    if i < |keys| {
      assert keys[i] in keys;
    }
  }

  lemma {:induction false} DesiredClean(steps: seq<Step>, o: Options, analyze: string -> Analysis)
    requires ValidOptions(o)
    ensures Clean(Play(steps, o, analyze).desired)
    decreases |steps|
  {
    hide Next, Clean;
    if steps == [] {
      assert Clean(map[]) by { NothingClean(); }
    } else {
      var n := |steps| - 1;
      DesiredClean(steps[..n], o, analyze);
      NextClean(Play(steps[..n], o, analyze), steps[n], o, analyze);
    }
  }

  lemma NothingClean()
    ensures Clean(map[])
  {
  }

  lemma NextClean(i: Index, s: Step, o: Options, analyze: string -> Analysis)
    requires ValidOptions(o) && Clean(i.desired)
    ensures Clean(Next(i, s, o, analyze).desired)
  {
    hide Normalize, FileChunks, Listed, CountChunks, TableOf, Clean;
    if s.Start? && Normalize(s.files).Some? {
      NormalizedClean(s.files);
    }
    if s.Update? && Normalize(s.files).Some? {
      var all := Listed(AfterRemoval(i.desired, s.removed) + Normalize(s.files).value);
      if Normalize(all).Some? {
        NormalizedClean(all);
      }
    }
  }

  /** In every history an update leaves exactly the new files, and of the old ones those whose path no removed one
      normalizes to and no new one replaces; it does so as long as no path still begins with a dot and a slash. */
  lemma UpdateForgets(steps: seq<Step>, files: seq<File>, removed: seq<string>, o: Options,
                      analyze: string -> Analysis, p: string)
    requires ValidOptions(o) && Normalize(files).Some?
    requires Undotted(Play(steps, o, analyze).desired) && Undotted(Normalize(files).value)
    ensures var before, after := Play(steps, o, analyze), Play(steps + [Update(files, removed)], o, analyze);
            var m := Normalize(files).value;
            && after.status == Indexing && after.generation == before.generation + 1
            && (p in after.desired <==>
                  p in m || (p in before.desired && forall q :: q in removed ==> NormalizePath(q) != p))
            && (p in after.desired ==> after.desired[p] == if p in m then m[p] else before.desired[p])
  {
    DesiredClean(steps, o, analyze);
    NormalizedClean(files);
    PlaySnoc(steps, Update(files, removed), o, analyze);
    var before, m := Play(steps, o, analyze), Normalize(files).value;
    hide Play, Normalize, Listed, NormalizePath;
    var table := AfterRemoval(before.desired, removed) + m;
    ListedNormalizes(table);
  }

  // ----- The class -----

  /** The fields of the index, and the calls of `index` that are waiting to go on. */
  class SemanticIndex {
    const options: Options
    const analyze: string -> Analysis
    var status: Status
    var generation: nat
    var files: map<string, string>
    var desiredFiles: map<string, string>
    var chunks: seq<Chunk>
    var documentFrequency: map<string, nat>
    var waiting: seq<Build>

    function View(): Index
      reads this
    {
      Index(status, generation, files, desiredFiles, chunks, documentFrequency, waiting)
    }

    ghost predicate Valid()
      reads this
    {
      ValidOptions(options) && Sound(View(), options, analyze)
    }

    constructor (options: Options, analyze: string -> Analysis)
      requires ValidOptions(options)
      ensures Valid() && View() == NEW_INDEX && this.options == options && this.analyze == analyze
    {
      this.options, this.analyze := options, analyze;
      status, generation, files, desiredFiles := Idle, 0, map[], map[];
      chunks, documentFrequency, waiting := [], map[], [];
    }

    method IndexFiles(files: seq<File>)
      requires Valid()
      modifies this
      ensures Valid() && View() == Next(old(View()), Start(files), options, analyze)
    {
      hide Sound, Normalize, Listed;
      NextSound(View(), Start(files), options, analyze);
      var normalized := Normalize(files);
      if normalized.None? {
        return;
      }
      desiredFiles := normalized.value;
      generation := generation + 1;
      status := Indexing;
      waiting := waiting + [Build(generation, Listed(normalized.value), 0, [], map[])];
    }

    method Update(files: seq<File>, removed: seq<string>)
      requires Valid()
      modifies this
      ensures Valid() && View() == Next(old(View()), Step.Update(files, removed), options, analyze)
    {
      hide Sound, Begin, Normalize, Listed;
      var normalized := Normalize(files);
      if normalized.None? {
        return;
      }
      IndexFiles(Listed(AfterRemoval(desiredFiles, removed) + normalized.value));
    }

    /** A waiting build goes on: for its next file, or to the end. */
    method Resume(k: nat)
      requires Valid() && k < |waiting|
      modifies this
      ensures Valid() && View() == Next(old(View()), Advance(k), options, analyze)
    {
      hide Sound, FileChunks, CountChunks, TableOf;
      NextSound(View(), Advance(k), options, analyze);
      var b := waiting[k];
      if b.generation != generation {
        waiting := Without(waiting, k);
        return;
      }
      if b.done < |b.files| {
        var fileChunks := ToChunks(b.files[b.done], options, analyze);
        var frequency := CountTerms(b.frequency, fileChunks);
        waiting := waiting[k := b.(done := b.done + 1, chunks := b.chunks + fileChunks, frequency := frequency)];
        return;
      }
      files := TableOf(b.files);
      chunks := b.chunks;
      documentFrequency := b.frequency;
      status := Ready;
      waiting := Without(waiting, k);
    }

    /** Building a file's chunks fails. */
    method Fail(k: nat)
      requires Valid() && k < |waiting|
      modifies this
      ensures Valid() && View() == Next(old(View()), Break(k), options, analyze)
    {
      hide Sound;
      NextSound(View(), Break(k), options, analyze);
      if waiting[k].generation == generation {
        status := Failed;
      }
      waiting := Without(waiting, k);
    }

    method Cancel()
      requires Valid()
      modifies this
      ensures Valid() && View() == Next(old(View()), Step.Cancel, options, analyze)
    {
      NextSound(View(), Step.Cancel, options, analyze);
      hide Sound;
      generation := generation + 1;
      status := Idle;
    }

    method MarkUnavailable()
      requires Valid()
      modifies this
      ensures Valid() && View() == Next(old(View()), Step.MarkUnavailable, options, analyze)
    {
      NextSound(View(), Step.MarkUnavailable, options, analyze);
      hide Sound;
      generation := generation + 1;
      status := Unavailable;
    }
  }

  /** The loop that counts the terms of new chunks. */
  method CountTerms(frequency: map<string, nat>, chunks: seq<Chunk>) returns (counted: map<string, nat>)
    ensures counted == CountChunks(frequency, chunks)
  {
    hide CountChunk;
    counted := frequency;
    for i := 0 to |chunks|
      invariant counted == CountChunks(frequency, chunks[..i])
    {
      counted := CountChunk(counted, chunks[i].analysis.terms);
      assert chunks[..i + 1][..i] == chunks[..i];
    }
    assert chunks[..|chunks|] == chunks;
  }
}
