/**
Which symbols an index pass leaves: those of the files it parsed, the last one
winning, and of the earlier ones those whose blob was never dropped.
 */
module IndexSymbols {
  import opened Wrappers
  import opened ContextIndex

  type Symbols = map<string, Symbol>

  // ------------------------------------------------------------------ parsed symbols

  /** The name under which a parse reports the id for the last time. */
  function NameIn(parsed: seq<(string, string)>, id: string): Option<string>
  {
    if parsed == [] then None
    else
      var last := parsed[|parsed| - 1];
      if last.0 == id then Some(last.1) else NameIn(parsed[..|parsed| - 1], id)
  }

  /** What parsing the file reports; nothing when it cannot be read or the parser cannot be set up. */
  function ParseOf(tools: Tools, file: File): seq<(string, string)>
  {
    if file.content.None? then []
    else
      var parsed := tools.parse(file.path, file.content.value);
      if parsed.Some? then parsed.value else []
  }

  /** Every parsed id has its symbol, and no other id is touched. */
  ghost predicate Adds(before: Symbols, after: Symbols, parsed: seq<(string, string)>, path: string, digest: string)
  {
    forall id :: var name := NameIn(parsed, id);
      if name.Some? then id in after && after[id] == Symbol(id, name.value, path, digest)
      else SameEntry(before, after, id)
  }

  ghost predicate SameEntry(before: Symbols, after: Symbols, id: string)
  {
    (id in after <==> id in before) && (id in after ==> after[id] == before[id])
  }

  lemma AddsOne(before: Symbols, after: Symbols, parsed: seq<(string, string)>, i: nat, path: string, digest: string)
    requires i < |parsed| && Adds(before, after, parsed[..i], path, digest)
    ensures var (id, name) := parsed[i];
            Adds(before, after[id := Symbol(id, name, path, digest)], parsed[..i + 1], path, digest)
  {
    assert parsed[..i + 1][..i] == parsed[..i];
  }

  function WithoutDigest(symbols: Symbols, digest: string): Symbols
  {
    map id | id in symbols && symbols[id].digest != digest :: symbols[id]
  }

  /** The symbols whose blob is held. */
  ghost function OfBlobs(symbols: Symbols, held: set<string>): Symbols
  {
    map id | id in symbols && symbols[id].digest in held :: symbols[id]
  }

  lemma OneBlobLess(symbols: Symbols, held: set<string>, d: string)
    ensures WithoutDigest(OfBlobs(symbols, held), d) == OfBlobs(symbols, held - {d})
  {
  }

  // ----------------------------------------------------------------- one file of a pass

  /** The anchors a file finds once a changed path has lost its old blob. */
  ghost function Loosened(a: Anchors, path: string, d: string): Anchors
  {
    if path in a.paths && a.paths[path] != d then Detached(a, path) else a
  }

  /** The file's blob is not held yet, so it is parsed. */
  ghost predicate IsNew(tools: Tools, a: Anchors, file: File)
    requires file.content.Some?
  {
    var d := tools.digestOf(file.content.value);
    d !in Loosened(a, file.path, d).bytes
  }

  /** The file's path showed the digest and shows another one now. */
  ghost predicate Drops(tools: Tools, a: Anchors, file: File, d: string)
  {
    file.content.Some? && file.path in a.paths && a.paths[file.path] == d && d != tools.digestOf(file.content.value)
  }

  /** What one file does to the symbols. */
  ghost predicate FileMoves(tools: Tools, a: Anchors, before: Symbols, file: File, after: Symbols)
    requires file.content.Some?
  {
    var d := tools.digestOf(file.content.value);
    var kept := if file.path in a.paths && a.paths[file.path] != d then WithoutDigest(before, a.paths[file.path])
                else before;
    if IsNew(tools, a, file) then Adds(kept, after, ParseOf(tools, file), file.path, d) else after == kept
  }

  // ---------------------------------------------------------------------- a whole pass

  /** The anchors a pass goes through, from `start` to `now`: `trail[i]` is what file `i` finds. */
  ghost predicate IsTrail(tools: Tools, start: Anchors, trail: seq<Anchors>, files: seq<File>, now: Anchors)
  {
    var all := trail + [now];
    && |trail| == |files| && all[0] == start
    && forall i: nat :: i < |files| ==> IsNext(tools, all[i], files[i], all[i + 1])
  }

  lemma TrailGrows(tools: Tools, start: Anchors, trail: seq<Anchors>, files: seq<File>, a: Anchors, file: File,
                   b: Anchors)
    requires IsTrail(tools, start, trail, files, a) && IsNext(tools, a, file, b)
    ensures IsTrail(tools, start, trail + [a], files + [file], b)
  {
    var all, more := trail + [a], trail + [a] + [b];
    forall i: nat | i < |files| + 1 ensures IsNext(tools, more[i], (files + [file])[i], more[i + 1]) {
      if i < |files| { assert IsNext(tools, all[i], files[i], all[i + 1]); }
    }
  }

  ghost predicate IsNext(tools: Tools, a: Anchors, file: File, b: Anchors)
  {
    && file.content.Some?
    && b == Indexed(a, file.path, tools.digestOf(file.content.value), file.content.value)
  }

  /** The file is parsed and reports the id. */
  ghost predicate Writes(tools: Tools, a: Anchors, file: File, id: string)
  {
    file.content.Some? && IsNew(tools, a, file) && NameIn(ParseOf(tools, file), id).Some?
  }

  /** The last parsed file that reports the id. */
  ghost predicate IsWriter(tools: Tools, trail: seq<Anchors>, files: seq<File>, i: nat, id: string)
    requires |trail| >= |files|
  {
    && i < |files| && Writes(tools, trail[i], files[i], id)
    && forall j: nat :: i < j < |files| ==> !Writes(tools, trail[j], files[j], id)
  }

  ghost predicate HasWriter(tools: Tools, trail: seq<Anchors>, files: seq<File>, id: string)
    requires |trail| >= |files|
  {
    exists i: nat :: i < |files| && Writes(tools, trail[i], files[i], id)
  }

  /** Some file of the pass dropped the digest from its path. */
  ghost predicate IsDropped(tools: Tools, trail: seq<Anchors>, files: seq<File>, d: string)
    requires |trail| >= |files|
  {
    exists i: nat :: i < |files| && Drops(tools, trail[i], files[i], d)
  }

  ghost function SymbolFrom(tools: Tools, file: File, id: string): Symbol
    requires file.content.Some? && NameIn(ParseOf(tools, file), id).Some?
  {
    Symbol(id, NameIn(ParseOf(tools, file), id).value, file.path, tools.digestOf(file.content.value))
  }

  /** An id some parsed file reports bears what the last such file says. */
  ghost predicate WritersWin(tools: Tools, trail: seq<Anchors>, files: seq<File>, after: Symbols)
    requires |trail| >= |files|
  {
    forall id, i: nat :: IsWriter(tools, trail, files, i, id) ==>
      id in after && after[id] == SymbolFrom(tools, files[i], id)
  }

  /** An id no parsed file reports is as it was, unless its blob was dropped. */
  ghost predicate OthersStand(tools: Tools, trail: seq<Anchors>, before: Symbols, files: seq<File>, after: Symbols)
    requires |trail| >= |files|
  {
    forall id :: !HasWriter(tools, trail, files, id) ==>
      && (id in after <==> id in before && !IsDropped(tools, trail, files, before[id].digest))
      && (id in after ==> after[id] == before[id])
  }

  // ------------------------------------------------------------------------ one step

  /** A file that neither drops the symbol's blob nor reports its id leaves it alone. */
  lemma EntryStands(tools: Tools, a: Anchors, before: Symbols, file: File, after: Symbols, id: string)
    requires file.content.Some? && FileMoves(tools, a, before, file, after) && id in before
    requires !Drops(tools, a, file, before[id].digest) && !Writes(tools, a, file, id)
    ensures id in after && after[id] == before[id]
  {
  }

  /** A file that does not report the id keeps it, if it was there and its blob is not dropped. */
  lemma EntryExactly(tools: Tools, a: Anchors, before: Symbols, file: File, after: Symbols, id: string)
    requires file.content.Some? && FileMoves(tools, a, before, file, after) && !Writes(tools, a, file, id)
    ensures id in after <==> id in before && !Drops(tools, a, file, before[id].digest)
    ensures id in after ==> after[id] == before[id]
  {
  }

  /** No file drops a digest that an earlier file of the pass has. */
  lemma SeenIsNotDropped(tools: Tools, prev: Anchors, seen: seq<File>, a: Anchors, file: File, i: nat)
    requires Readable(seen) && i < |seen| && Midway(tools, prev, seen, a) && file.content.Some?
    requires forall k :: 0 <= k < |seen| ==> seen[k].path != file.path
    ensures !Drops(tools, a, file, DigestAt(tools, seen, i))
  {
    var last := LastOccurrence(tools, seen, i);
    assert FileIsHeld(tools, seen, last, a);
  }

  lemma WritersWinStep(tools: Tools, prev: Anchors, trail: seq<Anchors>, files: seq<File>, a: Anchors, file: File,
                       mid: Symbols, after: Symbols)
    requires |trail| == |files| && Readable(files) && file.content.Some?
    requires forall k :: 0 <= k < |files| ==> files[k].path != file.path
    requires Midway(tools, prev, files, a) && WritersWin(tools, trail, files, mid)
    requires FileMoves(tools, a, mid, file, after)
    ensures WritersWin(tools, trail + [a], files + [file], after)
  {
    var trail', files' := trail + [a], files + [file];
    forall id, i: nat | IsWriter(tools, trail', files', i, id)
      ensures id in after && after[id] == SymbolFrom(tools, files'[i], id)
    {
      if i < |files| {
        assert !Writes(tools, trail'[|files|], files'[|files|], id);
        forall j: nat | i < j < |files| ensures !Writes(tools, trail[j], files[j], id) {
          assert !Writes(tools, trail'[j], files'[j], id);
        }
        assert IsWriter(tools, trail, files, i, id);
        SeenIsNotDropped(tools, prev, files, a, file, i);
        EntryStands(tools, a, mid, file, after, id);
      }
    }
  }

  lemma OthersStandStep(tools: Tools, trail: seq<Anchors>, before: Symbols, files: seq<File>, a: Anchors, file: File,
                        mid: Symbols, after: Symbols)
    requires |trail| == |files| && file.content.Some? && OthersStand(tools, trail, before, files, mid)
    requires FileMoves(tools, a, mid, file, after)
    ensures OthersStand(tools, trail + [a], before, files + [file], after)
  {
    var trail', files' := trail + [a], files + [file];
    forall id | !HasWriter(tools, trail', files', id)
      ensures id in after <==> id in before && !IsDropped(tools, trail', files', before[id].digest)
      ensures id in after ==> after[id] == before[id]
    {
      assert !Writes(tools, trail'[|files|], files'[|files|], id);
      forall i: nat | i < |files| ensures !Writes(tools, trail[i], files[i], id) {
        assert !Writes(tools, trail'[i], files'[i], id);
      }
      EntryExactly(tools, a, mid, file, after, id);
      if id in before { DroppedSplits(tools, trail, files, a, file, before[id].digest); }
    }
  }

  lemma DroppedSplits(tools: Tools, trail: seq<Anchors>, files: seq<File>, a: Anchors, file: File, d: string)
    requires |trail| == |files|
    ensures IsDropped(tools, trail + [a], files + [file], d) <==>
            IsDropped(tools, trail, files, d) || Drops(tools, a, file, d)
  {
    var trail', files' := trail + [a], files + [file];
    if i: nat :| i < |files| && Drops(tools, trail[i], files[i], d) {
      assert Drops(tools, trail'[i], files'[i], d);
    }
    if Drops(tools, a, file, d) { assert Drops(tools, trail'[|files|], files'[|files|], d); }
  }

  /** An id some parsed file reports has a last such file. */
  lemma {:induction false} LastWriter(tools: Tools, trail: seq<Anchors>, files: seq<File>, i: nat, id: string)
    returns (last: nat)
    requires |trail| >= |files| && i < |files| && Writes(tools, trail[i], files[i], id)
    ensures i <= last && IsWriter(tools, trail, files, last, id)
    decreases |files| - i
  {
    if IsWriter(tools, trail, files, i, id) {
      last := i;
    } else {
      var j: nat :| i < j < |files| && Writes(tools, trail[j], files[j], id);
      last := LastWriter(tools, trail, files, j, id);
    }
  }

  // -------------------------------------------------------------------------- counting

  ghost function CountProcessed(tools: Tools, trail: seq<Anchors>, files: seq<File>): nat
    requires |trail| >= |files|
  {
    if files == [] then 0
    else
      var last := |files| - 1;
      CountProcessed(tools, trail, files[..last])
      + if files[last].content.Some? && IsNew(tools, trail[last], files[last]) then 1 else 0
  }

  lemma CountNext(tools: Tools, trail: seq<Anchors>, files: seq<File>, a: Anchors, file: File)
    requires |trail| == |files| && file.content.Some?
    ensures CountProcessed(tools, trail + [a], files + [file])
              == CountProcessed(tools, trail, files) + if IsNew(tools, a, file) then 1 else 0
  {
    assert (files + [file])[..|files|] == files;
    CountPrefix(tools, trail, files, a);
  }

  lemma {:induction false} CountPrefix(tools: Tools, trail: seq<Anchors>, files: seq<File>, a: Anchors)
    requires |trail| >= |files|
    ensures CountProcessed(tools, trail + [a], files) == CountProcessed(tools, trail, files)
  {
    if files != [] { CountPrefix(tools, trail, files[..|files| - 1], a); }
  }

  ghost function BlobOf(tools: Tools, a: Anchors, file: File): Blob
    requires file.content.Some?
  {
    Blob(file.path, tools.digestOf(file.content.value), if IsNew(tools, a, file) then 1 else 0)
  }

  /** The blob of each held file names its path and says whether this pass parsed it. */
  ghost predicate BlobsTell(tools: Tools, trail: seq<Anchors>, files: seq<File>, blobs: map<string, Blob>)
    requires |trail| >= |files| && Readable(files)
  {
    forall i: nat :: IsLast(tools, files, i) ==>
      DigestAt(tools, files, i) in blobs && blobs[DigestAt(tools, files, i)] == BlobOf(tools, trail[i], files[i])
  }

  /** The file's blob is new or renewed, and no other changed. */
  ghost predicate BlobMoves(tools: Tools, a: Anchors, before: map<string, Blob>, file: File, after: map<string, Blob>)
    requires file.content.Some?
  {
    var d := tools.digestOf(file.content.value);
    && d in after && after[d] == BlobOf(tools, a, file)
    && forall e :: e in after && e != d ==> e in before && after[e] == before[e]
  }

  lemma BlobsTellStep(tools: Tools, prev: Anchors, trail: seq<Anchors>, files: seq<File>, a: Anchors, file: File,
                      before: map<string, Blob>, b: Anchors, after: map<string, Blob>)
    requires |trail| == |files| && Readable(files) && file.content.Some?
    requires BlobsTell(tools, trail, files, before) && BlobMoves(tools, a, before, file, after)
    requires Readable(files + [file]) && Midway(tools, prev, files + [file], b) && b.bytes.Keys == after.Keys
    ensures BlobsTell(tools, trail + [a], files + [file], after)
  {
    var files' := files + [file];
    forall i: nat | IsLast(tools, files', i)
      ensures DigestAt(tools, files', i) in after
      ensures after[DigestAt(tools, files', i)] == BlobOf(tools, (trail + [a])[i], files'[i])
    {
      assert FileIsHeld(tools, files', i, b);
      LastAfter(tools, files, file, i);
      if i < |files| { assert DigestAt(tools, files, i) == DigestAt(tools, files', i); }
    }
  }

  // ---------------------------------------------------------- the index as a pass sees it

  datatype Picture = Picture(anchors: Anchors, symbols: Symbols, blobs: map<string, Blob>)

  /** What one file does to an index. */
  ghost predicate FileStep(tools: Tools, p: Picture, file: File, q: Picture)
  {
    && IsNext(tools, p.anchors, file, q.anchors)
    && FileMoves(tools, p.anchors, p.symbols, file, q.symbols)
    && BlobMoves(tools, p.anchors, p.blobs, file, q.blobs)
  }

  /** The pass that began with `start` has met the files; `trail` is what each of them found. */
  ghost predicate SoFar(tools: Tools, start: Picture, trail: seq<Anchors>, files: seq<File>, now: Picture)
  {
    && Readable(files) && IsTrail(tools, start.anchors, trail, files, now.anchors)
    && Midway(tools, start.anchors, files, now.anchors)
    && WritersWin(tools, trail, files, now.symbols)
    && OthersStand(tools, trail, start.symbols, files, now.symbols)
    && BlobsTell(tools, trail, files, now.blobs)
  }

  lemma NothingYet(tools: Tools, start: Picture)
    requires Injective(start.anchors)
    ensures SoFar(tools, start, [], [], start)
  {
  }

  /** One more file. */
  lemma SoFarNext(tools: Tools, start: Picture, trail: seq<Anchors>, files: seq<File>, p: Picture, file: File,
                  q: Picture)
    requires SoFar(tools, start, trail, files, p) && FileStep(tools, p, file, q) && q.anchors.bytes.Keys == q.blobs.Keys
    requires forall k :: 0 <= k < |files| ==> files[k].path != file.path
    ensures SoFar(tools, start, trail + [p.anchors], files + [file], q)
  {
    TrailGrows(tools, start.anchors, trail, files, p.anchors, file, q.anchors);
    MidwayStep(tools, start.anchors, files, p.anchors, file);
    WritersWinStep(tools, start.anchors, trail, files, p.anchors, file, p.symbols, q.symbols);
    OthersStandStep(tools, trail, start.symbols, files, p.anchors, file, p.symbols, q.symbols);
    BlobsTellStep(tools, start.anchors, trail, files, p.anchors, file, p.blobs, q.anchors, q.blobs);
  }

  /** The next file of a traversal of distinct paths. */
  lemma PassNext(tools: Tools, start: Picture, trail: seq<Anchors>, files: seq<File>, i: nat, p: Picture, q: Picture)
    requires i < |files| && DistinctPaths(files) && SoFar(tools, start, trail, files[..i], p)
    requires FileStep(tools, p, files[i], q) && q.anchors.bytes.Keys == q.blobs.Keys
    ensures SoFar(tools, start, trail + [p.anchors], files[..i + 1], q)
    ensures CountProcessed(tools, trail + [p.anchors], files[..i + 1])
              == CountProcessed(tools, trail, files[..i]) + if IsNew(tools, p.anchors, files[i]) then 1 else 0
  {
    assert files[..i] + [files[i]] == files[..i + 1];
    SoFarNext(tools, start, trail, files[..i], p, files[i], q);
    CountNext(tools, trail, files[..i], p.anchors, files[i]);
  }

  // ---------------------------------------------------------------------- the theorem

  /** An old symbol that no parsed file reports is there exactly when its blob was neither dropped nor evicted. */
  ghost predicate OthersSurvive(tools: Tools, trail: seq<Anchors>, before: Symbols, files: seq<File>,
                                held: set<string>, after: Symbols)
    requires |trail| >= |files|
  {
    forall id :: !HasWriter(tools, trail, files, id) ==>
      && (id in after <==>
            id in before && !IsDropped(tools, trail, files, before[id].digest) && before[id].digest in held)
      && (id in after ==> after[id] == before[id])
  }

  /**
  What a whole pass leaves: exactly the tree; of each held file, the blob with
  its parse count; for every id a parsed file reports, what the last of them
  says; and every other symbol whose blob survived.
   */
  ghost predicate IsPass(tools: Tools, start: Picture, trail: seq<Anchors>, files: seq<File>, end: Picture)
  {
    && Readable(files) && (exists now :: IsTrail(tools, start.anchors, trail, files, now))
    && Holds(tools, files, end.anchors)
    && WritersWin(tools, trail, files, end.symbols)
    && OthersSurvive(tools, trail, start.symbols, files, end.anchors.bytes.Keys, end.symbols)
    && BlobsTell(tools, trail, files, end.blobs)
  }

  ghost predicate IsEvicted(p: Picture, keep: set<string>, q: Picture)
  {
    && IsEviction(p.anchors, keep, q.anchors) && q.symbols == OfBlobs(p.symbols, q.anchors.bytes.Keys)
    && forall d :: d in q.blobs ==> d in p.blobs && q.blobs[d] == p.blobs[d]
  }

  lemma EvictNone(p: Picture, keep: set<string>)
    requires p.anchors.paths.Keys <= keep && forall id :: id in p.symbols ==> p.symbols[id].digest in p.anchors.bytes
    ensures IsEvicted(p, keep, p)
  {
    assert p.symbols == OfBlobs(p.symbols, p.anchors.bytes.Keys);
  }

  lemma EvictOne(start: Picture, keep: set<string>, p: Picture, path: string, q: Picture)
    requires IsEvicted(start, keep + {path}, p) && path !in keep && path in p.anchors.paths
    requires q.anchors == Detached(p.anchors, path) && q.blobs == p.blobs - {p.anchors.paths[path]}
    requires q.symbols == WithoutDigest(p.symbols, p.anchors.paths[path])
    ensures IsEvicted(start, keep, q)
  {
    OneBlobLess(start.symbols, p.anchors.bytes.Keys, p.anchors.paths[path]);
    assert q.anchors.bytes.Keys == p.anchors.bytes.Keys - {p.anchors.paths[path]};
  }

  lemma EvictedBlobs(tools: Tools, trail: seq<Anchors>, files: seq<File>, p: Picture, q: Picture)
    requires |trail| == |files| && Readable(files) && BlobsTell(tools, trail, files, p.blobs)
    requires Holds(tools, files, q.anchors) && q.anchors.bytes.Keys == q.blobs.Keys
    requires forall d :: d in q.blobs ==> d in p.blobs && q.blobs[d] == p.blobs[d]
    ensures BlobsTell(tools, trail, files, q.blobs)
  {
    forall i: nat | IsLast(tools, files, i) ensures DigestAt(tools, files, i) in q.blobs {
      assert FileIsHeld(tools, files, i, q.anchors);
    }
  }

  /** No file of the tree is evicted, so what it wrote stays. */
  lemma EvictedWriters(tools: Tools, trail: seq<Anchors>, files: seq<File>, mid: Symbols, a: Anchors)
    requires |trail| == |files| && Readable(files) && WritersWin(tools, trail, files, mid) && Holds(tools, files, a)
    ensures WritersWin(tools, trail, files, OfBlobs(mid, a.bytes.Keys))
  {
    forall id, i: nat | IsWriter(tools, trail, files, i, id) ensures DigestAt(tools, files, i) in a.bytes {
      var last := EveryDigestIsStored(tools, files, a, i);
    }
  }

  /** Eviction ends the pass. */
  lemma PassEnds(tools: Tools, start: Picture, trail: seq<Anchors>, files: seq<File>, p: Picture, q: Picture)
    requires SoFar(tools, start, trail, files, p) && IsEvicted(p, PathsOf(files), q)
    requires Injective(q.anchors) && q.anchors.bytes.Keys == q.blobs.Keys
    ensures IsPass(tools, start, trail, files, q)
  {
    EvictionCompletes(tools, start.anchors, files, p.anchors, q.anchors);
    EvictedWriters(tools, trail, files, p.symbols, q.anchors);
    EvictedBlobs(tools, trail, files, p, q);
  }

  /** Every id that a parsed file of the pass reports is there at the end, and the last such file wrote it. */
  lemma ParsedIsPresent(tools: Tools, start: Picture, trail: seq<Anchors>, files: seq<File>, end: Picture, i: nat,
                        id: string)
    returns (last: nat)
    requires IsPass(tools, start, trail, files, end) && i < |files| && Writes(tools, trail[i], files[i], id)
    ensures i <= last && IsWriter(tools, trail, files, last, id)
    ensures id in end.symbols && end.symbols[id] == SymbolFrom(tools, files[last], id)
  {
    last := LastWriter(tools, trail, files, i, id);
  }

  // -------------------------------------------------------------------- where they come from

  /** The symbol was parsed under its path from a content of its digest. */
  ghost predicate IsParsed(tools: Tools, symbol: Symbol)
  {
    exists content :: IsParsedFrom(tools, symbol, content)
  }

  ghost predicate IsParsedFrom(tools: Tools, symbol: Symbol, content: Content)
  {
    && tools.digestOf(content) == symbol.digest
    && NameIn(ParseOf(tools, File(symbol.path, Some(content))), symbol.id) == Some(symbol.name)
  }

  /** No two contents share a digest. */
  ghost predicate DigestsDiffer(tools: Tools)
  {
    forall x, y :: tools.digestOf(x) == tools.digestOf(y) ==> x == y
  }

  lemma AddedIsParsed(tools: Tools, before: Symbols, after: Symbols, path: string, content: Content)
    requires forall id :: id in before ==> before[id].id == id && IsParsed(tools, before[id])
    requires Adds(before, after, ParseOf(tools, File(path, Some(content))), path, tools.digestOf(content))
    ensures forall id :: id in after ==> after[id].id == id && IsParsed(tools, after[id])
  {
    forall id | id in after ensures after[id].id == id && IsParsed(tools, after[id]) {
      if NameIn(ParseOf(tools, File(path, Some(content))), id).Some? {
        assert IsParsedFrom(tools, after[id], content);
      } else {
        assert SameEntry(before, after, id);
      }
    }
  }
}
