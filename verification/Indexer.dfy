/**
The index as an object that is updated in place, and the indexer that works
on a copy and publishes it only when the whole pass succeeded.
 */
module Indexer {
  import opened Wrappers
  import opened ContextIndex
  import opened IndexSymbols

  ghost predicate HasBytes(symbols: map<string, Symbol>, bytes: map<string, Content>)
  {
    forall id :: id in symbols ==> symbols[id].digest in bytes
  }

  /** A textual occurrence of an indexed symbol in its own blob. */
  ghost predicate IsReference(tools: Tools, symbols: map<string, Symbol>, blobs: map<string, Blob>,
                              bytes: map<string, Content>, r: Reference)
    requires HasBytes(symbols, bytes) && blobs.Keys == bytes.Keys
  {
    && r.target in symbols && r.digest == symbols[r.target].digest && r.path == blobs[symbols[r.target].digest].path
    && r.at in tools.occurrences(symbols[r.target], bytes[symbols[r.target].digest])
  }

  /** One indexed symbol's body mentions another. */
  ghost predicate IsCall(tools: Tools, symbols: map<string, Symbol>, bytes: map<string, Content>, c: Call)
    requires HasBytes(symbols, bytes)
  {
    && c.caller in symbols && c.callee in symbols && c.caller != c.callee
    && tools.mentions(symbols[c.caller], symbols[c.callee], bytes[symbols[c.caller].digest])
  }

  method AllReferences(tools: Tools, symbols: map<string, Symbol>, blobs: map<string, Blob>,
                       bytes: map<string, Content>)
    returns (references: set<Reference>)
    requires HasBytes(symbols, bytes) && blobs.Keys == bytes.Keys
    ensures forall r :: r in references <==> IsReference(tools, symbols, blobs, bytes, r)
  {
    references := {};
    var left := symbols.Keys;
    while left != {}
      invariant left <= symbols.Keys
      invariant forall r :: r in references <==> IsReference(tools, symbols, blobs, bytes, r) && r.target !in left
      decreases |left|
    {
      var id :| id in left;
      left := left - {id};
      var digest := symbols[id].digest;
      var found := tools.occurrences(symbols[id], bytes[digest]);
      var more := set at | at in found :: Reference(id, blobs[digest].path, digest, at);
      assert forall r :: r in more <==> IsReference(tools, symbols, blobs, bytes, r) && r.target == id;
      references := references + more;
    }
  }

  method AllCalls(tools: Tools, symbols: map<string, Symbol>, bytes: map<string, Content>) returns (calls: set<Call>)
    requires HasBytes(symbols, bytes)
    ensures forall c :: c in calls <==> IsCall(tools, symbols, bytes, c)
  {
    calls := {};
    var left := symbols.Keys;
    while left != {}
      invariant left <= symbols.Keys
      invariant forall c :: c in calls <==> IsCall(tools, symbols, bytes, c) && c.caller !in left
      decreases |left|
    {
      var id :| id in left;
      left := left - {id};
      var content := bytes[symbols[id].digest];
      var more := set callee | callee in symbols && callee != id
                               && tools.mentions(symbols[id], symbols[callee], content)
                             :: Call(id, callee);
      assert forall c :: c in more <==> IsCall(tools, symbols, bytes, c) && c.caller == id;
      calls := calls + more;
    }
  }

  /** The path maps to the digest, and no other path does. */
  ghost function Reassociated(paths: map<string, string>, path: string, digest: string): map<string, string>
  {
    (map q | q in paths && (paths[q] != digest || q == path) :: paths[q])[path := digest]
  }

  /** The file can be read and the parser can be set up for it. */
  ghost predicate FileParses(tools: Tools, file: File)
  {
    file.content.Some? && tools.parse(file.path, file.content.value).Some?
  }

  ghost predicate AllParse(tools: Tools, files: seq<File>)
  {
    forall i :: 0 <= i < |files| ==> FileParses(tools, files[i])
  }

  class Index {
    const tools: Tools
    var blobs: map<string, Blob>
    var bytes: map<string, Content>
    var paths: map<string, string>
    var symbols: map<string, Symbol>
    var references: set<Reference>
    var calls: set<Call>

    ghost function View(): Anchors reads this { Anchors(paths, bytes) }

    ghost function Seen(): Picture reads this { Picture(View(), symbols, blobs) }

    /** Each blob is anchored at the one path that maps to its digest. */
    ghost predicate BlobsAreAnchored()
      reads this
    {
      && blobs.Keys == bytes.Keys
      && (forall d :: d in blobs ==> blobs[d].digest == d && blobs[d].path in paths && paths[blobs[d].path] == d)
      && (forall p :: p in paths ==> paths[p] in blobs && blobs[paths[p]].path == p)
    }

    /** Symbols and references belong to live blobs, and calls join indexed symbols. */
    ghost predicate RecordsAreLive()
      reads this
    {
      && (forall id :: id in symbols ==> symbols[id].id == id && symbols[id].digest in blobs)
      && (forall r :: r in references ==> r.digest in blobs)
      && (forall c :: c in calls ==> c.caller in symbols && c.callee in symbols)
    }

    /** Every digest is that of its bytes, and every symbol was parsed from a content of its digest. */
    ghost predicate RecordsAreSound()
      reads this
    {
      && (forall d :: d in bytes ==> tools.digestOf(bytes[d]) == d)
      && (forall id :: id in symbols ==> symbols[id].id == id && IsParsed(tools, symbols[id]))
    }

    ghost predicate Valid() reads this { BlobsAreAnchored() && RecordsAreLive() && RecordsAreSound() }

    /** Where digests tell contents apart, every symbol comes from the very bytes held for its digest. */
    lemma SymbolsComeFromBytes(id: string)
      requires Valid() && DigestsDiffer(tools) && id in symbols
      ensures symbols[id].digest in bytes && IsParsedFrom(tools, symbols[id], bytes[symbols[id].digest])
    {
      var content :| IsParsedFrom(tools, symbols[id], content);
      assert content == bytes[symbols[id].digest];
    }

    lemma AnchorsAreInjective()
      requires BlobsAreAnchored()
      ensures Injective(View())
    {
      forall d | d in bytes ensures IsAnchored(View(), d) {
        assert d in blobs && blobs[d].path in paths && paths[blobs[d].path] == d;
      }
    }

    constructor (tools: Tools)
      ensures Valid() && this.tools == tools && View() == Anchors(map[], map[]) && symbols == map[]
    {
      this.tools := tools;
      blobs, bytes, paths, symbols, references, calls := map[], map[], map[], map[], {}, {};
    }

    constructor Clone(other: Index)
      requires other.Valid()
      ensures Valid() && tools == other.tools && Seen() == other.Seen()
    {
      tools := other.tools;
      blobs, bytes, paths := other.blobs, other.bytes, other.paths;
      symbols, references, calls := other.symbols, other.references, other.calls;
    }

    /** Drops the symbols and references of a digest, and the calls that lose an end. */
    method PurgeRecords(digest: string)
      modifies this`symbols, this`references, this`calls
      ensures symbols == WithoutDigest(old(symbols), digest)
      ensures references == set r | r in old(references) && r.digest != digest
      ensures calls == set c | c in old(calls) && c.caller in symbols && c.callee in symbols
    {
      symbols := map id | id in symbols && symbols[id].digest != digest :: symbols[id];
      references := set r | r in references && r.digest != digest;
      calls := set c | c in calls && c.caller in symbols && c.callee in symbols;
    }

    /** Drops everything derived from a digest that no path anchors any more. */
    method PurgeDigestData(digest: string)
      requires RecordsAreLive() && blobs.Keys == bytes.Keys
      modifies this
      ensures RecordsAreLive() && paths == old(paths)
      ensures blobs == old(blobs) - {digest} && bytes == old(bytes) - {digest}
      ensures symbols == WithoutDigest(old(symbols), digest)
      ensures references == set r | r in old(references) && r.digest != digest
      ensures calls == set c | c in old(calls) && c.caller in symbols && c.callee in symbols
    {
      PurgeRecords(digest);
      bytes := bytes - {digest};
      blobs := blobs - {digest};
    }

    /** Under the anchoring no second path shows the same digest. */
    lemma DigestIsNotShared(path: string)
      requires BlobsAreAnchored() && path in paths
      ensures forall q :: q in paths && q != path ==> paths[q] != paths[path]
    {
      assert blobs[paths[path]].path == path;
    }

    /** Detaches a path; its blob goes with the last path that shows it. */
    method RemovePath(path: string)
      requires Valid()
      modifies this
      ensures Valid() && View() == Detached(old(View()), path)
      ensures blobs == if path in old(paths) then old(blobs) - {old(paths)[path]} else old(blobs)
      ensures symbols == if path in old(paths) then WithoutDigest(old(symbols), old(paths)[path]) else old(symbols)
    {
      if path in paths {
        DigestIsNotShared(path);
        var digest := paths[path];
        paths := paths - {path};
        if !exists q :: q in paths && paths[q] == digest { PurgeDigestData(digest); }
      }
    }

    /** Makes the path the one anchor of the digest: every other path that shows it goes. */
    method ReassociatePath(path: string, digest: string)
      modifies this`paths
      ensures paths == Reassociated(old(paths), path, digest)
    {
      var stale := set q | q in paths && paths[q] == digest && q != path;
      ghost var all := stale;
      while stale != {}
        invariant stale <= all
        invariant paths == map q | q in old(paths) && q !in all - stale :: old(paths)[q]
        decreases |stale|
      {
        var entry :| entry in stale;
        stale := stale - {entry};
        paths := paths - {entry};
      }
      paths := paths[path := digest];
    }

    /** Decides whether a file needs parsing; a path whose content changed loses its old blob first. */
    method ClassifyAge(path: string, digest: string, report: Report) returns (reused: bool, next: Report)
      requires Valid()
      modifies this
      ensures Valid()
      ensures View() == Loosened(old(View()), path, digest)
      ensures forall e :: e in blobs ==> e in old(blobs) && blobs[e] == old(blobs)[e]
      ensures symbols == if path in old(paths) && old(paths)[path] != digest
                         then WithoutDigest(old(symbols), old(paths)[path]) else old(symbols)
      ensures reused == (digest in blobs)
      ensures next == if reused
                      then report.(skipped := report.skipped + 1) else report.(processed := report.processed + 1)
    {
      if path in paths && paths[path] == digest {
        return true, report.(skipped := report.skipped + 1);
      }
      if path in paths { RemovePath(path); }
      if digest in blobs {
        return true, report.(skipped := report.skipped + 1);
      }
      return false, report.(processed := report.processed + 1);
    }

    /** Stores the blob under its digest and makes the path its one anchor. */
    method AnchorBlob(path: string, content: Content, digest: string, reused: bool)
      requires Valid() && reused == (digest in blobs) && (path in paths ==> paths[path] == digest)
      requires digest == tools.digestOf(content)
      modifies this
      ensures Valid() && View() == Anchored(old(View()), path, digest, content) && symbols == old(symbols)
      ensures blobs == old(blobs)[digest := Blob(path, digest, if reused then 0 else 1)]
    {
      bytes := bytes[digest := content];
      blobs := blobs[digest := Blob(path, digest, if reused then 0 else 1)];
      ReassociatePath(path, digest);
      assert RecordsAreLive();
      assert BlobsAreAnchored();
    }

    /** Stores the blob under its digest, re-anchors the path and parses a blob that is new. */
    method UpsertBlob(path: string, content: Content, digest: string, reused: bool) returns (ok: bool)
      requires Valid() && reused == (digest in blobs) && (path in paths ==> paths[path] == digest)
      requires digest == tools.digestOf(content)
      modifies this
      ensures Valid() && View() == Anchored(old(View()), path, digest, content)
      ensures blobs == old(blobs)[digest := Blob(path, digest, if reused then 0 else 1)]
      ensures if reused || !ok then symbols == old(symbols)
              else Adds(old(symbols), symbols, ParseOf(tools, File(path, Some(content))), path, digest)
      ensures ok == (reused || tools.parse(path, content).Some?)
    {
      AnchorBlob(path, content, digest, reused);
      ok := true;
      if !reused { ok := ParseBlob(path, content, digest); }
    }

    /** Adds the symbols of a parsed blob, the last one of an id winning; a failed parser setup adds none. */
    method ParseBlob(path: string, content: Content, digest: string) returns (ok: bool)
      requires Valid() && digest in blobs && digest == tools.digestOf(content)
      modifies this`symbols
      ensures Valid() && ok == tools.parse(path, content).Some?
      ensures Adds(old(symbols), symbols, ParseOf(tools, File(path, Some(content))), path, digest)
      ensures !ok ==> symbols == old(symbols)
    {
      var parsed := tools.parse(path, content);
      if parsed.None? { return false; }
      for i := 0 to |parsed.value|
        invariant RecordsAreLive() && Adds(old(symbols), symbols, parsed.value[..i], path, digest)
      {
        var (id, name) := parsed.value[i];
        AddsOne(old(symbols), symbols, parsed.value, i, path, digest);
        symbols := symbols[id := Symbol(id, name, path, digest)];
      }
      assert parsed.value[..|parsed.value|] == parsed.value;
      AddedIsParsed(tools, old(symbols), symbols, path, content);
      return true;
    }

    /** One traversed file; an unreadable one or a failed parse ends the pass. */
    method IndexPath(file: File, report: Report) returns (ok: bool, next: Report)
      requires Valid() && report.observed == report.processed + report.skipped
      modifies this
      ensures ok ==> Valid() && FileStep(tools, old(Seen()), file, Seen())
      ensures ok ==> next.observed == report.observed + 1 == next.processed + next.skipped
      ensures ok ==> next.processed == report.processed + if IsNew(tools, old(View()), file) then 1 else 0
      ensures FileParses(tools, file) ==> ok
    {
      if file.content.None? { return false, report; }
      var content := file.content.value;
      var digest := tools.digestOf(content);
      var reused;
      reused, next := ClassifyAge(file.path, digest, report.(observed := report.observed + 1));
      ok := UpsertBlob(file.path, content, digest, reused);
    }

    /** Removes every path the traversal did not meet. */
    method EvictOrphanedPaths(keep: set<string>)
      requires Valid()
      modifies this
      ensures Valid() && IsEvicted(old(Seen()), keep, Seen())
    {
      ghost var start := Seen();
      var removed := paths.Keys - keep;
      NothingEvicted(keep + removed);
      while removed != {}
        invariant Valid() && removed <= paths.Keys && removed !! keep
        invariant IsEvicted(start, keep + removed, Seen())
        decreases removed
      {
        var path :| path in removed;
        EvictPath(start, keep, removed, path);
        removed := removed - {path};
      }
      assert keep + removed == keep;
    }

    lemma NothingEvicted(keep: set<string>)
      requires Valid() && paths.Keys <= keep
      ensures IsEvicted(Seen(), keep, Seen())
    {
      EvictNone(Seen(), keep);
    }

    /** One path of those to be removed goes. */
    method EvictPath(ghost start: Picture, ghost keep: set<string>, ghost removed: set<string>, path: string)
      requires Valid() && path in removed && removed <= paths.Keys && removed !! keep
      requires IsEvicted(start, keep + removed, Seen())
      modifies this
      ensures Valid() && removed - {path} <= paths.Keys && IsEvicted(start, keep + (removed - {path}), Seen())
    {
      ghost var before, rest := Seen(), keep + (removed - {path});
      assert keep + removed == rest + {path};
      RemovePath(path);
      EvictOne(start, rest, before, path, Seen());
    }

    /** References and calls are exactly what the current symbols and bytes give rise to. */
    ghost predicate RecordsAreCurrent()
      requires Valid()
      reads this
    {
      && (forall r :: r in references <==> IsReference(tools, symbols, blobs, bytes, r))
      && (forall c :: c in calls <==> IsCall(tools, symbols, bytes, c))
    }

    method RebuildReferencesAndCalls()
      requires Valid()
      modifies this`references, this`calls
      ensures Valid() && RecordsAreCurrent() && Seen() == old(Seen())
    {
      references := AllReferences(tools, symbols, blobs, bytes);
      calls := AllCalls(tools, symbols, bytes);
    }

    /** The next file of a traversal. */
    method IndexNext(ghost start: Picture, ghost trail: seq<Anchors>, files: seq<File>, i: nat, totals: Report)
      returns (ok: bool, next: Report, ghost longer: seq<Anchors>)
      requires Valid() && i < |files| && DistinctPaths(files) && SoFar(tools, start, trail, files[..i], Seen())
      requires totals.observed == i == totals.processed + totals.skipped
      requires totals.processed == CountProcessed(tools, trail, files[..i])
      modifies this
      ensures ok ==> Valid() && SoFar(tools, start, longer, files[..i + 1], Seen())
      ensures ok ==> next.observed == i + 1 == next.processed + next.skipped
      ensures ok ==> next.processed == CountProcessed(tools, longer, files[..i + 1])
      ensures FileParses(tools, files[i]) ==> ok
    {
      ghost var before := Seen();
      longer := trail + [before.anchors];
      ok, next := IndexPath(files[i], totals);
      if ok { PassNext(tools, start, trail, files, i, before, Seen()); }
    }

    /** Indexes a whole traversal of distinct paths in place, or stops at the first failure. */
    method IndexFiles(files: seq<File>) returns (ok: bool, totals: Report, ghost trail: seq<Anchors>)
      requires Valid() && DistinctPaths(files)
      modifies this
      ensures ok ==> Valid() && SoFar(tools, old(Seen()), trail, files, Seen())
      ensures ok ==> totals.observed == |files| == totals.processed + totals.skipped
      ensures ok ==> totals.processed == CountProcessed(tools, trail, files)
      ensures AllParse(tools, files) ==> ok
    {
      ok, totals, trail := true, Report(0, 0, 0), [];
      ghost var start := Seen();
      AnchorsAreInjective();
      NothingYet(tools, start);
      for i := 0 to |files|
        invariant Valid() && SoFar(tools, start, trail, files[..i], Seen())
        invariant totals.observed == i == totals.processed + totals.skipped
        invariant totals.processed == CountProcessed(tools, trail, files[..i])
      {
        ok, totals, trail := IndexNext(start, trail, files, i, totals);
        if !ok { return; }
      }
      ok := true;
      assert files[..|files|] == files;
    }

    /** Evicts what was not traversed. */
    method EndPass(ghost start: Picture, ghost trail: seq<Anchors>, files: seq<File>)
      requires Valid() && SoFar(tools, start, trail, files, Seen())
      modifies this
      ensures Valid() && IsPass(tools, start, trail, files, Seen())
    {
      ghost var before := Seen();
      EvictOrphanedPaths(PathsOf(files));
      AnchorsAreInjective();
      PassEnds(tools, start, trail, files, before, Seen());
    }

    /** A whole pass: index, evict what was not traversed, rebuild the derived records. */
    method IndexTree(files: seq<File>) returns (ok: bool, totals: Report, ghost trail: seq<Anchors>)
      requires Valid() && DistinctPaths(files)
      modifies this
      ensures ok ==> Valid() && RecordsAreCurrent() && IsPass(tools, old(Seen()), trail, files, Seen())
      ensures ok ==> totals.observed == |files| == totals.processed + totals.skipped
      ensures ok ==> totals.processed == CountProcessed(tools, trail, files)
      ensures AllParse(tools, files) ==> ok
    {
      ghost var start := Seen();
      ok, totals, trail := IndexFiles(files);
      if !ok { return; }
      EndPass(start, trail, files);
      RebuildReferencesAndCalls();
    }
  }

  class RepositoryIndexer {
    var index: Index

    constructor (tools: Tools)
      ensures fresh(index) && index.Valid() && index.tools == tools && index.View() == Anchors(map[], map[])
    {
      index := new Index(tools);
    }

    /**
    Indexes a traversal of distinct paths. On success the path map and the
    source bytes are those of a fresh index of this tree, whatever the index
    held before; on failure nothing is published.
     */
    method IndexRepository(traversal: Option<seq<File>>) returns (report: Option<Report>, ghost trail: seq<Anchors>)
      requires index.Valid() && (traversal.Some? ==> DistinctPaths(traversal.value))
      modifies this
      ensures report.None? ==> index == old(index)
      ensures report.Some? ==>
                traversal.Some? && Readable(traversal.value) && fresh(index) && index.tools == old(index.tools)
      ensures report.Some? ==>
                index.Valid() && index.RecordsAreCurrent() && Holds(index.tools, traversal.value, index.View())
      ensures report.Some? ==>
                report.value.observed == |traversal.value| == report.value.processed + report.value.skipped
      ensures report.Some? ==>
                && IsPass(index.tools, old(index.Seen()), trail, traversal.value, index.Seen())
                && report.value.processed == CountProcessed(index.tools, trail, traversal.value)
      ensures traversal.Some? && AllParse(old(index.tools), traversal.value) ==> report.Some?
    {
      report, trail := None, [];
      if traversal.None? { return; }
      var next := new Index.Clone(index);
      var ok, totals;
      ok, totals, trail := next.IndexTree(traversal.value);
      if !ok { return; }
      index := next;
      report := Some(totals);
    }
  }

  /**
  Indexes a list of trees one after the other with one indexer, and the last
  tree alone with a fresh one. Whatever the earlier trees were and whether or
  not their passes succeeded, if both passes over the last tree succeed the two
  indexes agree on the path map and on the source bytes; and both succeed when
  every file of that tree is readable and parses.
   */
  method CompareWithFresh(tools: Tools, trees: seq<seq<File>>) returns (used: Index, anew: Index, succeeded: bool)
    requires trees != [] && forall i :: 0 <= i < |trees| ==> DistinctPaths(trees[i])
    ensures succeeded ==> used.View() == anew.View() && Readable(trees[|trees| - 1])
    ensures succeeded ==> Holds(tools, trees[|trees| - 1], used.View())
    ensures AllParse(tools, trees[|trees| - 1]) ==> succeeded
  {
    var indexer := new RepositoryIndexer(tools);
    var report := None;
    for i := 0 to |trees|
      invariant fresh(indexer) && indexer.index.Valid() && indexer.index.tools == tools
      invariant i > 0 && report.Some? ==>
                  Readable(trees[i - 1]) && Holds(tools, trees[i - 1], indexer.index.View())
      invariant i > 0 && AllParse(tools, trees[i - 1]) ==> report.Some?
    {
      ghost var trail;
      report, trail := indexer.IndexRepository(Some(trees[i]));
    }
    var last := trees[|trees| - 1];
    var other := new RepositoryIndexer(tools);
    var alone;
    ghost var trail;
    alone, trail := other.IndexRepository(Some(last));
    used, anew, succeeded := indexer.index, other.index, report.Some? && alone.Some?;
    if succeeded { HoldsIsUnique(tools, last, used.View(), anew.View()); }
  }
}
