/**
The incremental, content-addressed repository index. Blobs are keyed by
digest, each digest is anchored at one path, and a later pass reuses what it
already holds. The digest, the parser and the text searches are parameters.
 */
module ContextIndex {
  import opened Wrappers

  type Content = seq<byte>

  /** A traversed file; `None` is a file that could not be read. */
  datatype File = File(path: string, content: Option<Content>)

  datatype Symbol = Symbol(id: string, name: string, path: string, digest: string)

  datatype Blob = Blob(path: string, digest: string, processCount: nat)

  datatype Reference = Reference(target: string, path: string, digest: string, at: nat)

  datatype Call = Call(caller: string, callee: string)

  datatype Report = Report(observed: nat, processed: nat, skipped: nat)

  /** What the index is not about: hashing, parsing (`None` is a failed setup) and text search. */
  datatype Tools = Tools(
    digestOf: Content -> string,
    parse: (string, Content) -> Option<seq<(string, string)>>,
    occurrences: (Symbol, Content) -> seq<nat>,
    mentions: (Symbol, Symbol, Content) -> bool)

  // ------------------------------------------------------- what an index must hold

  ghost predicate Readable(files: seq<File>)
  {
    forall i :: 0 <= i < |files| ==> files[i].content.Some?
  }

  ghost predicate DistinctPaths(files: seq<File>)
  {
    forall i, j :: 0 <= i < j < |files| ==> files[i].path != files[j].path
  }

  ghost function DigestAt(tools: Tools, files: seq<File>, i: nat): string
    requires i < |files| && Readable(files)
  {
    tools.digestOf(files[i].content.value)
  }

  /** No later file has the same digest. */
  ghost predicate IsLast(tools: Tools, files: seq<File>, i: nat)
    requires Readable(files)
  {
    i < |files| && forall j :: i < j < |files| ==> DigestAt(tools, files, j) != DigestAt(tools, files, i)
  }

  /** The path map and the source bytes, without the records derived from them. */
  datatype Anchors = Anchors(paths: map<string, string>, bytes: map<string, Content>)

  /** File `i` is anchored under its digest with its own bytes. */
  ghost predicate FileIsHeld(tools: Tools, files: seq<File>, i: nat, a: Anchors)
    requires i < |files| && Readable(files)
  {
    var d := DigestAt(tools, files, i);
    && files[i].path in a.paths && a.paths[files[i].path] == d
    && d in a.bytes && a.bytes[d] == files[i].content.value
  }

  /** Path `p` is that of the last file with digest `d`. */
  ghost predicate IsHeld(tools: Tools, files: seq<File>, p: string, d: string)
    requires Readable(files)
  {
    exists i: nat :: IsLast(tools, files, i) && files[i].path == p && d == DigestAt(tools, files, i)
  }

  /** Every stored digest has a path. */
  ghost predicate IsAnchored(a: Anchors, d: string) { exists p :: p in a.paths && a.paths[p] == d }

  /** Exactly the last file of each digest is anchored, with its own bytes. */
  ghost predicate Holds(tools: Tools, files: seq<File>, a: Anchors)
    requires Readable(files)
  {
    && (forall i: nat :: IsLast(tools, files, i) ==> FileIsHeld(tools, files, i, a))
    && (forall p :: p in a.paths ==> IsHeld(tools, files, p, a.paths[p]))
    && (forall d :: d in a.bytes ==> IsAnchored(a, d))
  }

  lemma {:induction false} LastOccurrence(tools: Tools, files: seq<File>, i: nat) returns (last: nat)
    requires Readable(files) && i < |files|
    ensures i <= last && IsLast(tools, files, last) && DigestAt(tools, files, last) == DigestAt(tools, files, i)
    decreases |files| - i
  {
    if IsLast(tools, files, i) {
      last := i;
    } else {
      var j :| i < j < |files| && DigestAt(tools, files, j) == DigestAt(tools, files, i);
      last := LastOccurrence(tools, files, j);
    }
  }

  /** Every traversed digest is stored, with the bytes of the last file that has it. */
  lemma EveryDigestIsStored(tools: Tools, files: seq<File>, a: Anchors, i: nat) returns (last: nat)
    requires Readable(files) && Holds(tools, files, a) && i < |files|
    ensures i <= last && IsLast(tools, files, last) && DigestAt(tools, files, last) == DigestAt(tools, files, i)
    ensures FileIsHeld(tools, files, last, a)
  {
    last := LastOccurrence(tools, files, i);
  }

  lemma PathsAgree(tools: Tools, files: seq<File>, a: Anchors, b: Anchors, p: string)
    requires Readable(files) && Holds(tools, files, a) && Holds(tools, files, b) && p in a.paths
    ensures p in b.paths && b.paths[p] == a.paths[p]
    ensures a.paths[p] in a.bytes && a.paths[p] in b.bytes && a.bytes[a.paths[p]] == b.bytes[a.paths[p]]
  {
    assert IsHeld(tools, files, p, a.paths[p]);
    var i: nat :| IsLast(tools, files, i) && files[i].path == p && a.paths[p] == DigestAt(tools, files, i);
    assert FileIsHeld(tools, files, i, a) && FileIsHeld(tools, files, i, b);
  }

  lemma BytesAgree(tools: Tools, files: seq<File>, a: Anchors, b: Anchors, d: string)
    requires Readable(files) && Holds(tools, files, a) && Holds(tools, files, b) && d in a.bytes
    ensures d in b.bytes && b.bytes[d] == a.bytes[d]
  {
    assert IsAnchored(a, d);
    var p :| p in a.paths && a.paths[p] == d;
    PathsAgree(tools, files, a, b, p);
  }

  /** The description is exact: two indexes of the same tree agree on paths and bytes. */
  lemma HoldsIsUnique(tools: Tools, files: seq<File>, a: Anchors, b: Anchors)
    requires Readable(files) && Holds(tools, files, a) && Holds(tools, files, b)
    ensures a == b
  {
    forall p | p in a.paths ensures p in b.paths && b.paths[p] == a.paths[p] { PathsAgree(tools, files, a, b, p); }
    forall p | p in b.paths ensures p in a.paths { PathsAgree(tools, files, b, a, p); }
    forall d | d in a.bytes ensures d in b.bytes && b.bytes[d] == a.bytes[d] { BytesAgree(tools, files, a, b, d); }
    forall d | d in b.bytes ensures d in a.bytes { BytesAgree(tools, files, b, a, d); }
    assert a.paths == b.paths && a.bytes == b.bytes;
  }

  // ---------------------------------------------------- one file, as a step on anchors

  ghost predicate Injective(a: Anchors)
  {
    && (forall p, q :: p in a.paths && q in a.paths && a.paths[p] == a.paths[q] ==> p == q)
    && (forall p :: p in a.paths ==> a.paths[p] in a.bytes)
    && (forall d :: d in a.bytes ==> IsAnchored(a, d))
  }

  /** The path leaves, and with it the digest it anchored. */
  ghost function Detached(a: Anchors, path: string): Anchors
  {
    if path !in a.paths then a else Anchors(a.paths - {path}, a.bytes - {a.paths[path]})
  }

  /** The path becomes the one anchor of the digest. */
  ghost function Anchored(a: Anchors, path: string, d: string, content: Content): Anchors
  {
    Anchors((map q | q in a.paths && (a.paths[q] != d || q == path) :: a.paths[q])[path := d], a.bytes[d := content])
  }

  ghost function Indexed(a: Anchors, path: string, d: string, content: Content): Anchors
  {
    Anchored(if path in a.paths && a.paths[path] != d then Detached(a, path) else a, path, d, content)
  }

  /**
  Halfway through a pass that began with `prev`: the files seen so far are
  held as `Holds` says, and what is left of `prev` is untouched and concerns
  neither their paths nor their digests.
   */
  ghost predicate Midway(tools: Tools, prev: Anchors, seen: seq<File>, a: Anchors)
    requires Readable(seen)
  {
    && Injective(a)
    && (forall i: nat :: IsLast(tools, seen, i) ==> FileIsHeld(tools, seen, i, a))
    && (forall p :: p in a.paths ==> IsHeld(tools, seen, p, a.paths[p]) || IsLeft(prev, seen, p, a.paths[p]))
  }

  ghost predicate IsLeft(prev: Anchors, seen: seq<File>, p: string, d: string)
  {
    p in prev.paths && prev.paths[p] == d && forall i :: 0 <= i < |seen| ==> seen[i].path != p
  }

  lemma DetachedIsInjective(a: Anchors, path: string)
    requires Injective(a)
    ensures Injective(Detached(a, path))
  {
    var b := Detached(a, path);
    forall e | e in b.bytes ensures IsAnchored(b, e) {
      assert IsAnchored(a, e);
      var p :| p in a.paths && a.paths[p] == e;
      assert p in b.paths && b.paths[p] == e;
    }
  }

  lemma AnchoredIsInjective(a: Anchors, path: string, d: string, content: Content)
    requires Injective(a) && (path in a.paths ==> a.paths[path] == d)
    ensures Injective(Anchored(a, path, d, content))
  {
    var c := Anchored(a, path, d, content);
    forall e | e in c.bytes ensures IsAnchored(c, e) {
      if e == d {
        assert path in c.paths && c.paths[path] == e;
      } else {
        assert IsAnchored(a, e);
        var p :| p in a.paths && a.paths[p] == e;
        assert p in c.paths && c.paths[p] == e;
      }
    }
  }

  lemma IndexedIsInjective(a: Anchors, path: string, d: string, content: Content)
    requires Injective(a)
    ensures Injective(Indexed(a, path, d, content))
  {
    DetachedIsInjective(a, path);
    AnchoredIsInjective(if path in a.paths && a.paths[path] != d then Detached(a, path) else a, path, d, content);
  }

  /** A file that was the last of its digest stays so unless the new file has that digest. */
  lemma LastAfter(tools: Tools, seen: seq<File>, file: File, i: nat)
    requires Readable(seen) && file.content.Some?
    ensures Readable(seen + [file])
    ensures IsLast(tools, seen + [file], i) <==>
              i == |seen| || (IsLast(tools, seen, i) && DigestAt(tools, seen, i) != tools.digestOf(file.content.value))
  {
    var more := seen + [file];
    if i < |seen| && IsLast(tools, more, i) {
      assert DigestAt(tools, more, |seen|) != DigestAt(tools, more, i);
      forall j | i < j < |seen| ensures DigestAt(tools, seen, j) != DigestAt(tools, seen, i) {
        assert DigestAt(tools, more, j) != DigestAt(tools, more, i);
      }
    }
    if IsLast(tools, seen, i) && DigestAt(tools, seen, i) != tools.digestOf(file.content.value) {
      forall j | i < j < |more| ensures DigestAt(tools, more, j) != DigestAt(tools, more, i) {
        if j < |seen| { assert DigestAt(tools, seen, j) != DigestAt(tools, seen, i); }
      }
    }
  }

  /** An anchor of another path and another digest survives the step. */
  lemma AnchorSurvives(a: Anchors, path: string, d: string, content: Content, p: string)
    requires Injective(a) && p in a.paths && p != path && a.paths[p] != d
    ensures var b := Indexed(a, path, d, content);
            && p in b.paths && b.paths[p] == a.paths[p]
            && a.paths[p] in b.bytes && b.bytes[a.paths[p]] == a.bytes[a.paths[p]]
  {
  }

  lemma StillHeld(tools: Tools, prev: Anchors, seen: seq<File>, a: Anchors, file: File, i: nat)
    requires Readable(seen) && Midway(tools, prev, seen, a) && file.content.Some?
    requires forall k :: 0 <= k < |seen| ==> seen[k].path != file.path
    requires Readable(seen + [file]) && IsLast(tools, seen + [file], i)
    ensures FileIsHeld(tools, seen + [file], i,
                       Indexed(a, file.path, tools.digestOf(file.content.value), file.content.value))
  {
    LastAfter(tools, seen, file, i);
    if i < |seen| {
      assert FileIsHeld(tools, seen, i, a);
      assert (seen + [file])[i] == seen[i];
      AnchorSurvives(a, file.path, tools.digestOf(file.content.value), file.content.value, seen[i].path);
    }
  }

  lemma StillExplained(tools: Tools, prev: Anchors, seen: seq<File>, a: Anchors, file: File, p: string)
    requires Readable(seen) && Midway(tools, prev, seen, a) && file.content.Some?
    requires var b := Indexed(a, file.path, tools.digestOf(file.content.value), file.content.value); p in b.paths
    ensures var b := Indexed(a, file.path, tools.digestOf(file.content.value), file.content.value);
            IsHeld(tools, seen + [file], p, b.paths[p]) || IsLeft(prev, seen + [file], p, b.paths[p])
  {
    var d := tools.digestOf(file.content.value);
    if p == file.path {
      LastAfter(tools, seen, file, |seen|);
      assert (seen + [file])[|seen|].path == p;
    } else if IsHeld(tools, seen, p, a.paths[p]) {
      var i: nat :| IsLast(tools, seen, i) && seen[i].path == p && a.paths[p] == DigestAt(tools, seen, i);
      LastAfter(tools, seen, file, i);
      assert (seen + [file])[i] == seen[i] && IsLast(tools, seen + [file], i);
    } else {
      assert IsLeft(prev, seen, p, a.paths[p]);
    }
  }

  /** Indexing one more file moves the pass one file on, whatever the index held before. */
  lemma MidwayStep(tools: Tools, prev: Anchors, seen: seq<File>, a: Anchors, file: File)
    requires Readable(seen) && Midway(tools, prev, seen, a) && file.content.Some?
    requires forall k :: 0 <= k < |seen| ==> seen[k].path != file.path
    ensures Readable(seen + [file])
    ensures Midway(tools, prev, seen + [file],
                   Indexed(a, file.path, tools.digestOf(file.content.value), file.content.value))
  {
    var d := tools.digestOf(file.content.value);
    var b := Indexed(a, file.path, d, file.content.value);
    IndexedIsInjective(a, file.path, d, file.content.value);
    forall i: nat | IsLast(tools, seen + [file], i) ensures FileIsHeld(tools, seen + [file], i, b) {
      StillHeld(tools, prev, seen, a, file, i);
    }
    forall p | p in b.paths
      ensures IsHeld(tools, seen + [file], p, b.paths[p]) || IsLeft(prev, seen + [file], p, b.paths[p])
    {
      StillExplained(tools, prev, seen, a, file, p);
    }
  }

  /** The same, for the next file of a traversal of distinct paths. */
  lemma MidwayNext(tools: Tools, prev: Anchors, files: seq<File>, i: nat, a: Anchors)
    requires i < |files| && DistinctPaths(files) && Readable(files[..i]) && Midway(tools, prev, files[..i], a)
    requires files[i].content.Some?
    ensures Readable(files[..i + 1])
    ensures Midway(tools, prev, files[..i + 1],
                   Indexed(a, files[i].path, tools.digestOf(files[i].content.value), files[i].content.value))
  {
    assert files[..i] + [files[i]] == files[..i + 1];
    MidwayStep(tools, prev, files[..i], a, files[i]);
  }

  /** The paths of a traversal. */
  function PathsOf(files: seq<File>): set<string> { set i | 0 <= i < |files| :: files[i].path }

  /** Only the kept paths remain, unchanged, and no byte was altered. */
  ghost predicate IsEviction(a: Anchors, keep: set<string>, b: Anchors)
  {
    && (forall p :: p in b.paths <==> p in a.paths && p in keep)
    && (forall p :: p in b.paths ==> b.paths[p] == a.paths[p])
    && (forall d :: d in b.bytes ==> d in a.bytes && b.bytes[d] == a.bytes[d])
  }

  /** Evicting what was not traversed leaves exactly the tree. */
  lemma EvictionCompletes(tools: Tools, prev: Anchors, files: seq<File>, a: Anchors, b: Anchors)
    requires Readable(files) && Midway(tools, prev, files, a) && Injective(b) && IsEviction(a, PathsOf(files), b)
    ensures Holds(tools, files, b)
  {
    forall i: nat | IsLast(tools, files, i) ensures FileIsHeld(tools, files, i, b) {
      assert FileIsHeld(tools, files, i, a);
      assert files[i].path in PathsOf(files);
    }
    forall p | p in b.paths ensures IsHeld(tools, files, p, b.paths[p]) {
      assert p in PathsOf(files);
      assert !IsLeft(prev, files, p, a.paths[p]);
    }
  }
}
