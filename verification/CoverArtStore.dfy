/**
 One entry directory of the cover-art cache (src-tauri/src/cover_art_cache.rs): the
 file operations of store_entry in their order, and what a crash between any two leaves.
 */
module CoverArtStore {

  /** art.{version}.{ext}, art.{ext}.tmp-{pid}, metadata.json, metadata.json.tmp, and anything else. */
  datatype Name =
    | Art(version: nat, ext: string)
    | ArtTemp(ext: string, pid: nat)
    | Meta
    | MetaTemp
    | OtherFile(name: string, hasTmp: bool)

  datatype Content =
    | Partial
    | Image(bytes: seq<nat>)
    | Metadata(file: Name, updatedAtMs: nat)

  type Files = map<Name, Content>

  /** One file-system operation; a write is two, as a crash can leave part of it. */
  datatype FileOp =
    | WritePart(name: Name)
    | WriteAll(name: Name, content: Content)
    | Remove(name: Name)
    | Rename(from: Name, to: Name)

  function Exec1(files: Files, op: FileOp): Files {
    match op
    case WritePart(name) => files[name := Partial]
    case WriteAll(name, content) => files[name := content]
    case Remove(name) => files - {name}
    case Rename(from, to) => if from in files then (files - {from})[to := files[from]] else files
  }

  function Exec(files: Files, ops: seq<FileOp>): Files
    decreases |ops|
  {
    if ops == [] then files else Exec(Exec1(files, ops[0]), ops[1..])
  }

  /** What a refresh writes. */
  datatype Refresh = Refresh(version: nat, ext: string, pid: nat, bytes: seq<nat>, nowMs: nat, listing: seq<Name>) {
    function File(): Name {
      Art(version, ext)
    }
  }

  predicate ShouldRemove(name: Name, current: Name) {
    match name
    case Art(_, _) => name != current
    case ArtTemp(_, _) => name != current
    case Meta => false
    case MetaTemp => true
    case OtherFile(_, hasTmp) => hasTmp
  }

  function WriteOps(name: Name, content: Content): seq<FileOp> {
    [WritePart(name), WriteAll(name, content)]
  }

  /** replace_file. */
  function ReplaceOps(files: Files, from: Name, to: Name): seq<FileOp> {
    if to in files then [Remove(to), Rename(from, to)] else [Rename(from, to)]
  }

  /** remove_stale_artifacts over a directory listing. */
  function CleanOps(listing: seq<Name>, current: Name): seq<FileOp> {
    if listing == [] then []
    else (if ShouldRemove(listing[0], current) then [Remove(listing[0])] else []) + CleanOps(listing[1..], current)
  }

  /** All file operations of store_entry, in order. */
  function StoreOps(files: Files, r: Refresh): seq<FileOp> {
    ArtOps(files, r) + MetaOps(files, r) + CleanOps(r.listing, r.File())
  }

  function ArtOps(files: Files, r: Refresh): seq<FileOp> {
    WriteOps(ArtTemp(r.ext, r.pid), Image(r.bytes)) + ReplaceOps(files, ArtTemp(r.ext, r.pid), r.File())
  }

  function MetaOps(files: Files, r: Refresh): seq<FileOp> {
    WriteOps(MetaTemp, Metadata(r.File(), r.nowMs)) + ReplaceOps(files, MetaTemp, Meta)
  }

  // --------------------------------------------------------------------- the class

  class EntryDir {
    var files: Files
    ghost var log: seq<FileOp>

    constructor (initial: Files)
      ensures files == initial && log == []
    {
      files, log := initial, [];
    }

    method Perform(op: FileOp)
      modifies this
      ensures files == Exec1(old(files), op) && log == old(log) + [op]
    {
      match op {
        case WritePart(name) => files := files[name := Partial];
        case WriteAll(name, content) => files := files[name := content];
        case Remove(name) => files := files - {name};
        case Rename(from, to) =>
          if from in files {
            var content := files[from];
            files := files - {from};
            files := files[to := content];
          }
      }
      log := log + [op];
    }

    method Write(name: Name, content: Content)
      modifies this
      ensures files == Exec(old(files), WriteOps(name, content)) && log == old(log) + WriteOps(name, content)
    {
      Perform(WritePart(name));
      Perform(WriteAll(name, content));
      ExecTwo(old(files), WritePart(name), WriteAll(name, content));
      assert log == old(log) + WriteOps(name, content);
    }

    method ReplaceFile(from: Name, to: Name)
      modifies this
      ensures files == Exec(old(files), ReplaceOps(old(files), from, to))
          && log == old(log) + ReplaceOps(old(files), from, to)
    {
      if to in files {
        Perform(Remove(to));
      }
      Perform(Rename(from, to));
      ExecTwo(old(files), Remove(to), Rename(from, to));
      ExecOne(old(files), Rename(from, to));
      assert log == old(log) + ReplaceOps(old(files), from, to);
    }

    method RemoveStaleArtifacts(listing: seq<Name>, current: Name)
      modifies this
      ensures files == Exec(old(files), CleanOps(listing, current)) && log == old(log) + CleanOps(listing, current)
    {
      for k := 0 to |listing|
        invariant log + CleanOps(listing[k..], current) == old(log) + CleanOps(listing, current)
        invariant Exec(files, CleanOps(listing[k..], current)) == Exec(old(files), CleanOps(listing, current))
      {
        ghost var before, rest := files, CleanOps(listing[k + 1..], current);
        assert listing[k..][1..] == listing[k + 1..];
        if ShouldRemove(listing[k], current) {
          assert CleanOps(listing[k..], current) == [Remove(listing[k])] + rest;
          ExecConcat(before, [Remove(listing[k])], rest);
          ExecOne(before, Remove(listing[k]));
          Perform(Remove(listing[k]));
          assert Exec(files, rest) == Exec(before, CleanOps(listing[k..], current));
        } else {
          assert CleanOps(listing[k..], current) == [] + rest;
          assert [] + rest == rest;
        }
      }
    }

    method StoreArt(r: Refresh)
      modifies this
      ensures files == Exec(old(files), ArtOps(old(files), r)) && log == old(log) + ArtOps(old(files), r)
    {
      Write(ArtTemp(r.ext, r.pid), Image(r.bytes));
      UntouchedName(old(files), WriteOps(ArtTemp(r.ext, r.pid), Image(r.bytes)), r.File());
      ReplaceFile(ArtTemp(r.ext, r.pid), r.File());
      ExecConcat(old(files), WriteOps(ArtTemp(r.ext, r.pid), Image(r.bytes)), ReplaceOps(old(files), ArtTemp(r.ext,
        r.pid), r.File()));
      assert log == old(log) + ArtOps(old(files), r);
    }

    method StoreMetadata(r: Refresh)
      modifies this
      ensures files == Exec(old(files), MetaOps(old(files), r)) && log == old(log) + MetaOps(old(files), r)
    {
      Write(MetaTemp, Metadata(r.File(), r.nowMs));
      UntouchedName(old(files), WriteOps(MetaTemp, Metadata(r.File(), r.nowMs)), Meta);
      ReplaceFile(MetaTemp, Meta);
      ExecConcat(old(files), WriteOps(MetaTemp, Metadata(r.File(), r.nowMs)), ReplaceOps(old(files), MetaTemp, Meta));
      assert log == old(log) + MetaOps(old(files), r);
    }

    /** store_entry: the log shows the operations in the order a crash can cut. */
    method StoreEntry(r: Refresh) returns (file: Name)
      modifies this
      ensures file == r.File()
      ensures files == Exec(old(files), StoreOps(old(files), r)) && log == old(log) + StoreOps(old(files), r)
    {
      ghost var a, m, c := ArtOps(files, r), MetaOps(files, r), CleanOps(r.listing, r.File());
      StoreArt(r);
      ArtOpsKeepMeta(old(files), r);
      StoreMetadata(r);
      RemoveStaleArtifacts(r.listing, r.File());
      ExecConcat(old(files), a, m);
      ExecConcat(old(files), a + m, c);
      file := r.File();
      assert log == old(log) + (a + m + c);
    }
  }

  lemma ExecOne(files: Files, op: FileOp)
    ensures Exec(files, [op]) == Exec1(files, op)
  {
    assert [op][1..] == [];
  }

  lemma ExecTwo(files: Files, first: FileOp, second: FileOp)
    ensures Exec(files, [first, second]) == Exec1(Exec1(files, first), second)
  {
    assert [first, second][1..] == [second];
    ExecOne(Exec1(files, first), second);
  }

  lemma {:induction false} ExecConcat(files: Files, a: seq<FileOp>, b: seq<FileOp>)
    ensures Exec(files, a + b) == Exec(Exec(files, a), b)
    decreases |a|
  {
    if a == [] {
      assert a + b == b;
    } else {
      assert (a + b)[1..] == a[1..] + b;
      ExecConcat(Exec1(files, a[0]), a[1..], b);
    }
  }

  lemma {:induction false} UntouchedName(files: Files, ops: seq<FileOp>, name: Name)
    requires forall k :: 0 <= k < |ops| ==> !Touches(ops[k], name)
    ensures name in Exec(files, ops) <==> name in files
    ensures name in files ==> Exec(files, ops)[name] == files[name]
    decreases |ops|
  {
    if ops != [] {
      assert !Touches(ops[0], name);
      UntouchedName(Exec1(files, ops[0]), ops[1..], name);
    }
  }

  predicate Touches(op: FileOp, name: Name) {
    match op
    case WritePart(n) => n == name
    case WriteAll(n, _) => n == name
    case Remove(n) => n == name
    case Rename(from, to) => from == name || to == name
  }

  lemma ArtOpsKeepMeta(files: Files, r: Refresh)
    ensures Meta in Exec(files, ArtOps(files, r)) <==> Meta in files
  {
    UntouchedName(files, ArtOps(files, r), Meta);
  }

  // ------------------------------------------------------------ crash consistency

  /** Every versioned art file is complete, and metadata names one of them. */
  predicate Consistent(files: Files) {
    && (forall n :: n in files && n.Art? ==> files[n].Image?)
    && (Meta in files ==> files[Meta].Metadata? && files[Meta].file.Art? && files[Meta].file in files)
  }

  /** Names that the fallback without metadata accepts. */
  function ArtNames(files: Files): set<Name> {
    set n | n in files && (n.Art? || n.ArtTemp?)
  }

  datatype Lookup = Failed | Missing | Found(name: Name, isFresh: bool)

  /** read_entry; `pick` is the last art file of the listing, used only without usable metadata. */
  ghost predicate ReadsTo(files: Files, nowMs: nat, ttlMs: nat, found: Lookup) {
    if Meta in files && !files[Meta].Metadata? then found == Failed
    else if Meta in files && files[Meta].file in files then
      found == Found(files[Meta].file,
        (if nowMs > files[Meta].updatedAtMs then nowMs - files[Meta].updatedAtMs else 0) <= ttlMs)
    else if ArtNames(files) == {} then found == Missing
    else found.Found? && found.name in ArtNames(files) && !found.isFresh
  }

  /** A lookup in a consistent directory never fails, and a fresh one finds a complete image. */
  lemma FreshLookupIsComplete(files: Files, nowMs: nat, ttlMs: nat, found: Lookup)
    requires Consistent(files) && ReadsTo(files, nowMs, ttlMs, found)
    ensures found != Failed
    ensures found.Found? ==> found.name in files && (found.isFresh ==> files[found.name].Image?)
    ensures found == Missing <==> ArtNames(files) == {}
  {
    if Meta in files {
      assert files[Meta].file in ArtNames(files);
    }
  }

  /**
   A lookup fails exactly on unreadable metadata.  Metadata that names an existing file
   finds it, fresh until the time to live has passed; otherwise any art will do, but stale.
   */
  lemma LookupExactly(files: Files, nowMs: nat, ttlMs: nat, found: Lookup)
    requires ReadsTo(files, nowMs, ttlMs, found)
    ensures found == Failed <==> Meta in files && !files[Meta].Metadata?
    ensures Meta in files && files[Meta].Metadata? && files[Meta].file in files
        ==> found == Found(files[Meta].file, nowMs <= files[Meta].updatedAtMs + ttlMs)
    ensures Meta !in files || (files[Meta].Metadata? && files[Meta].file !in files)
        ==> if ArtNames(files) == {} then found == Missing
            else found.Found? && found.name in ArtNames(files) && !found.isFresh
  {}

  /** The version collides with the file that the present metadata names. */
  predicate Collides(files: Files, r: Refresh) {
    Meta in files && files[Meta].Metadata? && files[Meta].file == r.File()
  }

  /** After every prefix of a refresh: consistent, and readable if it was readable. */
  predicate Survives(files: Files, after: Files) {
    Consistent(after) && (ArtNames(files) != {} ==> ArtNames(after) != {})
  }

  /** The directory once the new art file is in place. */
  predicate ArtStored(files: Files, r: Refresh) {
    Consistent(files) && r.File() in files && files[r.File()] == Image(r.bytes)
  }

  lemma ArtPhase(files: Files, r: Refresh, k: nat)
    requires Consistent(files) && !Collides(files, r) && k <= |ArtOps(files, r)|
    ensures Survives(files, Exec(files, ArtOps(files, r)[..k]))
    ensures k == |ArtOps(files, r)| ==> ArtStored(Exec(files, ArtOps(files, r)), r)
    ensures Meta in Exec(files, ArtOps(files, r)) <==> Meta in files
  {
    var temp, ops := ArtTemp(r.ext, r.pid), ArtOps(files, r);
    ArtOpsKeepMeta(files, r);
    var f1 := Exec1(files, ops[0]);
    var f2 := Exec1(f1, ops[1]);
    var f3 := Exec1(f2, ops[2]);
    Unfold(files, ops, k);
    assert temp in ArtNames(f1) && temp in ArtNames(f2);
    if r.File() in files {
      var f4 := Exec1(f3, ops[3]);
      assert temp in ArtNames(f3) && r.File() in ArtNames(f4);
    } else {
      assert r.File() in ArtNames(f3);
    }
    assert ops[..|ops|] == ops;
  }

  /** The first operations of a short list, one by one. */
  lemma Unfold(files: Files, ops: seq<FileOp>, k: nat)
    requires k <= |ops| <= 4
    ensures k == 0 ==> Exec(files, ops[..k]) == files
    ensures k == 1 ==> Exec(files, ops[..k]) == Exec1(files, ops[0])
    ensures k == 2 ==> Exec(files, ops[..k]) == Exec1(Exec1(files, ops[0]), ops[1])
    ensures k == 3 ==> Exec(files, ops[..k]) == Exec1(Exec1(Exec1(files, ops[0]), ops[1]), ops[2])
    ensures k == 4 ==> Exec(files, ops[..k]) == Exec1(Exec1(Exec1(Exec1(files, ops[0]), ops[1]), ops[2]), ops[3])
  {
    if k >= 1 {
      ExecLast(files, ops, k);
    }
    if k >= 2 {
      ExecLast(files, ops, k - 1);
    }
    if k >= 3 {
      ExecLast(files, ops, k - 2);
    }
    if k == 4 {
      ExecLast(files, ops, 1);
    }
  }

  lemma ExecLast(files: Files, ops: seq<FileOp>, k: nat)
    requires 1 <= k <= |ops|
    ensures Exec(files, ops[..k]) == Exec1(Exec(files, ops[..k - 1]), ops[k - 1])
  {
    assert ops[..k] == ops[..k - 1] + [ops[k - 1]];
    ExecConcat(files, ops[..k - 1], [ops[k - 1]]);
  }

  lemma MetaPhase(before: Files, files: Files, r: Refresh, k: nat)
    requires ArtStored(files, r) && (Meta in before <==> Meta in files) && k <= |MetaOps(before, r)|
    ensures Consistent(Exec(files, MetaOps(before, r)[..k])) && r.File() in Exec(files, MetaOps(before, r)[..k])
    ensures k == |MetaOps(before, r)| ==> Refreshed(Exec(files, MetaOps(before, r)), r)
  {
    var ops := MetaOps(before, r);
    Unfold(files, ops, k);
    assert ops[..|ops|] == ops;
  }

  /** The directory once metadata names the new file. */
  predicate Refreshed(files: Files, r: Refresh) {
    ArtStored(files, r) && Meta in files && files[Meta] == Metadata(r.File(), r.nowMs)
  }

  lemma {:induction false} CleanPhase(files: Files, r: Refresh, listing: seq<Name>, k: nat)
    requires Refreshed(files, r) && k <= |CleanOps(listing, r.File())|
    ensures Refreshed(Exec(files, CleanOps(listing, r.File())[..k]), r)
    decreases |listing|
  {
    var ops := CleanOps(listing, r.File());
    if listing != [] && k > 0 {
      if ShouldRemove(listing[0], r.File()) {
        assert ops[..k][1..] == CleanOps(listing[1..], r.File())[..k - 1];
        assert ops[..k][0] == Remove(listing[0]);
        CleanPhase(Exec1(files, ops[0]), r, listing[1..], k - 1);
      } else {
        assert ops == CleanOps(listing[1..], r.File());
        CleanPhase(files, r, listing[1..], k);
      }
    } else {
      assert ops[..k] == [];
    }
  }

  lemma CutInMetaPhase(files: Files, r: Refresh, k: nat)
    requires Consistent(files) && !Collides(files, r) && k <= |MetaOps(files, r)|
    ensures var after := Exec(files, ArtOps(files, r) + MetaOps(files, r)[..k]);
      Consistent(after) && r.File() in ArtNames(after) && (k == |MetaOps(files, r)| ==> Refreshed(after, r))
  {
    var a, m := ArtOps(files, r), MetaOps(files, r);
    ArtPhase(files, r, |a|);
    MetaPhase(files, Exec(files, a), r, k);
    ExecConcat(files, a, m[..k]);
    assert m[..|m|] == m;
  }

  lemma CutInCleanPhase(files: Files, r: Refresh, k: nat)
    requires Consistent(files) && !Collides(files, r) && k <= |CleanOps(r.listing, r.File())|
    ensures Refreshed(Exec(files, ArtOps(files, r) + MetaOps(files, r) + CleanOps(r.listing, r.File())[..k]), r)
  {
    var a, m, c := ArtOps(files, r), MetaOps(files, r), CleanOps(r.listing, r.File());
    CutInMetaPhase(files, r, |m|);
    assert m[..|m|] == m;
    ExecConcat(files, a + m, c[..k]);
    CleanPhase(Exec(files, a + m), r, r.listing, k);
  }

  /** One refresh, cut after any number of operations, and run to its end. */
  lemma RefreshSurvivesCrash(files: Files, r: Refresh, k: nat)
    requires Consistent(files) && !Collides(files, r) && k <= |StoreOps(files, r)|
    ensures Survives(files, Exec(files, StoreOps(files, r)[..k]))
    ensures k == |StoreOps(files, r)| ==> Refreshed(Exec(files, StoreOps(files, r)), r)
  {
    var a, m, c := ArtOps(files, r), MetaOps(files, r), CleanOps(r.listing, r.File());
    var all := StoreOps(files, r);
    if k <= |a| {
      assert all[..k] == a[..k];
      ArtPhase(files, r, k);
    } else if k <= |a| + |m| {
      assert all[..k] == a + m[..k - |a|];
      CutInMetaPhase(files, r, k - |a|);
    } else {
      assert all[..k] == a + m + c[..k - |a| - |m|];
      CutInCleanPhase(files, r, k - |a| - |m|);
      assert r.File() in ArtNames(Exec(files, all[..k]));
    }
    if k == |all| {
      CutInCleanPhase(files, r, |c|);
      assert c[..|c|] == c;
    }
  }

  /**
   A refresh is crash-safe exactly when its version does not collide with the file that the
   present metadata names: replace_file removes that file before the new one is in place.
   */
  lemma CrashSafeExactly(files: Files, r: Refresh)
    requires Consistent(files)
    ensures (forall k :: 0 <= k <= |StoreOps(files, r)| ==> Consistent(Exec(files, StoreOps(files, r)[..k])))
        <==> !Collides(files, r)
  {
    if !Collides(files, r) {
      forall k | 0 <= k <= |StoreOps(files, r)|
        ensures Consistent(Exec(files, StoreOps(files, r)[..k]))
      {
        RefreshSurvivesCrash(files, r, k);
      }
    } else {
      var ops := StoreOps(files, r);
      var temp := ArtTemp(r.ext, r.pid);
      assert r.File() in files;
      assert ops[..3] == [WritePart(temp), WriteAll(temp, Image(r.bytes)), Remove(r.File())];
      Unfold(files, ops[..3], 3);
      assert ops[..3][..3] == ops[..3];
      assert !Consistent(Exec(files, ops[..3]));
    }
  }

  /** The directory after a whole refresh whose listing named every file. */
  lemma {:induction false} CleanLeaves(files: Files, listing: seq<Name>, current: Name, name: Name)
    ensures name in Exec(files, CleanOps(listing, current))
        <==> name in files && !(name in listing && ShouldRemove(name, current))
    decreases |listing|
  {
    if listing != [] {
      var removes := ShouldRemove(listing[0], current);
      var first := if removes then [Remove(listing[0])] else [];
      ExecConcat(files, first, CleanOps(listing[1..], current));
      CleanLeaves(Exec(files, first), listing[1..], current, name);
      assert name in listing <==> name == listing[0] || name in listing[1..];
      assert removes ==> Exec(files, first) == Exec1(files, Remove(listing[0])) by {
        if removes {
          assert first[1..] == [];
        }
      }
    }
  }

  lemma {:induction false} CleanTouches(listing: seq<Name>, current: Name, name: Name)
    requires !ShouldRemove(name, current)
    ensures forall k :: 0 <= k < |CleanOps(listing, current)| ==> !Touches(CleanOps(listing, current)[k], name)
    decreases |listing|
  {
    if listing != [] {
      CleanTouches(listing[1..], current, name);
    }
  }

  /** A file that is neither art, metadata nor temporary is none of the refresh's business. */
  lemma ForeignFileKept(files: Files, r: Refresh, name: string)
    ensures var after, other := Exec(files, StoreOps(files, r)), OtherFile(name, false);
      && (other in after <==> other in files) && (other in files ==> after[other] == files[other])
  {
    CleanTouches(r.listing, r.File(), OtherFile(name, false));
    UntouchedName(files, StoreOps(files, r), OtherFile(name, false));
  }

  /**
   A whole refresh over a full listing leaves the new image as the only art and nothing
   temporary; a lookup finds it, fresh exactly until the time to live has passed.
   */
  lemma CompletedRefresh(files: Files, r: Refresh, nowMs: nat, ttlMs: nat, found: Lookup)
    requires Consistent(files) && !Collides(files, r)
    requires var before := Exec(files, ArtOps(files, r) + MetaOps(files, r)); forall n :: n in before ==> n in r.listing
    requires var after := Exec(files, StoreOps(files, r)); ReadsTo(after, nowMs, ttlMs, found)
    ensures var after := Exec(files, StoreOps(files, r));
      && ArtNames(after) == {r.File()} && after[r.File()] == Image(r.bytes)
      && found == Found(r.File(), nowMs <= r.nowMs + ttlMs)
      && forall n :: n in after ==> n in {r.File(), Meta} || (n.OtherFile? && !n.hasTmp)
  {
    var ops := StoreOps(files, r);
    var before, after := Exec(files, ArtOps(files, r) + MetaOps(files, r)), Exec(files, ops);
    RefreshSurvivesCrash(files, r, |ops|);
    ExecConcat(files, ArtOps(files, r) + MetaOps(files, r), CleanOps(r.listing, r.File()));
    forall n
      ensures n in after ==> n in {r.File(), Meta} || (n.OtherFile? && !n.hasTmp)
      ensures n in ArtNames(after) <==> n == r.File()
    {
      CleanLeaves(before, r.listing, r.File(), n);
    }
  }

  // -------------------------------------------------------------------- many runs

  /** Refreshes one after the other, each cut by a crash or an error after `cut` operations. */
  datatype Attempt = Attempt(refresh: Refresh, cut: nat)

  function Ran(files: Files, a: Attempt): Files {
    var ops := StoreOps(files, a.refresh);
    Exec(files, if a.cut <= |ops| then ops[..a.cut] else ops)
  }

  function RanAll(files: Files, attempts: seq<Attempt>): Files {
    if attempts == [] then files else Ran(RanAll(files, attempts[..|attempts| - 1]), attempts[|attempts| - 1])
  }

  ghost predicate DistinctVersions(attempts: seq<Attempt>) {
    forall i, j :: 0 <= i < j < |attempts| ==> attempts[i].refresh.version != attempts[j].refresh.version
  }

  predicate VersionsAmong(files: Files, versions: set<nat>) {
    forall n :: n in files && n.Art? ==> n.version in versions
  }

  function Versions(attempts: seq<Attempt>): set<nat> {
    set a | a in attempts :: a.refresh.version
  }

  lemma {:induction false} OpsAddVersion(files: Files, ops: seq<FileOp>, versions: set<nat>)
    requires VersionsAmong(files, versions)
    requires forall k :: 0 <= k < |ops| ==> OpWithin(ops[k], versions)
    ensures VersionsAmong(Exec(files, ops), versions)
    decreases |ops|
  {
    if ops != [] {
      assert OpWithin(ops[0], versions);
      OpsAddVersion(Exec1(files, ops[0]), ops[1..], versions);
    }
  }

  predicate OpWithin(op: FileOp, versions: set<nat>) {
    match op
    case WritePart(n) => !n.Art?
    case WriteAll(n, _) => !n.Art?
    case Remove(_) => true
    case Rename(_, to) => to.Art? ==> to.version in versions
  }

  lemma {:induction false} CleanOpsWithin(listing: seq<Name>, current: Name, versions: set<nat>)
    ensures forall k :: 0 <= k < |CleanOps(listing, current)| ==> OpWithin(CleanOps(listing, current)[k], versions)
    decreases |listing|
  {
    if listing != [] {
      CleanOpsWithin(listing[1..], current, versions);
    }
  }

  /**
   From an empty directory, with distinct versions: however many refreshes are cut anywhere,
   metadata present names an existing complete file, and a directory readable once stays readable.
   */
  lemma {:induction false} CacheSurvivesCrashes(attempts: seq<Attempt>)
    requires DistinctVersions(attempts)
    ensures Consistent(RanAll(map[], attempts))
    ensures VersionsAmong(RanAll(map[], attempts), Versions(attempts))
    ensures attempts != [] && ArtNames(RanAll(map[], attempts[..|attempts| - 1])) != {}
        ==> ArtNames(RanAll(map[], attempts)) != {}
  {
    if attempts != [] {
      var init, a := attempts[..|attempts| - 1], attempts[|attempts| - 1];
      CacheSurvivesCrashes(init);
      LastVersionIsNew(attempts);
      AttemptSurvives(RanAll(map[], init), a, Versions(init));
    }
  }

  lemma LastVersionIsNew(attempts: seq<Attempt>)
    requires attempts != [] && DistinctVersions(attempts)
    ensures var init, last := attempts[..|attempts| - 1], attempts[|attempts| - 1].refresh.version;
      DistinctVersions(init) && last !in Versions(init) && Versions(attempts) == Versions(init) + {last}
  {
    var init, a := attempts[..|attempts| - 1], attempts[|attempts| - 1];
    forall b | b in init
      ensures b.refresh.version != a.refresh.version
    {
      var i :| 0 <= i < |init| && init[i] == b;
      assert attempts[i] == b;
    }
    assert attempts == init + [a];
  }

  /** One attempt with an unused version. */
  lemma AttemptSurvives(files: Files, a: Attempt, used: set<nat>)
    requires Consistent(files) && VersionsAmong(files, used) && a.refresh.version !in used
    ensures Survives(files, Ran(files, a)) && VersionsAmong(Ran(files, a), used + {a.refresh.version})
  {
    var ops := StoreOps(files, a.refresh);
    var cut := if a.cut <= |ops| then a.cut else |ops|;
    var versions := used + {a.refresh.version};
    assert !Collides(files, a.refresh);
    RefreshSurvivesCrash(files, a.refresh, cut);
    assert ops[..|ops|] == ops;
    CleanOpsWithin(a.refresh.listing, a.refresh.File(), versions);
    assert forall k :: 0 <= k < |ops| ==> OpWithin(ops[k], versions);
    OpsAddVersion(files, ops[..cut], versions);
  }
}
