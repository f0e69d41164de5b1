/** Which files a table still needs: the union over everything its retained metadata names, or nothing at all. */
module Reachability {
  import opened Wrappers
  import opened Strings
  import opened Paths

  /** A manifest as its list names it; `entries` are the paths in it, removed ones included, if it can be read. */
  datatype ManifestFile = ManifestFile(path: string, entries: Option<seq<string>>)

  datatype SnapshotFiles = SnapshotFiles(list: string, manifests: Option<seq<ManifestFile>>)

  datatype Metadata = Metadata(location: string, statistics: seq<string>, log: seq<string>, current: Option<string>,
                               hasCurrentSnapshot: bool, snapshots: seq<SnapshotFiles>)

  /** Normalized paths, by what they are. */
  datatype Reachable = Reachable(data: set<string>, metadata: set<string>, statistics: set<string>, documents: set<string>) {
    function All(): set<string> {
      data + metadata + statistics + documents
    }

    predicate Contains(path: string) {
      Normalize(path) in All()
    }

    predicate IsEmpty() {
      All() == {}
    }
  }

  const HINT := "/metadata/version-hint.text"

  function HintPath(location: string): string {
    DropTrailing(location) + HINT
  }

  function DropTrailing(s: string): string {
    if s != [] && s[|s| - 1] == '/' then DropTrailing(s[..|s| - 1]) else s
  }

  // ---- What the metadata names ----

  predicate ReadableManifest(m: ManifestFile) {
    m.entries.Some?
  }

  predicate Readable(s: SnapshotFiles) {
    s.manifests.Some? && forall m | m in s.manifests.value :: ReadableManifest(m)
  }

  function NamedByManifest(m: ManifestFile): set<string> {
    if m.entries.Some? then set p | p in m.entries.value :: Normalize(p) else {}
  }

  function DataOf(s: SnapshotFiles): set<string> {
    if s.manifests.Some? then set m, p | m in s.manifests.value && p in NamedByManifest(m) :: p else {}
  }

  function MetadataOf(s: SnapshotFiles): set<string> {
    {Normalize(s.list)} + (if s.manifests.Some? then set m | m in s.manifests.value :: Normalize(m.path) else {})
  }

  /** A retained snapshot's manifests list `p`, as live or as removed. */
  ghost predicate NamesData(md: Metadata, p: string) {
    exists s, m :: s in md.snapshots && s.manifests.Some? && m in s.manifests.value && m.entries.Some? && p in m.entries.value
  }

  /** `p` is a retained snapshot's manifest list, or a manifest on it. */
  ghost predicate NamesMetadata(md: Metadata, p: string) {
    exists s :: s in md.snapshots && (p == s.list || (s.manifests.Some? && exists m :: m in s.manifests.value && p == m.path))
  }

  /** `p` is a metadata document, logged or current, or the version hint. */
  predicate NamesDocument(md: Metadata, p: string) {
    p in md.log || md.current == Some(p) || p == DropTrailing(md.location) + "/metadata/version-hint.text"
  }

  ghost predicate Names(md: Metadata, p: string) {
    NamesData(md, p) || NamesMetadata(md, p) || p in md.statistics || NamesDocument(md, p)
  }

  /** `r` holds exactly what the metadata names, each path by what it is and under its normal form. */
  ghost predicate Collects(md: Metadata, r: Reachable) {
    && (forall x :: x in r.data <==> exists p :: NamesData(md, p) && Normalize(p) == x)
    && (forall x :: x in r.metadata <==> exists p :: NamesMetadata(md, p) && Normalize(p) == x)
    && (forall x :: x in r.statistics <==> exists p :: p in md.statistics && Normalize(p) == x)
    && (forall x :: x in r.documents <==> exists p :: NamesDocument(md, p) && Normalize(p) == x)
  }

  /** So membership is naming, up to spelling. */
  lemma CollectsNamed(md: Metadata, r: Reachable)
    requires Collects(md, r)
    ensures forall p :: Names(md, p) ==> r.Contains(p)
    ensures forall x :: x in r.All() <==> exists p :: Names(md, p) && Normalize(p) == x
  {
    hide Normalize, NamesData, NamesMetadata, NamesDocument;
    forall x
      ensures x in r.All() <==> exists p :: Names(md, p) && Normalize(p) == x
    {
      if x in r.data {
        var p :| NamesData(md, p) && Normalize(p) == x;
        assert Names(md, p);
      } else if x in r.metadata {
        var p :| NamesMetadata(md, p) && Normalize(p) == x;
        assert Names(md, p);
      } else if x in r.statistics {
        var p :| p in md.statistics && Normalize(p) == x;
        assert Names(md, p);
      } else if x in r.documents {
        var p :| NamesDocument(md, p) && Normalize(p) == x;
        assert Names(md, p);
      }
    }
    forall p | Names(md, p)
      ensures r.Contains(p)
    {
      assert Normalize(p) == Normalize(p);
    }
  }

  /** The hint's path is the location's, without the slashes it ends in, and the hint's own name. */
  lemma {:induction false} DropTrailingIs(s: string)
    ensures DropTrailing(s) <= s && forall i :: |DropTrailing(s)| <= i < |s| ==> s[i] == '/'
    ensures DropTrailing(s) != [] ==> DropTrailing(s)[|DropTrailing(s)| - 1] != '/'
  {
    if s != [] && s[|s| - 1] == '/' {
      DropTrailingIs(s[..|s| - 1]);
    }
  }

  function Normals(paths: seq<string>): set<string> {
    set p | p in paths :: Normalize(p)
  }

  // ---- compute ----

  lemma NormalsGrow(paths: seq<string>, i: nat)
    requires i < |paths|
    ensures Normals(paths[..i + 1]) == Normals(paths[..i]) + {Normalize(paths[i])}
  {
    hide Normalize;
    PrefixGrows(paths, i);
  }

  method NormalizeAll(paths: seq<string>) returns (r: set<string>)
    ensures r == Normals(paths)
  {
    hide Normalize;
    r := {};
    for i := 0 to |paths|
      invariant r == Normals(paths[..i])
    {
      NormalsGrow(paths, i);
      r := r + {Normalize(paths[i])};
    }
    PrefixWhole(paths);
  }

  function DataIn(ms: seq<ManifestFile>): set<string> {
    set m, p | m in ms && p in NamedByManifest(m) :: p
  }

  function ManifestPaths(ms: seq<ManifestFile>): set<string> {
    set m | m in ms :: Normalize(m.path)
  }

  lemma ManifestsGrow(ms: seq<ManifestFile>, i: nat)
    requires i < |ms|
    ensures DataIn(ms[..i + 1]) == DataIn(ms[..i]) + NamedByManifest(ms[i])
    ensures ManifestPaths(ms[..i + 1]) == ManifestPaths(ms[..i]) + {Normalize(ms[i].path)}
  {
    hide Normalize, NamedByManifest;
    PrefixGrows(ms, i);
  }

  /** One snapshot's files; one unreadable manifest refuses the whole. */
  method ReadSnapshot(s: SnapshotFiles) returns (r: Result<(set<string>, set<string>)>)
    ensures r.Ok? <==> Readable(s)
    ensures r.Ok? ==> r.value == (DataOf(s), MetadataOf(s))
  {
    hide Normalize;
    if s.manifests.None? {
      return Err(BadMetadata);
    }
    var ms := s.manifests.value;
    var data, metadata := {}, {Normalize(s.list)};
    for i := 0 to |ms|
      invariant forall m | m in ms[..i] :: ReadableManifest(m)
      invariant data == DataIn(ms[..i]) && metadata == {Normalize(s.list)} + ManifestPaths(ms[..i])
    {
      ManifestsGrow(ms, i);
      PrefixGrows(ms, i);
      if ms[i].entries.None? {
        assert ms[i] in ms;
        return Err(BadMetadata);
      }
      var named := NormalizeAll(ms[i].entries.value);
      data, metadata := data + named, metadata + {Normalize(ms[i].path)};
    }
    PrefixWhole(ms);
    r := Ok((data, metadata));
  }

  function DataAcross(ss: seq<SnapshotFiles>): set<string> {
    set s, p | s in ss && p in DataOf(s) :: p
  }

  function MetadataAcross(ss: seq<SnapshotFiles>): set<string> {
    set s, p | s in ss && p in MetadataOf(s) :: p
  }

  lemma SnapshotsGrow(ss: seq<SnapshotFiles>, i: nat)
    requires i < |ss|
    ensures DataAcross(ss[..i + 1]) == DataAcross(ss[..i]) + DataOf(ss[i])
    ensures MetadataAcross(ss[..i + 1]) == MetadataAcross(ss[..i]) + MetadataOf(ss[i])
  {
    hide DataOf, MetadataOf;
    PrefixGrows(ss, i);
  }

  /** `compute`: all retained snapshots, the current one and those kept for time travel; an error anywhere is an error,
      never a smaller set. */
  method Compute(md: Metadata) returns (r: Result<Reachable>)
    ensures r.Ok? <==> forall s | s in md.snapshots :: Readable(s)
    ensures r.Ok? ==> Collects(md, r.value)
    ensures r.Err? ==> r.error == BadMetadata
  {
    hide Normalize, Readable, DataOf, MetadataOf, HintPath, Collects;
    var statistics := NormalizeAll(md.statistics);
    var documents := NormalizeAll(md.log);
    if md.current.Some? {
      documents := documents + {Normalize(md.current.value)};
    }
    documents := documents + {Normalize(HintPath(md.location))};
    var ss := md.snapshots;
    var data, metadata := {}, {};
    for i := 0 to |ss|
      invariant forall s | s in ss[..i] :: Readable(s)
      invariant data == DataAcross(ss[..i]) && metadata == MetadataAcross(ss[..i])
    {
      SnapshotsGrow(ss, i);
      PrefixGrows(ss, i);
      var one := ReadSnapshot(ss[i]);
      if one.Err? {
        assert ss[i] in ss;
        return Err(BadMetadata);
      }
      data, metadata := data + one.value.0, metadata + one.value.1;
    }
    PrefixWhole(ss);
    UnionCollects(md, Reachable(data, metadata, statistics, documents));
    r := Ok(Reachable(data, metadata, statistics, documents));
  }

  lemma DataIsNamed(md: Metadata, x: string)
    ensures x in DataAcross(md.snapshots) <==> exists p :: NamesData(md, p) && Normalize(p) == x
  {
    hide Normalize;
    if x in DataAcross(md.snapshots) {
      var s :| s in md.snapshots && x in DataOf(s);
      var m :| m in s.manifests.value && x in NamedByManifest(m);
      var p :| p in m.entries.value && Normalize(p) == x;
      assert NamesData(md, p);
    }
    if p :| NamesData(md, p) && Normalize(p) == x {
      var s, m :| s in md.snapshots && s.manifests.Some? && m in s.manifests.value && m.entries.Some? && p in m.entries.value;
      assert x in NamedByManifest(m);
      assert x in DataOf(s);
    }
  }

  lemma MetadataIsNamed(md: Metadata, x: string)
    ensures x in MetadataAcross(md.snapshots) <==> exists p :: NamesMetadata(md, p) && Normalize(p) == x
  {
    hide Normalize;
    if x in MetadataAcross(md.snapshots) {
      var s :| s in md.snapshots && x in MetadataOf(s);
      if x == Normalize(s.list) {
        assert NamesMetadata(md, s.list);
      } else {
        var m :| m in s.manifests.value && Normalize(m.path) == x;
        assert NamesMetadata(md, m.path);
      }
    }
    if p :| NamesMetadata(md, p) && Normalize(p) == x {
      var s :| s in md.snapshots && (p == s.list || (s.manifests.Some? && exists m :: m in s.manifests.value && p == m.path));
      assert x in MetadataOf(s);
    }
  }

  lemma UnionCollects(md: Metadata, r: Reachable)
    requires r.data == DataAcross(md.snapshots) && r.metadata == MetadataAcross(md.snapshots)
    requires r.statistics == Normals(md.statistics)
    requires r.documents == Normals(md.log) + (if md.current.Some? then {Normalize(md.current.value)} else {})
                            + {Normalize(HintPath(md.location))}
    ensures Collects(md, r)
  {
    hide Normalize, DataAcross, MetadataAcross, NamesData, NamesMetadata;
    forall x
      ensures x in r.data <==> exists p :: NamesData(md, p) && Normalize(p) == x
      ensures x in r.metadata <==> exists p :: NamesMetadata(md, p) && Normalize(p) == x
    {
      DataIsNamed(md, x);
      MetadataIsNamed(md, x);
    }
    forall x
      ensures x in r.documents <==> exists p :: NamesDocument(md, p) && Normalize(p) == x
    {
      if x == Normalize(HintPath(md.location)) {
        assert NamesDocument(md, HintPath(md.location));
      } else if md.current.Some? && x == Normalize(md.current.value) {
        assert NamesDocument(md, md.current.value);
      } else if x in Normals(md.log) {
        var p :| p in md.log && Normalize(p) == x;
        assert NamesDocument(md, p);
      }
    }
  }

  /** An object named under one spelling is reachable under every other: by an alias of its scheme, with a slash doubled
      anywhere in it, or with one at its end. */
  lemma ReachableHoweverSpelled(md: Metadata, r: Reachable, named: string, alias: string, x: string, y: string)
    requires Collects(md, r)
    requires !Contains(named, SEP) && !Contains(alias, SEP) && CanonicalScheme(named) == CanonicalScheme(alias)
    ensures r.Contains(alias + SEP + (x + "//" + y + "/")) <==> r.Contains(named + SEP + (x + "/" + y))
    ensures Names(md, named + SEP + (x + "/" + y)) ==> r.Contains(alias + SEP + (x + "//" + y + "/"))
  {
    hide Normalize, CanonicalScheme, Names, Collects;
    SpellingsNormalizeAlike(alias, named, x, y);
    CollectsNamed(md, r);
  }

  /** The version hint is always named, so no computed set is ever empty: the orphan scan's refusal of an empty one
      cannot be reached through `compute`. */
  lemma NeverEmpty(md: Metadata, r: Reachable)
    requires Collects(md, r)
    ensures !r.IsEmpty()
  {
    hide Normalize;
    assert NamesDocument(md, HintPath(md.location));
    assert Normalize(HintPath(md.location)) in r.documents;
  }

  /** What is read as reachable is normalized. */
  lemma CollectedAreNormal(md: Metadata, r: Reachable)
    requires Collects(md, r)
    ensures forall x :: x in r.All() ==> Normalize(x) == x
  {
    hide Normalize, Names, Collects;
    CollectsNamed(md, r);
    forall x | x in r.All()
      ensures Normalize(x) == x
    {
      var p :| Names(md, p) && Normalize(p) == x;
      NormalizeIdempotent(p);
    }
  }
}
