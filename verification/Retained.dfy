/** A table's metadata as the deletion protocol sees it: what computing reachability from the one gives is what the other
    reaches. */
module Retained {
  import opened Paths
  import opened Reachability
  import Deletion

  /** A snapshot's own files: its list, the manifests on it, and every file these list. */
  ghost predicate SnapshotNames(s: SnapshotFiles, p: string) {
    p == s.list || (s.manifests.Some? && exists m :: m in s.manifests.value && (p == m.path || (m.entries.Some? && p in m.entries.value)))
  }

  /** What the metadata needs beside its snapshots. */
  predicate RootNamed(md: Metadata, p: string) {
    p in md.statistics || NamesDocument(md, p)
  }

  ghost predicate DescribesSnapshot(s: SnapshotFiles, kept: Deletion.Kept) {
    forall x :: x in kept.names <==> exists p :: SnapshotNames(s, p) && Normalize(p) == x
  }

  /** The metadata retains exactly these snapshots, and needs exactly these files beside them. */
  ghost predicate Describes(md: Metadata, kept: map<int, Deletion.Kept>, roots: set<string>) {
    && (forall i :: i in kept ==> exists s :: s in md.snapshots && DescribesSnapshot(s, kept[i]))
    && (forall s :: s in md.snapshots ==> exists i :: i in kept && DescribesSnapshot(s, kept[i]))
    && (forall x :: x in roots <==> exists p :: RootNamed(md, p) && Normalize(p) == x)
  }

  lemma SnapshotIsNamed(md: Metadata, s: SnapshotFiles, p: string)
    requires s in md.snapshots && SnapshotNames(s, p)
    ensures Names(md, p)
  {
    if p == s.list {
      assert NamesMetadata(md, p);
    } else {
      var m :| m in s.manifests.value && (p == m.path || (m.entries.Some? && p in m.entries.value));
      if p == m.path {
        assert NamesMetadata(md, p);
      } else {
        assert NamesData(md, p);
      }
    }
  }

  lemma NamedBySnapshotOrRoot(md: Metadata, p: string)
    requires Names(md, p)
    ensures RootNamed(md, p) || exists s :: s in md.snapshots && SnapshotNames(s, p)
  {
    hide HintPath;
    if NamesData(md, p) {
      var s, m :| s in md.snapshots && s.manifests.Some? && m in s.manifests.value && m.entries.Some? && p in m.entries.value;
      assert SnapshotNames(s, p);
    } else if NamesMetadata(md, p) {
      var s :| s in md.snapshots && (p == s.list || (s.manifests.Some? && exists m :: m in s.manifests.value && p == m.path));
      assert SnapshotNames(s, p);
    }
  }

  lemma NamedMember(kept: map<int, Deletion.Kept>, x: string)
    ensures x in Deletion.Named(kept) <==> exists i :: i in kept && x in kept[i].names
  {
  }

  lemma DescribesParts(md: Metadata, kept: map<int, Deletion.Kept>, roots: set<string>, x: string)
    requires Describes(md, kept, roots)
    ensures forall i :: i in kept ==> exists s :: s in md.snapshots && DescribesSnapshot(s, kept[i])
    ensures x in roots <==> exists p :: RootNamed(md, p) && Normalize(p) == x
  {
    hide Normalize, RootNamed, DescribesSnapshot;
  }

  lemma HeldSnapshot(md: Metadata, kept: map<int, Deletion.Kept>, roots: set<string>, s: SnapshotFiles) returns (i: int)
    requires Describes(md, kept, roots) && s in md.snapshots
    ensures i in kept && DescribesSnapshot(s, kept[i])
  {
    hide RootNamed, DescribesSnapshot;
    i :| i in kept && DescribesSnapshot(s, kept[i]);
  }

  lemma NameHeld(s: SnapshotFiles, kept: Deletion.Kept, p: string)
    requires DescribesSnapshot(s, kept) && SnapshotNames(s, p)
    ensures Normalize(p) in kept.names
  {
    hide Normalize, SnapshotNames;
  }

  lemma HeldName(s: SnapshotFiles, kept: Deletion.Kept, x: string) returns (p: string)
    requires DescribesSnapshot(s, kept) && x in kept.names
    ensures SnapshotNames(s, p) && Normalize(p) == x
  {
    hide Normalize, SnapshotNames;
    p :| SnapshotNames(s, p) && Normalize(p) == x;
  }

  lemma NameIsReached(md: Metadata, kept: map<int, Deletion.Kept>, roots: set<string>, p: string)
    requires Describes(md, kept, roots) && Names(md, p)
    ensures Normalize(p) in Deletion.Named(kept) + roots
  {
    hide Normalize, Names, SnapshotNames, RootNamed, Describes, DescribesSnapshot, Deletion.Named;
    NamedBySnapshotOrRoot(md, p);
    DescribesParts(md, kept, roots, Normalize(p));
    if !RootNamed(md, p) {
      var s :| s in md.snapshots && SnapshotNames(s, p);
      var i := HeldSnapshot(md, kept, roots, s);
      NameHeld(s, kept[i], p);
      NamedMember(kept, Normalize(p));
    }
  }

  lemma ReachIsNamed(md: Metadata, kept: map<int, Deletion.Kept>, roots: set<string>, x: string) returns (p: string)
    requires Describes(md, kept, roots) && x in Deletion.Named(kept) + roots
    ensures Names(md, p) && Normalize(p) == x
  {
    hide Normalize, Names, SnapshotNames, RootNamed, Describes, DescribesSnapshot, Deletion.Named;
    DescribesParts(md, kept, roots, x);
    if x in roots {
      p :| RootNamed(md, p) && Normalize(p) == x;
      RootIsNamed(md, p);
    } else {
      NamedMember(kept, x);
      var i :| i in kept && x in kept[i].names;
      var s :| s in md.snapshots && DescribesSnapshot(s, kept[i]);
      p := HeldName(s, kept[i], x);
      SnapshotIsNamed(md, s, p);
    }
  }

  /** Computing reachability from the metadata of a protocol state gives what that state reaches. */
  lemma CollectedIsReach(md: Metadata, r: Reachable, kept: map<int, Deletion.Kept>, roots: set<string>)
    requires Collects(md, r) && Describes(md, kept, roots)
    ensures r.All() == Deletion.Named(kept) + roots
  {
    hide Normalize, Collects, Names, Describes;
    CollectsNamed(md, r);
    forall x
      ensures x in r.All() <==> x in Deletion.Named(kept) + roots
    {
      if x in r.All() {
        var p :| Names(md, p) && Normalize(p) == x;
        NameIsReached(md, kept, roots, p);
      }
      if x in Deletion.Named(kept) + roots {
        var p := ReachIsNamed(md, kept, roots, x);
      }
    }
  }

  lemma RootIsNamed(md: Metadata, p: string)
    requires RootNamed(md, p)
    ensures Names(md, p)
  {
  }

  /** So an expiration that reads what is reachable takes the protocol's own reading step. */
  lemma ReadingIsAStep(md: Metadata, r: Reachable, s: Deletion.State, limit: nat, minAge: nat)
    requires Collects(md, r) && Describes(md, s.kept, s.roots)
    ensures Deletion.Next(s, limit, minAge, Deletion.ReadReach, s.(readings := s.readings + {r.All()}))
  {
    hide Collects, Describes;
    CollectedIsReach(md, r, s.kept, s.roots);
  }
}
