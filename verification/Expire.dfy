/** Snapshot expiration: the commit, retried against a reloaded table, and the deletion of what it made unreachable. */
module Expire {
  import opened Wrappers
  import opened Paths
  import opened Sorting
  import opened Reachability
  import opened Retained
  import opened Orphans
  import Deletion

  const I64_MAX := 0x7FFF_FFFF_FFFF_FFFF
  const I64_MIN := -0x8000_0000_0000_0000

  /** The timestamp before which snapshots are expirable, in milliseconds; saturating at both ends. */
  function CutoffMillis(now: int, maxAge: nat): (r: int)
    requires I64_MIN <= now <= I64_MAX
    ensures I64_MIN <= r <= now
    ensures maxAge <= I64_MAX && now - maxAge >= I64_MIN ==> r == now - maxAge
    ensures maxAge <= I64_MAX && now - maxAge < I64_MIN ==> r == I64_MIN
    ensures maxAge > I64_MAX ==> r == if now >= -1 then now - I64_MAX else I64_MIN
  {
    var age := if maxAge > I64_MAX then I64_MAX else maxAge;
    if now - age < I64_MIN then I64_MIN else now - age
  }

  // ---- commit_with_retry ----

  /** How one commit attempt ends. `conflictKind` is the upstream catalog's own tag for a lost commit. */
  datatype Attempt<T> = Updated(table: T) | Failed(error: Error, conflictKind: bool)

  /** `is_conflict`: by the error's type, and for a catalog error by its kind. */
  predicate IsConflict(e: Error, conflictKind: bool) {
    e.IsReplan() || (e.CatalogFailure? && conflictKind)
  }

  /** Another writer committed first: this side's own check says so, or the catalog does. */
  predicate Lost<T>(a: Attempt<T>) {
    a.Failed? && (a.error in {Conflict, Stale} || (a.error == CatalogFailure && a.conflictKind))
  }

  /** `commit_with_retry`: attempt `i` is computed on `loads[i]`, the table as reloaded after the attempt before. Gives
      up with `None` when all three are lost. */
  method CommitWithRetry<T>(loads: seq<Result<T>>, attempts: seq<Attempt<T>>) returns (r: Result<Option<T>>, tried: seq<T>)
    requires |loads| == |attempts| == MAX_COMMIT_ATTEMPTS && loads[0].Ok?
    ensures 1 <= |tried| <= MAX_COMMIT_ATTEMPTS == 3
    ensures forall i :: 0 <= i < |tried| ==> loads[i] == Ok(tried[i])
    ensures forall i :: 0 <= i < |tried| - 1 ==> Lost(attempts[i])
    ensures r.Ok? && r.value.Some? <==> attempts[|tried| - 1].Updated?
    ensures r.Ok? && r.value.Some? ==> attempts[|tried| - 1] == Updated(r.value.value)
    ensures r.Ok? && r.value.None? <==> |tried| == MAX_COMMIT_ATTEMPTS && Lost(attempts[MAX_COMMIT_ATTEMPTS - 1])
    ensures attempts[|tried| - 1].Failed? && !Lost(attempts[|tried| - 1]) ==> r == Err(attempts[|tried| - 1].error)
    ensures r.Err? && Lost(attempts[|tried| - 1]) ==>
              |tried| < MAX_COMMIT_ATTEMPTS && loads[|tried|].Err? && r.error == loads[|tried|].error
  {
    var current := loads[0].value;
    tried := [];
    for attempt := 0 to MAX_COMMIT_ATTEMPTS
      invariant |tried| == attempt
      invariant forall i :: 0 <= i < |tried| ==> loads[i] == Ok(tried[i]) && Lost(attempts[i])
      invariant attempt < MAX_COMMIT_ATTEMPTS ==> loads[attempt] == Ok(current)
    {
      tried := tried + [current];
      if attempts[attempt].Updated? {
        return Ok(Some(attempts[attempt].table)), tried;
      }
      if !IsConflict(attempts[attempt].error, attempts[attempt].conflictKind) {
        return Err(attempts[attempt].error), tried;
      }
      if attempt + 1 == MAX_COMMIT_ATTEMPTS {
        return Ok(None), tried;
      }
      if loads[attempt + 1].Err? {
        return Err(loads[attempt + 1].error), tried;
      }
      current := loads[attempt + 1].value;
    }
    r := Ok(None);
  }

  // ---- delete_now_unreachable ----

  /** The sets expiration deletes from; logged metadata documents are the catalog's to drop. */
  function Deletable(before: Reachable): set<string> {
    before.data + before.metadata + before.statistics
  }

  predicate NowUnreachable(location: string, after: Reachable, p: string) {
    !after.Contains(p) && IsInside(location, p)
  }

  method ListOf(paths: set<string>) returns (out: seq<string>)
    ensures multiset(out) == multiset(paths)
  {
    out := [];
    var left := paths;
    while left != {}
      invariant left <= paths && multiset(out) + multiset(left) == multiset(paths)
      decreases |left|
    {
      var p :| p in left;
      out, left := out + [p], left - {p};
    }
  }

  lemma ListMembers(paths: set<string>, out: seq<string>)
    requires multiset(out) == multiset(paths)
    ensures forall p :: p in out <==> p in paths
  {
    forall p
      ensures p in out <==> p in paths
    {
      assert p in out <==> p in multiset(out);
      assert p in paths <==> p in multiset(paths);
    }
  }

  /** The loop over what was reachable before. */
  method Superseded(paths: seq<string>, after: Reachable, location: string) returns (doomed: seq<string>)
    ensures doomed == Keep(paths, p => NowUnreachable(location, after, p))
  {
    hide Normalize, IsInside;
    doomed := [];
    var gone := p => NowUnreachable(location, after, p);
    for i := 0 to |paths|
      invariant doomed == Keep(paths[..i], gone)
    {
      PrefixGrows(paths, i);
      KeepAppend(paths[..i], paths[i], gone);
      if after.Contains(paths[i]) {
        continue;
      }
      if !IsInside(location, paths[i]) {
        continue;
      }
      doomed := doomed + [paths[i]];
    }
    PrefixWhole(paths);
  }

  /** `delete_now_unreachable`, up to the deletions: before minus after, inside the table's location, in order, cut to
      the ceiling. */
  method DeleteNowUnreachable(updated: Metadata, before: Reachable, ceiling: nat)
      returns (r: Result<(seq<string>, nat)>, ghost after: Reachable, ghost whole: seq<string>)
    ensures r.Ok? ==> Collects(updated, after)
    ensures r.Ok? ==> forall p :: p in whole <==> p in Deletable(before) && NowUnreachable(updated.location, after, p)
    ensures r.Ok? ==> Sorted(whole, StringLe) && r.value.0 == Truncate(whole, ceiling)
    ensures r.Ok? ==> |r.value.0| + r.value.1 == |whole|
    ensures r.Ok? <==> forall s :: s in updated.snapshots ==> Readable(s)
  {
    hide Normalize, IsInside, Collects, Readable;
    after, whole := before, [];
    var now := Compute(updated);
    if now.Err? {
      return Err(now.error), after, whole;
    }
    after := now.value;
    var data := ListOf(before.data);
    var metadata := ListOf(before.metadata);
    var statistics := ListOf(before.statistics);
    var found := Superseded(data + metadata + statistics, now.value, updated.location);
    var doomed := SortStrings(found);
    whole := doomed;
    DeletableListed(before, data, metadata, statistics);
    KeepMembers(data + metadata + statistics, (p: string) => NowUnreachable(updated.location, now.value, p));
    forall p
      ensures p in doomed <==> p in found
    {
      SameElements(found, StringLe, p);
    }
    StringOrder();
    SortBySorted(found, StringLe);
    var left, withheld := WithholdBeyond(doomed, ceiling);
    r := Ok((left, withheld));
  }

  lemma DeletableListed(before: Reachable, data: seq<string>, metadata: seq<string>, statistics: seq<string>)
    requires multiset(data) == multiset(before.data) && multiset(metadata) == multiset(before.metadata)
    requires multiset(statistics) == multiset(before.statistics)
    ensures forall p :: p in data + metadata + statistics <==> p in Deletable(before)
  {
    ListMembers(before.data, data);
    ListMembers(before.metadata, metadata);
    ListMembers(before.statistics, statistics);
  }

  /** What the commit of an expiration leaves: every snapshot but `gone`. */
  function Left(s: Deletion.State, gone: set<int>): map<int, Deletion.Kept> {
    map i | i in s.kept && i !in gone :: s.kept[i]
  }

  /** Expiration's deletions are what the deletion protocol lets an expiration doom. `read` is the state `before` was computed
      on, and its reading stands; `updated` is the metadata the expiration committed. Committing and listing is then one step. */
  lemma KillIsAnExpiration(s: Deletion.State, limit: nat, minAge: nat, gone: set<int>, roots: set<string>, location: string,
                           read: Deletion.State, table: Metadata, before: Reachable, updated: Metadata, after: Reachable,
                           whole: seq<string>, ceiling: nat)
    requires forall p :: p in whole ==> p in Deletable(before) && NowUnreachable(location, after, p)
    requires Collects(table, before) && Describes(table, read.kept, read.roots) && Deletion.Reach(read) in s.readings
    requires Collects(updated, after) && Describes(updated, Left(s, gone), roots)
    requires Deletion.Committable(s, limit, roots - s.roots)
    ensures var kill := set p | p in Truncate(whole, ceiling);
            Deletion.Next(s, limit, minAge, Deletion.Expire(before.All(), gone, roots, kill),
                          s.(kept := Left(s, gone), roots := roots, staged := s.staged - (roots - s.roots),
                             used := s.used + (roots - s.roots), doomed := s.doomed + kill))
  {
    hide Normalize, IsInside, Collects, Describes;
    CollectedIsReach(table, before, read.kept, read.roots);
    CollectedIsReach(updated, after, Left(s, gone), roots);
    CollectedAreNormal(table, before);
    var kill := set p | p in Truncate(whole, ceiling);
    forall p | p in kill
      ensures p in before.All() - (Deletion.Named(Left(s, gone)) + roots)
    {
      assert p in whole;
      assert p in before.All();
      assert Normalize(p) == p;
    }
  }
}
