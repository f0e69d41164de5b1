/** Orphan-file removal: seven checks between a listed object and its deletion, and the rules any kill list obeys. */
module Orphans {
  import opened Wrappers
  import opened Strings
  import opened Paths
  import opened Sorting
  import opened Reachability
  import opened Retained
  import Deletion

  /** A listed object; a store may not say when it was written. Times are in seconds. */
  datatype Object = Object(path: string, size: nat, modified: Option<int>)

  const MIN_ORPHAN_AGE := 24 * 60 * 60

  datatype Job = Job(location: string, siblings: seq<string>, minAge: nat, dryRun: bool, ceiling: nat, now: int) {
    function Cutoff(): int {
      now - minAge
    }
  }

  /** What a run did. `doomed` is what it announced and deleted. */
  datatype Report = Report(orphans: nat, doomed: seq<string>, reprieved: nat, withheld: nat)

  // ---- withhold_beyond ----

  function Truncate(paths: seq<string>, ceiling: nat): seq<string> {
    if |paths| <= ceiling then paths else paths[..ceiling]
  }

  /** `withhold_beyond`: the list cut to the ceiling, and how many that left out. */
  method WithholdBeyond(doomed: seq<string>, ceiling: nat) returns (left: seq<string>, withheld: nat)
    ensures left <= doomed && |left| + withheld == |doomed|
    ensures |left| <= ceiling
    ensures withheld > 0 ==> |left| == ceiling
    ensures left == Truncate(doomed, ceiling)
  {
    left, withheld := doomed, 0;
    if |doomed| > ceiling {
      withheld := |doomed| - ceiling;
      left := doomed[..ceiling];
    }
  }

  // ---- The scan ----

  /** Unreachable, inside the table's own location, and known to be old enough. */
  predicate IsCandidate(location: string, reach: Reachable, cutoff: int, o: Object) {
    && !reach.Contains(o.path)
    && IsInside(location, o.path)
    && o.modified.Some? && o.modified.value <= cutoff
  }

  function CandidatePaths(location: string, reach: Reachable, cutoff: int, objects: seq<Object>): seq<string> {
    if objects == [] then []
    else
      var front, last := objects[..|objects| - 1], objects[|objects| - 1];
      CandidatePaths(location, reach, cutoff, front) + (if IsCandidate(location, reach, cutoff, last) then [last.path] else [])
  }

  lemma {:induction false} CandidateMembers(location: string, reach: Reachable, cutoff: int, objects: seq<Object>)
    ensures forall p :: p in CandidatePaths(location, reach, cutoff, objects) <==>
                          exists o :: o in objects && o.path == p && IsCandidate(location, reach, cutoff, o)
  {
    hide IsCandidate;
    if objects != [] {
      var front, last := objects[..|objects| - 1], objects[|objects| - 1];
      CandidateMembers(location, reach, cutoff, front);
      assert objects == front + [last];
    }
  }

  /** Everything the listing delivered without an error. */
  function Listed(listing: seq<Result<Object>>): (r: seq<Object>)
    requires forall i :: 0 <= i < |listing| ==> listing[i].Ok?
    ensures |r| == |listing| && forall i :: 0 <= i < |r| ==> r[i] == listing[i].value
  {
    seq(|listing|, i requires 0 <= i < |listing| => listing[i].value)
  }

  predicate BetraysATable(location: string, x: Result<Object>) {
    x.Ok? && NestedTableRoot(location, x.value.path).Some?
  }

  /** The listing is read up to `i`, and ends there: in the store's own error, or refused over another table's document. */
  ghost predicate StopsAt(location: string, listing: seq<Result<Object>>, i: nat, e: Error)
    requires i < |listing|
  {
    && (forall k :: 0 <= k < i ==> listing[k].Ok? && !BetraysATable(location, listing[k]))
    && (listing[i] == Err(e) || (BetraysATable(location, listing[i]) && e == Refused))
  }

  lemma ListedGrows(listing: seq<Result<Object>>, i: nat)
    requires i < |listing| && forall k :: 0 <= k <= i ==> listing[k].Ok?
    ensures Listed(listing[..i + 1]) == Listed(listing[..i]) + [listing[i].value]
  {
    PrefixGrows(listing, i);
  }

  /** The loop over the listing. It stops at the first object that betrays another table, and at the first error. */
  method Sift(location: string, reach: Reachable, cutoff: int, listing: seq<Result<Object>>) returns (r: Result<seq<string>>)
    ensures r.Ok? <==> forall i :: 0 <= i < |listing| ==> listing[i].Ok? && !BetraysATable(location, listing[i])
    ensures r.Ok? ==> r.value == CandidatePaths(location, reach, cutoff, Listed(listing))
    ensures r.Err? ==> exists i :: 0 <= i < |listing| && StopsAt(location, listing, i, r.error)
  {
    hide NestedTableRoot, IsInside, Normalize;
    var candidates: seq<string> := [];
    for i := 0 to |listing|
      invariant forall k :: 0 <= k < i ==> listing[k].Ok? && !BetraysATable(location, listing[k])
      invariant candidates == CandidatePaths(location, reach, cutoff, Listed(listing[..i]))
    {
      if listing[i].Err? {
        assert StopsAt(location, listing, i, listing[i].error);
        return Err(listing[i].error);
      }
      var found := listing[i].value;
      if NestedTableRoot(location, found.path).Some? {
        assert BetraysATable(location, listing[i]);
        assert StopsAt(location, listing, i, Refused);
        return Err(Refused);
      }
      ListedGrows(listing, i);
      CandidatesGrow(location, reach, cutoff, Listed(listing[..i]), found);
      if reach.Contains(found.path) {
        continue;
      }
      if !IsInside(location, found.path) {
        continue;
      }
      if found.modified.None? {
        continue;
      }
      if found.modified.value > cutoff {
        continue;
      }
      candidates := candidates + [found.path];
    }
    PrefixWhole(listing);
    r := Ok(candidates);
  }

  lemma CandidatesGrow(location: string, reach: Reachable, cutoff: int, objects: seq<Object>, o: Object)
    ensures CandidatePaths(location, reach, cutoff, objects + [o]) ==
            CandidatePaths(location, reach, cutoff, objects) + (if IsCandidate(location, reach, cutoff, o) then [o.path] else [])
  {
    assert (objects + [o])[..|objects + [o]| - 1] == objects;
  }

  // ---- Re-verification ----

  function StillUnreachable(candidates: seq<string>, reach: Reachable): seq<string> {
    Keep(candidates, p => !reach.Contains(p))
  }

  /** `reverify`: what became reachable since the scan is spared. */
  method Reverify(candidates: seq<string>, reach: Reachable) returns (doomed: seq<string>, reprieved: nat)
    ensures doomed == StillUnreachable(candidates, reach)
    ensures |doomed| + reprieved == |candidates|
  {
    doomed := StillUnreachable(candidates, reach);
    KeepShorter(candidates, p => !reach.Contains(p));
    reprieved := |candidates| - |doomed|;
  }

  lemma HeadIsLeast(s: seq<string>, y: string)
    requires s != [] && Sorted(s, StringLe) && y in s[1..]
    ensures StringLe(s[0], y)
  {
    hide StringLe;
    var k :| 0 <= k < |s[1..]| && s[1..][k] == y;
    assert StringLe(s[0], s[k + 1]);
  }

  lemma SortedCons(x: string, s: seq<string>)
    requires Sorted(s, StringLe) && forall y :: y in s ==> StringLe(x, y)
    ensures Sorted([x] + s, StringLe)
  {
    hide StringLe;
    forall i, j | 0 <= i < j < |[x] + s|
      ensures StringLe(([x] + s)[i], ([x] + s)[j])
    {
      assert ([x] + s)[j] == s[j - 1] && s[j - 1] in s;
    }
  }

  lemma {:induction false} KeepSorted(s: seq<string>, p: string -> bool)
    requires Sorted(s, StringLe)
    ensures Sorted(Keep(s, p), StringLe)
  {
    hide Keep, StringLe;
    if s == [] {
      KeepNothing(s, p);
    } else {
      assert Sorted(s[1..], StringLe);
      KeepSorted(s[1..], p);
      KeepCons(s[0], s[1..], p);
      assert s == [s[0]] + s[1..];
      KeepMembers(s[1..], p);
      forall y | y in Keep(s[1..], p)
        ensures StringLe(s[0], y)
      {
        HeadIsLeast(s, y);
      }
      SortedCons(s[0], Keep(s[1..], p));
      assert [] + Keep(s[1..], p) == Keep(s[1..], p);
    }
  }

  /** Re-verification spares every copy of what became reachable and not one of anything else, and a sorted list stays so. */
  lemma SparesExactlyTheReachable(candidates: seq<string>, reach: Reachable)
    ensures forall p :: multiset(StillUnreachable(candidates, reach))[p] == if reach.Contains(p) then 0 else multiset(candidates)[p]
    ensures Sorted(candidates, StringLe) ==> Sorted(StillUnreachable(candidates, reach), StringLe)
  {
    hide Normalize, StringLe, Keep;
    var unreachable := p => !reach.Contains(p);
    forall p
      ensures multiset(StillUnreachable(candidates, reach))[p] == if reach.Contains(p) then 0 else multiset(candidates)[p]
    {
      KeepCount(candidates, unreachable, p);
    }
    if Sorted(candidates, StringLe) {
      KeepSorted(candidates, unreachable);
    }
  }

  lemma {:induction false} KeepShorter<T>(s: seq<T>, p: T -> bool)
    ensures |Keep(s, p)| <= |s|
  {
    if s != [] {
      KeepShorter(s[1..], p);
    }
  }

  // ---- run ----

  predicate NestedSibling(location: string, siblings: seq<string>) {
    exists s | s in siblings :: IsInside(location, s)
  }

  /** Refusals settled before anything is listed: an age under a day, or another table's location inside this one's. */
  ghost predicate RefusedAtOnce(job: Job) {
    job.minAge < 86_400 || exists s :: s in job.siblings && IsInside(job.location, s)
  }

  ghost predicate CleanListing(location: string, listing: seq<Result<Object>>) {
    forall i :: 0 <= i < |listing| ==> listing[i].Ok? && !BetraysATable(location, listing[i])
  }

  /** The whole kill list, before the ceiling. */
  function KillList(job: Job, before: Reachable, after: Reachable, objects: seq<Object>): seq<string> {
    StillUnreachable(SortStrings(CandidatePaths(job.location, before, job.Cutoff(), objects)), after)
  }

  /** Every retained snapshot can be read. */
  predicate AllReadable(md: Metadata) {
    forall s | s in md.snapshots :: Readable(s)
  }

  /** The listing holds a candidate. */
  ghost predicate Found(job: Job, before: Reachable, listing: seq<Result<Object>>) {
    exists o :: Ok(o) in listing && IsCandidate(job.location, before, job.Cutoff(), o)
  }

  lemma FoundIsListed(job: Job, before: Reachable, listing: seq<Result<Object>>)
    requires forall i :: 0 <= i < |listing| ==> listing[i].Ok?
    ensures Found(job, before, listing) <==> CandidatePaths(job.location, before, job.Cutoff(), Listed(listing)) != []
  {
    hide IsCandidate;
    var objects := Listed(listing);
    var paths := CandidatePaths(job.location, before, job.Cutoff(), objects);
    CandidateMembers(job.location, before, job.Cutoff(), objects);
    if Found(job, before, listing) {
      var o :| Ok(o) in listing && IsCandidate(job.location, before, job.Cutoff(), o);
      var i :| 0 <= i < |listing| && listing[i] == Ok(o);
      assert objects[i] == o;
      assert o.path in paths;
    }
    if paths != [] {
      assert paths[0] in paths;
      var o :| o in objects && o.path == paths[0] && IsCandidate(job.location, before, job.Cutoff(), o);
      var i :| 0 <= i < |objects| && objects[i] == o;
      assert listing[i] == Ok(o);
    }
  }

  /** `run`. `table` and `reloaded` are the metadata of the two loads, the second after the listing is read. */
  method Run(job: Job, table: Metadata, listing: seq<Result<Object>>, reloaded: Result<Metadata>)
      returns (r: Result<Report>, ghost before: Reachable, ghost after: Reachable)
    requires table.location == job.location
    ensures RefusedAtOnce(job) ==> r == Err(Refused)
    ensures !RefusedAtOnce(job) && AllReadable(table) ==> Collects(table, before)
    ensures r.Ok? <==> && !RefusedAtOnce(job) && AllReadable(table) && CleanListing(job.location, listing)
                       && (!job.dryRun && Found(job, before, listing) ==> reloaded.Ok? && AllReadable(reloaded.value))
    ensures r.Ok? ==> r.value.orphans == |CandidatePaths(job.location, before, job.Cutoff(), Listed(listing))|
    ensures r.Ok? && (job.dryRun || !Found(job, before, listing)) ==> r.value.doomed == [] && r.value.reprieved == r.value.withheld == 0
    ensures r.Ok? && !job.dryRun && Found(job, before, listing) ==>
              && Collects(reloaded.value, after)
              && var whole := KillList(job, before, after, Listed(listing));
                 && r.value.doomed == Truncate(whole, job.ceiling)
                 && |whole| + r.value.reprieved == r.value.orphans && |r.value.doomed| + r.value.withheld == |whole|
  {
    hide Normalize, NestedTableRoot, IsInside, Collects, Readable, BetraysATable, IsCandidate, Found;
    before, after := Reachable({}, {}, {}, {}), Reachable({}, {}, {}, {});
    if job.minAge < MIN_ORPHAN_AGE {
      return Err(Refused), before, after;
    }
    if NestedSibling(job.location, job.siblings) {
      return Err(Refused), before, after;
    }
    var reach := Compute(table);
    if reach.Err? {
      return Err(reach.error), before, after;
    }
    before := reach.value;
    NeverEmpty(table, before);
    if reach.value.IsEmpty() && table.hasCurrentSnapshot {
      return Err(Refused), before, after;
    }
    var sifted := Sift(job.location, reach.value, job.Cutoff(), listing);
    if sifted.Err? {
      return Err(sifted.error), before, after;
    }
    FoundIsListed(job, before, listing);
    var candidates := SortStrings(sifted.value);
    if job.dryRun {
      return Ok(Report(|candidates|, [], 0, 0)), before, after;
    }
    if candidates == [] {
      return Ok(Report(0, [], 0, 0)), before, after;
    }
    if reloaded.Err? {
      return Err(reloaded.error), before, after;
    }
    var now := Compute(reloaded.value);
    if now.Err? {
      return Err(now.error), before, after;
    }
    after := now.value;
    var unreachable, reprieved := Reverify(candidates, now.value);
    var doomed, withheld := WithholdBeyond(unreachable, job.ceiling);
    r := Ok(Report(|candidates|, doomed, reprieved, withheld));
  }

  // ---- What a kill list may hold ----

  /** Everything deleted was listed, unreachable at both loads, strictly inside the table's own location, and at least
      `minAge` old by the clock the run began with. */
  lemma DoomedAreOrphans(job: Job, before: Reachable, after: Reachable, objects: seq<Object>, p: string)
    requires p in Truncate(KillList(job, before, after, objects), job.ceiling)
    ensures !before.Contains(p) && !after.Contains(p) && IsInside(job.location, p)
    ensures exists o :: o in objects && o.path == p && o.modified.Some? && o.modified.value + job.minAge <= job.now
  {
    hide Normalize, IsInside;
    var candidates := CandidatePaths(job.location, before, job.Cutoff(), objects);
    assert p in KillList(job, before, after, objects);
    KeepMembers(SortStrings(candidates), (x: string) => !after.Contains(x));
    SameElements(candidates, StringLe, p);
    CandidateMembers(job.location, before, job.Cutoff(), objects);
  }

  /** And nothing that qualifies is missed: with the ceiling out of the way, every listed object that is old, inside and
      unreachable at both loads is on the list. */
  lemma OrphansAreDoomed(job: Job, before: Reachable, after: Reachable, objects: seq<Object>, o: Object)
    requires o in objects && !before.Contains(o.path) && !after.Contains(o.path) && IsInside(job.location, o.path)
    requires o.modified.Some? && o.modified.value + job.minAge <= job.now
    ensures o.path in KillList(job, before, after, objects)
  {
    hide Normalize, IsInside;
    var candidates := CandidatePaths(job.location, before, job.Cutoff(), objects);
    CandidateMembers(job.location, before, job.Cutoff(), objects);
    SameElements(candidates, StringLe, o.path);
    KeepMembers(SortStrings(candidates), (x: string) => !after.Contains(x));
  }

  /** A listing that holds any metadata document below `location/root/metadata/`, for a non-empty `root`, belongs to another
      table too, and no run over it deletes anything, wherever in the listing the document comes. The document counts unless
      what follows the location itself begins with `/metadata/`, which cannot happen when paths are listed with a scheme only
      if the location has one. */
  lemma ForeignTableStopsTheRun(location: string, listing: seq<Result<Object>>, o: Object, root: string, rest: string)
    requires Ok(o) in listing && ForeignDocument(location, o.path, root, rest)
    ensures BetraysATable(location, Ok(o)) <==> !StartsWith(root + METADATA_DIR + rest, METADATA_DIR)
    ensures !StartsWith(root + METADATA_DIR + rest, METADATA_DIR) ==> !CleanListing(location, listing)
    ensures (HasScheme(o.path) ==> HasScheme(location)) ==> !CleanListing(location, listing)
  {
    hide Normalize, NestedTableRoot, HasScheme;
    ForeignIsDetected(location, o.path, root, rest);
    if HasScheme(o.path) ==> HasScheme(location) {
      SameKindOfAddressIsDetected(location, o.path, root, rest);
    }
    var i :| 0 <= i < |listing| && listing[i] == Ok(o);
    assert BetraysATable(location, listing[i]) <==> BetraysATable(location, Ok(o));
  }

  // ---- A run, as the deletion protocol sees it ----

  /** A stretch of a protocol run, from any state. */
  ghost predicate Follows(states: seq<Deletion.State>, steps: seq<Deletion.Step>, limit: nat, minAge: nat) {
    && |states| == |steps| + 1
    && forall i :: 0 <= i < |steps| ==> Deletion.Next(states[i], limit, minAge, steps[i], states[i + 1])
  }

  lemma FollowsOn(states: seq<Deletion.State>, steps: seq<Deletion.Step>, limit: nat, minAge: nat, step: Deletion.Step, s': Deletion.State)
    requires Follows(states, steps, limit, minAge) && Deletion.Next(states[|states| - 1], limit, minAge, step, s')
    ensures Follows(states + [s'], steps + [step], limit, minAge)
  {
    hide Deletion.Next;
  }

  /** The listing tells the truth about the object: it exists, and its modification time is when it was written. */
  ghost predicate Stored(o: Object, s: Deletion.State) {
    && Normalize(o.path) in s.store && Normalize(o.path) in s.born
    && (o.modified.Some? ==> s.born[Normalize(o.path)] == o.modified.value)
  }

  function Candidates(job: Job, before: Reachable, objects: seq<Object>): set<string> {
    set o | o in objects && IsCandidate(job.location, before, job.Cutoff(), o) :: Normalize(o.path)
  }

  /** A scan in this run's name: its age limit, and what the table reached when it began. */
  predicate ScanOf(job: Job, before: Reachable, scan: Deletion.Scan) {
    scan.cutoff == job.Cutoff() && scan.reached == before.All()
  }

  /** A candidate is what the protocol lets a scan find. */
  lemma CandidateIsFound(job: Job, before: Reachable, o: Object, s: Deletion.State, scan: Deletion.Scan, limit: nat)
    requires IsCandidate(job.location, before, job.Cutoff(), o) && Stored(o, s)
    requires scan in s.scans && ScanOf(job, before, scan)
    ensures Deletion.Next(s, limit, job.minAge, Deletion.Find(scan, Normalize(o.path)),
                          s.(scans := s.scans + {scan.(found := scan.found + {Normalize(o.path)})}))
  {
    hide Normalize, IsInside;
  }

  lemma CandidatesGrowBy(job: Job, before: Reachable, front: seq<Object>, o: Object)
    ensures Candidates(job, before, front + [o]) ==
            Candidates(job, before, front) + if IsCandidate(job.location, before, job.Cutoff(), o) then {Normalize(o.path)} else {}
  {
    hide Normalize, IsCandidate;
  }

  /** The loop over the listing, as finds one after another. */
  lemma {:induction false} ListingIsFound(job: Job, before: Reachable, objects: seq<Object>, s: Deletion.State, scan: Deletion.Scan, limit: nat)
      returns (states: seq<Deletion.State>, steps: seq<Deletion.Step>, filled: Deletion.Scan)
    requires scan in s.scans && ScanOf(job, before, scan)
    requires forall o :: o in objects && IsCandidate(job.location, before, job.Cutoff(), o) ==> Stored(o, s)
    ensures Follows(states, steps, limit, job.minAge) && states[0] == s
    ensures var last := states[|states| - 1];
            filled in last.scans && ScanOf(job, before, filled) && last == s.(scans := last.scans)
    ensures filled.found == scan.found + Candidates(job, before, objects)
    ensures forall step :: step in steps ==> step.Find?
  {
    hide Normalize, IsCandidate, Deletion.Next;
    if objects == [] {
      states, steps, filled := [s], [], scan;
    } else {
      var front, o := objects[..|objects| - 1], objects[|objects| - 1];
      assert objects == front + [o];
      states, steps, filled := ListingIsFound(job, before, front, s, scan, limit);
      CandidatesGrowBy(job, before, front, o);
      if IsCandidate(job.location, before, job.Cutoff(), o) {
        var last := states[|states| - 1];
        var s' := last.(scans := last.scans + {filled.(found := filled.found + {Normalize(o.path)})});
        CandidateIsFound(job, before, o, last, filled, limit);
        FollowsOn(states, steps, limit, job.minAge, Deletion.Find(filled, Normalize(o.path)), s');
        states, steps := states + [s'], steps + [Deletion.Find(filled, Normalize(o.path))];
        filled := filled.(found := filled.found + {Normalize(o.path)});
      }
    }
  }

  function Doomed(job: Job, before: Reachable, after: Reachable, objects: seq<Object>): set<string> {
    set p | p in Truncate(KillList(job, before, after, objects), job.ceiling) :: Normalize(p)
  }

  lemma DoomedAreCandidates(job: Job, before: Reachable, after: Reachable, objects: seq<Object>)
    ensures Doomed(job, before, after, objects) <= Candidates(job, before, objects) - after.All()
  {
    hide Normalize, IsInside;
    var candidates := CandidatePaths(job.location, before, job.Cutoff(), objects);
    CandidateMembers(job.location, before, job.Cutoff(), objects);
    KeepMembers(SortStrings(candidates), (x: string) => !after.Contains(x));
    forall i | i in Doomed(job, before, after, objects)
      ensures i in Candidates(job, before, objects) - after.All()
    {
      var p :| p in Truncate(KillList(job, before, after, objects), job.ceiling) && Normalize(p) == i;
      assert p in KillList(job, before, after, objects);
      SameElements(candidates, StringLe, p);
    }
  }

  /** A whole run is a run of the deletion protocol: a scan begun with this age limit, a find for every candidate of the
      listing, and a verification against what the second load names, whose kill list is exactly what the run deletes. */
  lemma RunIsAScan(job: Job, before: Reachable, now: Metadata, after: Reachable, objects: seq<Object>, s: Deletion.State, limit: nat)
      returns (states: seq<Deletion.State>, steps: seq<Deletion.Step>)
    requires job.now <= s.now && Collects(now, after) && Describes(now, s.kept, s.roots)
    requires forall o :: o in objects && IsCandidate(job.location, before, job.Cutoff(), o) ==> Stored(o, s)
    ensures Follows(states, steps, limit, job.minAge) && states[0] == s
    ensures |steps| >= 2 && steps[0] == Deletion.BeginScan(job.Cutoff())
    ensures steps[|steps| - 1].Verify? && steps[|steps| - 1].kill == Doomed(job, before, after, objects)
    ensures forall step :: step in steps[1..|steps| - 1] ==> step.Find?
    ensures states[|states| - 1].doomed == s.doomed + Doomed(job, before, after, objects)
    ensures states[|states| - 1] == s.(scans := states[|states| - 1].scans, doomed := states[|states| - 1].doomed)
  {
    hide Normalize, IsCandidate, Deletion.Next, Doomed, Candidates, Collects, Describes;
    CollectedIsReach(now, after, s.kept, s.roots);
    var scan := Deletion.Scan(job.Cutoff(), before.All(), {});
    var begun := s.(scans := s.scans + {scan});
    BeginIsAllowed(s, limit, job.minAge, job.Cutoff(), before.All());
    var found, finds, filled := ListingIsFound(job, before, objects, begun, scan, limit);
    var last := found[|found| - 1];
    var kill := Doomed(job, before, after, objects);
    DoomedAreCandidates(job, before, after, objects);
    VerifyIsAllowed(last, limit, job.minAge, filled, kill);
    states, steps := [s] + found, [Deletion.BeginScan(job.Cutoff())] + finds;
    assert Follows(states, steps, limit, job.minAge) by {
      forall i | 0 <= i < |steps|
        ensures Deletion.Next(states[i], limit, job.minAge, steps[i], states[i + 1])
      {
        if i > 0 {
          assert steps[i] == finds[i - 1] && states[i] == found[i - 1] && states[i + 1] == found[i];
        }
      }
    }
    FollowsOn(states, steps, limit, job.minAge, Deletion.Verify(filled, kill), last.(doomed := last.doomed + kill));
    states, steps := states + [last.(doomed := last.doomed + kill)], steps + [Deletion.Verify(filled, kill)];
    assert steps[1..|steps| - 1] == finds;
  }

  lemma BeginIsAllowed(s: Deletion.State, limit: nat, minAge: nat, cutoff: int, reached: set<string>)
    requires cutoff <= s.now - minAge
    ensures Deletion.Next(s, limit, minAge, Deletion.BeginScan(cutoff), s.(scans := s.scans + {Deletion.Scan(cutoff, reached, {})}))
  {
  }

  lemma VerifyIsAllowed(s: Deletion.State, limit: nat, minAge: nat, scan: Deletion.Scan, kill: set<string>)
    requires scan in s.scans && kill <= scan.found - Deletion.Reach(s)
    ensures Deletion.Next(s, limit, minAge, Deletion.Verify(scan, kill), s.(doomed := s.doomed + kill))
  {
  }
}
