/** Deleting files while writers commit: staging, commits, expiration, orphan removal and the clock, as one state
    machine. Paths stand for normalized locations inside the table's own location. */
module Deletion {
  import opened Wrappers

  type Path = string

  /** A retained snapshot: the files a reader of it needs, and every file its metadata names, entries recorded as
      removed included. */
  datatype Kept = Kept(needs: set<Path>, names: set<Path>)

  /** An orphan scan under way: the age limit its listing is held to, what the table reached when it began, and the
      candidates found so far. */
  datatype Scan = Scan(cutoff: int, reached: set<Path>, found: set<Path>)

  /** `store`: what exists. `born`: when each path was written; paths are never reused. `staged`: written and not yet
      committed by the writer that may. `used`: ever referenced by the table. `kept`: retained snapshots. `roots`:
      files the table's metadata needs beside its snapshots, such as logged metadata documents and statistics.
      `readings`: reachable sets some expiration has read. `scans`: orphan scans under way. `doomed`: every path on a
      final kill list, whose deletion may still be coming. */
  datatype State = State(now: int, store: set<Path>, born: map<Path, int>, staged: set<Path>, used: set<Path>,
                         kept: map<int, Kept>, roots: set<Path>, readings: set<set<Path>>, scans: set<Scan>,
                         doomed: set<Path>)

  function Named(kept: map<int, Kept>): set<Path> {
    set i, p | i in kept && p in kept[i].names :: p
  }

  /** `reachability::compute`: every file any retained snapshot names, and the roots. */
  function Reach(s: State): set<Path> {
    Named(s.kept) + s.roots
  }

  datatype Step =
    | Tick(dt: nat)
    | Stage(paths: set<Path>)
    | Abandon(paths: set<Path>)
    | Commit(parent: Option<int>, id: int, snapshot: Kept, roots: set<Path>)
    | ReadReach
    | Expire(reading: set<Path>, gone: set<int>, roots: set<Path>, kill: set<Path>)
    | BeginScan(cutoff: int)
    | Find(scan: Scan, path: Path)
    | Verify(scan: Scan, kill: set<Path>)
    | Delete(path: Path)

  function ParentNeeds(s: State, parent: Option<int>): set<Path> {
    if parent.Some? && parent.value in s.kept then s.kept[parent.value].needs else {}
  }

  function ParentNames(s: State, parent: Option<int>): set<Path> {
    if parent.Some? && parent.value in s.kept then s.kept[parent.value].names else {}
  }

  /** Files a writer staged recently enough to commit. */
  ghost predicate Committable(s: State, limit: nat, paths: set<Path>) {
    forall p :: p in paths ==> p in s.staged && p in s.born && s.now < s.born[p] + limit
  }

  /** A writer's commit references files live in its parent, a retained snapshot, and files it staged itself. */
  ghost predicate Commits(s: State, limit: nat, step: Step, s': State)
    requires step.Commit?
  {
    var own := (step.snapshot.needs + step.snapshot.names + step.roots) - ParentNames(s, step.parent) - s.roots;
    && step.id !in s.kept
    && (step.parent.Some? ==> step.parent.value in s.kept)
    && step.snapshot.needs <= step.snapshot.names
    && step.snapshot.needs <= ParentNeeds(s, step.parent) + own
    && step.roots <= s.roots + own
    && Committable(s, limit, own)
    && s' == s.(kept := s.kept[step.id := step.snapshot], roots := step.roots, staged := s.staged - own, used := s.used + own)
  }

  /** Expiration commits, keeping every snapshot but `gone`, then lists what it had read as reachable and no longer is.
      Metadata documents are left off the list and a ceiling cuts it, so it is any part of that difference. */
  ghost predicate Expires(s: State, limit: nat, step: Step, s': State)
    requires step.Expire?
  {
    var kept := map i | i in s.kept && i !in step.gone :: s.kept[i];
    var own := step.roots - s.roots;
    && step.reading in s.readings && Committable(s, limit, own)
    && step.kill <= step.reading - (Named(kept) + step.roots)
    && s' == s.(kept := kept, roots := step.roots, staged := s.staged - own, used := s.used + own, doomed := s.doomed + step.kill)
  }

  function BornAt(paths: set<Path>, now: int): map<Path, int> {
    map p | p in paths :: now
  }

  /** `limit`: writers commit strictly sooner than this after staging. `minAge`: the age orphan removal is configured
      with. */
  ghost predicate Next(s: State, limit: nat, minAge: nat, step: Step, s': State) {
    match step
    case Tick(dt) => s' == s.(now := s.now + dt)
    case Stage(paths) =>
      && (forall p :: p in paths ==> p !in s.born)
      && s' == s.(store := s.store + paths, born := s.born + BornAt(paths, s.now), staged := s.staged + paths)
    case Abandon(paths) =>
      && paths <= s.staged
      && s' == s.(store := s.store - paths, staged := s.staged - paths)
    case Commit(_, _, _, _) => Commits(s, limit, step, s')
    case ReadReach => s' == s.(readings := s.readings + {Reach(s)})
    case Expire(_, _, _, _) => Expires(s, limit, step, s')
    case BeginScan(cutoff) =>
      && cutoff <= s.now - minAge
      && exists reached :: s' == s.(scans := s.scans + {Scan(cutoff, reached, {})})
    case Find(scan, path) =>
      && scan in s.scans && path in s.store && path in s.born
      && path !in scan.reached && s.born[path] <= scan.cutoff
      && s' == s.(scans := s.scans + {scan.(found := scan.found + {path})})
    case Verify(scan, kill) =>
      && scan in s.scans && kill <= scan.found - Reach(s)
      && s' == s.(doomed := s.doomed + kill)
    case Delete(path) => path in s.doomed && s' == s.(store := s.store - {path})
  }

  /** A table at rest: what it needs exists, and nobody is at work. */
  ghost predicate Init(s: State) {
    && (forall i :: i in s.kept ==> s.kept[i].needs <= s.kept[i].names)
    && Needed(s) <= s.store
    && Reach(s) <= s.used && s.used <= s.born.Keys && s.store <= s.born.Keys
    && s.staged == {} && s.readings == {} && s.scans == {} && s.doomed == {}
    && (forall p :: p in s.born ==> s.born[p] <= s.now)
  }

  /** What must exist: the files of every retained snapshot, and the roots. */
  function Needed(s: State): set<Path> {
    (set i, p | i in s.kept && p in s.kept[i].needs :: p) + s.roots
  }

  /** Past committing: referenced once already, or abandoned, or too old. */
  predicate Settled(s: State, limit: nat, p: Path) {
    p in s.born && (p !in s.staged || s.now >= s.born[p] + limit)
  }

  ghost predicate Safe(s: State) {
    Needed(s) <= s.store
  }

  ghost predicate Tidy(s: State) {
    && (forall i :: i in s.kept ==> s.kept[i].needs <= s.kept[i].names)
    && Reach(s) <= s.used && s.used <= s.born.Keys && s.store <= s.born.Keys && s.staged <= s.born.Keys
    && s.staged !! s.used
    && (forall p :: p in s.born ==> s.born[p] <= s.now)
    && (forall r :: r in s.readings ==> r <= s.used)
  }

  /** A file still young enough to be committed exists. */
  ghost predicate YoungExist(s: State, limit: nat) {
    forall p :: p in s.staged && p in s.born && s.now < s.born[p] + limit ==> p in s.store
  }

  /** What a scan has found is old. */
  ghost predicate FoundAreOld(s: State, minAge: nat) {
    forall scan: Scan, p :: scan in s.scans && p in scan.found ==> p in s.born && s.born[p] + minAge <= s.now
  }

  /** What is to be deleted is out of reach, for good. */
  ghost predicate DoomedAreGone(s: State, limit: nat) {
    forall p :: p in s.doomed ==> p !in Reach(s) && Settled(s, limit, p)
  }

  ghost predicate ScansHeld(s: State, minAge: nat) {
    forall scan: Scan :: scan in s.scans ==> scan.cutoff + minAge <= s.now
  }

  ghost predicate Inv(s: State, limit: nat, minAge: nat) {
    Tidy(s) && Safe(s) && YoungExist(s, limit) && ScansHeld(s, minAge) && FoundAreOld(s, minAge) && DoomedAreGone(s, limit)
  }

  lemma InitInv(s: State, limit: nat, minAge: nat)
    requires Init(s)
    ensures Inv(s, limit, minAge)
  {
  }

  /** What a commit can newly reach: what it staged itself, recently. */
  lemma CommitReaches(s: State, limit: nat, step: Step, s': State)
    requires step.Commit? && Commits(s, limit, step, s') && Tidy(s)
    ensures Reach(s') <= Reach(s) + (s.staged - s'.staged)
    ensures forall p :: p in s.staged && p !in s'.staged ==> p in s.born && s.now < s.born[p] + limit
  {
    var own := (step.snapshot.needs + step.snapshot.names + step.roots) - ParentNames(s, step.parent) - s.roots;
    forall p | p in Reach(s')
      ensures p in Reach(s) || p in own
    {
      if p !in step.roots && p !in step.snapshot.names {
        var i :| i in s'.kept && p in s'.kept[i].names;
        assert i in s.kept && s.kept[i] == s'.kept[i];
      } else if p in ParentNames(s, step.parent) {
        var parent := step.parent.value;
        assert parent in s.kept && p in s.kept[parent].names;
      }
    }
  }

  lemma CommitKeepsInv(s: State, limit: nat, minAge: nat, step: Step, s': State)
    requires step.Commit? && Commits(s, limit, step, s') && Inv(s, limit, minAge)
    ensures Inv(s', limit, minAge)
  {
    CommitReaches(s, limit, step, s');
    var own := (step.snapshot.needs + step.snapshot.names + step.roots) - ParentNames(s, step.parent) - s.roots;
    forall p | p in Needed(s')
      ensures p in s'.store
    {
      if p in own {
        assert p in s.staged;
      } else if p in step.snapshot.needs {
        var parent := step.parent.value;
        assert parent in s.kept && p in s.kept[parent].needs;
        assert p in Needed(s);
      } else if p in step.roots {
        assert p in s.roots;
      } else {
        var i :| i in s'.kept && p in s'.kept[i].needs;
        assert i in s.kept && s.kept[i] == s'.kept[i];
      }
    }
  }

  lemma ExpireKeepsInv(s: State, limit: nat, minAge: nat, step: Step, s': State)
    requires step.Expire? && Expires(s, limit, step, s') && Inv(s, limit, minAge)
    ensures Inv(s', limit, minAge)
  {
  }

  lemma VerifyKeepsInv(s: State, limit: nat, minAge: nat, scan: Scan, kill: set<Path>, s': State)
    requires Next(s, limit, minAge, Verify(scan, kill), s') && Inv(s, limit, minAge) && limit <= minAge
    ensures Inv(s', limit, minAge)
  {
  }

  lemma StageKeepsInv(s: State, limit: nat, minAge: nat, paths: set<Path>, s': State)
    requires Next(s, limit, minAge, Stage(paths), s') && Inv(s, limit, minAge)
    ensures Inv(s', limit, minAge)
  {
  }

  lemma ScanKeepsInv(s: State, limit: nat, minAge: nat, step: Step, s': State)
    requires step.BeginScan? || step.Find?
    requires Next(s, limit, minAge, step, s') && Inv(s, limit, minAge)
    ensures Inv(s', limit, minAge)
  {
  }

  lemma RestKeepsInv(s: State, limit: nat, minAge: nat, step: Step, s': State)
    requires step.Tick? || step.Abandon? || step.ReadReach? || step.Delete?
    requires Next(s, limit, minAge, step, s') && Inv(s, limit, minAge)
    ensures Inv(s', limit, minAge)
  {
  }

  lemma StepKeepsInv(s: State, limit: nat, minAge: nat, step: Step, s': State)
    requires Next(s, limit, minAge, step, s') && Inv(s, limit, minAge) && limit <= minAge
    ensures Inv(s', limit, minAge)
  {
    hide Inv, Commits, Expires;
    match step
    case Commit(_, _, _, _) => CommitKeepsInv(s, limit, minAge, step, s');
    case Expire(_, _, _, _) => ExpireKeepsInv(s, limit, minAge, step, s');
    case Verify(scan, kill) => VerifyKeepsInv(s, limit, minAge, scan, kill, s');
    case Stage(paths) => StageKeepsInv(s, limit, minAge, paths, s');
    case BeginScan(_) => ScanKeepsInv(s, limit, minAge, step, s');
    case Find(_, _) => ScanKeepsInv(s, limit, minAge, step, s');
    case _ => RestKeepsInv(s, limit, minAge, step, s');
  }

  ghost predicate IsRun(states: seq<State>, steps: seq<Step>, limit: nat, minAge: nat) {
    && |states| == |steps| + 1
    && Init(states[0])
    && forall i :: 0 <= i < |steps| ==> Next(states[i], limit, minAge, steps[i], states[i + 1])
  }

  /** When every writer commits strictly sooner after staging than the age orphan removal is configured with, every file
      a retained snapshot needs exists, in every state of every run of writers, expirations, scans and deletions. */
  lemma {:induction false} NeededFilesExist(states: seq<State>, steps: seq<Step>, limit: nat, minAge: nat, i: nat)
    requires IsRun(states, steps, limit, minAge) && limit <= minAge && i < |states|
    ensures Inv(states[i], limit, minAge) && Safe(states[i])
  {
    hide Inv, Next, Init;
    if i == 0 {
      InitInv(states[0], limit, minAge);
    } else {
      NeededFilesExist(states, steps, limit, minAge, i - 1);
      StepKeepsInv(states[i - 1], limit, minAge, steps[i - 1], states[i]);
    }
    InvIsSafe(states[i], limit, minAge);
  }

  lemma InvIsSafe(s: State, limit: nat, minAge: nat)
    requires Inv(s, limit, minAge)
    ensures Safe(s)
  {
  }

  // ---- The age bound is exact ----

  const LATE: Path := "late"

  /** A writer that commits `minAge` after staging, when it may still. */
  function LateRun(minAge: nat): seq<State> {
    var empty := State(0, {}, map[], {}, {}, map[], {}, {}, {}, {});
    var staged := empty.(store := {LATE}, born := map[LATE := 0], staged := {LATE});
    var aged := staged.(now := minAge);
    var begun := aged.(scans := {Scan(0, {}, {})});
    var found := begun.(scans := {Scan(0, {}, {}), Scan(0, {}, {LATE})});
    var verified := found.(doomed := {LATE});
    var committed := verified.(kept := map[1 := Kept({LATE}, {LATE})], staged := {}, used := {LATE});
    var lost := committed.(store := {});
    [empty, staged, aged, begun, found, verified, committed, lost]
  }

  function LateSteps(minAge: nat): seq<Step> {
    [Stage({LATE}), Tick(minAge), BeginScan(0), Find(Scan(0, {}, {}), LATE), Verify(Scan(0, {}, {LATE}), {LATE}),
     Commit(None, 1, Kept({LATE}, {LATE}), {}), Delete(LATE)]
  }

  lemma LateStages(minAge: nat, limit: nat)
    ensures var s, steps := LateRun(minAge), LateSteps(minAge);
            && Init(s[0]) && Next(s[0], limit, minAge, steps[0], s[1]) && Next(s[1], limit, minAge, steps[1], s[2])
            && Next(s[2], limit, minAge, steps[2], s[3])
  {
    var s := LateRun(minAge);
    assert s[1].born == s[0].born + BornAt({LATE}, 0);
    assert s[3] == s[2].(scans := s[2].scans + {Scan(0, {}, {})});
  }

  lemma LateScan(minAge: nat, limit: nat)
    ensures var s, steps := LateRun(minAge), LateSteps(minAge);
            Next(s[3], limit, minAge, steps[3], s[4]) && Next(s[4], limit, minAge, steps[4], s[5])
  {
    var s := LateRun(minAge);
    var scan := Scan(0, {}, {});
    assert scan.found + {LATE} == {LATE};
    assert s[4].scans == s[3].scans + {scan.(found := scan.found + {LATE})};
  }

  lemma LateCommit(minAge: nat, limit: nat)
    requires minAge < limit
    ensures var s, steps := LateRun(minAge), LateSteps(minAge);
            Next(s[5], limit, minAge, steps[5], s[6]) && Next(s[6], limit, minAge, steps[6], s[7]) && !Safe(s[7])
  {
    var s := LateRun(minAge);
    assert s[5].kept[1 := Kept({LATE}, {LATE})] == s[6].kept;
    assert 1 in s[7].kept && LATE in s[7].kept[1].needs;
    assert LATE in Needed(s[7]);
  }

  lemma SlowWriterLosesAFile(minAge: nat, limit: nat)
    requires minAge < limit
    ensures IsRun(LateRun(minAge), LateSteps(minAge), limit, minAge)
    ensures !Safe(LateRun(minAge)[7])
  {
    LateStages(minAge, limit);
    LateScan(minAge, limit);
    LateCommit(minAge, limit);
    hide Next, Init, Safe;
    var s, steps := LateRun(minAge), LateSteps(minAge);
    forall i | 0 <= i < |steps|
      ensures Next(s[i], limit, minAge, steps[i], s[i + 1])
    {
      assert i == 0 || i == 1 || i == 2 || i == 3 || i == 4 || i == 5 || i == 6;
    }
  }

  ghost predicate AlwaysSafe(limit: nat, minAge: nat) {
    forall states, steps :: IsRun(states, steps, limit, minAge) ==> forall i :: 0 <= i < |states| ==> Safe(states[i])
  }

  /** Orphan removal and expiration never cost a reader a file if and only if writers commit strictly sooner than the
      configured age: a writer allowed to take exactly that long can lose what it is about to commit. */
  lemma AgeBoundIsExact(limit: nat, minAge: nat)
    ensures AlwaysSafe(limit, minAge) <==> limit <= minAge
  {
    hide IsRun, Safe;
    if limit <= minAge {
      forall states, steps | IsRun(states, steps, limit, minAge)
        ensures forall i :: 0 <= i < |states| ==> Safe(states[i])
      {
        forall i | 0 <= i < |states|
          ensures Safe(states[i])
        {
          NeededFilesExist(states, steps, limit, minAge, i);
        }
      }
    } else {
      SlowWriterLosesAFile(minAge, limit);
      assert IsRun(LateRun(minAge), LateSteps(minAge), limit, minAge);
      assert 0 <= 7 < |LateRun(minAge)|;
    }
  }
}
