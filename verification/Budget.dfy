/** A cycle's plan, and the byte budget that defers the rewrites it cannot afford. */
module Budget {
  import opened Wrappers
  import opened Sorting
  import opened Grouping

  datatype Kind = Compact | RewriteManifests | ExpireSnapshots | RemoveOrphans {
    predicate ReadsData() {
      Compact?
    }
  }

  datatype Operation = Operation(kind: Kind, bytes: nat, reason: string)

  /** A note is an explanation the planner attached, or the count of operations a budget deferred. */
  datatype Note = Remark(text: string) | Deferred(count: nat)

  /** `score` is how fragmented the table is, given. */
  datatype TablePlan = TablePlan(table: string, score: int, operations: seq<Operation>, notes: seq<Note>) {
    predicate WorthKeeping() {
      operations != [] || notes != []
    }
  }

  // ---- One table under the budget ----

  predicate Free(op: Operation) {
    !op.kind.ReadsData() || op.bytes == 0
  }

  /** The operations kept when `spent` is gone already, and what is gone after. */
  function Charge(ops: seq<Operation>, spent: nat, max: nat): (seq<Operation>, nat)
    decreases |ops|
  {
    if ops == [] then ([], spent)
    else
      var (front, used) := Charge(ops[..|ops| - 1], spent, max);
      var op := ops[|ops| - 1];
      if Free(op) then (front + [op], used)
      else if Saturate(used + op.bytes) <= max then (front + [op], Saturate(used + op.bytes))
      else (front, used)
  }

  method ChargeOperations(ops: seq<Operation>, before: nat, max: nat) returns (kept: seq<Operation>, spent: nat)
    ensures (kept, spent) == Charge(ops, before, max)
  {
    kept, spent := [], before;
    for i := 0 to |ops|
      invariant (kept, spent) == Charge(ops[..i], before, max)
    {
      PrefixGrows(ops, i);
      var op := ops[i];
      if Free(op) {
        kept := kept + [op];
        continue;
      }
      if Saturate(spent + op.bytes) <= max {
        spent := Saturate(spent + op.bytes);
        kept := kept + [op];
      }
    }
    PrefixWhole(ops);
  }

  function DataBytes(ops: seq<Operation>): nat {
    if ops == [] then 0
    else DataBytes(ops[..|ops| - 1]) + if ops[|ops| - 1].kind.ReadsData() then ops[|ops| - 1].bytes else 0
  }

  lemma DataBytesGrow(ops: seq<Operation>, op: Operation)
    ensures DataBytes(ops + [op]) == DataBytes(ops) + if op.kind.ReadsData() then op.bytes else 0
  {
    assert (ops + [op])[..|ops + [op]| - 1] == ops;
  }

  lemma {:induction false} DataBytesConcat(a: seq<Operation>, b: seq<Operation>)
    ensures DataBytes(a + b) == DataBytes(a) + DataBytes(b)
  {
    if b == [] {
      assert a + b == a;
    } else {
      assert (a + b)[..|a + b| - 1] == a + b[..|b| - 1];
      DataBytesConcat(a, b[..|b| - 1]);
    }
  }

  /** `kept` is `ops` with some elements left out, in order. */
  predicate Subsequence(kept: seq<Operation>, ops: seq<Operation>)
    decreases |ops|
  {
    if ops == [] then kept == []
    else if kept != [] && kept[|kept| - 1] == ops[|ops| - 1] && Subsequence(kept[..|kept| - 1], ops[..|ops| - 1]) then true
    else Subsequence(kept, ops[..|ops| - 1])
  }

  function Metadata(ops: seq<Operation>): seq<Operation> {
    Keep(ops, (op: Operation) => !op.kind.ReadsData())
  }

  lemma MetadataGrows(ops: seq<Operation>, op: Operation)
    ensures Metadata(ops + [op]) == Metadata(ops) + if op.kind.ReadsData() then [] else [op]
  {
    KeepAppend(ops, op, (x: Operation) => !x.kind.ReadsData());
  }

  /** Nothing that only touches metadata is ever deferred or moved; the rest keeps its order too. */
  lemma {:induction false} MetadataSurvives(ops: seq<Operation>, spent: nat, max: nat)
    ensures Metadata(Charge(ops, spent, max).0) == Metadata(ops)
    ensures Subsequence(Charge(ops, spent, max).0, ops)
    ensures |Charge(ops, spent, max).0| <= |ops|
    ensures |Charge(ops, spent, max).0| == |ops| ==> Charge(ops, spent, max).0 == ops
  {
    hide Metadata;
    if ops != [] {
      var front, op := ops[..|ops| - 1], ops[|ops| - 1];
      var kept := Charge(front, spent, max).0;
      MetadataSurvives(front, spent, max);
      assert ops == front + [op];
      MetadataGrows(front, op);
      MetadataGrows(kept, op);
      assert (kept + [op])[..|kept + [op]| - 1] == kept;
      assert Metadata(front) + [] == Metadata(front);
    }
  }

  /** What is charged is what is kept, until a sum no longer fits 64 bits. */
  lemma {:induction false} ChargedBytes(ops: seq<Operation>, spent: nat, max: nat)
    requires max <= U64_MAX
    ensures max < U64_MAX ==> Charge(ops, spent, max).1 == spent + DataBytes(Charge(ops, spent, max).0)
    ensures max < U64_MAX && spent <= max ==> Charge(ops, spent, max).1 <= max
    ensures max == U64_MAX ==> Charge(ops, spent, max).0 == ops
  {
    if ops != [] {
      var front, op := ops[..|ops| - 1], ops[|ops| - 1];
      ChargedBytes(front, spent, max);
      assert ops == front + [op];
      DataBytesGrow(Charge(front, spent, max).0, op);
    }
  }

  /** What fits under the budget together is kept together. */
  lemma {:induction false} AffordableIsKept(ops: seq<Operation>, spent: nat, max: nat)
    requires spent + DataBytes(ops) <= max <= U64_MAX
    ensures Charge(ops, spent, max) == (ops, spent + DataBytes(ops))
  {
    if ops != [] {
      AffordableIsKept(ops[..|ops| - 1], spent, max);
      assert ops == ops[..|ops| - 1] + [ops[|ops| - 1]];
    }
  }

  /** First come, first served: an operation is kept exactly when it costs nothing, or fits with what was kept before it. */
  lemma KeptInTurn(ops: seq<Operation>, k: nat, spent: nat, max: nat)
    requires k < |ops| && spent <= max < U64_MAX
    ensures var before, after := Charge(ops[..k], spent, max).0, Charge(ops[..k + 1], spent, max).0;
            after == before + if ops[k].kind == Compact && ops[k].bytes > 0 && spent + DataBytes(before) + ops[k].bytes > max then []
                              else [ops[k]]
  {
    var front := ops[..k + 1];
    assert front[..k] == ops[..k] && front[k] == ops[k];
    ChargedBytes(ops[..k], spent, max);
    assert Charge(ops[..k], spent, max).0 + [] == Charge(ops[..k], spent, max).0;
  }

  lemma {:induction false} ChargeGrows(ops: seq<Operation>, spent: nat, max: nat)
    ensures max <= U64_MAX && spent <= max ==> spent <= Charge(ops, spent, max).1 <= max
  {
    if ops != [] {
      ChargeGrows(ops[..|ops| - 1], spent, max);
    }
  }

  /** Whatever was deferred would break the budget beside what was kept. */
  lemma {:induction false} DeferredDoesNotFit(ops: seq<Operation>, spent: nat, max: nat, op: Operation)
    requires spent <= max < U64_MAX
    requires multiset(Charge(ops, spent, max).0)[op] < multiset(ops)[op]
    ensures op.kind == Compact && Charge(ops, spent, max).1 + op.bytes > max
  {
    var front, last := ops[..|ops| - 1], ops[|ops| - 1];
    var kept := Charge(front, spent, max).0;
    assert ops == front + [last];
    assert multiset(ops) == multiset(front) + multiset{last};
    assert multiset(kept + [last]) == multiset(kept) + multiset{last};
    if multiset(kept)[op] < multiset(front)[op] {
      DeferredDoesNotFit(front, spent, max, op);
    }
    ChargeGrows(front, spent, max);
  }

  // ---- All tables ----

  /** A table after the budget reached it. */
  function Trim(t: TablePlan, spent: nat, max: nat): TablePlan {
    var kept := Charge(t.operations, spent, max).0;
    if |kept| < |t.operations| then t.(operations := kept, notes := t.notes + [Deferred(|t.operations| - |kept|)]) else t
  }

  predicate LosesWork(t: TablePlan, spent: nat, max: nat) {
    |Charge(t.operations, spent, max).0| < |t.operations|
  }

  function SpentBefore(tables: seq<TablePlan>, i: nat, max: nat): nat
    requires i <= |tables|
    decreases i
  {
    if i == 0 then 0 else Charge(tables[i - 1].operations, SpentBefore(tables, i - 1, max), max).1
  }

  function KeptTables(tables: seq<TablePlan>, i: nat, max: nat): seq<TablePlan>
    requires i <= |tables|
    decreases i
  {
    if i == 0 then []
    else
      var t := Trim(tables[i - 1], SpentBefore(tables, i - 1, max), max);
      KeptTables(tables, i - 1, max) + if t.WorthKeeping() then [t] else []
  }

  function DeferredTables(tables: seq<TablePlan>, i: nat, max: nat): seq<string>
    requires i <= |tables|
    decreases i
  {
    if i == 0 then []
    else
      DeferredTables(tables, i - 1, max) +
      if LosesWork(tables[i - 1], SpentBefore(tables, i - 1, max), max) then [tables[i - 1].table] else []
  }

  function AllOperations(tables: seq<TablePlan>): seq<Operation> {
    if tables == [] then [] else AllOperations(tables[..|tables| - 1]) + tables[|tables| - 1].operations
  }

  lemma BudgetStarts(tables: seq<TablePlan>, max: nat)
    ensures SpentBefore(tables, 0, max) == 0 && KeptTables(tables, 0, max) == [] && DeferredTables(tables, 0, max) == []
  {
  }

  lemma BudgetStep(tables: seq<TablePlan>, i: nat, max: nat)
    requires i < |tables|
    ensures var spent := SpentBefore(tables, i, max);
            var t := Trim(tables[i], spent, max);
            && SpentBefore(tables, i + 1, max) == Charge(tables[i].operations, spent, max).1
            && KeptTables(tables, i + 1, max) == KeptTables(tables, i, max) + (if t.WorthKeeping() then [t] else [])
            && DeferredTables(tables, i + 1, max) ==
               DeferredTables(tables, i, max) + if LosesWork(tables[i], spent, max) then [tables[i].table] else []
  {
    hide Charge, Trim, LosesWork;
  }

  predicate MoreFragmented(a: TablePlan, b: TablePlan) {
    a.score >= b.score
  }

  /** The order tables are charged in: the most fragmented first, and tables equally fragmented as they came. */
  lemma MostFragmentedFirst(tables: seq<TablePlan>, score: int)
    ensures var sorted := SortBy(tables, MoreFragmented);
            && multiset(sorted) == multiset(tables)
            && (forall i, j :: 0 <= i < j < |sorted| ==> sorted[i].score >= sorted[j].score)
            && Keep(sorted, (t: TablePlan) => t.score == score) == Keep(tables, (t: TablePlan) => t.score == score)
  {
    assert TotalPreorder(MoreFragmented);
    SortBySorted(tables, MoreFragmented);
    SortByStable(tables, MoreFragmented, (t: TablePlan) => t.score == score);
    var sorted := SortBy(tables, MoreFragmented);
    forall i, j | 0 <= i < j < |sorted|
      ensures sorted[i].score >= sorted[j].score
    {
      assert MoreFragmented(sorted[i], sorted[j]);
    }
  }

  class MaintenancePlan {
    var tables: seq<TablePlan>

    constructor (tables: seq<TablePlan>)
      ensures this.tables == tables
    {
      this.tables := tables;
    }

    /** `total_input_bytes`: the bytes the budget bounds. */
    method TotalInputBytes() returns (n: nat)
      ensures n == DataBytes(AllOperations(tables))
    {
      n := 0;
      for i := 0 to |tables|
        invariant n == DataBytes(AllOperations(tables[..i]))
      {
        PrefixGrows(tables, i);
        AllOperationsGrow(tables[..i], tables[i]);
        DataBytesConcat(AllOperations(tables[..i]), tables[i].operations);
        var some := SumBytes(tables[i].operations);
        n := n + some;
      }
      PrefixWhole(tables);
    }

    /** `apply_budget`, in place: most fragmented first, each rewrite charged or deferred. */
    method ApplyBudget(max: nat) returns (deferred: seq<string>)
      modifies this
      ensures var sorted := SortBy(old(tables), MoreFragmented);
              tables == KeptTables(sorted, |sorted|, max) && deferred == DeferredTables(sorted, |sorted|, max)
    {
      hide SpentBefore, KeptTables, DeferredTables, Charge, SortBy;
      var sorted := SortBy(tables, MoreFragmented);
      BudgetStarts(sorted, max);
      var spent := 0;
      var kept: seq<TablePlan> := [];
      deferred := [];
      for i := 0 to |sorted|
        invariant spent == SpentBefore(sorted, i, max)
        invariant kept == KeptTables(sorted, i, max)
        invariant deferred == DeferredTables(sorted, i, max)
      {
        var table := sorted[i];
        var left;
        BudgetStep(sorted, i, max);
        left, spent := ChargeOperations(table.operations, spent, max);
        if |left| < |table.operations| {
          deferred := deferred + [table.table];
          table := table.(operations := left, notes := table.notes + [Deferred(|table.operations| - |left|)]);
        }
        if table.WorthKeeping() {
          kept := kept + [table];
        }
      }
      tables := kept;
    }

    /** `retain_operations`, in place: a filter by kind; a table left with neither work nor notes goes. */
    method RetainOperations(kinds: set<Kind>)
      modifies this
      ensures tables == Keep(RetainedAll(old(tables), kinds), (t: TablePlan) => t.WorthKeeping())
    {
      var retained: seq<TablePlan> := [];
      var worth := (t: TablePlan) => t.WorthKeeping();
      for i := 0 to |tables|
        invariant tables == old(tables)
        invariant retained == RetainedAll(tables[..i], kinds)
      {
        PrefixGrows(tables, i);
        retained := retained + [Retained(tables[i], kinds)];
      }
      PrefixWhole(tables);
      tables := Keep(retained, worth);
    }
  }

  function Retained(t: TablePlan, kinds: set<Kind>): TablePlan {
    t.(operations := Keep(t.operations, (op: Operation) => op.kind in kinds))
  }

  /** A table with work of the wanted kinds keeps exactly that, in order, and all else it says. */
  lemma RetainedExactly(t: TablePlan, kinds: set<Kind>)
    ensures Retained(t, kinds) == TablePlan(t.table, t.score, Retained(t, kinds).operations, t.notes)
    ensures Subsequence(Retained(t, kinds).operations, t.operations)
    ensures forall op :: multiset(Retained(t, kinds).operations)[op] == if op.kind in kinds then multiset(t.operations)[op] else 0
  {
    KeepIsSubsequence(t.operations, (op: Operation) => op.kind in kinds);
    forall op
      ensures multiset(Retained(t, kinds).operations)[op] == if op.kind in kinds then multiset(t.operations)[op] else 0
    {
      KeepCount(t.operations, (x: Operation) => x.kind in kinds, op);
    }
  }

  lemma {:induction false} KeepIsSubsequence(ops: seq<Operation>, p: Operation -> bool)
    ensures Subsequence(Keep(ops, p), ops)
    decreases |ops|
  {
    if ops != [] {
      var front, last := ops[..|ops| - 1], ops[|ops| - 1];
      assert ops == front + [last];
      KeepIsSubsequence(front, p);
      KeepAppend(front, last, p);
      var kept := Keep(front, p);
      assert (kept + [last])[..|kept + [last]| - 1] == kept && kept + [] == kept;
    }
  }

  function RetainedAll(tables: seq<TablePlan>, kinds: set<Kind>): (r: seq<TablePlan>)
    ensures |r| == |tables| && forall i :: 0 <= i < |r| ==> r[i] == Retained(tables[i], kinds)
  {
    seq(|tables|, i requires 0 <= i < |tables| => Retained(tables[i], kinds))
  }

  method SumBytes(ops: seq<Operation>) returns (n: nat)
    ensures n == DataBytes(ops)
  {
    n := 0;
    for i := 0 to |ops|
      invariant n == DataBytes(ops[..i])
    {
      PrefixGrows(ops, i);
      DataBytesGrow(ops[..i], ops[i]);
      if ops[i].kind.ReadsData() {
        n := n + ops[i].bytes;
      }
    }
    PrefixWhole(ops);
  }

  lemma AllOperationsGrow(tables: seq<TablePlan>, t: TablePlan)
    ensures AllOperations(tables + [t]) == AllOperations(tables) + t.operations
  {
    assert (tables + [t])[..|tables + [t]| - 1] == tables;
  }

  // ---- What the budget promises ----

  /** A table's turn adds what it keeps to the plan, whether or not the table stays. */
  lemma KeptStep(tables: seq<TablePlan>, i: nat, max: nat)
    requires i < |tables|
    ensures AllOperations(KeptTables(tables, i + 1, max)) ==
            AllOperations(KeptTables(tables, i, max)) + Trim(tables[i], SpentBefore(tables, i, max), max).operations
  {
    hide AllOperations, Trim, SpentBefore;
    var kept, t := KeptTables(tables, i, max), Trim(tables[i], SpentBefore(tables, i, max), max);
    AllOperationsGrow(kept, t);
    if !t.WorthKeeping() {
      assert kept + [] == kept;
      assert AllOperations(kept) + [] == AllOperations(kept);
    }
  }

  lemma TrimKeepsCharged(t: TablePlan, spent: nat, max: nat)
    ensures Trim(t, spent, max).operations == Charge(t.operations, spent, max).0
  {
    MetadataSurvives(t.operations, spent, max);
  }

  lemma NothingYet(tables: seq<TablePlan>, max: nat)
    ensures SpentBefore(tables, 0, max) == 0
    ensures AllOperations(KeptTables(tables, 0, max)) == [] && AllOperations(tables[..0]) == []
    ensures DataBytes(AllOperations(KeptTables(tables, 0, max))) == 0
  {
  }

  lemma {:induction false} SpentIsKept(tables: seq<TablePlan>, i: nat, max: nat)
    requires i <= |tables| && max < U64_MAX
    ensures SpentBefore(tables, i, max) == DataBytes(AllOperations(KeptTables(tables, i, max)))
    ensures SpentBefore(tables, i, max) <= max
  {
    hide Charge, Trim, AllOperations, DataBytes, KeptTables, SpentBefore;
    if i == 0 {
      NothingYet(tables, max);
    } else {
      SpentIsKept(tables, i - 1, max);
      var spent, t := SpentBefore(tables, i - 1, max), tables[i - 1];
      ChargedBytes(t.operations, spent, max);
      TrimKeepsCharged(t, spent, max);
      BudgetStep(tables, i - 1, max);
      KeptStep(tables, i - 1, max);
      DataBytesConcat(AllOperations(KeptTables(tables, i - 1, max)), Trim(t, spent, max).operations);
    }
  }

  lemma {:induction false} MaximumKeepsAll(tables: seq<TablePlan>, i: nat)
    requires i <= |tables|
    ensures AllOperations(KeptTables(tables, i, U64_MAX)) == AllOperations(tables[..i])
  {
    if i > 0 {
      MaximumKeepsAll(tables, i - 1);
      var spent := SpentBefore(tables, i - 1, U64_MAX);
      ChargedBytes(tables[i - 1].operations, spent, U64_MAX);
      TrimKeepsCharged(tables[i - 1], spent, U64_MAX);
      KeptStep(tables, i - 1, U64_MAX);
      PrefixGrows(tables, i - 1);
      AllOperationsGrow(tables[..i - 1], tables[i - 1]);
    }
  }

  /** The data bytes kept stay within the budget exactly when the budget is below the 64-bit maximum, or everything
      planned fits 64 bits: at the maximum itself a saturating sum never exceeds it, and nothing is deferred. */
  lemma KeptBytesWithinBudget(tables: seq<TablePlan>, max: nat)
    requires max <= U64_MAX
    ensures DataBytes(AllOperations(KeptTables(tables, |tables|, max))) <= max <==>
            max < U64_MAX || DataBytes(AllOperations(tables)) <= U64_MAX
  {
    if max < U64_MAX {
      SpentIsKept(tables, |tables|, max);
    } else {
      MaximumKeepsAll(tables, |tables|);
      PrefixWhole(tables);
    }
  }

  lemma {:induction false} SpentGrows(tables: seq<TablePlan>, i: nat, j: nat, max: nat)
    requires i <= j <= |tables| && max <= U64_MAX
    ensures SpentBefore(tables, i, max) <= SpentBefore(tables, j, max) <= max
  {
    hide Charge;
    if j > 0 {
      SpentGrows(tables, if i < j then i else j - 1, j - 1, max);
      ChargeGrows(tables[j - 1].operations, SpentBefore(tables, j - 1, max), max);
    }
  }

  /** No room is wasted: an operation some table lost is a rewrite, and beside all that was kept it would break the budget. */
  lemma NothingMoreFits(tables: seq<TablePlan>, k: nat, max: nat, op: Operation)
    requires k < |tables| && max < U64_MAX
    requires var left := Trim(tables[k], SpentBefore(tables, k, max), max);
             multiset(left.operations)[op] < multiset(tables[k].operations)[op]
    ensures op.kind == Compact && DataBytes(AllOperations(KeptTables(tables, |tables|, max))) + op.bytes > max
  {
    hide Charge, Trim, SpentBefore, KeptTables, AllOperations, DataBytes;
    var spent := SpentBefore(tables, k, max);
    SpentGrows(tables, k, |tables|, max);
    SpentGrows(tables, k + 1, |tables|, max);
    TrimKeepsCharged(tables[k], spent, max);
    DeferredDoesNotFit(tables[k].operations, spent, max, op);
    BudgetStep(tables, k, max);
    SpentIsKept(tables, |tables|, max);
  }

  /** A plan the budget can afford whole is left whole. */
  lemma {:induction false} AffordablePlanIsKept(tables: seq<TablePlan>, i: nat, max: nat)
    requires i <= |tables| && DataBytes(AllOperations(tables[..i])) <= max <= U64_MAX
    ensures SpentBefore(tables, i, max) == DataBytes(AllOperations(tables[..i]))
    ensures DeferredTables(tables, i, max) == [] && KeptTables(tables, i, max) == Keep(tables[..i], (t: TablePlan) => t.WorthKeeping())
  {
    hide Charge, AllOperations, DataBytes, Keep, KeptTables, DeferredTables, SpentBefore;
    var worth := (t: TablePlan) => t.WorthKeeping();
    BudgetStarts(tables, max);
    if i == 0 {
      NothingPlanned(tables);
    } else {
      var t := tables[i - 1];
      PrefixGrows(tables, i - 1);
      AllOperationsGrow(tables[..i - 1], t);
      DataBytesConcat(AllOperations(tables[..i - 1]), t.operations);
      AffordablePlanIsKept(tables, i - 1, max);
      AffordableIsKept(t.operations, SpentBefore(tables, i - 1, max), max);
      BudgetStep(tables, i - 1, max);
      KeepAppend(tables[..i - 1], t, worth);
    }
  }

  lemma NothingPlanned(tables: seq<TablePlan>)
    ensures DataBytes(AllOperations(tables[..0])) == 0 && Keep(tables[..0], (t: TablePlan) => t.WorthKeeping()) == []
  {
  }

  /** The deferred list is exactly the tables that lost an operation. */
  lemma {:induction false} DeferredIsExact(tables: seq<TablePlan>, i: nat, max: nat)
    requires i <= |tables|
    ensures forall n :: n in DeferredTables(tables, i, max) <==>
                          exists k :: 0 <= k < i && tables[k].table == n && LosesWork(tables[k], SpentBefore(tables, k, max), max)
  {
    hide LosesWork, SpentBefore;
    if i > 0 {
      DeferredIsExact(tables, i - 1, max);
    }
  }

  /** The plan holds every table, as the budget left it, that still has work or a note to show. */
  lemma {:induction false} KeptIsExact(tables: seq<TablePlan>, i: nat, max: nat)
    requires i <= |tables|
    ensures forall t :: t in KeptTables(tables, i, max) <==>
                          exists k :: 0 <= k < i && t == Trim(tables[k], SpentBefore(tables, k, max), max) && t.WorthKeeping()
  {
    hide Trim, SpentBefore;
    if i > 0 {
      KeptIsExact(tables, i - 1, max);
    }
  }

  predicate NotesLoss(t: TablePlan, left: TablePlan) {
    && left.table == t.table && |left.operations| < |t.operations|
    && left.notes == t.notes + [Deferred(|t.operations| - |left.operations|)]
  }

  lemma TrimNotes(t: TablePlan, spent: nat, max: nat)
    ensures LosesWork(t, spent, max) ==> NotesLoss(t, Trim(t, spent, max)) && Trim(t, spent, max).WorthKeeping()
    ensures !LosesWork(t, spent, max) ==> Trim(t, spent, max) == t
    ensures Metadata(Trim(t, spent, max).operations) == Metadata(t.operations)
  {
    hide Charge, Metadata;
    MetadataSurvives(t.operations, spent, max);
  }

  /** A deferred table is still in the plan, with its metadata work and a note saying how many operations it lost; any
      other table is untouched. */
  lemma DeferredIsNoted(tables: seq<TablePlan>, k: nat, max: nat)
    requires k < |tables|
    ensures var t, spent := tables[k], SpentBefore(tables, k, max);
            var left := Trim(t, spent, max);
            && (LosesWork(t, spent, max) ==> left in KeptTables(tables, |tables|, max) && NotesLoss(t, left))
            && (!LosesWork(t, spent, max) ==> left == t)
            && Metadata(left.operations) == Metadata(t.operations)
  {
    hide SpentBefore, Trim, LosesWork, NotesLoss, Metadata, KeptTables;
    TrimNotes(tables[k], SpentBefore(tables, k, max), max);
    KeptIsExact(tables, |tables|, max);
  }

  /** The plan's metadata operations, all of them and in order, table by table. */
  lemma {:induction false} EveryMetadataOperationSurvives(tables: seq<TablePlan>, i: nat, max: nat)
    requires i <= |tables|
    ensures Metadata(AllOperations(KeptTables(tables, i, max))) == Metadata(AllOperations(tables[..i]))
  {
    hide Metadata, AllOperations, KeptTables, Charge, Trim, SpentBefore;
    if i == 0 {
      NothingYet(tables, max);
    } else {
      EveryMetadataOperationSurvives(tables, i - 1, max);
      var spent, t := SpentBefore(tables, i - 1, max), tables[i - 1];
      MetadataSurvives(t.operations, spent, max);
      TrimKeepsCharged(t, spent, max);
      KeptStep(tables, i - 1, max);
      PrefixGrows(tables, i - 1);
      AllOperationsGrow(tables[..i - 1], t);
      MetadataConcat(AllOperations(KeptTables(tables, i - 1, max)), Trim(t, spent, max).operations);
      MetadataConcat(AllOperations(tables[..i - 1]), t.operations);
    }
  }

  lemma MetadataConcat(a: seq<Operation>, b: seq<Operation>)
    ensures Metadata(a + b) == Metadata(a) + Metadata(b)
  {
    KeepConcat(a, b, (op: Operation) => !op.kind.ReadsData());
  }
}
