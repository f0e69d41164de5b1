/** Walking a catalog's namespaces, level by level, each listed at most once. */
module Discovery {
  import opened Wrappers
  import opened Sorting

  /** What the catalog answers for each namespace: its tables and its children, or an error. */
  datatype Answer = Listing(tables: seq<string>, children: seq<string>) | Failed(error: Error)

  type Catalog = map<string, Answer>

  function Ask(c: Catalog, ns: string): Answer {
    if ns in c then c[ns] else Failed(CatalogFailure)
  }

  function Children(c: Catalog, ns: string): seq<string> {
    if Ask(c, ns).Listing? then Ask(c, ns).children else []
  }

  /** A way down from a root, each step a child the catalog reports. */
  ghost predicate IsPath(c: Catalog, roots: seq<string>, path: seq<string>) {
    && path != [] && path[0] in roots
    && forall i :: 0 <= i < |path| - 1 ==> path[i + 1] in Children(c, path[i])
  }

  ghost predicate Reachable(c: Catalog, roots: seq<string>, ns: string) {
    exists path :: IsPath(c, roots, path) && path[|path| - 1] == ns
  }

  lemma ChildReachable(c: Catalog, roots: seq<string>, ns: string, child: string)
    requires Reachable(c, roots, ns) && child in Children(c, ns)
    ensures Reachable(c, roots, child)
  {
    var path :| IsPath(c, roots, path) && path[|path| - 1] == ns;
    var more := path + [child];
    forall i | 0 <= i < |more| - 1
      ensures more[i + 1] in Children(c, more[i])
    {
      if i < |path| - 1 {
        assert more[i + 1] == path[i + 1] && more[i] == path[i];
      }
    }
    assert IsPath(c, roots, more);
  }

  lemma RootReachable(c: Catalog, roots: seq<string>, ns: string)
    requires ns in roots
    ensures Reachable(c, roots, ns)
  {
    assert IsPath(c, roots, [ns]);
    assert [ns][|[ns]| - 1] == ns;
  }

  /** A set that holds the roots and every child of its members holds everything reachable. */
  lemma {:induction false} ClosedHoldsAll(c: Catalog, roots: seq<string>, closed: set<string>, path: seq<string>)
    requires IsPath(c, roots, path)
    requires forall ns :: ns in roots ==> ns in closed
    requires forall ns, child :: ns in closed && child in Children(c, ns) ==> child in closed
    ensures path[|path| - 1] in closed
  {
    if |path| > 1 {
      var front := path[..|path| - 1];
      assert IsPath(c, roots, front);
      ClosedHoldsAll(c, roots, closed, front);
      assert path[|path| - 2 + 1] in Children(c, path[|path| - 2]);
    }
  }

  // ---- The walk ----

  /** The namespaces of a level not seen before, each once. */
  method Unseen(queue: seq<string>, before: set<string>) returns (level: seq<string>, seen: set<string>)
    ensures seen == before + (set ns | ns in queue)
    ensures forall ns :: ns in level <==> ns in queue && ns !in before
    ensures Once(level)
  {
    level, seen := [], before;
    for i := 0 to |queue|
      invariant seen == before + (set ns | ns in queue[..i])
      invariant forall ns :: ns in level <==> ns in queue[..i] && ns !in before
      invariant Once(level)
    {
      PrefixGrows(queue, i);
      if queue[i] !in seen {
        seen, level := seen + {queue[i]}, level + [queue[i]];
      }
    }
    PrefixWhole(queue);
  }

  predicate Once(s: seq<string>) {
    forall i, j :: 0 <= i < j < |s| ==> s[i] != s[j]
  }

  /** The tables of the namespaces listed, namespace by namespace. */
  function TablesIn(c: Catalog, listed: seq<string>): seq<string> {
    if listed == [] then []
    else
      var ns := listed[|listed| - 1];
      TablesIn(c, listed[..|listed| - 1]) + (if Ask(c, ns).Listing? then Ask(c, ns).tables else [])
  }

  function ChildrenIn(c: Catalog, level: seq<string>): seq<string> {
    if level == [] then [] else ChildrenIn(c, level[..|level| - 1]) + Children(c, level[|level| - 1])
  }

  lemma {:induction false} TablesInConcat(c: Catalog, a: seq<string>, b: seq<string>)
    ensures TablesIn(c, a + b) == TablesIn(c, a) + TablesIn(c, b)
  {
    if b == [] {
      assert a + b == a;
    } else {
      assert (a + b)[..|a + b| - 1] == a + b[..|b| - 1];
      TablesInConcat(c, a, b[..|b| - 1]);
    }
  }

  lemma {:induction false} ChildrenInMembers(c: Catalog, level: seq<string>)
    ensures forall x :: x in ChildrenIn(c, level) <==> exists ns :: ns in level && x in Children(c, ns)
  {
    if level != [] {
      var front := level[..|level| - 1];
      ChildrenInMembers(c, front);
      assert level == front + [level[|level| - 1]];
    }
  }

  /** One level's listings; the first error fails the walk. */
  method ListLevel(c: Catalog, level: seq<string>) returns (r: Result<(seq<string>, seq<string>)>)
    ensures r.Ok? <==> forall ns :: ns in level ==> Ask(c, ns).Listing?
    ensures r.Ok? ==> r.value == (TablesIn(c, level), ChildrenIn(c, level))
    ensures r.Err? ==> exists ns :: ns in level && Ask(c, ns) == Failed(r.error)
  {
    var tables, children := [], [];
    for i := 0 to |level|
      invariant forall ns :: ns in level[..i] ==> Ask(c, ns).Listing?
      invariant (tables, children) == (TablesIn(c, level[..i]), ChildrenIn(c, level[..i]))
    {
      PrefixGrows(level, i);
      var answer := Ask(c, level[i]);
      if answer.Failed? {
        assert level[i] in level;
        return Err(answer.error);
      }
      tables, children := tables + answer.tables, children + answer.children;
    }
    PrefixWhole(level);
    r := Ok((tables, children));
  }

  /** Between levels: what is listed is reachable and answered, and nothing reachable lies beyond it and the queue. */
  ghost predicate Walking(c: Catalog, roots: seq<string>, queue: seq<string>, seen: set<string>, listed: seq<string>) {
    && Once(listed) && (forall ns :: ns in listed <==> ns in seen)
    && (forall ns :: ns in seen || ns in queue ==> Reachable(c, roots, ns))
    && (forall ns :: ns in seen ==> Ask(c, ns).Listing?)
    && (forall ns :: ns in roots ==> ns in seen || ns in queue)
    && (forall ns, child :: ns in seen && child in Children(c, ns) ==> child in seen || child in queue)
  }

  lemma OnceConcat(a: seq<string>, b: seq<string>)
    requires Once(a) && Once(b) && forall x :: x in b ==> x !in a
    ensures Once(a + b)
  {
    forall i, j | 0 <= i < j < |a + b|
      ensures (a + b)[i] != (a + b)[j]
    {
      if i < |a| <= j {
        assert b[j - |a|] in b && a[i] in a;
      }
    }
  }

  lemma LevelReachable(c: Catalog, roots: seq<string>, level: seq<string>)
    requires forall ns :: ns in level ==> Reachable(c, roots, ns)
    ensures forall x :: x in ChildrenIn(c, level) ==> Reachable(c, roots, x)
  {
    hide Reachable, Children;
    ChildrenInMembers(c, level);
    forall x | x in ChildrenIn(c, level)
      ensures Reachable(c, roots, x)
    {
      var ns :| ns in level && x in Children(c, ns);
      ChildReachable(c, roots, ns, x);
    }
  }

  lemma LevelClosed(c: Catalog, queue: seq<string>, seen: set<string>, level: seq<string>)
    requires forall ns, child :: ns in seen && child in Children(c, ns) ==> child in seen || child in queue
    requires forall ns :: ns in level <==> ns in queue && ns !in seen
    ensures var more := seen + (set ns | ns in queue);
            forall ns, child :: ns in more && child in Children(c, ns) ==> child in more || child in ChildrenIn(c, level)
  {
    hide Children, ChildrenIn;
    ChildrenInMembers(c, level);
    var more := seen + (set ns | ns in queue);
    forall ns, child | ns in more && child in Children(c, ns)
      ensures child in more || child in ChildrenIn(c, level)
    {
      if ns !in seen {
        assert ns in level;
      }
    }
  }

  lemma WalkingOn(c: Catalog, roots: seq<string>, queue: seq<string>, seen: set<string>, listed: seq<string>, level: seq<string>)
    requires Walking(c, roots, queue, seen, listed) && Once(level)
    requires forall ns :: ns in level <==> ns in queue && ns !in seen
    requires forall ns :: ns in level ==> Ask(c, ns).Listing?
    ensures Walking(c, roots, ChildrenIn(c, level), seen + (set ns | ns in queue), listed + level)
  {
    hide Reachable, Children, ChildrenIn, Once, Ask;
    OnceConcat(listed, level);
    LevelReachable(c, roots, level);
    LevelClosed(c, queue, seen, level);
  }

  lemma WalkEnds(c: Catalog, roots: seq<string>, queue: seq<string>, seen: set<string>, listed: seq<string>)
    requires Walking(c, roots, queue, seen, listed) && forall ns :: ns in queue ==> ns in seen
    ensures forall ns :: Reachable(c, roots, ns) <==> ns in listed
  {
    forall ns | Reachable(c, roots, ns)
      ensures ns in listed
    {
      var path :| IsPath(c, roots, path) && path[|path| - 1] == ns;
      ClosedHoldsAll(c, roots, seen, path);
    }
  }

  /** `discover`, from the configured namespaces or the catalog's own top level, either of which can fail: terminates on any
      finite catalog, cycles and diamonds included; lists each reachable namespace exactly once and returns exactly their
      tables, sorted; and fails exactly when the roots or some reachable namespace cannot be listed. */
  method Discover(c: Catalog, start: Result<seq<string>>) returns (r: Result<seq<string>>, ghost listed: seq<string>)
    ensures start.Err? ==> r == Err(start.error)
    ensures r.Ok? <==> start.Ok? && forall ns :: Reachable(c, start.value, ns) ==> Ask(c, ns).Listing?
    ensures r.Err? && start.Ok? ==> exists ns :: Reachable(c, start.value, ns) && Ask(c, ns) == Failed(r.error)
    ensures r.Ok? ==> Once(listed) && forall ns :: ns in listed <==> Reachable(c, start.value, ns)
    ensures r.Ok? ==> Sorted(r.value, StringLe) && multiset(r.value) == multiset(TablesIn(c, listed))
  {
    hide Reachable, StringLe;
    if start.Err? {
      return Err(start.error), [];
    }
    var roots := start.value;
    var found: seq<string> := [];
    var queue := roots;
    var seen: set<string> := {};
    listed := [];
    forall ns | ns in roots
      ensures Reachable(c, roots, ns)
    {
      RootReachable(c, roots, ns);
    }
    while queue != []
      invariant Walking(c, roots, queue, seen, listed) && found == TablesIn(c, listed)
      invariant seen <= c.Keys
      decreases |c.Keys - seen|, |queue|
    {
      var level, more := Unseen(queue, seen);
      if level == [] {
        break;
      }
      var one := ListLevel(c, level);
      if one.Err? {
        return Err(one.error), listed;
      }
      WalkingOn(c, roots, queue, seen, listed, level);
      TablesInConcat(c, listed, level);
      Narrows(c, seen, more, level[0]);
      found, queue, seen := found + one.value.0, one.value.1, more;
      listed := listed + level;
    }
    WalkEnds(c, roots, queue, seen, listed);
    StringOrder();
    SortBySorted(found, StringLe);
    r := Ok(SortStrings(found));
  }

  lemma Narrows(c: Catalog, seen: set<string>, more: set<string>, ns: string)
    requires seen <= more && ns in more && ns !in seen && ns in c
    ensures |c.Keys - more| < |c.Keys - seen|
  {
    assert c.Keys - more <= (c.Keys - seen) - {ns};
    Subset(c.Keys - more, (c.Keys - seen) - {ns});
  }

  lemma {:induction false} Subset(a: set<string>, b: set<string>)
    requires a <= b
    ensures |a| <= |b|
    decreases |a|
  {
    if a != {} {
      var x :| x in a;
      Subset(a - {x}, b - {x});
    }
  }
}
