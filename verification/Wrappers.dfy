/** The success, failure and absence types every other module shares. */
module Wrappers {

  datatype Option<+T> = None | Some(value: T) {
    function UnwrapOr(default: T): T {
      if Some? then value else default
    }
  }

  /** Why an operation did not commit. `Conflict` and `Stale` are the two answers that make the caller
      reload the table and rebuild; everything else is final for the cycle. */
  datatype Error =
    | Conflict
    | Stale
    | Refused
    | BadMetadata
    | CatalogFailure
    | StorageFailure
    | Config
  {
    predicate IsReplan() {
      Conflict? || Stale?
    }
  }

  datatype Result<+T> = Ok(value: T) | Err(error: Error)

  /** How often a lost commit is rebuilt before its operation gives up for the cycle. */
  const MAX_COMMIT_ATTEMPTS := 3

  /** How a loop over `s` sees its own progress. */
  lemma PrefixGrows<T>(s: seq<T>, i: nat)
    requires i < |s|
    ensures s[..i + 1] == s[..i] + [s[i]]
  {
  }

  lemma PrefixWhole<T>(s: seq<T>)
    ensures s[..|s|] == s
  {
  }

  lemma MultisetTakeOut<T>(s: seq<T>, i: nat)
    requires i < |s|
    ensures multiset(s[..i] + s[i + 1..]) == multiset(s) - multiset{s[i]}
  {
    assert s == s[..i] + ([s[i]] + s[i + 1..]);
  }

  lemma HeadIsIn<T>(a: seq<T>, b: seq<T>)
    requires a != [] && multiset(a) == multiset(b)
    ensures a[0] in b
  {
    assert a[0] in multiset(b);
  }

  lemma TailIsRest<T>(a: seq<T>)
    requires a != []
    ensures multiset(a[1..]) == multiset(a) - multiset{a[0]}
  {
    assert a == [a[0]] + a[1..];
  }

  /** The head of a sequence sits somewhere in any rearrangement of it; without it the two still match. */
  lemma HeadSomewhere<T>(a: seq<T>, b: seq<T>) returns (i: nat)
    requires a != [] && multiset(a) == multiset(b)
    ensures i < |b| && b[i] == a[0]
    ensures multiset(a[1..]) == multiset(b[..i] + b[i + 1..])
  {
    HeadIsIn(a, b);
    i :| i < |b| && b[i] == a[0];
    TailIsRest(a);
    MultisetTakeOut(b, i);
  }

  lemma NothingElse<T>(b: seq<T>)
    requires multiset(b) == multiset([])
    ensures b == []
  {
    assert |multiset(b)| == |b|;
  }
}
