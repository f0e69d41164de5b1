/** Object paths: the normalized form identity is decided on, containment by whole segments, and the mark another
    table's metadata leaves inside a location. */
module Paths {
  import opened Wrappers
  import opened Strings

  const SEP := "://"
  const METADATA_SUFFIX := ".metadata.json"
  const METADATA_DIR := "/metadata/"

  function LowerChar(c: char): char {
    if 'A' <= c <= 'Z' then c - 'A' + 'a' else c
  }

  function Lower(s: string): (r: string)
    ensures |r| == |s|
    ensures forall i :: 0 <= i < |s| ==> r[i] == LowerChar(s[i])
  {
    seq(|s|, i requires 0 <= i < |s| => LowerChar(s[i]))
  }

  /** The one spelling kept for each family of scheme aliases. */
  function Family(s: string): string {
    if s == "s3" || s == "s3a" || s == "s3n" then "s3"
    else if s == "gs" || s == "gcs" then "gs"
    else if s == "abfs" || s == "abfss" then "abfss"
    else if s == "wasb" || s == "wasbs" then "wasbs"
    else s
  }

  function CanonicalScheme(scheme: string): string {
    Family(Lower(scheme))
  }

  /** Every run of slashes reduced to one; `last` says a slash was just kept. */
  function Squeeze(s: string, last: bool): string {
    if s == [] then []
    else if s[0] == '/' then (if last then [] else ['/']) + Squeeze(s[1..], true)
    else [s[0]] + Squeeze(s[1..], false)
  }

  function TrimSlashes(s: string): (r: string)
    ensures r <= s
    ensures !EndsWith(r, "/")
  {
    if EndsWith(s, "/") then TrimSlashes(s[..|s| - 1]) else s
  }

  function Tidy(s: string): string {
    TrimSlashes(Squeeze(s, false))
  }

  function CollapsedSlashes(path: string): string {
    match SplitOnce(path, SEP)
    case Some((scheme, rest)) => scheme + SEP + Tidy(rest)
    case None => Tidy(path)
  }

  /** The form paths are compared in. */
  function Normalize(path: string): string {
    match SplitOnce(path, SEP)
    case Some((scheme, rest)) => CollapsedSlashes(CanonicalScheme(scheme) + SEP + rest)
    case None => CollapsedSlashes(path)
  }

  lemma SqueezeStep(buffer: string, rest: string, i: nat, last: bool)
    requires i < |rest|
    ensures buffer + Squeeze(rest[i..], last) ==
            (if rest[i] == '/' && last then buffer else buffer + [rest[i]]) + Squeeze(rest[i + 1..], rest[i] == '/')
  {
    assert rest[i..][0] == rest[i] && rest[i..][1..] == rest[i + 1..];
  }

  /** The buffer loop of `collapse_slashes`: characters pushed one at a time. */
  method SqueezeSlashes(rest: string) returns (buffer: string)
    ensures buffer == Squeeze(rest, false)
  {
    buffer := "";
    var lastWasSlash := false;
    assert rest[0..] == rest;
    for i := 0 to |rest|
      invariant buffer + Squeeze(rest[i..], lastWasSlash) == Squeeze(rest, false)
    {
      SqueezeStep(buffer, rest, i, lastWasSlash);
      if rest[i] == '/' {
        if !lastWasSlash {
          buffer := buffer + [rest[i]];
        }
        lastWasSlash := true;
      } else {
        buffer := buffer + [rest[i]];
        lastWasSlash := false;
      }
    }
    assert rest[|rest|..] == [];
  }

  // ---- Normalization decides identity: it is idempotent ----

  predicate NoDoubleSlash(s: string) {
    forall i :: 0 <= i < |s| - 1 ==> !(s[i] == '/' && s[i + 1] == '/')
  }

  lemma {:induction false} SqueezeNoDouble(s: string, last: bool)
    ensures NoDoubleSlash(Squeeze(s, last))
    ensures last && Squeeze(s, last) != [] ==> Squeeze(s, last)[0] != '/'
  {
    if s != [] {
      SqueezeNoDouble(s[1..], s[0] == '/');
    }
  }

  lemma {:induction false} SqueezeStable(s: string, last: bool)
    requires NoDoubleSlash(s)
    requires last && s != [] ==> s[0] != '/'
    ensures Squeeze(s, last) == s
  {
    if s != [] {
      SqueezeStable(s[1..], s[0] == '/');
      assert s == [s[0]] + s[1..];
    }
  }

  lemma TidyClean(s: string)
    ensures NoDoubleSlash(Tidy(s)) && !EndsWith(Tidy(s), "/")
    ensures Tidy(Tidy(s)) == Tidy(s)
  {
    SqueezeNoDouble(s, false);
    SqueezeStable(Tidy(s), false);
  }

  /** A string with its slashes left out. */
  function Letters(s: string): string {
    if s == [] then [] else (if s[0] == '/' then [] else [s[0]]) + Letters(s[1..])
  }

  lemma {:induction false} SqueezeKeepsLetters(s: string, last: bool)
    ensures Letters(Squeeze(s, last)) == Letters(s)
  {
    if s != [] {
      SqueezeKeepsLetters(s[1..], s[0] == '/');
      var rest := Squeeze(s[1..], s[0] == '/');
      assert ([s[0]] + rest)[1..] == rest && [] + rest == rest;
    }
  }

  lemma {:induction false} LettersBeforeSlash(s: string)
    ensures Letters(s + "/") == Letters(s)
  {
    if s == [] {
      assert ("" + "/")[1..] == "";
    } else {
      assert (s + "/")[1..] == s[1..] + "/";
      LettersBeforeSlash(s[1..]);
    }
  }

  lemma {:induction false} TrimKeepsLetters(s: string)
    ensures Letters(TrimSlashes(s)) == Letters(s)
  {
    if EndsWith(s, "/") {
      assert s == s[..|s| - 1] + "/";
      LettersBeforeSlash(s[..|s| - 1]);
      TrimKeepsLetters(s[..|s| - 1]);
    }
  }

  /** `out` spells what follows the scheme with single slashes only and none at the end, and is otherwise the same. */
  predicate Collapsed(path: string, out: string) {
    var (prefix, rest) := match SplitOnce(path, SEP) case Some((scheme, r)) => (scheme + SEP, r) case None => ("", path);
    && StartsWith(out, prefix)
    && NoDoubleSlash(out[|prefix|..]) && !EndsWith(out[|prefix|..], "/")
    && Letters(out[|prefix|..]) == Letters(rest)
  }

  lemma CollapsedIs(path: string, prefix: string, rest: string)
    requires prefix == "" ==> rest == path && SplitOnce(path, SEP) == None
    requires prefix != "" ==> |prefix| >= |SEP| && prefix == prefix[..|prefix| - |SEP|] + SEP
    requires prefix != "" ==> SplitOnce(path, SEP) == Some((prefix[..|prefix| - |SEP|], rest))
    ensures Collapsed(path, prefix + Tidy(rest))
  {
    hide SplitOnce, Letters, NoDoubleSlash, Squeeze;
    TidyClean(rest);
    SqueezeKeepsLetters(rest, false);
    TrimKeepsLetters(Squeeze(rest, false));
    assert (prefix + Tidy(rest))[|prefix|..] == Tidy(rest);
    assert (prefix + Tidy(rest))[..|prefix|] == prefix;
  }

  /** `collapse_slashes` whole: squeeze what follows the scheme, then pop trailing slashes. */
  method CollapseSlashes(path: string) returns (out: string)
    ensures out == CollapsedSlashes(path) && Collapsed(path, out)
  {
    var prefix, rest := "", path;
    match SplitOnce(path, SEP) {
      case Some((scheme, r)) => prefix, rest := scheme + SEP, r;
      case None =>
    }
    out := SqueezeSlashes(rest);
    while EndsWith(out, "/")
      invariant TrimSlashes(out) == Tidy(rest)
      decreases |out|
    {
      out := out[..|out| - 1];
    }
    assert SEP != "" && (prefix != "" ==> prefix[..|prefix| - |SEP|] + SEP == prefix);
    CollapsedIs(path, prefix, rest);
    out := prefix + out;
  }

  lemma SeparatorAt(s: string, i: nat)
    requires OccursAt(s, SEP, i)
    ensures s[i] == ':' && s[i + 1] == '/' && s[i + 2] == '/'
  {
    var hit := s[i..i + 3];
    assert hit[0] == s[i] && hit[1] == s[i + 1] && hit[2] == s[i + 2];
  }

  /** A separator found in `scheme://rest` is the one written there, when the scheme holds none: an occurrence of
      `://` cannot straddle the joint. */
  lemma SplitOnceJoined(scheme: string, rest: string)
    requires !Contains(scheme, SEP)
    ensures SplitOnce(scheme + SEP + rest, SEP) == Some((scheme, rest))
  {
    var s := scheme + SEP + rest;
    assert OccursAt(s, SEP, |scheme|);
    forall i: nat | i < |scheme|
      ensures !OccursAt(s, SEP, i)
    {
      if OccursAt(s, SEP, i) {
        SeparatorAt(s, i);
        assert s[|scheme|] == ':';
        if i + 3 <= |scheme| {
          assert scheme[i..i + 3] == s[i..i + 3];
          assert OccursAt(scheme, SEP, i);
        }
      }
    }
  }

  lemma LowerKeepsNoSeparator(scheme: string)
    requires !Contains(scheme, SEP)
    ensures !Contains(Lower(scheme), SEP)
  {
    var s := Lower(scheme);
    forall i: nat
      ensures !OccursAt(s, SEP, i)
    {
      if OccursAt(s, SEP, i) {
        SeparatorAt(s, i);
        assert scheme[i] == ':' && scheme[i + 1] == '/' && scheme[i + 2] == '/';
        assert scheme[i..i + 3] == SEP;
        assert OccursAt(scheme, SEP, i);
      }
    }
  }

  lemma NoColonNoSeparator(s: string)
    requires ':' !in s
    ensures !Contains(s, SEP)
  {
    forall i: nat
      ensures !OccursAt(s, SEP, i)
    {
      if OccursAt(s, SEP, i) {
        SeparatorAt(s, i);
      }
    }
  }

  lemma LoweredStays(s: string)
    requires forall c | c in s :: !('A' <= c <= 'Z')
    ensures Lower(s) == s
  {
    assert forall i :: 0 <= i < |s| ==> s[i] in s;
  }

  lemma LowerTwice(s: string)
    ensures Lower(Lower(s)) == Lower(s)
  {
  }

  /** The four names families of aliases go by are lower-case and hold no separator. */
  lemma FamilyNames(name: string)
    requires name == "s3" || name == "gs" || name == "abfss" || name == "wasbs"
    ensures !Contains(name, SEP) && Lower(name) == name && Family(name) == name
  {
    hide Contains, Lower;
    assert forall c | c in name :: 'a' <= c <= 'z' || c == '3';
    NoColonNoSeparator(name);
    LoweredStays(name);
  }

  lemma CanonicalKeepsNoSeparator(scheme: string)
    requires !Contains(scheme, SEP)
    ensures !Contains(CanonicalScheme(scheme), SEP)
    ensures CanonicalScheme(CanonicalScheme(scheme)) == CanonicalScheme(scheme)
  {
    hide Contains, Lower;
    LowerKeepsNoSeparator(scheme);
    LowerTwice(scheme);
    if Family(Lower(scheme)) != Lower(scheme) {
      FamilyNames(Family(Lower(scheme)));
    }
  }

  /** What normalization produces, case by case. */
  lemma NormalForm(path: string)
    ensures SplitOnce(path, SEP).None? ==> Normalize(path) == Tidy(path)
    ensures SplitOnce(path, SEP).Some? ==>
              var (scheme, rest) := SplitOnce(path, SEP).value;
              !Contains(scheme, SEP) && Normalize(path) == CanonicalScheme(scheme) + SEP + Tidy(rest)
  {
    match SplitOnce(path, SEP)
    case None =>
    case Some((scheme, rest)) =>
      forall i: nat
        ensures !OccursAt(scheme, SEP, i)
      {
        if OccursAt(scheme, SEP, i) {
          assert path[i..i + 3] == scheme[i..i + 3];
          assert OccursAt(path, SEP, i);
        }
      }
      CanonicalKeepsNoSeparator(scheme);
      SplitOnceJoined(CanonicalScheme(scheme), rest);
  }

  lemma TidyHasNoSeparator(s: string)
    ensures !Contains(Tidy(s), SEP)
  {
    TidyClean(s);
    forall i: nat
      ensures !OccursAt(Tidy(s), SEP, i)
    {
      if OccursAt(Tidy(s), SEP, i) {
        SeparatorAt(Tidy(s), i);
      }
    }
  }

  lemma NormalizeIdempotent(path: string)
    ensures Normalize(Normalize(path)) == Normalize(path)
  {
    NormalForm(path);
    NormalForm(Normalize(path));
    match SplitOnce(path, SEP)
    case None =>
      TidyHasNoSeparator(path);
      TidyClean(path);
    case Some((scheme, rest)) =>
      CanonicalKeepsNoSeparator(scheme);
      SplitOnceJoined(CanonicalScheme(scheme), Tidy(rest));
      TidyClean(rest);
  }

  // ---- Containment is by whole segments ----

  predicate IsInside(location: string, path: string) {
    var l, p := Normalize(location), Normalize(path);
    StartsWith(p, l) && StartsWith(p[|l|..], "/")
  }

  function Segments(path: string): (r: seq<string>)
  {
    Split(Normalize(path), '/')
  }

  predicate ProperPrefix(a: seq<string>, b: seq<string>) {
    |a| < |b| && b[..|a|] == a
  }

  lemma InsideIsSegmentPrefix(location: string, path: string)
    ensures IsInside(location, path) <==> ProperPrefix(Segments(location), Segments(path))
  {
    hide Normalize, Split, Join;
    var l, p := Normalize(location), Normalize(path);
    var a, b := Split(l, '/'), Split(p, '/');
    if IsInside(location, path) {
      var rest := p[|l| + 1..];
      assert p == l + ['/'] + rest;
      SplitConcat(l, rest, '/');
      assert b == a + Split(rest, '/');
    }
    if ProperPrefix(a, b) {
      var rest := b[|a|..];
      assert b == a + rest;
      JoinSplit(l, '/');
      JoinSplit(p, '/');
      JoinConcat(a, rest, '/');
      assert p == l + ['/'] + Join(rest, '/');
      assert p[|l|..] == ['/'] + Join(rest, '/');
    }
  }

  lemma InsideIsStrictOrder(a: string, b: string, c: string)
    ensures !IsInside(a, a)
    ensures IsInside(a, b) && IsInside(b, c) ==> IsInside(a, c)
  {
    InsideIsSegmentPrefix(a, a);
    InsideIsSegmentPrefix(a, b);
    InsideIsSegmentPrefix(b, c);
    InsideIsSegmentPrefix(a, c);
    if IsInside(a, b) && IsInside(b, c) {
      assert Segments(c)[..|Segments(a)|] == Segments(b)[..|Segments(a)|];
    }
  }

  // ---- One object, many spellings ----

  lemma {:induction false} SqueezeDoubled(x: string, y: string, last: bool)
    ensures Squeeze(x + "//" + y, last) == Squeeze(x + "/" + y, last)
  {
    if x == [] {
      assert ("" + "//" + y)[1..] == "/" + y && ("/" + y)[1..] == y && "" + "/" + y == "/" + y;
    } else {
      assert (x + "//" + y)[1..] == x[1..] + "//" + y && (x + "/" + y)[1..] == x[1..] + "/" + y;
      SqueezeDoubled(x[1..], y, x[0] == '/');
    }
  }

  lemma {:induction false} SqueezeTrailing(x: string, last: bool)
    ensures Squeeze(x + "/", last) == Squeeze(x, last) || Squeeze(x + "/", last) == Squeeze(x, last) + "/"
  {
    if x == [] {
      assert ("" + "/")[1..] == "";
    } else {
      assert (x + "/")[1..] == x[1..] + "/";
      SqueezeTrailing(x[1..], x[0] == '/');
    }
  }

  lemma TidySpellings(x: string, y: string)
    ensures Tidy(x + "//" + y + "/") == Tidy(x + "/" + y)
  {
    hide Squeeze;
    var doubled := x + "//" + y;
    SqueezeDoubled(x, y, false);
    SqueezeTrailing(doubled, false);
    var s := Squeeze(doubled, false);
    assert (s + "/")[..|s|] == s;
  }

  lemma NormalizeSchemed(scheme: string, rest: string)
    requires !Contains(scheme, SEP)
    ensures Normalize(scheme + SEP + rest) == CanonicalScheme(scheme) + SEP + Tidy(rest)
  {
    hide CanonicalScheme, Tidy, SplitOnce;
    SplitOnceJoined(scheme, rest);
    CanonicalKeepsNoSeparator(scheme);
    SplitOnceJoined(CanonicalScheme(scheme), rest);
  }

  /** Aliases of one scheme, a doubled slash from a naive join and a trailing slash all spell the same object. */
  lemma SpellingsNormalizeAlike(a: string, b: string, x: string, y: string)
    requires !Contains(a, SEP) && !Contains(b, SEP) && CanonicalScheme(a) == CanonicalScheme(b)
    ensures Normalize(a + SEP + (x + "//" + y + "/")) == Normalize(b + SEP + (x + "/" + y))
  {
    hide CanonicalScheme, Tidy, Normalize;
    NormalizeSchemed(a, x + "//" + y + "/");
    NormalizeSchemed(b, x + "/" + y);
    TidySpellings(x, y);
  }

  // ---- Which paths are one object ----

  function NonEmpty(parts: seq<string>): seq<string> {
    if parts == [] then [] else (if parts[0] == "" then [] else [parts[0]]) + NonEmpty(parts[1..])
  }

  /** What lies between slashes, runs of them and those at either end left out. */
  function Pieces(s: string): seq<string> {
    NonEmpty(Split(s, '/'))
  }

  /** The same pieces in the same order, and a slash before the first in both or in neither. */
  predicate SameKey(x: string, y: string) {
    Pieces(x) == Pieces(y) && (Pieces(x) != [] ==> (StartsWith(x, "/") <==> StartsWith(y, "/")))
  }

  predicate SameLetter(c: char, d: char) {
    c == d || ('A' <= c <= 'Z' && d == c - 'A' + 'a') || ('A' <= d <= 'Z' && c == d - 'A' + 'a')
  }

  /** Equal but for the case of letters. */
  predicate CaseBlind(a: string, b: string) {
    |a| == |b| && forall i :: 0 <= i < |a| ==> SameLetter(a[i], b[i])
  }

  predicate Spells(a: string, name: string, alias: string, other: string) {
    CaseBlind(a, name) || CaseBlind(a, alias) || CaseBlind(a, other)
  }

  /** Two names of one kind of store. */
  predicate SameStore(a: string, b: string) {
    || CaseBlind(a, b)
    || (Spells(a, "s3", "s3a", "s3n") && Spells(b, "s3", "s3a", "s3n"))
    || (Spells(a, "gs", "gcs", "gs") && Spells(b, "gs", "gcs", "gs"))
    || (Spells(a, "abfs", "abfss", "abfs") && Spells(b, "abfs", "abfss", "abfs"))
    || (Spells(a, "wasb", "wasbs", "wasb") && Spells(b, "wasb", "wasbs", "wasb"))
  }

  /** The same key in the same kind of store, or the same key where neither names one. */
  predicate SameObject(p: string, q: string) {
    match (SplitOnce(p, SEP), SplitOnce(q, SEP))
    case (None, None) => SameKey(p, q)
    case (Some((a, x)), Some((b, y))) => SameStore(a, b) && SameKey(x, y)
    case _ => false
  }

  lemma {:induction false} NonEmptyConcat(a: seq<string>, b: seq<string>)
    ensures NonEmpty(a + b) == NonEmpty(a) + NonEmpty(b)
  {
    if a == [] {
      assert a + b == b;
    } else {
      assert (a + b)[1..] == a[1..] + b;
      NonEmptyConcat(a[1..], b);
    }
  }

  lemma {:induction false} NonEmptyWhole(parts: seq<string>)
    requires forall i :: 0 <= i < |parts| ==> parts[i] != ""
    ensures NonEmpty(parts) == parts
  {
    if parts != [] {
      NonEmptyWhole(parts[1..]);
      assert parts == [parts[0]] + parts[1..];
    }
  }

  lemma {:induction false} SqueezeKeepsPieces(s: string, last: bool)
    ensures var a, b := Split(s, '/'), Split(Squeeze(s, last), '/');
            && NonEmpty(a) == NonEmpty(b)
            && (!last || s == [] || s[0] != '/' ==> a[0] == b[0] && NonEmpty(a[1..]) == NonEmpty(b[1..]))
  {
    if s != [] {
      var slash := s[0] == '/';
      SqueezeKeepsPieces(s[1..], slash);
      var rest := Squeeze(s[1..], slash);
      assert ([s[0]] + rest)[1..] == rest && [] + rest == rest;
    }
  }

  lemma {:induction false} TrimKeepsPieces(s: string)
    ensures Pieces(TrimSlashes(s)) == Pieces(s)
  {
    if EndsWith(s, "/") {
      var front := s[..|s| - 1];
      assert s == front + ['/'] + "";
      SplitConcat(front, "", '/');
      NonEmptyConcat(Split(front, '/'), [""]);
      TrimKeepsPieces(front);
    }
  }

  lemma TidyKeepsPieces(s: string)
    ensures Pieces(Tidy(s)) == Pieces(s)
  {
    SqueezeKeepsPieces(s, false);
    TrimKeepsPieces(Squeeze(s, false));
  }

  /** Single slashes only, and none at the end. */
  predicate Clean(s: string) {
    NoDoubleSlash(s) && (s != [] ==> s[|s| - 1] != '/')
  }

  lemma TidyIsClean(s: string)
    ensures Clean(Tidy(s))
  {
    TidyClean(s);
    var t := Tidy(s);
    assert t != [] ==> t[|t| - 1..] == [t[|t| - 1]];
  }

  lemma CleanTail(s: string)
    requires s != [] && Clean(s)
    ensures Clean(s[1..])
    ensures s[0] == '/' ==> s[1..] != [] && s[1] != '/'
  {
    var rest := s[1..];
    forall i | 0 <= i < |rest| - 1
      ensures !(rest[i] == '/' && rest[i + 1] == '/')
    {
      assert s[i + 1] == rest[i] && s[i + 2] == rest[i + 1];
    }
    if |s| > 1 {
      assert !(s[0] == '/' && s[0 + 1] == '/');
    }
  }

  /** A clean string that does not begin with a slash has no empty segment. */
  lemma {:induction false} CleanHasNoGaps(s: string)
    requires s != [] && s[0] != '/' && Clean(s)
    ensures forall i :: 0 <= i < |Split(s, '/')| ==> Split(s, '/')[i] != ""
  {
    var rest := s[1..];
    CleanTail(s);
    if rest == [] {
      assert Split(rest, '/') == [[]];
    } else if rest[0] == '/' {
      CleanTail(rest);
      CleanHasNoGaps(rest[1..]);
      assert Split(rest, '/') == [[]] + Split(rest[1..], '/');
    } else {
      CleanHasNoGaps(rest);
    }
  }

  /** A clean string is its pieces, joined. */
  lemma CleanIsPieces(s: string)
    requires Clean(s)
    ensures s == (if StartsWith(s, "/") then "/" else "") + Join(Pieces(s), '/')
    ensures s == [] <==> Pieces(s) == []
  {
    if s != [] {
      var body := if s[0] == '/' then s[1..] else s;
      CleanTail(s);
      CleanHasNoGaps(body);
      NonEmptyWhole(Split(body, '/'));
      JoinSplit(body, '/');
      if s[0] == '/' {
        var parts := Split(body, '/');
        assert Split(s, '/') == [""] + parts && ([""] + parts)[1..] == parts;
        assert NonEmpty([""] + parts) == [] + NonEmpty(parts) == parts;
        assert s[..1] == ['/'] && s == "/" + body;
      } else {
        assert s[..1][0] == s[0] && s == "" + s;
      }
      assert Join(Pieces(s), '/') == body;
    }
  }

  lemma TidyStart(s: string)
    ensures StartsWith(Tidy(s), "/") <==> StartsWith(s, "/") && Pieces(s) != []
  {
    TidyIsClean(s);
    TidyKeepsPieces(s);
    CleanIsPieces(Tidy(s));
    if Tidy(s) != [] {
      var squeezed := Squeeze(s, false);
      assert Tidy(s) <= squeezed;
      assert Tidy(s)[0] == squeezed[0] == s[0];
    }
  }

  lemma TidyIsKey(x: string, y: string)
    ensures Tidy(x) == Tidy(y) <==> SameKey(x, y)
  {
    hide Pieces, Clean, Tidy, StartsWith;
    TidyIsClean(x);
    TidyIsClean(y);
    TidyKeepsPieces(x);
    TidyKeepsPieces(y);
    CleanIsPieces(Tidy(x));
    CleanIsPieces(Tidy(y));
    TidyStart(x);
    TidyStart(y);
  }

  lemma CaseBlindIsLower(a: string, b: string)
    ensures CaseBlind(a, b) <==> Lower(a) == Lower(b)
  {
    if CaseBlind(a, b) {
      assert forall i :: 0 <= i < |a| ==> Lower(a)[i] == Lower(b)[i];
    }
    if Lower(a) == Lower(b) {
      assert |a| == |Lower(a)| == |b|;
      forall i | 0 <= i < |a|
        ensures SameLetter(a[i], b[i])
      {
        assert Lower(a)[i] == Lower(b)[i];
      }
    }
  }

  lemma SpellsIsLower(a: string, name: string, alias: string, other: string)
    requires Lower(name) == name && Lower(alias) == alias && Lower(other) == other
    ensures Spells(a, name, alias, other) <==> Lower(a) == name || Lower(a) == alias || Lower(a) == other
  {
    CaseBlindIsLower(a, name);
    CaseBlindIsLower(a, alias);
    CaseBlindIsLower(a, other);
  }

  lemma FamilyClasses(a: string, b: string)
    ensures Family(a) == Family(b) <==>
            || a == b
            || ((a == "s3" || a == "s3a" || a == "s3n") && (b == "s3" || b == "s3a" || b == "s3n"))
            || ((a == "gs" || a == "gcs" || a == "gs") && (b == "gs" || b == "gcs" || b == "gs"))
            || ((a == "abfs" || a == "abfss" || a == "abfs") && (b == "abfs" || b == "abfss" || b == "abfs"))
            || ((a == "wasb" || a == "wasbs" || a == "wasb") && (b == "wasb" || b == "wasbs" || b == "wasb"))
  {
  }

  lemma StoreNamesAreLower()
    ensures Lower("s3") == "s3" && Lower("s3a") == "s3a" && Lower("s3n") == "s3n"
    ensures Lower("gs") == "gs" && Lower("gcs") == "gcs"
    ensures Lower("abfs") == "abfs" && Lower("abfss") == "abfss"
    ensures Lower("wasb") == "wasb" && Lower("wasbs") == "wasbs"
  {
  }

  lemma CanonicalIsStore(a: string, b: string)
    ensures CanonicalScheme(a) == CanonicalScheme(b) <==> SameStore(a, b)
  {
    hide Lower, Family, CaseBlind, Spells;
    StoreNamesAreLower();
    CaseBlindIsLower(a, b);
    SpellsIsLower(a, "s3", "s3a", "s3n");
    SpellsIsLower(b, "s3", "s3a", "s3n");
    SpellsIsLower(a, "gs", "gcs", "gs");
    SpellsIsLower(b, "gs", "gcs", "gs");
    SpellsIsLower(a, "abfs", "abfss", "abfs");
    SpellsIsLower(b, "abfs", "abfss", "abfs");
    SpellsIsLower(a, "wasb", "wasbs", "wasb");
    SpellsIsLower(b, "wasb", "wasbs", "wasb");
    FamilyClasses(Lower(a), Lower(b));
  }

  lemma JoinedApart(a: string, x: string, b: string, y: string)
    requires !Contains(a, SEP) && !Contains(b, SEP)
    ensures a + SEP + x == b + SEP + y <==> a == b && x == y
  {
    hide SplitOnce, Contains;
    SplitOnceJoined(a, x);
    SplitOnceJoined(b, y);
  }

  /** Two paths have one normal form exactly when they name one object: the same kind of store, whatever alias and case its name
      is spelled in, and the same pieces between slashes. */
  lemma NormalFormsAreObjects(p: string, q: string)
    ensures Normalize(p) == Normalize(q) <==> SameObject(p, q)
  {
    hide Normalize, Tidy, SameKey, SameStore, CanonicalScheme, Contains, SplitOnce;
    NormalForm(p);
    NormalForm(q);
    match (SplitOnce(p, SEP), SplitOnce(q, SEP))
    case (None, None) =>
      TidyIsKey(p, q);
    case (Some((a, x)), Some((b, y))) =>
      CanonicalKeepsNoSeparator(a);
      CanonicalKeepsNoSeparator(b);
      JoinedApart(CanonicalScheme(a), Tidy(x), CanonicalScheme(b), Tidy(y));
      CanonicalIsStore(a, b);
      TidyIsKey(x, y);
    case (Some((a, x)), None) =>
      CanonicalKeepsNoSeparator(a);
      SchemedIsNotTidy(CanonicalScheme(a), Tidy(x), q);
    case (None, Some((b, y))) =>
      CanonicalKeepsNoSeparator(b);
      SchemedIsNotTidy(CanonicalScheme(b), Tidy(y), p);
  }

  lemma SchemedIsNotTidy(c: string, x: string, q: string)
    requires !Contains(c, SEP)
    ensures c + SEP + x != Tidy(q)
  {
    hide SplitOnce, Contains, Tidy;
    SplitOnceJoined(c, x);
    TidyHasNoSeparator(q);
  }

  // ---- A foreign table's metadata document inside a location ----

  /** The root of another table, when a listed path is that table's metadata document. */
  function NestedTableRoot(location: string, path: string): Option<string> {
    if !EndsWith(path, METADATA_SUFFIX) then None else RootBelow(Normalize(location), Normalize(path))
  }

  function RootBelow(l: string, p: string): Option<string> {
    if !StartsWith(p, l) || !StartsWith(p[|l|..], "/") then None
    else
      match SplitOnce(p[|l| + 1..], METADATA_DIR)
      case None => None
      case Some((root, _)) => if root == [] then None else Some(l + "/" + root)
  }

  /** `path` is a metadata document at `location/r/metadata/y` for a non-empty `r`. */
  predicate ForeignDocument(location: string, path: string, r: string, y: string) {
    EndsWith(path, METADATA_SUFFIX) && r != [] && Normalize(path) == Normalize(location) + "/" + r + METADATA_DIR + y
  }

  predicate HasScheme(path: string) {
    SplitOnce(path, SEP).Some?
  }

  lemma NestedRootIsForeign(location: string, path: string) returns (r: string, y: string)
    requires NestedTableRoot(location, path).Some?
    ensures ForeignDocument(location, path, r, y)
    ensures NestedTableRoot(location, path) == Some(Normalize(location) + "/" + r)
  {
    r, y := RootBelowParts(Normalize(location), Normalize(path));
  }

  lemma SlashNext(p: string, l: string)
    requires StartsWith(p, l) && StartsWith(p[|l|..], "/")
    ensures p == l + "/" + p[|l| + 1..]
  {
    assert p[|l|] == p[|l|..][0] == '/';
    assert p == p[..|l|] + [p[|l|]] + p[|l| + 1..];
  }

  lemma RootBelowParts(l: string, p: string) returns (r: string, y: string)
    requires RootBelow(l, p).Some?
    ensures r != [] && p == l + "/" + r + METADATA_DIR + y
    ensures RootBelow(l, p) == Some(l + "/" + r)
  {
    hide SplitOnce, Contains;
    var rest := p[|l| + 1..];
    r, y := SplitOnce(rest, METADATA_DIR).value.0, SplitOnce(rest, METADATA_DIR).value.1;
    SlashNext(p, l);
    assert l + "/" + (r + METADATA_DIR + y) == l + "/" + r + METADATA_DIR + y;
  }

  /** The scheme part of a normalized path and its slash-clean remainder. */
  lemma NormalParts(path: string) returns (prefix: string, body: string)
    ensures Normalize(path) == prefix + body && NoDoubleSlash(body)
    ensures !HasScheme(path) ==> prefix == ""
    ensures HasScheme(path) ==> exists c: string :: !Contains(c, SEP) && prefix == c + SEP
  {
    NormalForm(path);
    match SplitOnce(path, SEP)
    case None =>
      TidyClean(path);
      return "", Tidy(path);
    case Some((scheme, rest)) =>
      TidyClean(rest);
      CanonicalKeepsNoSeparator(scheme);
      prefix, body := CanonicalScheme(scheme) + SEP, Tidy(rest);
  }

  lemma SharedScheme(lc: string, lb: string, pc: string, pb: string, more: string)
    requires !Contains(lc, SEP) && !Contains(pc, SEP)
    requires pc + SEP + pb == lc + SEP + lb + more
    ensures pb == lb + more
  {
    hide Contains, SplitOnce;
    Regrouped(lc, SEP, lb, more);
    SplitOnceJoined(lc, lb + more);
    SplitOnceJoined(pc, pb);
  }

  lemma Regrouped(a: string, b: string, c: string, d: string)
    ensures a + b + c + d == a + b + (c + d)
  {
  }

  lemma NoDoubleSuffix(a: string, b: string)
    requires NoDoubleSlash(a + b)
    ensures NoDoubleSlash(b)
  {
    forall i | 0 <= i < |b| - 1
      ensures !(b[i] == '/' && b[i + 1] == '/')
    {
      assert (a + b)[|a| + i] == b[i] && (a + b)[|a| + i + 1] == b[i + 1];
    }
  }

  /** What follows a location of the same kind of address in a normalized path has no doubled slash. */
  lemma CleanAfterLocation(location: string, path: string, more: string)
    requires HasScheme(path) ==> HasScheme(location)
    requires Normalize(path) == Normalize(location) + more
    ensures NoDoubleSlash(more)
  {
    var lp, lb := NormalParts(location);
    var pp, pb := NormalParts(path);
    if HasScheme(path) {
      var lc: string :| !Contains(lc, SEP) && lp == lc + SEP;
      var pc: string :| !Contains(pc, SEP) && pp == pc + SEP;
      SharedScheme(lc, lb, pc, pb, more);
      NoDoubleSuffix(lb, more);
    } else {
      assert pb == Normalize(location) + more;
      NoDoubleSuffix(Normalize(location), more);
    }
  }

  /** What follows a location and a slash. */
  lemma BelowParts(l: string, rest: string)
    ensures StartsWith(l + "/" + rest, l)
    ensures StartsWith((l + "/" + rest)[|l|..], "/")
    ensures (l + "/" + rest)[|l| + 1..] == rest
  {
    var p := l + "/" + rest;
    assert p[..|l|] == l && p[|l|..] == "/" + rest;
  }

  /** A separator written after `r` is found, at the very front exactly when the whole begins with it. */
  lemma FrontIsEmpty(r: string, sep: string, y: string)
    requires sep != []
    ensures SplitOnce(r + sep + y, sep).Some?
    ensures SplitOnce(r + sep + y, sep).value.0 == [] <==> StartsWith(r + sep + y, sep)
  {
    var s := r + sep + y;
    assert s[|r|..|r| + |sep|] == sep;
    assert OccursAt(s, sep, |r|);
    var front, back := SplitOnce(s, sep).value.0, SplitOnce(s, sep).value.1;
    assert s == front + sep + back;
    if front == [] {
      assert s[..|sep|] == sep;
    }
    if StartsWith(s, sep) {
      assert s[0..|sep|] == sep;
      assert OccursAt(s, sep, 0);
    }
  }

  /** The search for another table's root, on parts already normalized. */
  lemma RootBelowFinds(l: string, r: string, y: string)
    ensures RootBelow(l, l + "/" + r + METADATA_DIR + y).Some? <==> !StartsWith(r + METADATA_DIR + y, METADATA_DIR)
  {
    hide SplitOnce, StartsWith;
    var rest := r + METADATA_DIR + y;
    SlashedTogether(l, r, METADATA_DIR, y);
    BelowParts(l, rest);
    FrontIsEmpty(r, METADATA_DIR, y);
  }

  lemma SlashedTogether(l: string, r: string, dir: string, y: string)
    ensures l + "/" + r + dir + y == l + "/" + (r + dir + y)
  {
  }

  /** Another table's metadata document is detected if and only if what follows the location does not itself begin with
      `/metadata/`, which takes a doubled slash right after the location. */
  lemma ForeignIsDetected(location: string, path: string, r: string, y: string)
    requires ForeignDocument(location, path, r, y)
    ensures NestedTableRoot(location, path).Some? <==> !StartsWith(r + METADATA_DIR + y, METADATA_DIR)
  {
    RootBelowFinds(Normalize(location), r, y);
  }

  /** Normalizing leaves no such slash, unless the path carries a scheme and the location does not: a store that lists
      paths spelled like the location it was asked about never hides a document. */
  lemma SameKindOfAddressIsDetected(location: string, path: string, r: string, y: string)
    requires ForeignDocument(location, path, r, y)
    requires HasScheme(path) ==> HasScheme(location)
    ensures NestedTableRoot(location, path).Some?
  {
    hide Normalize, HasScheme;
    var more := "/" + (r + METADATA_DIR + y);
    assert Normalize(path) == Normalize(location) + more;
    CleanAfterLocation(location, path, more);
    assert more[0] == '/' && more[1] == r[0];
    assert METADATA_DIR[0] == '/' && (r + METADATA_DIR + y)[0] == r[0];
    ForeignIsDetected(location, path, r, y);
  }
}
