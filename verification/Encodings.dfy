/** Strings used as identity: the partition key files are grouped by, and the rendering rules are matched against.
    Both are injective, with a decoder to show it. */
module Encodings {
  import opened Wrappers
  import opened Strings
  import opened Tables

  // ---- Percent-encoding of the two ambiguous characters ----

  function Code(c: char): string {
    if c == '%' then "%25" else if c == '/' then "%2F" else [c]
  }

  function Encode(s: string): string {
    if s == [] then [] else Code(s[0]) + Encode(s[1..])
  }

  function Decode(s: string): string {
    if s == [] then []
    else if StartsWith(s, "%25") then "%" + Decode(s[3..])
    else if StartsWith(s, "%2F") then "/" + Decode(s[3..])
    else [s[0]] + Decode(s[1..])
  }

  /** `encode_into`: characters pushed one at a time. */
  method EncodeInto(segment: string, out: string) returns (r: string)
    ensures r == out + Encode(segment)
  {
    r := out;
    for i := 0 to |segment|
      invariant r + Encode(segment[i..]) == out + Encode(segment)
    {
      assert segment[i..][0] == segment[i] && segment[i..][1..] == segment[i + 1..];
      r := r + Code(segment[i]);
    }
    assert segment[|segment|..] == [];
  }

  lemma {:induction false} DecodeEncode(s: string)
    ensures Decode(Encode(s)) == s
  {
    if s != [] {
      DecodeEncode(s[1..]);
      var code, rest := Code(s[0]), Encode(s[1..]);
      assert s == [s[0]] + s[1..];
      assert Encode(s)[0] == code[0];
      if s[0] == '%' || s[0] == '/' {
        assert (code + rest)[..3] == code && (code + rest)[3..] == rest;
        assert code[2] == if s[0] == '%' then '5' else 'F';
      } else {
        assert ([s[0]] + rest)[1..] == rest;
        assert !StartsWith(Encode(s), "%25") && !StartsWith(Encode(s), "%2F") by {
          assert "%25"[0] == '%' && "%2F"[0] == '%';
          assert forall p: string :: StartsWith(Encode(s), p) && p != [] ==> p[0] == Encode(s)[..|p|][0];
        }
      }
    }
  }

  lemma {:induction false} EncodeHasNoSlash(s: string)
    ensures '/' !in Encode(s)
  {
    if s != [] {
      EncodeHasNoSlash(s[1..]);
    }
  }

  /** A percent sign an encoding starts with introduces `%25` or `%2F`. */
  lemma EncodeStart(s: string)
    ensures Encode(s) != [] && Encode(s)[0] == '%' ==> |Encode(s)| > 1 && Encode(s)[1] == '2'
  {
  }

  // ---- Partition keys ----

  /** A partition field: its name, and how its transform renders a value. */
  datatype Field = Field(name: string, render: int -> string)

  const UNPARTITIONED := "unpartitioned"
  const NULL := "null"
  const ABSENT := "absent"
  const NULL_TEXT := "%6Eull"
  const ABSENT_TEXT := "%61bsent"

  function Escape(value: string): string {
    var escaped := Encode(value);
    if escaped == NULL then NULL_TEXT else if escaped == ABSENT then ABSENT_TEXT else escaped
  }

  function Rendered(f: Field, data: seq<Value>, i: nat): string {
    if i >= |data| then ABSENT
    else match data[i] case Null => NULL case Datum(n) => Escape(f.render(n))
  }

  /** The key from field `i` on. */
  function KeyFrom(fields: seq<Field>, data: seq<Value>, i: nat): string
    decreases |fields| - i
  {
    if i >= |fields| then []
    else fields[i].name + "=" + Rendered(fields[i], data, i) + (if i + 1 < |fields| then "/" + KeyFrom(fields, data, i + 1) else [])
  }

  function PartitionPath(fields: seq<Field>, data: seq<Value>): string {
    if fields == [] then UNPARTITIONED else KeyFrom(fields, data, 0)
  }

  /** What is still to be written when the loop reaches field `i`. */
  function Remaining(fields: seq<Field>, data: seq<Value>, i: nat): string {
    if i >= |fields| then [] else (if i > 0 then "/" else []) + KeyFrom(fields, data, i)
  }

  lemma KeyStep(fields: seq<Field>, data: seq<Value>, i: nat)
    requires i < |fields|
    ensures KeyFrom(fields, data, i) == fields[i].name + "=" + Rendered(fields[i], data, i) + Remaining(fields, data, i + 1)
  {
    hide Rendered;
    if i + 1 < |fields| {
      assert Remaining(fields, data, i + 1) == "/" + KeyFrom(fields, data, i + 1);
    }
  }

  lemma RemainingStep(fields: seq<Field>, data: seq<Value>, i: nat)
    requires i < |fields|
    ensures Remaining(fields, data, i) ==
            (if i > 0 then "/" else []) + fields[i].name + "=" + Rendered(fields[i], data, i) + Remaining(fields, data, i + 1)
  {
    hide KeyFrom, Rendered, Remaining;
    KeyStep(fields, data, i);
    RemainingIs(fields, data, i);
    Prepended(if i > 0 then "/" else [], fields[i].name, "=", Rendered(fields[i], data, i), Remaining(fields, data, i + 1));
  }

  lemma RemainingIs(fields: seq<Field>, data: seq<Value>, i: nat)
    requires i < |fields|
    ensures Remaining(fields, data, i) == (if i > 0 then "/" else []) + KeyFrom(fields, data, i)
  {
    hide KeyFrom;
  }

  lemma Prepended(before: string, name: string, mark: string, value: string, rest: string)
    ensures before + (name + mark + value + rest) == before + name + mark + value + rest
  {
  }

  lemma Reassociate(out: string, before: string, name: string, mark: string, value: string, rest: string)
    ensures out + (before + name + mark + value + rest) == out + before + name + mark + value + rest
  {
  }

  /** A partition spec as it renders tuples: field by field, or, if it has fields that do not bind to the schema, by the raw
      tuple's own rendering. */
  datatype Spec = Bound(fields: seq<Field>) | Unbound(raw: seq<Value> -> string)

  function SpecKey(spec: Spec, data: seq<Value>): string {
    match spec
    case Bound(fields) => PartitionPath(fields, data)
    case Unbound(raw) => raw(data)
  }

  /** `partition_path`: the loop over fields, for a spec that binds. */
  method RenderPartition(spec: Spec, data: seq<Value>) returns (out: string)
    ensures out == SpecKey(spec, data)
  {
    if spec.Bound? && spec.fields == [] {
      return UNPARTITIONED;
    }
    if spec.Unbound? {
      return spec.raw(data);
    }
    var fields := spec.fields;
    out := "";
    for i := 0 to |fields|
      invariant out + Remaining(fields, data, i) == Remaining(fields, data, 0)
    {
      RemainingStep(fields, data, i);
      var separator := if i > 0 then "/" else [];
      var value := Rendered(fields[i], data, i);
      Reassociate(out, separator, fields[i].name, "=", value, Remaining(fields, data, i + 1));
      out := out + separator + fields[i].name + "=" + value;
    }
    assert out + [] == out;
    assert [] + KeyFrom(fields, data, 0) == KeyFrom(fields, data, 0);
  }

  /** What one field of a key says. */
  datatype Cell = NullCell | AbsentCell | Text(text: string)

  function CellOf(f: Field, data: seq<Value>, i: nat): Cell {
    if i >= |data| then AbsentCell
    else match data[i] case Null => NullCell case Datum(n) => Text(f.render(n))
  }

  function ReadToken(s: string): Cell {
    if s == NULL then NullCell
    else if s == ABSENT then AbsentCell
    else if s == NULL_TEXT then Text(NULL)
    else if s == ABSENT_TEXT then Text(ABSENT)
    else Text(Decode(s))
  }

  function UntilSlash(s: string): (r: string)
    ensures |r| <= |s| && s[..|r|] == r
  {
    if s == [] || s[0] == '/' then [] else [s[0]] + UntilSlash(s[1..])
  }

  /** Undo `KeyFrom`: skip a field's known name and its `=`, read the token up to the next slash. */
  function ReadCells(fields: seq<Field>, s: string, i: nat): seq<Cell>
    decreases |fields| - i
  {
    if i >= |fields| || |s| < |fields[i].name| + 1 then []
    else
      var body := s[|fields[i].name| + 1..];
      var token := UntilSlash(body);
      [ReadToken(token)] + (if |token| < |body| then ReadCells(fields, body[|token| + 1..], i + 1) else [])
  }

  lemma Constants()
    ensures '%' !in NULL && '%' !in ABSENT && '/' !in NULL_TEXT && '/' !in ABSENT_TEXT && '/' !in NULL && '/' !in ABSENT
    ensures |NULL_TEXT| > 1 && NULL_TEXT[0] == '%' && NULL_TEXT[1] == '6'
    ensures |ABSENT_TEXT| > 1 && ABSENT_TEXT[0] == '%' && ABSENT_TEXT[1] == '6'
    ensures NULL[0] == 'n' && ABSENT[0] == 'a' && NULL_TEXT[2] == 'E' && ABSENT_TEXT[2] == '1'
  {
  }

  /** An encoding is never one of the two escaped markers. */
  lemma NotAMarker(v: string)
    ensures Encode(v) != NULL_TEXT && Encode(v) != ABSENT_TEXT
  {
    EncodeStart(v);
    Constants();
  }

  lemma EscapeHasNoSlash(v: string)
    ensures '/' !in Escape(v)
  {
    Constants();
    EncodeHasNoSlash(v);
  }

  lemma EscapeIsReadable(v: string)
    ensures '/' !in Escape(v)
    ensures ReadToken(Escape(v)) == Text(v)
  {
    EscapeHasNoSlash(v);
    var escaped := Encode(v);
    DecodeEncode(v);
    if escaped == NULL {
      NullDecodes();
    } else if escaped == ABSENT {
      AbsentDecodes();
    } else {
      NotAMarker(v);
    }
  }

  lemma NullDecodes()
    ensures Decode(NULL) == NULL && ReadToken(NULL_TEXT) == Text(NULL)
  {
    Constants();
    PlainDecodes(NULL);
  }

  lemma AbsentDecodes()
    ensures Decode(ABSENT) == ABSENT && ReadToken(ABSENT_TEXT) == Text(ABSENT)
  {
    Constants();
    PlainDecodes(ABSENT);
  }

  lemma {:induction false} PlainDecodes(s: string)
    requires '%' !in s
    ensures Decode(s) == s
  {
    if s != [] {
      PlainDecodes(s[1..]);
      assert s == [s[0]] + s[1..];
      assert "%25"[0] == '%' && "%2F"[0] == '%';
      assert s[0] in s;
      assert forall p: string :: StartsWith(s, p) && p != [] ==> p[0] == s[..|p|][0];
    }
  }

  lemma RenderedIsReadable(f: Field, data: seq<Value>, i: nat)
    ensures '/' !in Rendered(f, data, i)
    ensures ReadToken(Rendered(f, data, i)) == CellOf(f, data, i)
  {
    if i < |data| && data[i].Datum? {
      EscapeIsReadable(f.render(data[i].n));
    }
  }

  lemma {:induction false} UntilSlashTakes(a: string, b: string)
    requires '/' !in a && (b == [] || b[0] == '/')
    ensures UntilSlash(a + b) == a
  {
    if a == [] {
      assert a + b == b;
    } else {
      assert (a + b)[0] == a[0] && (a + b)[1..] == a[1..] + b;
      assert a[0] in a;
      UntilSlashTakes(a[1..], b);
      assert a == [a[0]] + a[1..];
    }
  }

  function CellsFrom(fields: seq<Field>, data: seq<Value>, i: nat): seq<Cell>
    decreases |fields| - i
  {
    if i >= |fields| then [] else [CellOf(fields[i], data, i)] + CellsFrom(fields, data, i + 1)
  }

  lemma {:induction false} CellsFromAt(fields: seq<Field>, data: seq<Value>, i: nat, j: nat)
    requires i <= j < |fields|
    ensures |CellsFrom(fields, data, i)| > j - i && CellsFrom(fields, data, i)[j - i] == CellOf(fields[j], data, j)
    decreases j - i
  {
    if i < j {
      CellsFromAt(fields, data, i + 1, j);
    }
  }

  /** One field read back: its name and mark skipped, its token taken, the slash after it stepped over. */
  lemma ReadOneCell(fields: seq<Field>, i: nat, token: string, rest: string)
    requires i < |fields| && '/' !in token
    ensures ReadCells(fields, fields[i].name + "=" + token + ("/" + rest), i) == [ReadToken(token)] + ReadCells(fields, rest, i + 1)
    ensures ReadCells(fields, fields[i].name + "=" + token, i) == [ReadToken(token)]
  {
    var more := "/" + rest;
    var name := fields[i].name;
    assert (name + "=" + token + more)[|name| + 1..] == token + more;
    assert (name + "=" + token)[|name| + 1..] == token + [];
    assert token + [] == token;
    UntilSlashTakes(token, more);
    UntilSlashTakes(token, []);
    assert (token + more)[|token| + 1..] == rest;
  }

  /** Reading a key back yields, field by field, exactly what was rendered. */
  lemma {:induction false} KeyDecodes(fields: seq<Field>, data: seq<Value>, i: nat)
    requires i < |fields|
    ensures ReadCells(fields, KeyFrom(fields, data, i), i) == CellsFrom(fields, data, i)
    decreases |fields| - i
  {
    var token := Rendered(fields[i], data, i);
    RenderedIsReadable(fields[i], data, i);
    if i + 1 < |fields| {
      KeyDecodes(fields, data, i + 1);
      ReadOneCell(fields, i, token, KeyFrom(fields, data, i + 1));
    } else {
      ReadOneCell(fields, i, token, []);
      assert KeyFrom(fields, data, i) == fields[i].name + "=" + token;
      assert CellsFrom(fields, data, i + 1) == [];
    }
  }

  ghost predicate InjectiveFields(fields: seq<Field>) {
    forall i, a, b :: 0 <= i < |fields| && fields[i].render(a) == fields[i].render(b) ==> a == b
  }

  /** Each field renders different values differently; an unbound spec does so for whole tuples. */
  ghost predicate TellsApart(spec: Spec) {
    match spec
    case Bound(fields) => InjectiveFields(fields)
    case Unbound(raw) => forall a, b :: raw(a) == raw(b) ==> a == b
  }

  predicate Fits(spec: Spec, data: seq<Value>) {
    spec.Bound? ==> |data| <= |spec.fields|
  }

  /** The part of a tuple a spec looks at; a longer tuple's surplus is never rendered. */
  function Relevant(fields: seq<Field>, data: seq<Value>): seq<Value> {
    if |data| > |fields| then data[..|fields|] else data
  }

  /** Two tuples have one key exactly when they agree on the fields of the spec, absent ones included. */
  lemma PartitionPathInjective(fields: seq<Field>, a: seq<Value>, b: seq<Value>)
    requires InjectiveFields(fields)
    ensures PartitionPath(fields, a) == PartitionPath(fields, b) <==> Relevant(fields, a) == Relevant(fields, b)
  {
    if fields != [] {
      if KeyFrom(fields, a, 0) == KeyFrom(fields, b, 0) {
        KeysAgree(fields, a, b);
      }
      if Relevant(fields, a) == Relevant(fields, b) {
        SameKeys(fields, a, b, 0);
      }
    }
  }

  /** One key, one tuple: what grouping and clustering by the key rely on. */
  lemma SpecKeyInjective(spec: Spec, a: seq<Value>, b: seq<Value>)
    requires TellsApart(spec) && Fits(spec, a) && Fits(spec, b)
    ensures SpecKey(spec, a) == SpecKey(spec, b) <==> a == b
  {
    if spec.Bound? {
      PartitionPathInjective(spec.fields, a, b);
    }
  }

  lemma CellsAgree(fields: seq<Field>, a: seq<Value>, b: seq<Value>)
    requires CellsFrom(fields, a, 0) == CellsFrom(fields, b, 0)
    ensures forall j | 0 <= j < |fields| :: CellOf(fields[j], a, j) == CellOf(fields[j], b, j)
  {
    forall j | 0 <= j < |fields|
      ensures CellOf(fields[j], a, j) == CellOf(fields[j], b, j)
    {
      CellsFromAt(fields, a, 0, j);
      CellsFromAt(fields, b, 0, j);
    }
  }

  lemma KeysAgree(fields: seq<Field>, a: seq<Value>, b: seq<Value>)
    requires InjectiveFields(fields) && fields != []
    requires KeyFrom(fields, a, 0) == KeyFrom(fields, b, 0)
    ensures Relevant(fields, a) == Relevant(fields, b)
  {
    var key := KeyFrom(fields, a, 0);
    assert ReadCells(fields, key, 0) == CellsFrom(fields, a, 0) by {
      KeyDecodes(fields, a, 0);
    }
    assert ReadCells(fields, key, 0) == CellsFrom(fields, b, 0) by {
      KeyDecodes(fields, b, 0);
    }
    CellsAgree(fields, a, b);
    SameCells(fields, a, b);
  }

  /** A tuple that is too short shows it: its first missing field reads as absent. */
  lemma NotShorter(fields: seq<Field>, a: seq<Value>, b: seq<Value>)
    requires forall j | 0 <= j < |fields| :: CellOf(fields[j], a, j) == CellOf(fields[j], b, j)
    ensures |Relevant(fields, a)| >= |Relevant(fields, b)|
  {
    var n := |Relevant(fields, a)|;
    if n < |fields| {
      assert CellOf(fields[n], a, n) == AbsentCell;
      assert CellOf(fields[n], b, n) == AbsentCell;
    }
  }

  lemma SameCells(fields: seq<Field>, a: seq<Value>, b: seq<Value>)
    requires InjectiveFields(fields)
    requires forall j | 0 <= j < |fields| :: CellOf(fields[j], a, j) == CellOf(fields[j], b, j)
    ensures Relevant(fields, a) == Relevant(fields, b)
  {
    var x, y := Relevant(fields, a), Relevant(fields, b);
    assert |x| >= |y| by {
      NotShorter(fields, a, b);
    }
    NotShorter(fields, b, a);
    forall j | 0 <= j < |x|
      ensures x[j] == y[j]
    {
      assert CellOf(fields[j], a, j) == CellOf(fields[j], b, j);
    }
  }

  lemma {:induction false} SameKeys(fields: seq<Field>, a: seq<Value>, b: seq<Value>, i: nat)
    requires i <= |fields| && Relevant(fields, a) == Relevant(fields, b)
    ensures KeyFrom(fields, a, i) == KeyFrom(fields, b, i)
    decreases |fields| - i
  {
    if i < |fields| {
      SameKeys(fields, a, b, i + 1);
      if i < |a| {
        assert Relevant(fields, a)[i] == a[i] && Relevant(fields, b)[i] == b[i];
      }
    }
  }

  // ---- Rendering a table reference ----

  datatype TableRef = TableRef(catalog: string, namespace: seq<string>, name: string) {
    function Segments(): seq<string> {
      [catalog] + namespace + [name]
    }
  }

  function EncodeAll(parts: seq<string>): (r: seq<string>)
    ensures |r| == |parts|
    ensures forall i :: 0 <= i < |r| ==> r[i] == Encode(parts[i])
  {
    seq(|parts|, i requires 0 <= i < |parts| => Encode(parts[i]))
  }

  function Render(t: TableRef): string {
    Join(EncodeAll(t.Segments()), '/')
  }

  lemma {:induction false} JoinAppend(parts: seq<string>, last: string)
    requires parts != []
    ensures Join(parts + [last], '/') == Join(parts, '/') + "/" + last
  {
    JoinConcat(parts, [last], '/');
  }

  lemma RenderStarts(segment: string)
    ensures Join(EncodeAll([segment]), '/') == "" + Encode(segment)
  {
    assert EncodeAll([segment]) == [Encode(segment)];
  }

  lemma RenderGrows(done: seq<string>, segment: string)
    requires done != []
    ensures Join(EncodeAll(done + [segment]), '/') == Join(EncodeAll(done), '/') + "/" + Encode(segment)
  {
    hide Encode;
    JoinAppend(EncodeAll(done), Encode(segment));
    assert EncodeAll(done + [segment]) == EncodeAll(done) + [Encode(segment)];
  }

  method RenderTable(t: TableRef) returns (path: string)
    ensures path == Render(t)
  {
    hide Encode, Join, EncodeAll;
    path := EncodeInto(t.catalog, "");
    ghost var done := [t.catalog];
    RenderStarts(t.catalog);
    for i := 0 to |t.namespace|
      invariant done == [t.catalog] + t.namespace[..i]
      invariant path == Join(EncodeAll(done), '/')
    {
      PrefixGrows(t.namespace, i);
      RenderGrows(done, t.namespace[i]);
      path := EncodeInto(t.namespace[i], path + "/");
      done := done + [t.namespace[i]];
    }
    PrefixWhole(t.namespace);
    RenderGrows(done, t.name);
    path := EncodeInto(t.name, path + "/");
  }

  function DecodeAll(parts: seq<string>): (r: seq<string>)
    ensures |r| == |parts|
    ensures forall i :: 0 <= i < |r| ==> r[i] == Decode(parts[i])
  {
    seq(|parts|, i requires 0 <= i < |parts| => Decode(parts[i]))
  }

  function ReadTable(path: string): Option<TableRef> {
    var parts := DecodeAll(Split(path, '/'));
    if |parts| < 2 then None else Some(TableRef(parts[0], parts[1..|parts| - 1], parts[|parts| - 1]))
  }

  lemma RenderDecodes(t: TableRef)
    ensures ReadTable(Render(t)) == Some(t)
  {
    var segments := t.Segments();
    var encoded := EncodeAll(segments);
    forall i | 0 <= i < |segments|
      ensures '/' !in encoded[i] && Decode(encoded[i]) == segments[i]
    {
      EncodeHasNoSlash(segments[i]);
      DecodeEncode(segments[i]);
    }
    SplitJoin(encoded, '/');
    assert DecodeAll(encoded) == segments;
    assert segments[1..|segments| - 1] == t.namespace;
  }

  lemma RenderInjective(a: TableRef, b: TableRef)
    requires Render(a) == Render(b)
    ensures a == b
  {
    RenderDecodes(a);
    RenderDecodes(b);
  }

  // ---- Patterns ----

  /** A dotted pattern as the slash-separated glob it is compiled to. */
  function Translate(s: string): string {
    if s == [] then []
    else if s[0] == '\\' && |s| > 1 && s[1] == '.' then "." + Translate(s[2..])
    else if s[0] == '.' then "/" + Translate(s[1..])
    else Code(s[0]) + Translate(s[1..])
  }

  lemma Associate(a: string, b: string, c: string)
    ensures a + b + c == a + (b + c)
  {
  }

  /** The loop of `translate`, one character of lookahead. */
  method TranslatePattern(pattern: string) returns (out: string)
    ensures out == Translate(pattern)
  {
    hide Translate, Code;
    out := "";
    var i := 0;
    while i < |pattern|
      invariant i <= |pattern|
      invariant out + Translate(pattern[i..]) == Translate(pattern)
    {
      TranslateStep(pattern, i);
      if pattern[i] == '\\' && i + 1 < |pattern| && pattern[i + 1] == '.' {
        Associate(out, ".", Translate(pattern[i + 2..]));
        out := out + ".";
        i := i + 2;
      } else {
        Associate(out, if pattern[i] == '.' then "/" else Code(pattern[i]), Translate(pattern[i + 1..]));
        out := out + (if pattern[i] == '.' then "/" else Code(pattern[i]));
        i := i + 1;
      }
    }
    NothingToTranslate(pattern[i..]);
  }

  lemma NothingToTranslate(rest: string)
    requires rest == []
    ensures Translate(rest) == []
  {
  }

  lemma TranslateStep(pattern: string, i: nat)
    requires i < |pattern|
    ensures Translate(pattern[i..]) ==
            if pattern[i] == '\\' && i + 1 < |pattern| && pattern[i + 1] == '.' then "." + Translate(pattern[i + 2..])
            else (if pattern[i] == '.' then "/" else Code(pattern[i])) + Translate(pattern[i + 1..])
  {
    var rest := pattern[i..];
    assert rest[1..] == pattern[i + 1..];
    if i + 1 < |pattern| {
      assert rest[2..] == pattern[i + 2..];
    }
  }

  /** How an operator writes one name: its dots escaped. */
  function DotEscape(s: string): string {
    if s == [] then [] else (if s[0] == '.' then "\\." else [s[0]]) + DotEscape(s[1..])
  }

  function WriteOut(segments: seq<string>): string
    requires segments != []
  {
    if |segments| == 1 then DotEscape(segments[0]) else DotEscape(segments[0]) + "." + WriteOut(segments[1..])
  }

  predicate EndsInBackslash(s: string) {
    s != [] && s[|s| - 1] == '\\'
  }

  /** How many segments swallow the separator written after them. */
  function Swallowed(segments: seq<string>): nat {
    if |segments| < 2 then 0 else (if EndsInBackslash(segments[0]) then 1 else 0) + Swallowed(segments[1..])
  }

  lemma TranslateDot(tail: string)
    ensures Translate("\\." + tail) == "." + Translate(tail)
  {
    assert ("\\." + tail)[2..] == tail;
  }

  lemma TranslatePlain(c: char, tail: string)
    requires c != '.' && (c == '\\' ==> tail == [] || tail[0] != '.')
    ensures Translate([c] + tail) == Code(c) + Translate(tail)
  {
    var all := [c] + tail;
    assert all[0] == c && all[1..] == tail;
    assert |all| > 1 ==> all[1] == tail[0];
  }

  /** The first character of an escaped name is never a bare dot. */
  lemma EscapedStart(s: string, rest: string)
    requires s != []
    ensures (DotEscape(s) + rest)[0] != '.'
  {
    assert DotEscape(s) != [] && DotEscape(s)[0] != '.';
  }

  lemma EscapedSplit(s: string, rest: string)
    requires s != []
    ensures DotEscape(s) + rest == (if s[0] == '.' then "\\." else [s[0]]) + (DotEscape(s[1..]) + rest)
  {
  }

  lemma EncodeSplit(s: string, more: string)
    requires s != []
    ensures Encode(s) + more == Code(s[0]) + (Encode(s[1..]) + more)
  {
  }

  /** A name followed by nothing, or by a separator it does not swallow, translates to its own encoding. */
  lemma {:induction false} TranslateName(s: string, rest: string)
    requires rest != [] ==> rest[0] == '.'
    requires EndsInBackslash(s) ==> rest == []
    ensures Translate(DotEscape(s) + rest) == Encode(s) + Translate(rest)
  {
    if s == [] {
      assert DotEscape(s) + rest == rest;
    } else {
      var tail := DotEscape(s[1..]) + rest;
      EscapedSplit(s, rest);
      EncodeSplit(s, Translate(rest));
      TranslateName(s[1..], rest);
      if s[0] == '.' {
        TranslateDot(tail);
      } else {
        if |s| > 1 {
          EscapedStart(s[1..], rest);
        } else {
          assert DotEscape(s[1..]) == [];
          assert tail == rest;
        }
        TranslatePlain(s[0], tail);
      }
    }
  }

  lemma CodeLength(c: char)
    ensures c == '.' ==> |Code(c)| == 1
    ensures c == '\\' ==> |Code(c)| == 1
  {
  }

  lemma EncodedLength(s: string)
    requires s != []
    ensures |Encode(s)| == |Code(s[0])| + |Encode(s[1..])|
  {
  }

  /** The backslash a name ends in, with the separator written after it, reads as one escaped dot. */
  lemma LastSwallows(rest: string)
    requires rest != [] && rest[0] == '.'
    ensures |Translate(['\\'] + rest)| == |Translate(rest)|
  {
    var all := ['\\'] + rest;
    assert all[1] == '.' && all[2..] == rest[1..];
  }

  lemma NothingEscaped(s: string, rest: string)
    requires s == []
    ensures DotEscape(s) + rest == rest && Encode(s) == []
  {
  }

  /** A name ending in a backslash merges with the separator after it, and the translation is one short. */
  lemma {:induction false} TranslateSwallows(s: string, rest: string)
    requires rest != [] && rest[0] == '.' && EndsInBackslash(s)
    ensures |Translate(DotEscape(s) + rest)| + 1 == |Encode(s)| + |Translate(rest)|
  {
    hide Translate, Encode, DotEscape, Code;
    EscapedSplit(s, rest);
    EncodedLength(s);
    CodeLength(s[0]);
    if |s| == 1 {
      NothingEscaped(s[1..], rest);
      LastSwallows(rest);
    } else {
      var tail := DotEscape(s[1..]) + rest;
      TranslateSwallows(s[1..], rest);
      if s[0] == '.' {
        TranslateDot(tail);
      } else {
        EscapedStart(s[1..], rest);
        TranslatePlain(s[0], tail);
      }
    }
  }

  lemma TranslateSeparator(rest: string)
    ensures Translate("." + rest) == "/" + Translate(rest)
  {
    assert ("." + rest)[1..] == rest;
  }

  lemma WriteOutSplit(segments: seq<string>)
    requires |segments| > 1
    ensures WriteOut(segments) == DotEscape(segments[0]) + ("." + WriteOut(segments[1..]))
    ensures Swallowed(segments) == (if EndsInBackslash(segments[0]) then 1 else 0) + Swallowed(segments[1..])
  {
    hide DotEscape;
    Associate(DotEscape(segments[0]), ".", WriteOut(segments[1..]));
  }

  lemma JoinedSplit(segments: seq<string>)
    requires |segments| > 1
    ensures Join(EncodeAll(segments), '/') == Encode(segments[0]) + ("/" + Join(EncodeAll(segments[1..]), '/'))
  {
    hide Encode;
    var encoded := EncodeAll(segments);
    assert encoded[1..] == EncodeAll(segments[1..]);
    Associate(encoded[0], "/", Join(encoded[1..], '/'));
  }

  lemma LastSegment(s: string)
    ensures Translate(WriteOut([s])) == Join(EncodeAll([s]), '/') && Swallowed([s]) == 0
  {
    assert DotEscape(s) + [] == DotEscape(s);
    TranslateName(s, []);
    assert Encode(s) + [] == Encode(s);
  }

  lemma {:induction false} TranslateSegments(segments: seq<string>)
    requires segments != []
    ensures |Translate(WriteOut(segments))| + Swallowed(segments) == |Join(EncodeAll(segments), '/')|
    ensures Swallowed(segments) == 0 ==> Translate(WriteOut(segments)) == Join(EncodeAll(segments), '/')
  {
    hide Translate, WriteOut, Swallowed, EncodeAll, Join, DotEscape, Encode;
    var s := segments[0];
    if |segments| == 1 {
      LastSegment(s);
      assert segments == [s];
    } else {
      var rest := "." + WriteOut(segments[1..]);
      WriteOutSplit(segments);
      JoinedSplit(segments);
      TranslateSeparator(WriteOut(segments[1..]));
      TranslateSegments(segments[1..]);
      if EndsInBackslash(s) {
        TranslateSwallows(s, rest);
      } else {
        TranslateName(s, rest);
      }
    }
  }

  /** A table written out segment by segment, dots escaped, translates to exactly its rendering if and only if no
      segment but the last ends in a backslash. */
  lemma TranslateMeetsRender(t: TableRef)
    ensures Translate(WriteOut(t.Segments())) == Render(t) <==>
            forall i | 0 <= i < |t.Segments()| - 1 :: !EndsInBackslash(t.Segments()[i])
  {
    TranslateSegments(t.Segments());
    SwallowedWhen(t.Segments());
  }

  lemma {:induction false} SwallowedWhen(segments: seq<string>)
    ensures Swallowed(segments) == 0 <==> forall i | 0 <= i < |segments| - 1 :: !EndsInBackslash(segments[i])
  {
    if |segments| >= 2 {
      SwallowedWhen(segments[1..]);
      forall i | 0 < i < |segments| - 1
        ensures segments[i] == segments[1..][i - 1]
      {
      }
      assert forall j | 0 <= j < |segments[1..]| - 1 :: segments[1..][j] == segments[j + 1];
    }
  }
}
