/** Redacting request data before it is logged: a bounded copy without the values of sensitive keys. */
module Redaction {

  datatype Field = Field(key: string, value: Json)

  /** A finite JSON-like value. Atom stands for numbers, booleans and the other scalars returned as they are. */
  datatype Json =
    | Null
    | Undefined
    | Atom(code: int)
    | Text(text: string)
    | List(items: seq<Json>)
    | Object(fields: seq<Field>)

  const MAX_DEPTH: nat := 4
  const MAX_ENTRIES: nat := 50
  const MAX_TEXT: nat := 500

  // ----- Sensitive keys

  function LowerChar(c: char): char { if 'A' <= c <= 'Z' then c - 'A' + 'a' else c }

  function Lower(s: string): (r: string)
    ensures |r| == |s| && forall i :: 0 <= i < |r| ==> r[i] == LowerChar(s[i])
  {
    seq(|s|, i requires 0 <= i < |s| => LowerChar(s[i]))
  }

  predicate Contains(s: string, word: string) {
    exists i :: 0 <= i <= |s| && word <= s[i..]
  }

  predicate EndsLine(c: char) { c == '\n' || c == '\r' || c == '\U{2028}' || c == '\U{2029}' }

  /** The two words next to each other, or with one character other than a line break between them. */
  predicate ContainsPair(s: string, first: string, second: string) {
    exists i :: 0 <= i <= |s| && first <= s[i..] && StartsSoon(s[i..][|first|..], second)
  }

  predicate StartsSoon(rest: string, second: string) {
    second <= rest || (rest != [] && !EndsLine(rest[0]) && second <= rest[1..])
  }

  const SENSITIVE_WORDS: seq<string> :=
    ["password", "otp", "token", "secret", "authorization", "cookie", "pan", "aadhaar", "bureau", "kyc", "document"]

  predicate ContainsAny(s: string, words: seq<string>) {
    words != [] && (Contains(s, words[0]) || ContainsAny(s, words[1..]))
  }

  predicate IsSensitive(key: string) {
    var k := Lower(key);
    || ContainsAny(k, SENSITIVE_WORDS)
    || ContainsPair(k, "api", "key")
    || ContainsPair(k, "bank", "account")
  }

  // ----- The redactor

  function Take<T>(s: seq<T>, n: nat): seq<T> { if |s| <= n then s else s[..n] }

  function Sanitize(x: Json, depth: nat): Json
    decreases x, 1
  {
    if x.Null? || x.Undefined? then x
    else if depth > MAX_DEPTH then Text("[TRUNCATED]")
    else match x
      case List(items) => List(SanitizeItems(items, MAX_ENTRIES, depth + 1))
      case Object(fields) => Object(SanitizeFields(fields, MAX_ENTRIES, depth + 1))
      case Text(text) => Text(Take(text, MAX_TEXT))
      case _ => x
  }

  /** The first `room` items, redacted. */
  function SanitizeItems(items: seq<Json>, room: nat, depth: nat): seq<Json>
    decreases items, 0
  {
    if items == [] || room == 0 then []
    else [Sanitize(items[0], depth)] + SanitizeItems(items[1..], room - 1, depth)
  }

  function SanitizeField(f: Field, depth: nat): Field
    decreases f, 2
  {
    Field(f.key, if IsSensitive(f.key) then Text("[REDACTED]") else Sanitize(f.value, depth))
  }

  function SanitizeFields(fields: seq<Field>, room: nat, depth: nat): seq<Field>
    decreases fields, 0
  {
    if fields == [] || room == 0 then []
    else [SanitizeField(fields[0], depth)] + SanitizeFields(fields[1..], room - 1, depth)
  }

  // ----- Redacted values are bounded

  /** Lists and objects only down to MAX_DEPTH, with few entries, and only short texts. */
  predicate Bounded(x: Json, depth: nat)
    decreases x
  {
    match x
    case Text(text) => |text| <= MAX_TEXT
    case List(items) => depth <= MAX_DEPTH && |items| <= MAX_ENTRIES && forall y :: y in items ==> Bounded(y, depth + 1)
    case Object(fields) => depth <= MAX_DEPTH && |fields| <= MAX_ENTRIES && forall f :: f in fields ==> Bounded(f.value, depth + 1)
    case _ => true
  }

  lemma {:induction false} SanitizedIsBounded(x: Json, depth: nat)
    ensures Bounded(Sanitize(x, depth), depth)
    decreases x, 1
  {
    if depth <= MAX_DEPTH {
      match x
      case List(items) => SanitizedItemsAreBounded(items, MAX_ENTRIES, depth + 1);
      case Object(fields) => SanitizedFieldsAreBounded(fields, MAX_ENTRIES, depth + 1);
      case _ =>
    }
  }

  lemma {:induction false} SanitizedItemsAreBounded(items: seq<Json>, room: nat, depth: nat)
    ensures |SanitizeItems(items, room, depth)| <= room
    ensures forall y :: y in SanitizeItems(items, room, depth) ==> Bounded(y, depth)
    decreases items, 0
  {
    if items != [] && room > 0 {
      SanitizedIsBounded(items[0], depth);
      SanitizedItemsAreBounded(items[1..], room - 1, depth);
    }
  }

  lemma {:induction false} SanitizedFieldIsBounded(f: Field, depth: nat)
    ensures Bounded(SanitizeField(f, depth).value, depth)
    decreases f, 2
  {
    SanitizedIsBounded(f.value, depth);
  }

  lemma {:induction false} SanitizedFieldsAreBounded(fields: seq<Field>, room: nat, depth: nat)
    ensures |SanitizeFields(fields, room, depth)| <= room
    ensures forall f :: f in SanitizeFields(fields, room, depth) ==> Bounded(f.value, depth)
    decreases fields, 0
  {
    if fields != [] && room > 0 {
      SanitizedFieldIsBounded(fields[0], depth);
      SanitizedFieldsAreBounded(fields[1..], room - 1, depth);
      var first, rest := SanitizeField(fields[0], depth), SanitizeFields(fields[1..], room - 1, depth);
      assert forall f :: f in [first] + rest ==> f == first || f in rest;
    }
  }

  // ----- Redacting twice changes nothing

  lemma {:induction false} SanitizeIsIdempotent(x: Json, depth: nat)
    ensures Sanitize(Sanitize(x, depth), depth) == Sanitize(x, depth)
    decreases x, 1
  {
    if depth <= MAX_DEPTH {
      match x
      case List(items) => SanitizeItemsIsIdempotent(items, MAX_ENTRIES, depth + 1);
      case Object(fields) => SanitizeFieldsIsIdempotent(fields, MAX_ENTRIES, depth + 1);
      case _ =>
    }
  }

  lemma {:induction false} SanitizeItemsIsIdempotent(items: seq<Json>, room: nat, depth: nat)
    ensures SanitizeItems(SanitizeItems(items, room, depth), room, depth) == SanitizeItems(items, room, depth)
    decreases items, 0
  {
    if items != [] && room > 0 {
      SanitizeIsIdempotent(items[0], depth);
      SanitizeItemsIsIdempotent(items[1..], room - 1, depth);
      assert SanitizeItems(items, room, depth)[1..] == SanitizeItems(items[1..], room - 1, depth);
    }
  }

  lemma {:induction false} SanitizeFieldIsIdempotent(f: Field, depth: nat)
    ensures SanitizeField(SanitizeField(f, depth), depth) == SanitizeField(f, depth)
    decreases f, 2
  {
    SanitizeIsIdempotent(f.value, depth);
  }

  lemma {:induction false} SanitizeFieldsIsIdempotent(fields: seq<Field>, room: nat, depth: nat)
    ensures SanitizeFields(SanitizeFields(fields, room, depth), room, depth) == SanitizeFields(fields, room, depth)
    decreases fields, 0
  {
    if fields != [] && room > 0 {
      SanitizeFieldIsIdempotent(fields[0], depth);
      SanitizeFieldsIsIdempotent(fields[1..], room - 1, depth);
      assert SanitizeFields(fields, room, depth)[1..] == SanitizeFields(fields[1..], room - 1, depth);
    }
  }

  // ----- Values of sensitive keys have no influence

  /** The two values differ at most in what is stored under sensitive keys, at any depth. */
  predicate SameButSecrets(x: Json, y: Json)
    decreases x
  {
    if x.List? && y.List? then
      |x.items| == |y.items| && forall i :: 0 <= i < |x.items| ==> SameButSecrets(x.items[i], y.items[i])
    else if x.Object? && y.Object? then
      && |x.fields| == |y.fields|
      && forall i :: 0 <= i < |x.fields| ==> SameFieldButSecrets(x.fields[i], y.fields[i])
    else x == y
  }

  predicate SameFieldButSecrets(f: Field, g: Field)
    decreases f
  {
    f.key == g.key && (IsSensitive(f.key) || SameButSecrets(f.value, g.value))
  }

  lemma {:induction false} SecretsDoNotShow(x: Json, y: Json, depth: nat)
    requires SameButSecrets(x, y)
    ensures Sanitize(x, depth) == Sanitize(y, depth)
    decreases x, 1
  {
    if x.List? && y.List? {
      SecretsDoNotShowInItems(x.items, y.items, MAX_ENTRIES, depth + 1);
    } else if x.Object? && y.Object? {
      SecretsDoNotShowInFields(x.fields, y.fields, MAX_ENTRIES, depth + 1);
    }
  }

  lemma {:induction false} SecretsDoNotShowInItems(xs: seq<Json>, ys: seq<Json>, room: nat, depth: nat)
    requires |xs| == |ys| && forall i :: 0 <= i < |xs| ==> SameButSecrets(xs[i], ys[i])
    ensures SanitizeItems(xs, room, depth) == SanitizeItems(ys, room, depth)
    decreases xs, 0
  {
    if xs != [] && room > 0 {
      SecretsDoNotShow(xs[0], ys[0], depth);
      SecretsDoNotShowInItems(xs[1..], ys[1..], room - 1, depth);
    }
  }

  lemma {:induction false} SecretsDoNotShowInFields(xs: seq<Field>, ys: seq<Field>, room: nat, depth: nat)
    requires |xs| == |ys| && forall i :: 0 <= i < |xs| ==> SameFieldButSecrets(xs[i], ys[i])
    ensures SanitizeFields(xs, room, depth) == SanitizeFields(ys, room, depth)
    decreases xs, 0
  {
    if xs != [] && room > 0 {
      if !IsSensitive(xs[0].key) {
        SecretsDoNotShow(xs[0].value, ys[0].value, depth);
      }
      SecretsDoNotShowInFields(xs[1..], ys[1..], room - 1, depth);
    }
  }

  // ----- Nothing else is lost

  /** Small enough at every level, with every sensitive value already replaced by the mark. */
  predicate Unchanged(x: Json, depth: nat)
    decreases x
  {
    if x.Null? || x.Undefined? then true
    else if depth > MAX_DEPTH then x == Text("[TRUNCATED]")
    else match x
      case Text(text) => |text| <= MAX_TEXT
      case List(items) => |items| <= MAX_ENTRIES && UnchangedItems(items, depth + 1)
      case Object(fields) => |fields| <= MAX_ENTRIES && UnchangedFields(fields, depth + 1)
      case _ => true
  }

  predicate UnchangedItems(items: seq<Json>, depth: nat)
    decreases items
  {
    items == [] || (Unchanged(items[0], depth) && UnchangedItems(items[1..], depth))
  }

  predicate UnchangedFields(fields: seq<Field>, depth: nat)
    decreases fields
  {
    fields == [] || (UnchangedField(fields[0], depth) && UnchangedFields(fields[1..], depth))
  }

  predicate UnchangedField(f: Field, depth: nat)
    decreases f
  {
    if IsSensitive(f.key) then f.value == Text("[REDACTED]") else Unchanged(f.value, depth)
  }

  /** The values the redactor leaves alone are exactly the small ones without secrets. */
  lemma {:induction false} UnchangedIff(x: Json, depth: nat)
    ensures Sanitize(x, depth) == x <==> Unchanged(x, depth)
    decreases x, 1
  {
    if depth <= MAX_DEPTH {
      match x
      case List(items) => UnchangedItemsIff(items, MAX_ENTRIES, depth + 1);
      case Object(fields) => UnchangedFieldsIff(fields, MAX_ENTRIES, depth + 1);
      case _ =>
    }
  }

  lemma EqualIffHeadAndTail<T>(x: T, xs: seq<T>, s: seq<T>)
    requires s != []
    ensures [x] + xs == s <==> x == s[0] && xs == s[1..]
  {
  }

  lemma {:induction false} UnchangedItemsIff(items: seq<Json>, room: nat, depth: nat)
    ensures SanitizeItems(items, room, depth) == items <==> |items| <= room && UnchangedItems(items, depth)
    decreases items, 0
  {
    if items != [] && room > 0 {
      UnchangedIff(items[0], depth);
      UnchangedItemsIff(items[1..], room - 1, depth);
      EqualIffHeadAndTail(Sanitize(items[0], depth), SanitizeItems(items[1..], room - 1, depth), items);
    }
  }

  lemma {:induction false} UnchangedFieldIff(f: Field, depth: nat)
    ensures SanitizeField(f, depth) == f <==> UnchangedField(f, depth)
    decreases f, 2
  {
    UnchangedIff(f.value, depth);
  }

  lemma {:induction false} UnchangedFieldsIff(fields: seq<Field>, room: nat, depth: nat)
    ensures SanitizeFields(fields, room, depth) == fields <==> |fields| <= room && UnchangedFields(fields, depth)
    decreases fields, 0
  {
    if fields != [] && room > 0 {
      UnchangedFieldIff(fields[0], depth);
      UnchangedFieldsIff(fields[1..], room - 1, depth);
      EqualIffHeadAndTail(SanitizeField(fields[0], depth), SanitizeFields(fields[1..], room - 1, depth), fields);
    }
  }
}
