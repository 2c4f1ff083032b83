/** What the redactor hides and what it shows: which keys count as sensitive, and which values stay at their place. */
module RedactionView {
  import opened Redaction

  // ----- Which keys are sensitive

  /** The word stands at place i of the key, in any mixture of cases. */
  predicate Spells(key: string, i: nat, word: string) {
    i + |word| <= |key| && forall j :: 0 <= j < |word| ==> LetterAt(key, i, word, j)
  }

  predicate LetterAt(key: string, i: nat, word: string, j: nat)
    requires i + |word| <= |key| && j < |word|
  {
    SameUpToCase(key[i + j], word[j])
  }

  /** c is the lower-case letter d in either case, or d itself. */
  predicate SameUpToCase(c: char, d: char) { c == d || ('A' <= c <= 'Z' && c - 'A' + 'a' == d) }

  /** The two words stand next to each other, or one character other than a line break apart. */
  ghost predicate SpellsPair(key: string, first: string, second: string) {
    exists i: nat :: Spells(key, i, first) && SpellsSoon(key, i + |first|, second)
  }

  predicate IsLower(word: string) { forall j :: 0 <= j < |word| ==> !('A' <= word[j] <= 'Z') }

  lemma PrefixSpells(key: string, i: nat, word: string)
    requires i <= |key| && IsLower(word)
    ensures word <= Lower(key)[i..] <==> Spells(key, i, word)
  {
    var k := Lower(key);
    if Spells(key, i, word) {
      forall j | 0 <= j < |word| ensures k[i + j] == word[j] {
        assert LetterAt(key, i, word, j);
      }
      assert word == k[i..i + |word|];
    }
    if word <= k[i..] {
      forall j | 0 <= j < |word| ensures LetterAt(key, i, word, j) {
        assert k[i..][j] == word[j];
      }
    }
  }

  lemma ContainsSpells(key: string, word: string)
    requires IsLower(word)
    ensures Contains(Lower(key), word) <==> exists i: nat :: Spells(key, i, word)
  {
    forall i: nat | i <= |key| ensures word <= Lower(key)[i..] <==> Spells(key, i, word) {
      PrefixSpells(key, i, word);
    }
    if Contains(Lower(key), word) {
      var i :| 0 <= i <= |Lower(key)| && word <= Lower(key)[i..];
      assert Spells(key, i, word);
    }
  }

  /** The second word stands at place n, or one character later that is no line break. */
  predicate SpellsSoon(key: string, n: nat, second: string) {
    || Spells(key, n, second)
    || (Spells(key, n + 1, second) && n < |key| && key[n] !in {'\n', '\r', '\U{2028}', '\U{2029}'})
  }

  lemma RestSpells(key: string, n: nat, second: string)
    requires n <= |key| && IsLower(second) && second != []
    ensures StartsSoon(Lower(key)[n..], second) <==> SpellsSoon(key, n, second)
  {
    PrefixSpells(key, n, second);
    if n < |key| {
      var k := Lower(key);
      PrefixSpells(key, n + 1, second);
      assert k[n..][1..] == k[n + 1..] && k[n..][0] == LowerChar(key[n]);
    }
  }

  lemma DropTwice(k: string, i: nat, n: nat)
    requires i + n <= |k|
    ensures k[i..][n..] == k[i + n..]
  {
  }

  lemma RestSpellsSoon(key: string, i: nat, n: nat, second: string)
    requires i + n <= |key| && IsLower(second) && second != []
    ensures StartsSoon(Lower(key)[i..][n..], second) <==> SpellsSoon(key, i + n, second)
  {
    DropTwice(Lower(key), i, n);
    RestSpells(key, i + n, second);
  }

  lemma PairSpells(key: string, first: string, second: string, i: nat)
    requires IsLower(first) && IsLower(second) && second != [] && i <= |key|
    ensures (first <= Lower(key)[i..] && StartsSoon(Lower(key)[i..][|first|..], second)) <==>
            (Spells(key, i, first) && SpellsSoon(key, i + |first|, second))
  {
    PrefixSpells(key, i, first);
    if Spells(key, i, first) {
      RestSpellsSoon(key, i, |first|, second);
    }
  }

  lemma ContainsPairSpells(key: string, first: string, second: string)
    requires IsLower(first) && IsLower(second) && second != []
    ensures ContainsPair(Lower(key), first, second) <==> SpellsPair(key, first, second)
  {
    var k := Lower(key);
    if ContainsPair(k, first, second) {
      var i :| 0 <= i <= |k| && first <= k[i..] && StartsSoon(k[i..][|first|..], second);
      PairSpells(key, first, second, i);
    }
    if SpellsPair(key, first, second) {
      var i: nat :| Spells(key, i, first) && SpellsSoon(key, i + |first|, second);
      PairSpells(key, first, second, i);
    }
  }

  lemma {:induction false} ContainsAnyIff(s: string, words: seq<string>)
    ensures ContainsAny(s, words) <==> exists w :: w in words && Contains(s, w)
    decreases |words|
  {
    if words != [] {
      ContainsAnyIff(s, words[1..]);
      assert forall w :: w in words <==> w == words[0] || w in words[1..];
    }
  }

  lemma AnySpells(key: string, words: seq<string>)
    requires forall w :: w in words ==> IsLower(w)
    ensures ContainsAny(Lower(key), words) <==> exists i: nat, w :: w in words && Spells(key, i, w)
  {
    ContainsAnyIff(Lower(key), words);
    forall w | w in words ensures Contains(Lower(key), w) <==> exists i: nat :: Spells(key, i, w) {
      ContainsSpells(key, w);
    }
  }

  lemma WordsAreLower()
    ensures forall w :: w in SENSITIVE_WORDS ==> IsLower(w)
    ensures IsLower("api") && IsLower("key") && IsLower("bank") && IsLower("account")
  {
  }

  lemma SensitiveIffListed(key: string)
    ensures IsSensitive(key) <==>
              || (exists i: nat, w :: w in SENSITIVE_WORDS && Spells(key, i, w))
              || SpellsPair(key, "api", "key") || SpellsPair(key, "bank", "account")
  {
    WordsAreLower();
    AnySpells(key, SENSITIVE_WORDS);
    ContainsPairSpells(key, "api", "key");
    ContainsPairSpells(key, "bank", "account");
  }

  /**
    A key is sensitive exactly if it spells one of the eleven words somewhere, in any mixture
    of cases, or one of the two word pairs with at most one character between them.
   */
  lemma SensitiveIff(key: string)
    ensures IsSensitive(key) <==>
              || (exists i: nat, w :: w in ["password", "otp", "token", "secret", "authorization", "cookie", "pan", "aadhaar",
                                            "bureau", "kyc", "document"] && Spells(key, i, w))
              || SpellsPair(key, "api", "key") || SpellsPair(key, "bank", "account")
  {
    SensitiveIffListed(key);
    assert SENSITIVE_WORDS == ["password", "otp", "token", "secret", "authorization", "cookie", "pan", "aadhaar",
                               "bureau", "kyc", "document"];
  }

  // ----- What stays visible

  /** The value at position i of a list or an object, with its key there. */
  predicate HasChild(x: Json, i: nat) { (x.List? && i < |x.items|) || (x.Object? && i < |x.fields|) }

  function Child(x: Json, i: nat): Json
    requires HasChild(x, i)
  {
    if x.List? then x.items[i] else x.fields[i].value
  }

  lemma {:induction false} ItemSanitized(items: seq<Json>, room: nat, depth: nat, i: nat)
    requires i < |items| && i < room
    ensures i < |SanitizeItems(items, room, depth)| && SanitizeItems(items, room, depth)[i] == Sanitize(items[i], depth)
    decreases i
  {
    var first, rest := Sanitize(items[0], depth), SanitizeItems(items[1..], room - 1, depth);
    assert SanitizeItems(items, room, depth) == [first] + rest;
    if i > 0 {
      ItemSanitized(items[1..], room - 1, depth, i - 1);
    }
  }

  lemma FieldsUnfold(fields: seq<Field>, room: nat, depth: nat)
    requires fields != [] && room > 0
    ensures SanitizeFields(fields, room, depth) == [SanitizeField(fields[0], depth)] + SanitizeFields(fields[1..], room - 1, depth)
  {
  }

  lemma InTail<T>(whole: seq<T>, first: T, rest: seq<T>, i: nat)
    requires whole == [first] + rest && 0 < i <= |rest|
    ensures i < |whole| && whole[i] == rest[i - 1]
  {
  }

  lemma {:induction false} FieldSanitized(fields: seq<Field>, room: nat, depth: nat, i: nat)
    requires i < |fields| && i < room
    ensures i < |SanitizeFields(fields, room, depth)| && SanitizeFields(fields, room, depth)[i] == SanitizeField(fields[i], depth)
    decreases i
  {
    FieldsUnfold(fields, room, depth);
    if i > 0 {
      FieldSanitized(fields[1..], room - 1, depth, i - 1);
      InTail(SanitizeFields(fields, room, depth), SanitizeField(fields[0], depth), SanitizeFields(fields[1..], room - 1, depth), i);
    }
  }

  lemma {:induction false} ItemsLength(items: seq<Json>, room: nat, depth: nat)
    ensures |SanitizeItems(items, room, depth)| == if |items| <= room then |items| else room
    decreases room
  {
    if items != [] && room > 0 {
      ItemsLength(items[1..], room - 1, depth);
    }
  }

  lemma {:induction false} FieldsLength(fields: seq<Field>, room: nat, depth: nat)
    ensures |SanitizeFields(fields, room, depth)| == if |fields| <= room then |fields| else room
    decreases room
  {
    if fields != [] && room > 0 {
      FieldsUnfold(fields, room, depth);
      FieldsLength(fields[1..], room - 1, depth);
    }
  }

  /** The path leads through positions below 50 and no sensitive key. */
  predicate OpenPath(x: Json, path: seq<nat>)
    decreases |path|
  {
    path == [] ||
    (HasChild(x, path[0]) && path[0] < 50 && (x.Object? ==> !IsSensitive(x.fields[path[0]].key)) && OpenPath(Child(x, path[0]), path[1..]))
  }

  predicate HasPath(x: Json, path: seq<nat>)
    decreases |path|
  {
    path == [] || (HasChild(x, path[0]) && HasPath(Child(x, path[0]), path[1..]))
  }

  function At(x: Json, path: seq<nat>): Json
    requires HasPath(x, path)
    decreases |path|
  {
    if path == [] then x else At(Child(x, path[0]), path[1..])
  }

  /** How a value shows at the end of such a path, at this depth. */
  ghost predicate ShowsAs(x: Json, y: Json, depth: nat) {
    if x.Null? || x.Undefined? then y == x
    else if depth > 4 then y == Text("[TRUNCATED]")
    else match x
      case Atom(_) => y == x
      case Text(text) => y.Text? && y.text <= text && |y.text| == if |text| <= 500 then |text| else 500
      case List(items) => y.List? && |y.items| == if |items| <= 50 then |items| else 50
      case Object(fields) =>
        && y.Object? && |y.fields| == (if |fields| <= 50 then |fields| else 50)
        && forall i :: 0 <= i < |y.fields| ==>
             y.fields[i].key == fields[i].key && (IsSensitive(fields[i].key) ==> y.fields[i].value == Text("[REDACTED]"))
      case _ => true
  }

  lemma FieldShows(f: Field, depth: nat)
    ensures SanitizeField(f, depth).key == f.key && (IsSensitive(f.key) ==> SanitizeField(f, depth).value == Text("[REDACTED]"))
    ensures !IsSensitive(f.key) ==> SanitizeField(f, depth).value == Sanitize(f.value, depth)
  {
  }

  lemma ObjectShows(fields: seq<Field>, depth: nat)
    requires depth <= MAX_DEPTH
    ensures ShowsAs(Object(fields), Sanitize(Object(fields), depth), depth)
  {
    var shown := SanitizeFields(fields, MAX_ENTRIES, depth + 1);
    FieldsLength(fields, MAX_ENTRIES, depth + 1);
    forall i | 0 <= i < |shown|
      ensures shown[i].key == fields[i].key && (IsSensitive(fields[i].key) ==> shown[i].value == Text("[REDACTED]"))
    {
      FieldSanitized(fields, MAX_ENTRIES, depth + 1, i);
      FieldShows(fields[i], depth + 1);
    }
    assert Sanitize(Object(fields), depth) == Object(shown);
  }

  lemma SanitizedShows(x: Json, depth: nat)
    ensures ShowsAs(x, Sanitize(x, depth), depth)
  {
    if x.List? && depth <= MAX_DEPTH {
      ItemsLength(x.items, MAX_ENTRIES, depth + 1);
    } else if x.Object? && depth <= MAX_DEPTH {
      ObjectShows(x.fields, depth);
    }
  }

  lemma OpenFieldSanitized(fields: seq<Field>, depth: nat, i: nat)
    requires i < |fields| && i < MAX_ENTRIES && !IsSensitive(fields[i].key)
    ensures var shown := SanitizeFields(fields, MAX_ENTRIES, depth + 1);
            i < |shown| && shown[i].value == Sanitize(fields[i].value, depth + 1)
  {
    FieldSanitized(fields, MAX_ENTRIES, depth + 1, i);
    FieldShows(fields[i], depth + 1);
  }

  /**
    Everything up to depth 4 that is not under a sensitive key and among the first 50 entries
    of its level stays at its place and shows: scalars unchanged, texts up to 500 characters,
    and under sensitive keys the mark; a value one level deeper shows as cut off.
   */
  lemma {:induction false} VisibleStaysInPlace(x: Json, path: seq<nat>, depth: nat)
    requires OpenPath(x, path) && depth + |path| <= 5
    ensures HasPath(x, path) && HasPath(Sanitize(x, depth), path)
    ensures ShowsAs(At(x, path), At(Sanitize(x, depth), path), depth + |path|)
    decreases |path|
  {
    if path == [] {
      SanitizedShows(x, depth);
    } else {
      var i := path[0];
      if x.List? { ItemSanitized(x.items, MAX_ENTRIES, depth + 1, i); } else { OpenFieldSanitized(x.fields, depth, i); }
      VisibleStaysInPlace(Child(x, i), path[1..], depth + 1);
    }
  }
}
