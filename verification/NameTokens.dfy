/**
  Splitting a raw name into comparable tokens: upper-casing, blanking everything that is
  not A to Z, collapsing white space, trimming, splitting on spaces and dropping honorifics.
 */
module NameTokens {

  const HONORIFICS: set<string> := {"MR", "MRS", "MS", "MISS", "DR", "SHRI", "SMT", "KUM", "SHRIMATI"}

  predicate IsLetter(c: char) { 'A' <= c <= 'Z' }

  /** The white space of the regular expression class \s, which is also what trim removes. */
  predicate IsSpace(c: char) {
    || '\t' <= c <= '\r' || c == ' ' || c == '\U{A0}' || c == '\U{1680}' || '\U{2000}' <= c <= '\U{200A}'
    || c == '\U{2028}' || c == '\U{2029}' || c == '\U{202F}' || c == '\U{205F}' || c == '\U{3000}' || c == '\U{FEFF}'
  }

  /**
    Upper-casing one character. Besides a to z, the characters listed are the ones whose
    upper-case form contains a letter A to Z; every other character stays outside A to Z
    and is blanked by the next step, so it is left unchanged here.
   */
  function UpperChar(c: char): (u: string)
    ensures IsSpace(c) || IsLetter(c) ==> u == [c]
  {
    if 'a' <= c <= 'z' then [c - 'a' + 'A']
    else if c == '\U{DF}' then "SS"
    else if c == '\U{131}' then "I"
    else if c == '\U{149}' then "\U{2BC}N"
    else if c == '\U{17F}' then "S"
    else if c == '\U{1F0}' then "J\U{30C}"
    else if c == '\U{1E96}' then "H\U{331}"
    else if c == '\U{1E97}' then "T\U{308}"
    else if c == '\U{1E98}' then "W\U{30A}"
    else if c == '\U{1E99}' then "Y\U{30A}"
    else if c == '\U{1E9A}' then "A\U{2BE}"
    else if c == '\U{FB00}' then "FF"
    else if c == '\U{FB01}' then "FI"
    else if c == '\U{FB02}' then "FL"
    else if c == '\U{FB03}' then "FFI"
    else if c == '\U{FB04}' then "FFL"
    else if c == '\U{FB05}' || c == '\U{FB06}' then "ST"
    else [c]
  }

  function Upper(s: string): string {
    if s == [] then [] else UpperChar(s[0]) + Upper(s[1..])
  }

  /** Every character that is neither a letter nor white space becomes a space. */
  function Blank(s: string): (r: string)
    ensures |r| == |s|
    ensures forall i :: 0 <= i < |r| ==> r[i] == if IsLetter(s[i]) || IsSpace(s[i]) then s[i] else ' '
  {
    seq(|s|, i requires 0 <= i < |s| => if IsLetter(s[i]) || IsSpace(s[i]) then s[i] else ' ')
  }

  /** Each run of white space becomes one space. */
  function Collapse(s: string): string {
    if s == [] then []
    else if !IsSpace(s[0]) then [s[0]] + Collapse(s[1..])
    else if |s| > 1 && IsSpace(s[1]) then Collapse(s[1..])
    else [' '] + Collapse(s[1..])
  }

  function TrimStart(s: string): string {
    if s != [] && IsSpace(s[0]) then TrimStart(s[1..]) else s
  }

  function TrimEnd(s: string): string {
    if s != [] && IsSpace(s[|s| - 1]) then TrimEnd(s[..|s| - 1]) else s
  }

  function Trim(s: string): string { TrimEnd(TrimStart(s)) }

  /** Text that neither starts nor ends with white space is left as it is. */
  lemma TrimKeeps(s: string)
    requires s != [] && !IsSpace(s[0]) && !IsSpace(s[|s| - 1])
    ensures Trim(s) == s
  {
  }

  /** The pieces between single spaces; `piece` is the part of the current one already read. */
  function SplitOnSpace(s: string, piece: string): seq<string> {
    if s == [] then [piece]
    else if s[0] == ' ' then [piece] + SplitOnSpace(s[1..], [])
    else SplitOnSpace(s[1..], piece + [s[0]])
  }

  function KeepTokens(pieces: seq<string>): seq<string> {
    if pieces == [] then []
    else (if pieces[0] != [] && pieces[0] !in HONORIFICS then [pieces[0]] else []) + KeepTokens(pieces[1..])
  }

  function Normalize(name: string): seq<string> {
    KeepTokens(SplitOnSpace(Trim(Collapse(Blank(Upper(name)))), []))
  }

  // ----- What normalisation computes: the maximal runs of letters

  function Flush(run: string): seq<string> { if run == [] then [] else [run] }

  /** The maximal runs of letters of s; `run` is the part of the current run already read. */
  function LetterRuns(s: string, run: string): seq<string> {
    if s == [] then Flush(run)
    else if IsLetter(s[0]) then LetterRuns(s[1..], run + [s[0]])
    else Flush(run) + LetterRuns(s[1..], [])
  }

  function DropHonorifics(runs: seq<string>): seq<string> {
    if runs == [] then []
    else (if runs[0] !in HONORIFICS then [runs[0]] else []) + DropHonorifics(runs[1..])
  }

  lemma {:induction false} RunsOfBlank(s: string, run: string)
    ensures LetterRuns(Blank(s), run) == LetterRuns(s, run)
    decreases |s|
  {
    if s != [] {
      assert Blank(s)[1..] == Blank(s[1..]);
      RunsOfBlank(s[1..], if IsLetter(s[0]) then run + [s[0]] else []);
    }
  }

  lemma {:induction false} RunsOfCollapse(s: string, run: string)
    ensures LetterRuns(Collapse(s), run) == LetterRuns(s, run)
    decreases |s|
  {
    if s == [] {
    } else if !IsSpace(s[0]) {
      assert Collapse(s)[1..] == Collapse(s[1..]);
      RunsOfCollapse(s[1..], if IsLetter(s[0]) then run + [s[0]] else []);
    } else if |s| > 1 && IsSpace(s[1]) {
      RunsOfCollapse(s[1..], run);
      assert LetterRuns(s[1..], []) == LetterRuns(s[2..], []) by { assert s[1..][1..] == s[2..]; }
      assert LetterRuns(s[1..], run) == Flush(run) + LetterRuns(s[2..], []) by { assert s[1..][1..] == s[2..]; }
    } else {
      assert Collapse(s)[1..] == Collapse(s[1..]);
      RunsOfCollapse(s[1..], []);
    }
  }

  lemma {:induction false} RunsOfTrimStart(s: string)
    ensures LetterRuns(TrimStart(s), []) == LetterRuns(s, [])
    decreases |s|
  {
    if s != [] && IsSpace(s[0]) {
      RunsOfTrimStart(s[1..]);
    }
  }

  lemma {:induction false} RunsDropLastSpace(s: string, run: string)
    requires s != [] && !IsLetter(s[|s| - 1])
    ensures LetterRuns(s[..|s| - 1], run) == LetterRuns(s, run)
    decreases |s|
  {
    if |s| > 1 {
      assert s[..|s| - 1][1..] == s[1..][..|s[1..]| - 1];
      RunsDropLastSpace(s[1..], if IsLetter(s[0]) then run + [s[0]] else []);
    }
  }

  lemma {:induction false} RunsOfTrimEnd(s: string)
    ensures LetterRuns(TrimEnd(s), []) == LetterRuns(s, [])
    decreases |s|
  {
    if s != [] && IsSpace(s[|s| - 1]) {
      RunsDropLastSpace(s, []);
      RunsOfTrimEnd(s[..|s| - 1]);
    }
  }

  ghost predicate Clean(s: string) { forall c :: c in s ==> IsLetter(c) || c == ' ' }

  lemma {:induction false} CollapseIsClean(s: string)
    requires forall c :: c in s ==> IsLetter(c) || IsSpace(c)
    ensures Clean(Collapse(s))
    decreases |s|
  {
    if s != [] {
      CollapseIsClean(s[1..]);
    }
  }

  lemma {:induction false} TrimIsClean(s: string)
    requires Clean(s)
    ensures Clean(TrimStart(s)) && Clean(TrimEnd(s))
    decreases |s|
  {
    if s != [] {
      TrimIsClean(s[1..]);
      TrimIsClean(s[..|s| - 1]);
    }
  }

  lemma {:induction false} SplitIsRuns(s: string, piece: string)
    requires Clean(s)
    ensures KeepTokens(SplitOnSpace(s, piece)) == DropHonorifics(LetterRuns(s, piece))
    decreases |s|
  {
    if s != [] {
      if s[0] == ' ' {
        SplitIsRuns(s[1..], []);
        assert SplitOnSpace(s, piece)[1..] == SplitOnSpace(s[1..], []);
        if piece == [] {
          assert LetterRuns(s, piece) == LetterRuns(s[1..], []);
        } else {
          assert LetterRuns(s, piece)[1..] == LetterRuns(s[1..], []);
        }
      } else {
        SplitIsRuns(s[1..], piece + [s[0]]);
      }
    }
  }

  /** The pipeline of string passes yields the maximal letter runs that are not honorifics. */
  lemma NormalizeIsLetterRuns(name: string)
    ensures Normalize(name) == DropHonorifics(LetterRuns(Upper(name), []))
  {
    var upper := Upper(name);
    var blank := Blank(upper);
    var collapsed := Collapse(blank);
    var started := TrimStart(collapsed);
    CollapseIsClean(blank);
    TrimIsClean(collapsed);
    TrimIsClean(started);
    SplitIsRuns(TrimEnd(started), []);
    RunsOfTrimEnd(started);
    RunsOfTrimStart(collapsed);
    RunsOfCollapse(blank, []);
    RunsOfBlank(upper, []);
  }

  // ----- Trimming the raw name first changes nothing

  lemma {:induction false} UpperConcat(s: string, t: string)
    ensures Upper(s + t) == Upper(s) + Upper(t)
    decreases |s|
  {
    if s == [] {
      assert s + t == t;
    } else {
      assert (s + t)[1..] == s[1..] + t;
      UpperConcat(s[1..], t);
    }
  }

  lemma {:induction false} RunsOfUpperTrimStart(s: string)
    ensures LetterRuns(Upper(TrimStart(s)), []) == LetterRuns(Upper(s), [])
    decreases |s|
  {
    if s != [] && IsSpace(s[0]) {
      RunsOfUpperTrimStart(s[1..]);
      assert Upper(s)[1..] == Upper(s[1..]);
    }
  }

  lemma {:induction false} RunsOfUpperTrimEnd(s: string)
    ensures LetterRuns(Upper(TrimEnd(s)), []) == LetterRuns(Upper(s), [])
    decreases |s|
  {
    if s != [] && IsSpace(s[|s| - 1]) {
      var t, c := s[..|s| - 1], s[|s| - 1];
      RunsOfUpperTrimEnd(t);
      assert s == t + [c];
      UpperConcat(t, [c]);
      assert Upper([c]) == [c];
      RunsDropLastSpace(Upper(s), []);
      assert Upper(s)[..|Upper(s)| - 1] == Upper(t);
    }
  }

  lemma NormalizeIgnoresOuterSpace(name: string)
    ensures Normalize(Trim(name)) == Normalize(name)
  {
    NormalizeIsLetterRuns(Trim(name));
    NormalizeIsLetterRuns(name);
    RunsOfUpperTrimEnd(TrimStart(name));
    RunsOfUpperTrimStart(name);
  }

  // ----- Token lists and the round trip through a joined name

  ghost predicate IsToken(t: string) {
    t != [] && t !in HONORIFICS && forall c :: c in t ==> IsLetter(c)
  }

  ghost predicate IsTokenList(tokens: seq<string>) { forall t :: t in tokens ==> IsToken(t) }

  lemma {:induction false} RunsAreLetters(s: string, run: string)
    requires forall c :: c in run ==> IsLetter(c)
    ensures forall r :: r in LetterRuns(s, run) ==> r != [] && forall c :: c in r ==> IsLetter(c)
    decreases |s|
  {
    if s != [] {
      RunsAreLetters(s[1..], if IsLetter(s[0]) then run + [s[0]] else []);
    }
  }

  lemma {:induction false} DropKeepsMembers(runs: seq<string>)
    ensures forall r :: r in DropHonorifics(runs) <==> r in runs && r !in HONORIFICS
    decreases |runs|
  {
    if runs != [] {
      DropKeepsMembers(runs[1..]);
    }
  }

  lemma NormalizeGivesTokens(name: string)
    ensures IsTokenList(Normalize(name))
  {
    NormalizeIsLetterRuns(name);
    RunsAreLetters(Upper(name), []);
    DropKeepsMembers(LetterRuns(Upper(name), []));
  }

  /** The same letter, in either case. */
  predicate SameLetter(c: char, d: char) {
    || c == d
    || ('a' <= c <= 'z' && d == c - 'a' + 'A')
    || ('a' <= d <= 'z' && c == d - 'a' + 'A')
  }

  lemma {:induction false} UpperIgnoresCase(s: string, t: string)
    requires |s| == |t| && forall i :: 0 <= i < |s| ==> SameLetter(s[i], t[i])
    ensures Upper(s) == Upper(t)
    decreases |s|
  {
    if s != [] {
      assert SameLetter(s[0], t[0]);
      UpperIgnoresCase(s[1..], t[1..]);
    }
  }

  /** Besides a to z, the characters whose upper-case form has letters. */
  lemma LigaturesSpellOut()
    ensures UpperChar('\U{DF}') == "SS" && UpperChar('\U{131}') == "I" && UpperChar('\U{17F}') == "S"
    ensures UpperChar('\U{FB00}') == "FF" && UpperChar('\U{FB01}') == "FI" && UpperChar('\U{FB02}') == "FL"
    ensures UpperChar('\U{FB03}') == "FFI" && UpperChar('\U{FB04}') == "FFL"
    ensures UpperChar('\U{FB05}') == "ST" && UpperChar('\U{FB06}') == "ST"
    ensures UpperChar('\U{149}') == "\U{2BC}N" && UpperChar('\U{1F0}') == "J\U{30C}" && UpperChar('\U{1E96}') == "H\U{331}"
    ensures UpperChar('\U{1E97}') == "T\U{308}" && UpperChar('\U{1E98}') == "W\U{30A}" && UpperChar('\U{1E99}') == "Y\U{30A}"
    ensures UpperChar('\U{1E9A}') == "A\U{2BE}"
  {
  }

  /** A name written in any mixture of cases has the same tokens. */
  lemma NormalizeIgnoresCase(s: string, t: string)
    requires |s| == |t| && forall i :: 0 <= i < |s| ==> SameLetter(s[i], t[i])
    ensures Normalize(s) == Normalize(t)
  {
    UpperIgnoresCase(s, t);
  }

  lemma {:induction false} RunOfWord(s: string, run: string)
    requires (forall c :: c in s ==> IsLetter(c)) && run + s != []
    ensures LetterRuns(s, run) == [run + s]
    decreases |s|
  {
    if s == [] {
      assert run + s == run;
    } else {
      assert run + s == (run + [s[0]]) + s[1..];
      RunOfWord(s[1..], run + [s[0]]);
    }
  }

  /** A word is its own only token, in any case, unless it is one of the nine honorifics. */
  lemma WordIsItsToken(s: string, t: string)
    requires t != [] && (forall c :: c in t ==> 'A' <= c <= 'Z')
    requires |s| == |t| && forall i :: 0 <= i < |s| ==> SameLetter(s[i], t[i])
    ensures Normalize(s) ==
            if t in {"MR", "MRS", "MS", "MISS", "DR", "SHRI", "SMT", "KUM", "SHRIMATI"} then [] else [t]
  {
    NormalizeIgnoresCase(s, t);
    WordRun(t);
    NormalizeIsLetterRuns(t);
    OneRunKept(t);
  }

  lemma WordRun(t: string)
    requires t != [] && forall c :: c in t ==> IsLetter(c)
    ensures LetterRuns(Upper(t), []) == [t]
  {
    UpperOfLetters(t);
    RunOfWord(t, []);
    assert [] + t == t;
  }

  lemma OneRunKept(t: string)
    ensures DropHonorifics([t]) ==
            if t in {"MR", "MRS", "MS", "MISS", "DR", "SHRI", "SMT", "KUM", "SHRIMATI"} then [] else [t]
  {
    assert [t][1..] == [] && DropHonorifics([]) == [];
  }

  /** A name spelled out from its tokens, one space after each. */
  function Join(tokens: seq<string>): string {
    if tokens == [] then [] else tokens[0] + [' '] + Join(tokens[1..])
  }

  lemma {:induction false} UpperOfLetters(s: string)
    requires forall c :: c in s ==> IsLetter(c)
    ensures Upper(s) == s
    decreases |s|
  {
    if s != [] {
      UpperOfLetters(s[1..]);
    }
  }

  /** A word of letters is neither trimmed nor changed by upper-casing. */
  lemma WordKept(s: string)
    requires s != [] && forall c :: c in s ==> IsLetter(c)
    ensures Upper(Trim(s)) == s
  {
    assert IsLetter(s[0]) && IsLetter(s[|s| - 1]);
    TrimKeeps(s);
    UpperOfLetters(s);
  }

  lemma {:induction false} RunsOfToken(t: string, rest: string, run: string)
    requires (forall c :: c in t ==> IsLetter(c)) && run + t != []
    ensures LetterRuns(t + [' '] + rest, run) == [run + t] + LetterRuns(rest, [])
    decreases |t|
  {
    var s := t + [' '] + rest;
    if t == [] {
      assert s[1..] == rest && run + t == run;
    } else {
      assert s[1..] == t[1..] + [' '] + rest;
      assert run + t == (run + [t[0]]) + t[1..];
      RunsOfToken(t[1..], rest, run + [t[0]]);
    }
  }

  lemma {:induction false} RunsOfJoin(tokens: seq<string>)
    requires IsTokenList(tokens)
    ensures LetterRuns(Upper(Join(tokens)), []) == tokens
    decreases |tokens|
  {
    if tokens != [] {
      var t, rest := tokens[0], Join(tokens[1..]);
      assert IsToken(t);
      UpperConcat(t + [' '], rest);
      UpperConcat(t, [' ']);
      UpperOfLetters(t);
      assert Upper([' ']) == [' '];
      RunsOfToken(t, Upper(rest), []);
      RunsOfJoin(tokens[1..]);
      assert [] + t == t;
    }
  }

  lemma {:induction false} DropKeepsTokenLists(tokens: seq<string>)
    requires IsTokenList(tokens)
    ensures DropHonorifics(tokens) == tokens
    decreases |tokens|
  {
    if tokens != [] {
      assert IsToken(tokens[0]);
      DropKeepsTokenLists(tokens[1..]);
    }
  }

  /** Every list of tokens is the normal form of a name, and normalising again changes nothing. */
  lemma NormalizeRoundTrip(tokens: seq<string>)
    requires IsTokenList(tokens)
    ensures Normalize(Join(tokens)) == tokens
  {
    NormalizeIsLetterRuns(Join(tokens));
    RunsOfJoin(tokens);
    DropKeepsTokenLists(tokens);
  }

  lemma NormalizeIdempotent(name: string)
    ensures Normalize(Join(Normalize(name))) == Normalize(name)
  {
    NormalizeGivesTokens(name);
    NormalizeRoundTrip(Normalize(name));
  }
}
