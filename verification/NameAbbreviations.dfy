/**
  The convention the matcher exists to let through: a name whose tokens are reordered and
  some of them cut down to their initials still scores at least the initial-match score.
 */
module NameAbbreviations {
  import opened EditDistance
  import opened NameTokens
  import opened TokenPairing
  import opened NameMatcher

  /** b is a or the initial of a. */
  predicate Abbreviates(a: string, b: string) { a != [] && (b == a || IsInitialOf(b, a)) }

  /** B lists abbreviations of the tokens of A, in the order given by the permutation `from`. */
  ghost predicate IsAbbreviation(A: seq<string>, B: seq<string>, from: seq<nat>) {
    && |A| == |B| == |from| && ShortTokens(A)
    && (forall j :: 0 <= j < |from| ==> from[j] < |A| && Abbreviates(A[from[j]], B[j]))
    && (forall j, k :: 0 <= j < k < |from| ==> from[j] != from[k])
  }

  /** The greedy pairing of A and B. */
  function Pairing(A: seq<string>, B: seq<string>): seq<Pair> { Chosen(Ranked(A, B)) }

  function StartingWith(s: seq<string>, c: char): set<nat> { set k: nat | k < |s| && s[k] != [] && s[k][0] == c }

  // ----- Similarities with a single letter

  lemma InitialScores(a: string, b: string)
    requires Abbreviates(a, b) && |b| == 1
    ensures Similarity(a, b) >= INITIAL_MATCH_SCORE
  {
  }

  /** A single letter is far from every token it does not start. */
  lemma OtherLetterScoresLow(a: string, b: string)
    requires a != [] && |b| == 1 && a[0] != b[0]
    ensures Similarity(a, b) < INITIAL_MATCH_SCORE
  {
    DistanceBounds(a, b);
    DistanceZeroIffEqual(a, b);
    LowPercentage(a, b, Distance(a, b));
  }

  lemma LowPercentage(a: string, b: string, d: nat)
    requires a != [] && |b| == 1 && a[0] != b[0] && 1 <= d <= |a| && |a| <= d + 1
    ensures SimilarityAt(a, b, d) < INITIAL_MATCH_SCORE
  {
  }

  // ----- Full tokens are paired with their equals

  /** An injection from the columns of B with token t to the rows of A with token t. */
  lemma FullTokensAreNoMoreInB(A: seq<string>, B: seq<string>, from: seq<nat>, t: string)
    requires IsAbbreviation(A, B, from) && |t| > 1
    ensures |Positions(B, t)| <= |Positions(A, t)|
  {
    forall j | j in Positions(B, t) ensures from[j] in Positions(A, t) {
      assert Abbreviates(A[from[j]], B[j]);
    }
    InjectionBound(from, Positions(B, t), Positions(A, t));
  }

  lemma {:induction false} InjectionBound(f: seq<nat>, J: set<nat>, I: set<nat>)
    requires forall j :: j in J ==> j < |f| && f[j] in I
    requires forall j, k :: 0 <= j < k < |f| ==> f[j] != f[k]
    ensures |J| <= |I|
    decreases |J|
  {
    if J != {} {
      var j :| j in J;
      InjectionBound(f, J - {j}, I - {f[j]});
    }
  }

  /** The mirror image of OneToOneCounts: rows with a chosen pair in J are no more than J. */
  lemma RowsFitColumns(C: seq<Pair>, I: set<nat>, J: set<nat>)
    requires OneToOne(C) && forall i :: i in I ==> exists q :: q in C && q.i == i && q.j in J
    ensures |I| <= |J|
  {
    TransposedOneToOne(C);
    forall i | i in I ensures exists q :: q in TransposeAll(C) && q.j == i && q.i in J {
      var q :| q in C && q.i == i && q.j in J;
      assert Transpose(Transpose(q)) == q;
      assert Transpose(q) in TransposeAll(C);
    }
    OneToOneCounts(TransposeAll(C), I, J);
  }

  ghost predicate PairedWithEqual(A: seq<string>, B: seq<string>, j: nat) {
    exists q :: q in Pairing(A, B) && q.j == j && CellOf(A, B, q) && A[q.i] == B[j] && q.score == 100
  }

  /** If column j is not paired with its equal, each row with the same token is paired in another such column. */
  lemma RowPairedElsewhere(A: seq<string>, B: seq<string>, j: nat, i: nat) returns (q: Pair)
    requires ShortTokens(A) && ShortTokens(B) && j < |B| && i < |A| && A[i] == B[j] && !PairedWithEqual(A, B, j)
    ensures q in Pairing(A, B) && q.i == i && q.j in Positions(B, B[j]) - {j}
  {
    EqualCell(A, B, i, j);
    q := RankedBlocker(A, B, Pair(i, j, 100));
    PerfectCell(A, B, q);
  }

  lemma FullTokenPaired(A: seq<string>, B: seq<string>, from: seq<nat>, j: nat)
    requires IsAbbreviation(A, B, from) && ShortTokens(B) && j < |B| && |B[j]| > 1
    ensures PairedWithEqual(A, B, j)
  {
    var t := B[j];
    FullTokensAreNoMoreInB(A, B, from, t);
    if !PairedWithEqual(A, B, j) {
      forall i | i in Positions(A, t) ensures exists q :: q in Pairing(A, B) && q.i == i && q.j in Positions(B, t) - {j} {
        var q := RowPairedElsewhere(A, B, j, i);
      }
      GreedyPairing(A, B);
      RowsFitColumns(Pairing(A, B), Positions(A, t), Positions(B, t) - {j});
    }
  }

  // ----- No chosen pair scores below the initial-match score

  lemma AbbreviationIsShort(A: seq<string>, B: seq<string>, from: seq<nat>)
    requires IsAbbreviation(A, B, from)
    ensures ShortTokens(B) && forall j :: 0 <= j < |B| ==> B[j] != []
  {
  }

  /** Rows and columns starting with c are equally many. */
  lemma SameInitials(A: seq<string>, B: seq<string>, from: seq<nat>, c: char)
    requires IsAbbreviation(A, B, from)
    ensures |StartingWith(A, c)| <= |StartingWith(B, c)|
  {
    var inverse := Inverse(from);
    forall i | i in StartingWith(A, c) ensures inverse[i] in StartingWith(B, c) {
      assert Abbreviates(A[from[inverse[i]]], B[inverse[i]]);
    }
    InjectionBound(inverse, StartingWith(A, c), StartingWith(B, c));
  }

  /** Distinct values taken from `rest` are no more than it has members. */
  lemma TooFewValues(f: seq<nat>, all: set<nat>, rest: set<nat>)
    requires forall k :: 0 <= k < |f| ==> f[k] in rest
    requires forall k, l :: 0 <= k < l < |f| ==> f[k] != f[l]
    requires forall k :: k in all ==> k < |f|
    ensures |all| <= |rest|
  {
    InjectionBound(f, all, rest);
  }

  lemma Preimage(f: seq<nat>, i: nat) returns (j: nat)
    requires forall k :: 0 <= k < |f| ==> f[k] < |f|
    requires forall k, l :: 0 <= k < l < |f| ==> f[k] != f[l]
    requires i < |f|
    ensures j < |f| && f[j] == i
  {
    if forall k :: 0 <= k < |f| ==> f[k] != i {
      TooFewValues(f, Below(|f|), Below(|f|) - {i});
    }
    j :| 0 <= j < |f| && f[j] == i;
  }

  /** A sequence of n distinct numbers below n has an inverse. */
  lemma Inverse(f: seq<nat>) returns (g: seq<nat>)
    requires forall j :: 0 <= j < |f| ==> f[j] < |f|
    requires forall j, k :: 0 <= j < k < |f| ==> f[j] != f[k]
    ensures |g| == |f| && forall i :: 0 <= i < |g| ==> g[i] < |f| && f[g[i]] == i
    ensures forall i, k :: 0 <= i < k < |g| ==> g[i] != g[k]
  {
    g := [];
    while |g| < |f|
      invariant |g| <= |f| && forall i :: 0 <= i < |g| ==> g[i] < |f| && f[g[i]] == i
    {
      var j := Preimage(f, |g|);
      g := g + [j];
    }
  }

  /** Seen from a chosen pair scoring too low: every column with the row's initial is taken by another such row. */
  lemma ColumnTakenByInitial(A: seq<string>, B: seq<string>, from: seq<nat>, p: Pair, j: nat) returns (q: Pair)
    requires IsAbbreviation(A, B, from) && ShortTokens(B) && forall k :: 0 <= k < |B| ==> B[k] != []
    requires p in Pairing(A, B) && p.i < |A| && p.score < INITIAL_MATCH_SCORE && A[p.i] != []
    requires j in StartingWith(B, A[p.i][0])
    ensures q in Pairing(A, B) && q.j == j && q.i in StartingWith(A, A[p.i][0]) - {p.i}
  {
    GreedyPairing(A, B);
    if |B[j]| > 1 {
      FullTokenPaired(A, B, from, j);
      q :| q in Pairing(A, B) && q.j == j && CellOf(A, B, q) && A[q.i] == B[j] && q.score == 100;
    } else {
      q := InitialTaken(A, B, from, p, j);
    }
    if q.i == p.i {
      MembersConflict(Pairing(A, B), p, q);
    }
  }

  lemma InitialTaken(A: seq<string>, B: seq<string>, from: seq<nat>, p: Pair, j: nat) returns (q: Pair)
    requires IsAbbreviation(A, B, from) && p in Pairing(A, B) && OneToOne(Pairing(A, B))
    requires p.i < |A| && p.score < INITIAL_MATCH_SCORE && A[p.i] != []
    requires j < |B| && |B[j]| == 1 && B[j][0] == A[p.i][0]
    ensures q in Pairing(A, B) && q.j == j && q.score >= INITIAL_MATCH_SCORE && q.i in StartingWith(A, A[p.i][0])
  {
    assert Abbreviates(A[p.i], B[j]);
    InitialScores(A[p.i], B[j]);
    var r := Pair(p.i, j, Similarity(A[p.i], B[j]));
    assert CellOf(A, B, r);
    q := RankedBlocker(A, B, r);
    if q.i == p.i {
      MembersConflict(Pairing(A, B), p, q);
    }
    TokensAreNotEmpty(A, B, from, q.i);
    if A[q.i][0] != B[j][0] {
      OtherLetterScoresLow(A[q.i], B[j]);
    }
  }

  lemma TokensAreNotEmpty(A: seq<string>, B: seq<string>, from: seq<nat>, i: nat)
    requires IsAbbreviation(A, B, from) && i < |A|
    ensures A[i] != []
  {
    var inverse := Inverse(from);
    assert Abbreviates(A[from[inverse[i]]], B[inverse[i]]);
  }

  lemma NoLowPair(A: seq<string>, B: seq<string>, from: seq<nat>, p: Pair)
    requires IsAbbreviation(A, B, from) && p in Pairing(A, B)
    ensures p.score >= INITIAL_MATCH_SCORE
  {
    GreedyPairing(A, B);
    AbbreviationIsShort(A, B, from);
    TokensAreNotEmpty(A, B, from, p.i);
    if p.score < INITIAL_MATCH_SCORE {
      var c := A[p.i][0];
      var I, J := StartingWith(A, c), StartingWith(B, c);
      SameInitials(A, B, from, c);
      forall j | j in J ensures exists q :: q in Pairing(A, B) && q.j == j && q.i in I - {p.i} {
        var q := ColumnTakenByInitial(A, B, from, p, j);
      }
      OneToOneCounts(Pairing(A, B), J, I - {p.i});
    }
  }

  /**
    Reordering the tokens of a name and cutting any of them down to their initials keeps
    the score at the initial-match score or above, so such a pair is accepted at every
    threshold up to it.
   */
  lemma AbbreviatedNameMatches(A: seq<string>, B: seq<string>, from: seq<nat>)
    requires A != [] && IsAbbreviation(A, B, from)
    ensures INITIAL_MATCH_SCORE <= Score(A, B) <= 100
  {
    GreedyPairing(A, B);
    ScoreBounds(A, B);
    forall p | p in Pairing(A, B) ensures p.score >= INITIAL_MATCH_SCORE {
      NoLowPair(A, B, from, p);
    }
    TotalAtLeast(Pairing(A, B), INITIAL_MATCH_SCORE);
    RoundDivMonotone(INITIAL_MATCH_SCORE * |A|, Total(Pairing(A, B)), |A|);
    RoundDivExact(INITIAL_MATCH_SCORE, |A|);
  }
}
