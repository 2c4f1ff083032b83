/**
  Fuzzy matching of two names: token similarity, the greedy token pairing averaged over the
  longer name, and the bank-account verdict built on the score.
 */
module NameMatcher {
  import opened Options
  import opened EditDistance
  import opened NameTokens
  import opened TokenPairing

  const INITIAL_MATCH_SCORE: nat := 88

  /** Rounding of the exact quotient n / d, halves upwards. */
  function RoundDiv(n: nat, d: nat): (r: nat)
    requires d > 0
    ensures 2 * (d * r) <= 2 * n + d < 2 * (d * r) + 2 * d
  {
    (2 * n + d) / (2 * d)
  }

  lemma MulStep(d: nat, x: nat, y: nat)
    requires x < y
    ensures d * x + d <= d * y
  {
    var k := y - x - 1;
    assert d * y == d * (x + 1 + k) == d * x + d + d * k;
  }

  lemma RoundDivBelow(n: nat, d: nat, k: nat)
    requires d > 0 && 2 * n + d < 2 * (d * k) + 2 * d
    ensures RoundDiv(n, d) <= k
  {
    var r := RoundDiv(n, d);
    if k < r {
      MulStep(d, k, r);
    }
  }

  lemma RoundDivAtMost(n: nat, d: nat, bound: nat)
    requires d > 0 && n <= bound * d
    ensures RoundDiv(n, d) <= bound
  {
    RoundDivBelow(n, d, bound);
  }

  lemma RoundDivMonotone(n: nat, n': nat, d: nat)
    requires d > 0 && n <= n'
    ensures RoundDiv(n, d) <= RoundDiv(n', d)
  {
    RoundDivBelow(n, d, RoundDiv(n', d));
  }

  lemma RoundDivExact(k: nat, d: nat)
    requires d > 0
    ensures RoundDiv(k * d, d) == k
  {
    var r := RoundDiv(k * d, d);
    RoundDivBelow(k * d, d, k);
    if r < k {
      MulStep(d, r, k);
    }
  }

  lemma RoundedPercentage(m: nat, d: nat)
    requires 0 < m && d <= m
    ensures RoundDiv((m - d) * 100, m) <= 100
    ensures RoundDiv((m - d) * 100, m) == 100 <==> 200 * d <= m
  {
    var r := RoundDiv((m - d) * 100, m);
    RoundDivAtMost((m - d) * 100, m, 100);
    if r < 100 {
      MulStep(m, r, 100);
    }
  }

  /** Whether the first name is one letter that starts the second one. */
  predicate IsInitialOf(a: string, b: string) { |a| == 1 && a <= b }

  /** The similarity of two tokens whose edit distance is d. */
  function SimilarityAt(a: string, b: string, d: nat): nat
    requires a != b ==> d <= Max(|a|, |b|)
  {
    if a == b then 100
    else if IsInitialOf(a, b) || IsInitialOf(b, a) then INITIAL_MATCH_SCORE
    else
      assert Max(|a|, |b|) > 0;
      RoundDiv((Max(|a|, |b|) - d) * 100, Max(|a|, |b|))
  }

  function Similarity(a: string, b: string): nat {
    DistanceBounds(a, b);
    SimilarityAt(a, b, Distance(a, b))
  }

  method TokenSimilarity(a: string, b: string) returns (s: nat)
    ensures s == Similarity(a, b)
  {
    if a == b { return 100; }
    if |a| == 1 && a <= b { return INITIAL_MATCH_SCORE; }
    if |b| == 1 && b <= a { return INITIAL_MATCH_SCORE; }
    var maxLen := Max(|a|, |b|); // not 0: two empty tokens are equal
    var distance := Levenshtein(a, b);
    DistanceBounds(a, b);
    s := RoundDiv((maxLen - distance) * 100, maxLen);
  }

  lemma SimilaritySymmetric(a: string, b: string)
    ensures Similarity(a, b) == Similarity(b, a)
  {
    DistanceSymmetric(a, b);
  }

  /**
    Similarity is a percentage, and it is 100 exactly when the edit distance is at most a
    two-hundredth of the longer token, so for shorter tokens only when they are equal.
   */
  lemma SimilarityIsPercentage(a: string, b: string)
    ensures Similarity(a, b) <= 100
    ensures Similarity(a, b) == 100 <==> 200 * Distance(a, b) <= Max(|a|, |b|)
  {
    DistanceBounds(a, b);
    DistanceZeroIffEqual(a, b);
    PercentageAt(a, b, Distance(a, b));
  }

  lemma PercentageAt(a: string, b: string, d: nat)
    requires |a| <= |b| + d && |b| <= |a| + d && d <= Max(|a|, |b|) && (d == 0 <==> a == b)
    ensures SimilarityAt(a, b, d) <= 100
    ensures SimilarityAt(a, b, d) == 100 <==> 200 * d <= Max(|a|, |b|)
  {
    if a != b {
      assert a <= b && |a| == |b| ==> a == b;
      assert b <= a && |a| == |b| ==> a == b;
      RoundedPercentage(Max(|a|, |b|), d);
    }
  }

  lemma SimilarityIsEqualityBelow200(a: string, b: string)
    requires |a| < 200 && |b| < 200
    ensures Similarity(a, b) == 100 <==> a == b
  {
    SimilarityIsPercentage(a, b);
    DistanceZeroIffEqual(a, b);
  }

  /** The percentage of the longer length that k edits leave over, to the nearest whole number. */
  ghost predicate NotBelow(s: nat, m: nat, k: int) { 2 * (m * s) + m >= 200 * (m - k) }

  ghost predicate NotAbove(s: nat, m: nat, k: int) { 2 * (m * s) <= 200 * (m - k) + m }

  /**
    What similarity is, in terms of single-character edits: 100 for equal tokens, 88 for a
    token and its initial, and otherwise the share of the longer token that the shortest
    chain of edits leaves over, as the nearest percentage.
   */
  lemma SimilarityIsNearestPercent(a: string, b: string)
    ensures a == b ==> Similarity(a, b) == 100
    ensures a != b && ((|a| == 1 && a <= b) || (|b| == 1 && b <= a)) ==> Similarity(a, b) == 88
    ensures a != b && !(|a| == 1 && a <= b) && !(|b| == 1 && b <= a) ==>
              && (forall chain :: EditChain(chain, a, b) ==> NotBelow(Similarity(a, b), Max(|a|, |b|), |chain| - 1))
              && (exists chain :: EditChain(chain, a, b) && NotAbove(Similarity(a, b), Max(|a|, |b|), |chain| - 1))
  {
    if a != b && !(|a| == 1 && a <= b) && !(|b| == 1 && b <= a) {
      var m, s := Max(|a|, |b|), Similarity(a, b);
      DistanceIsShortestChain(a, b);
      DistanceBounds(a, b);
      forall chain | EditChain(chain, a, b) ensures NotBelow(s, m, |chain| - 1) {}
      var chain :| EditChain(chain, a, b) && |chain| - 1 == Distance(a, b);
      assert NotAbove(s, m, |chain| - 1);
    }
  }

  /** s is total divided by m, rounded to the nearest whole number, halves upwards. */
  ghost predicate IsRounded(s: nat, total: nat, m: nat) { 2 * (m * s) <= 2 * total + m < 2 * (m * s) + 2 * m }

  /** One missing letter leaves all letters but one; in a name of nine letters that is 89 percent. */
  lemma OneMissingLetter(p: string, c: char, q: string)
    requires |p| + |q| >= 2
    ensures var m := |p| + |q| + 1;
            IsRounded(Similarity(p + q, p + [c] + q), 100 * (m - 1), m) && (m == 9 ==> Similarity(p + q, p + [c] + q) == 89)
  {
    var a, b := p + q, p + [c] + q;
    assert p + [] + q == a && |a| != |b|;
    EditInside(p, [], [c], q);
    DistanceZeroIffEqual(a, b);
    assert Distance(a, b) == 1;
  }

  /** A token of n letters: n - 1 times A, and then c. */
  function RunOfAs(n: nat, c: char): (t: string)
    requires n > 0
    ensures |t| == n && t[n - 1] == c
  {
    seq(n - 1, k requires 0 <= k < n - 1 => 'A') + [c]
  }

  /** From 200 letters on, of any length, there are two different tokens of similarity 100; so 200 is the exact bound. */
  lemma EveryLengthFrom200HasTwins(n: nat)
    requires n >= 200
    ensures IsToken(RunOfAs(n, 'A')) && IsToken(RunOfAs(n, 'B')) && |RunOfAs(n, 'A')| == |RunOfAs(n, 'B')| == n
    ensures RunOfAs(n, 'A') != RunOfAs(n, 'B') && Similarity(RunOfAs(n, 'A'), RunOfAs(n, 'B')) == 100
  {
    var a, b := RunOfAs(n, 'A'), RunOfAs(n, 'B');
    assert Init(a) == Init(b);
    ReplaceOne(a, b, Init(a));
    SimilarityIsPercentage(a, b);
  }

  // ----- The scored pairs of two token lists

  function RowPairs(A: seq<string>, B: seq<string>, i: nat, n: nat): (r: seq<Pair>)
    requires i < |A| && n <= |B|
    ensures |r| == n && forall j :: 0 <= j < n ==> r[j] == Pair(i, j, Similarity(A[i], B[j]))
  {
    seq(n, j requires 0 <= j < n => Pair(i, j, Similarity(A[i], B[j])))
  }

  function GridRows(A: seq<string>, B: seq<string>, m: nat): seq<Pair>
    requires m <= |A|
  {
    if m == 0 then [] else GridRows(A, B, m - 1) + RowPairs(A, B, m - 1, |B|)
  }

  function Grid(A: seq<string>, B: seq<string>): seq<Pair> { GridRows(A, B, |A|) }

  predicate LexBefore(p: Pair, q: Pair) { p.i < q.i || (p.i == q.i && p.j < q.j) }

  ghost predicate CellOf(A: seq<string>, B: seq<string>, p: Pair) {
    p.i < |A| && p.j < |B| && p.score == Similarity(A[p.i], B[p.j])
  }

  lemma {:induction false} GridRowsMembers(A: seq<string>, B: seq<string>, m: nat)
    requires m <= |A|
    ensures forall p :: p in GridRows(A, B, m) <==> CellOf(A, B, p) && p.i < m
    decreases m
  {
    if m > 0 {
      var row := RowPairs(A, B, m - 1, |B|);
      GridRowsMembers(A, B, m - 1);
      forall p ensures p in row <==> CellOf(A, B, p) && p.i == m - 1 {
        if CellOf(A, B, p) && p.i == m - 1 { assert row[p.j] == p; }
      }
    }
  }

  ghost predicate LexSorted(s: seq<Pair>) { forall k, l :: 0 <= k < l < |s| ==> LexBefore(s[k], s[l]) }

  lemma AppendRow(above: seq<Pair>, row: seq<Pair>, i: nat)
    requires LexSorted(above) && forall p :: p in above ==> p.i < i
    requires LexSorted(row) && forall p :: p in row ==> p.i == i
    ensures LexSorted(above + row)
  {
  }

  lemma RowSorted(A: seq<string>, B: seq<string>, i: nat)
    requires i < |A|
    ensures LexSorted(RowPairs(A, B, i, |B|)) && forall p :: p in RowPairs(A, B, i, |B|) ==> p.i == i
  {
  }

  lemma RowsBelow(A: seq<string>, B: seq<string>, m: nat)
    requires m <= |A|
    ensures forall p :: p in GridRows(A, B, m) ==> p.i < m
  {
    GridRowsMembers(A, B, m);
  }

  lemma {:induction false} GridRowsSorted(A: seq<string>, B: seq<string>, m: nat)
    requires m <= |A|
    ensures LexSorted(GridRows(A, B, m))
    decreases m
  {
    if m > 0 {
      GridRowsSorted(A, B, m - 1);
      RowsBelow(A, B, m - 1);
      RowSorted(A, B, m - 1);
      AppendRow(GridRows(A, B, m - 1), RowPairs(A, B, m - 1, |B|), m - 1);
    }
  }

  lemma GridShape(A: seq<string>, B: seq<string>)
    ensures Distinct(Grid(A, B)) && IsGrid(Grid(A, B), |A|, |B|)
    ensures forall p :: p in Grid(A, B) <==> CellOf(A, B, p)
    ensures forall p, q :: Precedes(Grid(A, B), p, q) ==> LexBefore(p, q)
  {
    GridRowsMembers(A, B, |A|);
    GridRowsSorted(A, B, |A|);
    var g := Grid(A, B);
    forall i, j | 0 <= i < |A| && 0 <= j < |B| ensures HasCell(g, i, j) {
      assert Pair(i, j, Similarity(A[i], B[j])) in g;
    }
  }

  /** The greedy total and the score of two token lists. */
  function Ranked(A: seq<string>, B: seq<string>): seq<Pair> { SortByScore(Grid(A, B)) }

  function Score(A: seq<string>, B: seq<string>): nat {
    if A == [] || B == [] then 0 else RoundDiv(Total(Chosen(Ranked(A, B))), Max(|A|, |B|))
  }

  function OrEmpty(name: Option<string>): string { if name.None? then "" else name.value }

  function MatchScore(nameA: Option<string>, nameB: Option<string>): nat {
    Score(Normalize(OrEmpty(nameA)), Normalize(OrEmpty(nameB)))
  }

  method ScorePairs(A: seq<string>, B: seq<string>) returns (pairs: seq<Pair>)
    ensures pairs == Grid(A, B)
  {
    pairs := [];
    for i := 0 to |A|
      invariant pairs == GridRows(A, B, i)
    {
      for j := 0 to |B|
        invariant pairs == GridRows(A, B, i) + RowPairs(A, B, i, j)
      {
        var score := TokenSimilarity(A[i], B[j]);
        pairs := pairs + [Pair(i, j, score)];
      }
    }
  }

  method MatchNames(nameA: Option<string>, nameB: Option<string>) returns (score: nat)
    ensures score == MatchScore(nameA, nameB)
  {
    var tokensA, tokensB := Normalize(OrEmpty(nameA)), Normalize(OrEmpty(nameB));
    if |tokensA| == 0 || |tokensB| == 0 { return 0; }
    var pairs := ScorePairs(tokensA, tokensB);
    pairs := SortByScore(pairs);
    var totalScore := SelectGreedily(pairs);
    var longerLength := Max(|tokensA|, |tokensB|);
    score := RoundDiv(totalScore, longerLength);
  }

  // ----- Symmetry

  lemma RankedIsStableSort(A: seq<string>, B: seq<string>)
    ensures IsStableSort(Grid(A, B), Ranked(A, B)) && IsGrid(Ranked(A, B), |A|, |B|)
    ensures forall p :: p in Ranked(A, B) <==> CellOf(A, B, p)
  {
    GridShape(A, B);
    SortIsStable(Grid(A, B));
    var r := Ranked(A, B);
    forall k, l | 0 <= k < l < |r| ensures r[k].i != r[l].i || r[k].j != r[l].j {
      assert r[k] in r && r[l] in r;
    }
    forall i, j | 0 <= i < |A| && 0 <= j < |B| ensures HasCell(r, i, j) {
      assert Pair(i, j, Similarity(A[i], B[j])) in r;
    }
  }

  lemma TransposedMembers(A: seq<string>, B: seq<string>)
    ensures SameElements(Ranked(A, B), TransposeAll(Ranked(B, A)))
  {
    RankedIsStableSort(A, B);
    RankedIsStableSort(B, A);
    forall p ensures CellOf(A, B, p) <==> CellOf(B, A, Transpose(p)) {
      if p.i < |A| && p.j < |B| { SimilaritySymmetric(A[p.i], B[p.j]); }
    }
  }

  lemma TransposedDistinct(t: seq<Pair>)
    requires Distinct(t)
    ensures Distinct(TransposeAll(t))
  {
  }

  lemma TransposedRanking(A: seq<string>, B: seq<string>)
    ensures SameConflictOrder(Ranked(A, B), TransposeAll(Ranked(B, A)))
  {
    var s, t := Ranked(A, B), Ranked(B, A);
    var t' := TransposeAll(t);
    RankedIsStableSort(A, B);
    RankedIsStableSort(B, A);
    TransposedMembers(A, B);
    TransposedDistinct(t);
    forall m, n | 0 <= m < n < |s| && Conflict(s[m], s[n]) ensures Precedes(t', s[m], s[n]) {
      ConflictOrderKept(A, B, m, n);
    }
  }

  lemma ConflictOrderKept(A: seq<string>, B: seq<string>, m: nat, n: nat)
    requires m < n < |Ranked(A, B)| && Conflict(Ranked(A, B)[m], Ranked(A, B)[n])
    requires IsStableSort(Grid(A, B), Ranked(A, B)) && IsStableSort(Grid(B, A), Ranked(B, A))
    requires SameElements(Ranked(A, B), TransposeAll(Ranked(B, A)))
    ensures Precedes(TransposeAll(Ranked(B, A)), Ranked(A, B)[m], Ranked(A, B)[n])
  {
    var p, q, t' := Ranked(A, B)[m], Ranked(A, B)[n], TransposeAll(Ranked(B, A));
    assert p in Ranked(A, B) && q in Ranked(A, B);
    assert p in t' && q in t';
    var a :| 0 <= a < |t'| && t'[a] == p;
    var b :| 0 <= b < |t'| && t'[b] == q;
    assert Ranked(B, A)[a] == Transpose(p) && Ranked(B, A)[b] == Transpose(q);
    if b < a {
      TieInBothOrders(A, B, m, n, b, a);
    }
  }

  /** Two conflicting pairs cannot be ranked one way from A to B and the other way from B to A. */
  lemma TieInBothOrders(A: seq<string>, B: seq<string>, m: nat, n: nat, b: nat, a: nat)
    requires IsStableSort(Grid(A, B), Ranked(A, B)) && IsStableSort(Grid(B, A), Ranked(B, A))
    requires m < n < |Ranked(A, B)| && b < a < |Ranked(B, A)|
    requires Ranked(B, A)[a] == Transpose(Ranked(A, B)[m]) && Ranked(B, A)[b] == Transpose(Ranked(A, B)[n])
    ensures !Conflict(Ranked(A, B)[m], Ranked(A, B)[n])
  {
    var s, t := Ranked(A, B), Ranked(B, A);
    assert s[m].score == s[n].score;
    GridShape(A, B);
    GridShape(B, A);
    assert Precedes(Grid(A, B), s[m], s[n]);
    assert Precedes(Grid(B, A), t[b], t[a]);
    assert LexBefore(s[m], s[n]) && LexBefore(t[b], t[a]);
  }

  lemma ScoreSymmetric(A: seq<string>, B: seq<string>)
    ensures Score(A, B) == Score(B, A)
  {
    TransposedRanking(A, B);
    SelectionDependsOnConflictOrder(Ranked(A, B), TransposeAll(Ranked(B, A)));
    ChosenOfTransposed(Ranked(B, A));
    TotalOfTransposed(Chosen(Ranked(B, A)));
  }

  /** The score does not depend on which name comes first. */
  lemma MatchScoreSymmetric(nameA: Option<string>, nameB: Option<string>)
    ensures MatchScore(nameA, nameB) == MatchScore(nameB, nameA)
  {
    ScoreSymmetric(Normalize(OrEmpty(nameA)), Normalize(OrEmpty(nameB)));
  }

  /** Every pair of token lists is scored by some pair of raw names. */
  lemma MatchScoreOfTokens(A: seq<string>, B: seq<string>)
    requires IsTokenList(A) && IsTokenList(B)
    ensures MatchScore(Some(Join(A)), Some(Join(B))) == Score(A, B)
  {
    NormalizeRoundTrip(A);
    NormalizeRoundTrip(B);
  }

  // ----- What the pairing achieves

  /** A one-to-one pairing of token positions, scored by similarity. */
  ghost predicate IsPairing(A: seq<string>, B: seq<string>, M: seq<Pair>) {
    OneToOne(M) && forall p :: p in M ==> CellOf(A, B, p)
  }

  /** The greedy pairing is one-to-one, as large as possible, and at least half of the best. */
  lemma GreedyPairing(A: seq<string>, B: seq<string>)
    ensures IsPairing(A, B, Chosen(Ranked(A, B)))
    ensures |Chosen(Ranked(A, B))| == Min(|A|, |B|)
    ensures forall M :: IsPairing(A, B, M) ==> Total(M) <= 2 * Total(Chosen(Ranked(A, B)))
  {
    RankedIsStableSort(A, B);
    ChosenOneToOne(Ranked(A, B));
    GreedyPairsAsManyAsPossible(Ranked(A, B), |A|, |B|);
    forall M | IsPairing(A, B, M) ensures Total(M) <= 2 * Total(Chosen(Ranked(A, B))) {
      GreedyIsHalfOptimal(Ranked(A, B), M);
    }
  }

  lemma ScoreBounds(A: seq<string>, B: seq<string>)
    requires A != [] && B != []
    ensures Score(A, B) <= RoundDiv(100 * Min(|A|, |B|), Max(|A|, |B|)) <= 100
  {
    var C, longer := Chosen(Ranked(A, B)), Max(|A|, |B|);
    GreedyPairing(A, B);
    forall p | p in C ensures p.score <= 100 {
      SimilarityIsPercentage(A[p.i], B[p.j]);
    }
    TotalAtMost(C, 100);
    RoundDivMonotone(Total(C), 100 * Min(|A|, |B|), longer);
    RoundDivAtMost(100 * Min(|A|, |B|), longer, 100);
  }

  lemma MatchScoreBounds(nameA: Option<string>, nameB: Option<string>)
    ensures MatchScore(nameA, nameB) <= 100
    ensures var A, B := Normalize(OrEmpty(nameA)), Normalize(OrEmpty(nameB));
            A != [] && B != [] ==> MatchScore(nameA, nameB) <= RoundDiv(100 * Min(|A|, |B|), Max(|A|, |B|))
  {
    var A, B := Normalize(OrEmpty(nameA)), Normalize(OrEmpty(nameB));
    if A != [] && B != [] {
      ScoreBounds(A, B);
    }
  }

  // ----- What the score is

  /** q comes before c: it scores higher, or the same at an earlier place in row-major order. */
  ghost predicate Outranks(q: Pair, c: Pair) { q.score > c.score || (q.score == c.score && LexBefore(q, c)) }

  ghost predicate BlockedBy(M: seq<Pair>, c: Pair) { exists q :: q in M && Conflict(q, c) && Outranks(q, c) }

  /** No cell outside the pairing would have been taken before the ones that exclude it. */
  ghost predicate IsGreedy(A: seq<string>, B: seq<string>, M: seq<Pair>) {
    IsPairing(A, B, M) && forall c :: CellOf(A, B, c) && c !in M ==> BlockedBy(M, c)
  }

  lemma RankedOutranks(A: seq<string>, B: seq<string>, m: nat, n: nat)
    requires m < n < |Ranked(A, B)|
    ensures Outranks(Ranked(A, B)[m], Ranked(A, B)[n])
  {
    RankedIsStableSort(A, B);
    GridShape(A, B);
    var s := Ranked(A, B);
    if s[m].score == s[n].score {
      assert Precedes(Grid(A, B), s[m], s[n]);
    }
  }

  lemma ChosenIsGreedy(A: seq<string>, B: seq<string>)
    ensures IsGreedy(A, B, Chosen(Ranked(A, B)))
  {
    var s := Ranked(A, B);
    GreedyPairing(A, B);
    RankedIsStableSort(A, B);
    forall c | CellOf(A, B, c) && c !in Chosen(s) ensures BlockedBy(Chosen(s), c) {
      var k :| 0 <= k < |s| && s[k] == c;
      ChosenIffUnblocked(s, k);
      var m :| 0 <= m < k && s[m] in Chosen(s) && Conflict(s[m], s[k]);
      RankedOutranks(A, B, m, k);
    }
  }

  /** There is only one greedy pairing. */
  lemma {:induction false} GreedyIsUnique(A: seq<string>, B: seq<string>, M: seq<Pair>, k: nat)
    requires IsGreedy(A, B, M) && k < |Ranked(A, B)|
    ensures Ranked(A, B)[k] in M <==> Ranked(A, B)[k] in Chosen(Ranked(A, B))
    decreases k
  {
    var s := Ranked(A, B);
    var c, C := s[k], Chosen(s);
    RankedIsStableSort(A, B);
    ChosenIsGreedy(A, B);
    assert c in s;
    forall m | 0 <= m < k ensures s[m] in M <==> s[m] in C {
      GreedyIsUnique(A, B, M, m);
    }
    if c in M && c !in C {
      OutrankedInBoth(A, B, C, M, k);
    } else if c in C && c !in M {
      OutrankedInBoth(A, B, M, C, k);
    }
  }

  /** What outranks the cell ranked k is ranked before it. */
  lemma RankedBefore(A: seq<string>, B: seq<string>, q: Pair, k: nat) returns (m: nat)
    requires k < |Ranked(A, B)| && CellOf(A, B, q) && Outranks(q, Ranked(A, B)[k])
    ensures m < k && Ranked(A, B)[m] == q
  {
    var s := Ranked(A, B);
    assert q in s by { RankedIsStableSort(A, B); }
    m :| 0 <= m < |s| && s[m] == q;
    if k < m { RankedOutranks(A, B, k, m); }
  }

  /** A cell that is outranked in one pairing is not in another that agrees before it. */
  lemma OutrankedInBoth(A: seq<string>, B: seq<string>, M: seq<Pair>, N: seq<Pair>, k: nat)
    requires k < |Ranked(A, B)| && IsPairing(A, B, M) && BlockedBy(M, Ranked(A, B)[k]) && OneToOne(N)
    requires forall m :: 0 <= m < k ==> (Ranked(A, B)[m] in M <==> Ranked(A, B)[m] in N)
    ensures Ranked(A, B)[k] !in N
  {
    var s := Ranked(A, B);
    var q :| q in M && Conflict(q, s[k]) && Outranks(q, s[k]);
    var m := RankedBefore(A, B, q, k);
    if s[k] in N {
      MembersConflict(N, q, s[k]);
    }
  }

  lemma OneToOneIsDistinct(M: seq<Pair>)
    requires OneToOne(M)
    ensures Distinct(M)
  {
  }

  lemma GreedyTotal(A: seq<string>, B: seq<string>, M: seq<Pair>)
    requires IsGreedy(A, B, M)
    ensures Total(M) == Total(Chosen(Ranked(A, B)))
  {
    var s := Ranked(A, B);
    RankedIsStableSort(A, B);
    ChosenOneToOne(s);
    forall p ensures p in M <==> p in Chosen(s) {
      if p in s {
        var k :| 0 <= k < |s| && s[k] == p;
        GreedyIsUnique(A, B, M, k);
      }
    }
    OneToOneIsDistinct(M);
    OneToOneIsDistinct(Chosen(s));
    TotalOfSameElements(M, Chosen(s));
  }

  /**
    What the score is: 0 when a name has no tokens, and otherwise the rounded average, over the
    longer name, of the similarities in the one greedy pairing of the tokens, which exists.
   */
  lemma MatchScoreIsGreedyAverage(nameA: Option<string>, nameB: Option<string>)
    ensures var A, B := Normalize(OrEmpty(nameA)), Normalize(OrEmpty(nameB));
            if A == [] || B == [] then MatchScore(nameA, nameB) == 0
            else
              && (exists M :: IsGreedy(A, B, M))
              && (forall M :: IsGreedy(A, B, M) ==> IsRounded(MatchScore(nameA, nameB), Total(M), Max(|A|, |B|)))
  {
    var A, B := Normalize(OrEmpty(nameA)), Normalize(OrEmpty(nameB));
    if A != [] && B != [] {
      ChosenIsGreedy(A, B);
      forall M | IsGreedy(A, B, M) ensures IsRounded(MatchScore(nameA, nameB), Total(M), Max(|A|, |B|)) {
        GreedyTotal(A, B, M);
      }
    }
  }

  // ----- Reordered names

  function Positions(s: seq<string>, t: string): set<nat> { set k: nat | k < |s| && s[k] == t }

  lemma {:induction false} CountPositions(s: seq<string>, t: string)
    ensures |Positions(s, t)| == multiset(s)[t]
    decreases |s|
  {
    if s != [] {
      var front, k := s[..|s| - 1], |s| - 1;
      CountPositions(front, t);
      assert s == front + [s[k]];
      assert Positions(s, t) == Positions(front, t) + if s[k] == t then {k} else {};
    }
  }

  lemma {:induction false} OneToOneCounts(C: seq<Pair>, J: set<nat>, I: set<nat>)
    requires OneToOne(C) && forall j :: j in J ==> exists q :: q in C && q.j == j && q.i in I
    ensures |J| <= |I|
    decreases |J|
  {
    if J != {} {
      var j :| j in J;
      var q :| q in C && q.j == j && q.i in I;
      forall j' | j' in J - {j} ensures exists q' :: q' in C && q'.j == j' && q'.i in I - {q.i} {
        var q' :| q' in C && q'.j == j' && q'.i in I;
        var a :| 0 <= a < |C| && C[a] == q;
        var b :| 0 <= b < |C| && C[b] == q';
        assert a != b;
        assert q'.i != q.i;
      }
      OneToOneCounts(C, J - {j}, I - {q.i});
    }
  }

  ghost predicate ShortTokens(s: seq<string>) { forall k :: 0 <= k < |s| ==> |s[k]| < 200 }

  lemma EqualCell(A: seq<string>, B: seq<string>, i: nat, j: nat)
    requires i < |A| && j < |B| && A[i] == B[j]
    ensures CellOf(A, B, Pair(i, j, 100))
  {
  }

  lemma PerfectCell(A: seq<string>, B: seq<string>, q: Pair)
    requires CellOf(A, B, q) && ShortTokens(A) && ShortTokens(B) && q.score >= 100
    ensures q.score == 100 && A[q.i] == B[q.j]
  {
    SimilarityIsPercentage(A[q.i], B[q.j]);
    SimilarityIsEqualityBelow200(A[q.i], B[q.j]);
  }

  /** The column of a chosen pair of equal tokens, seen from a chosen pair scoring below 100. */
  lemma EqualTokenUsedElsewhere(A: seq<string>, B: seq<string>, p: Pair, j: nat) returns (q: Pair)
    requires ShortTokens(A) && ShortTokens(B)
    requires p in Chosen(Ranked(A, B)) && p.score < 100 && p.i < |A| && j < |B| && B[j] == A[p.i]
    ensures q in Chosen(Ranked(A, B)) && q.j == j && q.i in Positions(A, A[p.i]) - {p.i}
  {
    EqualCell(A, B, p.i, j);
    q := RankedBlocker(A, B, Pair(p.i, j, 100));
    PerfectCell(A, B, q);
    if q.i == p.i {
      ChosenOneToOne(Ranked(A, B));
      MembersConflict(Chosen(Ranked(A, B)), p, q);
    }
  }

  lemma RankedBlocker(A: seq<string>, B: seq<string>, p: Pair) returns (q: Pair)
    requires CellOf(A, B, p)
    ensures q in Chosen(Ranked(A, B)) && CellOf(A, B, q) && Conflict(q, p) && q.score >= p.score
  {
    RankedIsStableSort(A, B);
    ChosenOneToOne(Ranked(A, B));
    q := Blocker(Ranked(A, B), p);
  }

  lemma MembersConflict(C: seq<Pair>, p: Pair, q: Pair)
    requires OneToOne(C) && p in C && q in C && Conflict(p, q)
    ensures p == q
  {
  }

  /** Reordering tokens shorter than 200 letters costs nothing: every chosen pair scores 100. */
  lemma ReorderedTokensPairPerfectly(A: seq<string>, B: seq<string>, p: Pair)
    requires multiset(A) == multiset(B) && ShortTokens(A) && ShortTokens(B)
    requires p in Chosen(Ranked(A, B))
    ensures p.score == 100
  {
    var C := Chosen(Ranked(A, B));
    GreedyPairing(A, B);
    SimilarityIsPercentage(A[p.i], B[p.j]);
    if p.score < 100 {
      var t := A[p.i];
      var I, J := Positions(A, t), Positions(B, t);
      CountPositions(A, t);
      CountPositions(B, t);
      forall j | j in J ensures exists q :: q in C && q.j == j && q.i in I - {p.i} {
        var q := EqualTokenUsedElsewhere(A, B, p, j);
      }
      OneToOneCounts(C, J, I - {p.i});
    }
  }

  lemma ReorderedTokensScore100(A: seq<string>, B: seq<string>)
    requires A != [] && multiset(A) == multiset(B) && ShortTokens(A) && ShortTokens(B)
    ensures Score(A, B) == 100
  {
    var C := Chosen(Ranked(A, B));
    assert |A| == |multiset(A)| && |B| == |multiset(B)|;
    GreedyPairing(A, B);
    forall p | p in C ensures p.score == 100 {
      ReorderedTokensPairPerfectly(A, B, p);
    }
    TotalAtMost(C, 100);
    TotalAtLeast(C, 100);
    RoundDivExact(100, |A|);
  }

  /** Both names normalise to the same tokens in some order, each shorter than 200 letters. */
  ghost predicate SameWords(nameA: Option<string>, nameB: Option<string>) {
    var A, B := Normalize(OrEmpty(nameA)), Normalize(OrEmpty(nameB));
    A != [] && multiset(A) == multiset(B) && ShortTokens(A) && ShortTokens(B)
  }

  // ----- Verdicts

  datatype LikelyMatch = LikelyMatch(score: nat, matched: bool)

  method NamesLikelyMatch(nameA: Option<string>, nameB: Option<string>, threshold: int) returns (r: LikelyMatch)
    ensures r == LikelyMatch(MatchScore(nameA, nameB), MatchScore(nameA, nameB) >= threshold)
  {
    var score := MatchNames(nameA, nameB);
    r := LikelyMatch(score, score >= threshold);
  }

  datatype MatchReason = NO_MATCH | EXACT_MATCH | SEQUENCE_MATCH | PARTIAL_MATCH

  datatype BankNameMatch = BankNameMatch(matched: bool, score: nat, reason: MatchReason)

  /**
    The bank verdict. Its score is always that of the plain matcher on the untrimmed
    names, it is the same with the two names exchanged, and the same words in any order
    are an exact match.
   */
  method CalculateBankNameMatchScore(customerName: Option<string>, beneficiaryName: Option<string>, threshold: int)
    returns (r: BankNameMatch)
    ensures r.score == MatchScore(customerName, beneficiaryName) == MatchScore(beneficiaryName, customerName)
    ensures r.matched <==> r.score > 0 && r.score >= threshold
    ensures r.reason.NO_MATCH? <==> r.score == 0
    ensures r.reason.EXACT_MATCH? <==> r.score == 100
    ensures r.reason.SEQUENCE_MATCH? <==> 0 < r.score < 100 && r.matched
    ensures r.reason.PARTIAL_MATCH? <==> 0 < r.score < 100 && !r.matched
    ensures SameWords(customerName, beneficiaryName) ==> r.reason.EXACT_MATCH? && r.matched == (threshold <= 100)
  {
    var nameA, nameB := Trim(OrEmpty(customerName)), Trim(OrEmpty(beneficiaryName));
    NormalizeIgnoresOuterSpace(OrEmpty(customerName));
    NormalizeIgnoresOuterSpace(OrEmpty(beneficiaryName));
    MatchScoreSymmetric(customerName, beneficiaryName);
    MatchScoreBounds(customerName, beneficiaryName);
    ExactMatchOfSameWords(customerName, beneficiaryName);
    if nameA == "" || nameB == "" {
      assert Normalize("") == [];
      return BankNameMatch(false, 0, NO_MATCH);
    }
    var score := MatchNames(Some(nameA), Some(nameB));
    if score <= 0 {
      return BankNameMatch(false, 0, NO_MATCH);
    }
    var isMatched := score >= threshold;
    var reason := if score == 100 then EXACT_MATCH else if isMatched then SEQUENCE_MATCH else PARTIAL_MATCH;
    r := BankNameMatch(isMatched, score, reason);
  }

  lemma ExactMatchOfSameWords(nameA: Option<string>, nameB: Option<string>)
    ensures SameWords(nameA, nameB) ==> MatchScore(nameA, nameB) == 100
  {
    if SameWords(nameA, nameB) {
      ReorderedTokensScore100(Normalize(OrEmpty(nameA)), Normalize(OrEmpty(nameB)));
    }
  }
}
