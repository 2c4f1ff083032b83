/**
  The greedy one-to-one pairing of the name matcher, on scored pairs of row and column
  numbers: the stable sort by score, the selection, and what the selection guarantees.
 */
module TokenPairing {

  datatype Pair = Pair(i: nat, j: nat, score: nat)

  predicate Conflict(p: Pair, q: Pair) { p.i == q.i || p.j == q.j }

  function Total(pairs: seq<Pair>): nat {
    if pairs == [] then 0 else Total(pairs[..|pairs| - 1]) + pairs[|pairs| - 1].score
  }

  ghost predicate Distinct(s: seq<Pair>) { forall m, n :: 0 <= m < n < |s| ==> s[m] != s[n] }

  ghost predicate SameElements(s: seq<Pair>, t: seq<Pair>) { forall x :: x in s <==> x in t }

  // ----- Stable sort, highest score first

  /** Puts p behind every pair that scores at least as much. */
  function InsertByScore(sorted: seq<Pair>, p: Pair): (r: seq<Pair>)
    ensures |r| == |sorted| + 1
  {
    if sorted == [] || sorted[|sorted| - 1].score >= p.score then sorted + [p]
    else InsertByScore(sorted[..|sorted| - 1], p) + [sorted[|sorted| - 1]]
  }

  function SortByScore(pairs: seq<Pair>): (r: seq<Pair>)
    ensures |r| == |pairs|
  {
    if pairs == [] then []
    else InsertByScore(SortByScore(pairs[..|pairs| - 1]), pairs[|pairs| - 1])
  }

  /** Index order inside a sequence. */
  ghost predicate Precedes(s: seq<Pair>, x: Pair, y: Pair) {
    exists m, n :: 0 <= m < n < |s| && s[m] == x && s[n] == y
  }

  ghost predicate SortedByScore(s: seq<Pair>) {
    forall m, n :: 0 <= m < n < |s| ==> s[m].score >= s[n].score
  }

  /** What a stable sort by descending score promises about an input without repetitions. */
  ghost predicate IsStableSort(input: seq<Pair>, output: seq<Pair>) {
    && |output| == |input| && Distinct(output) && SameElements(input, output)
    && SortedByScore(output)
    && forall m, n :: 0 <= m < n < |output| && output[m].score == output[n].score
                      ==> Precedes(input, output[m], output[n])
  }

  lemma {:induction false} InsertPosition(sorted: seq<Pair>, p: Pair) returns (k: nat)
    requires SortedByScore(sorted)
    ensures k <= |sorted| && InsertByScore(sorted, p) == sorted[..k] + [p] + sorted[k..]
    ensures forall m :: 0 <= m < k ==> sorted[m].score >= p.score
    ensures forall m :: k <= m < |sorted| ==> sorted[m].score < p.score
    decreases |sorted|
  {
    if sorted == [] || sorted[|sorted| - 1].score >= p.score {
      k := |sorted|;
    } else {
      k := InsertPosition(sorted[..|sorted| - 1], p);
    }
  }

  lemma {:induction false} SortIsStable(pairs: seq<Pair>)
    requires Distinct(pairs)
    ensures IsStableSort(pairs, SortByScore(pairs))
    decreases |pairs|
  {
    if pairs != [] {
      var front, p := pairs[..|pairs| - 1], pairs[|pairs| - 1];
      var sorted := SortByScore(front);
      SortIsStable(front);
      var k := InsertPosition(sorted, p);
      assert p !in front;
      InsertIsStable(front, sorted, p, k);
      assert pairs == front + [p];
    }
  }

  lemma InsertIsStable(front: seq<Pair>, sorted: seq<Pair>, p: Pair, k: nat)
    requires IsStableSort(front, sorted) && p !in front && k <= |sorted|
    requires forall m :: 0 <= m < k ==> sorted[m].score >= p.score
    requires forall m :: k <= m < |sorted| ==> sorted[m].score < p.score
    ensures IsStableSort(front + [p], sorted[..k] + [p] + sorted[k..])
  {
    var input, output := front + [p], sorted[..k] + [p] + sorted[k..];
    assert p !in sorted;
    InsertAt(sorted, p, k);
    forall x ensures x in input <==> x in output {}
    forall m, n | 0 <= m < n < |output| && output[m].score == output[n].score
      ensures Precedes(input, output[m], output[n])
    {
      StableAt(front, sorted, p, k, m, n);
    }
  }

  lemma InsertAt(sorted: seq<Pair>, p: Pair, k: nat)
    requires k <= |sorted|
    ensures var r := sorted[..k] + [p] + sorted[k..];
            && |r| == |sorted| + 1
            && (forall m :: 0 <= m < |r| ==> r[m] == if m < k then sorted[m] else if m == k then p else sorted[m - 1])
            && forall x :: x in r <==> x in sorted || x == p
  {
  }

  lemma InsertedAt(sorted: seq<Pair>, p: Pair, k: nat, m: nat)
    requires k <= |sorted| && m <= |sorted|
    ensures (sorted[..k] + [p] + sorted[k..])[m] == if m < k then sorted[m] else if m == k then p else sorted[m - 1]
  {
  }

  lemma StableAt(front: seq<Pair>, sorted: seq<Pair>, p: Pair, k: nat, m: nat, n: nat)
    requires IsStableSort(front, sorted) && k <= |sorted|
    requires forall l :: k <= l < |sorted| ==> sorted[l].score < p.score
    requires m < n <= |sorted|
    requires var output := sorted[..k] + [p] + sorted[k..]; output[m].score == output[n].score
    ensures var output := sorted[..k] + [p] + sorted[k..]; Precedes(front + [p], output[m], output[n])
  {
    var input, output := front + [p], sorted[..k] + [p] + sorted[k..];
    InsertedAt(sorted, p, k, m);
    InsertedAt(sorted, p, k, n);
    if n == k {
      assert output[m] in front;
      var a :| 0 <= a < |front| && front[a] == output[m];
      assert input[a] == output[m] && input[|front|] == output[n];
    } else {
      var m', n' := if m < k then m else m - 1, if n < k then n else n - 1;
      assert Precedes(front, sorted[m'], sorted[n']);
      var a, b :| 0 <= a < b < |front| && front[a] == sorted[m'] && front[b] == sorted[n'];
      assert input[a] == output[m] && input[b] == output[n];
    }
  }

  /** All stable sorts agree, so nothing below depends on the sorting algorithm. */
  lemma {:induction false} StableSortIsUnique(input: seq<Pair>, s: seq<Pair>, t: seq<Pair>)
    requires Distinct(input) && IsStableSort(input, s) && IsStableSort(input, t)
    ensures s == t
  {
    forall k | 0 <= k < |s| ensures s[k] == t[k] {
      SamePosition(input, s, t, k);
    }
  }

  lemma {:induction false} SamePosition(input: seq<Pair>, s: seq<Pair>, t: seq<Pair>, k: nat)
    requires Distinct(input) && IsStableSort(input, s) && IsStableSort(input, t) && k < |s|
    ensures s[k] == t[k]
    decreases k
  {
    forall m | 0 <= m < k ensures s[m] == t[m] {
      SamePosition(input, s, t, m);
    }
    assert s[k] in t && t[k] in s;
    var a :| 0 <= a < |t| && t[a] == s[k];
    var b :| 0 <= b < |s| && s[b] == t[k];
    if a != k {
      assert false;
    }
  }

  // ----- Greedy selection

  predicate Free(chosen: seq<Pair>, p: Pair) { forall q :: q in chosen ==> !Conflict(q, p) }

  /** The pairs kept, in order: each one whose row and column are both still unused. */
  function Chosen(pairs: seq<Pair>): seq<Pair> {
    if pairs == [] then []
    else
      var before := Chosen(pairs[..|pairs| - 1]);
      var p := pairs[|pairs| - 1];
      if Free(before, p) then before + [p] else before
  }

  /** The selection loop, with one set of used rows and one of used columns. */
  method SelectGreedily(pairs: seq<Pair>) returns (totalScore: nat)
    ensures totalScore == Total(Chosen(pairs))
  {
    var usedA: set<nat>, usedB: set<nat> := {}, {};
    totalScore := 0;
    for k := 0 to |pairs|
      invariant usedA == set q | q in Chosen(pairs[..k]) :: q.i
      invariant usedB == set q | q in Chosen(pairs[..k]) :: q.j
      invariant totalScore == Total(Chosen(pairs[..k]))
    {
      var pair := pairs[k];
      assert pairs[..k + 1][..k] == pairs[..k];
      if pair.i in usedA || pair.j in usedB {
        continue;
      }
      usedA := usedA + {pair.i};
      usedB := usedB + {pair.j};
      totalScore := totalScore + pair.score;
    }
    assert pairs[..|pairs|] == pairs;
  }

  ghost predicate OneToOne(pairs: seq<Pair>) {
    forall m, n :: 0 <= m < n < |pairs| ==> !Conflict(pairs[m], pairs[n])
  }

  lemma {:induction false} ChosenOneToOne(pairs: seq<Pair>)
    ensures OneToOne(Chosen(pairs))
    ensures forall p :: p in Chosen(pairs) ==> p in pairs
    decreases |pairs|
  {
    if pairs != [] {
      ChosenOneToOne(pairs[..|pairs| - 1]);
    }
  }

  lemma {:induction false} ChosenGrows(pairs: seq<Pair>, k: nat)
    requires k <= |pairs|
    ensures Chosen(pairs[..k]) <= Chosen(pairs)
    decreases |pairs| - k
  {
    if k == |pairs| {
      assert pairs[..k] == pairs;
    } else {
      assert pairs[..k + 1][..k] == pairs[..k];
      ChosenGrows(pairs, k + 1);
    }
  }

  lemma {:induction false} ChosenAppearsAtItsIndex(pairs: seq<Pair>, k: nat)
    requires Distinct(pairs) && k < |pairs|
    ensures pairs[k] in Chosen(pairs) <==> Free(Chosen(pairs[..k]), pairs[k])
    decreases |pairs|
  {
    var front := pairs[..|pairs| - 1];
    if k == |pairs| - 1 {
      ChosenOneToOne(front);
      assert pairs[k] !in front;
    } else {
      ChosenAppearsAtItsIndex(front, k);
      assert front[..k] == pairs[..k];
    }
  }

  lemma {:induction false} ChosenPrefixMembers(pairs: seq<Pair>, k: nat, m: nat)
    requires Distinct(pairs) && m < k <= |pairs|
    ensures pairs[m] in Chosen(pairs[..k]) <==> pairs[m] in Chosen(pairs)
  {
    ChosenAppearsAtItsIndex(pairs, m);
    ChosenAppearsAtItsIndex(pairs[..k], m);
    assert pairs[..k][..m] == pairs[..m];
  }

  /** A pair is chosen exactly when no conflicting pair before it is chosen. */
  lemma ChosenIffUnblocked(pairs: seq<Pair>, k: nat)
    requires Distinct(pairs) && k < |pairs|
    ensures pairs[k] in Chosen(pairs)
       <==> forall m :: 0 <= m < k && Conflict(pairs[m], pairs[k]) ==> pairs[m] !in Chosen(pairs)
  {
    ChosenAppearsAtItsIndex(pairs, k);
    ChosenOneToOne(pairs[..k]);
    forall m | 0 <= m < k ensures pairs[m] in Chosen(pairs[..k]) <==> pairs[m] in Chosen(pairs) {
      ChosenPrefixMembers(pairs, k, m);
    }
    if !Free(Chosen(pairs[..k]), pairs[k]) {
      var q :| q in Chosen(pairs[..k]) && Conflict(q, pairs[k]);
      assert q in pairs[..k];
      var m :| 0 <= m < k && pairs[m] == q;
    }
  }

  /** The two sequences list the same pairs and order conflicting pairs alike. */
  ghost predicate SameConflictOrder(s: seq<Pair>, t: seq<Pair>) {
    && Distinct(s) && Distinct(t) && SameElements(s, t)
    && forall m, n :: 0 <= m < n < |s| && Conflict(s[m], s[n]) ==> Precedes(t, s[m], s[n])
  }

  lemma {:induction false} SelectionAgreesAt(s: seq<Pair>, t: seq<Pair>, k: nat)
    requires SameConflictOrder(s, t) && k < |s|
    ensures s[k] in Chosen(s) <==> s[k] in Chosen(t)
    decreases k
  {
    assert s[k] in t;
    var k' :| 0 <= k' < |t| && t[k'] == s[k];
    ChosenIffUnblocked(s, k);
    ChosenIffUnblocked(t, k');
    forall m | 0 <= m < k && Conflict(s[m], s[k])
      ensures s[m] in Chosen(s) <==> s[m] in Chosen(t)
      ensures exists m' :: 0 <= m' < k' && t[m'] == s[m]
    {
      SelectionAgreesAt(s, t, m);
      assert Precedes(t, s[m], s[k]);
    }
    forall m' | 0 <= m' < k' && Conflict(t[m'], t[k'])
      ensures exists m :: 0 <= m < k && s[m] == t[m']
    {
      assert t[m'] in s;
      var m :| 0 <= m < |s| && s[m] == t[m'];
      if m > k {
        assert false;
      }
    }
  }

  /** The selection depends only on the relative order of conflicting pairs. */
  lemma SelectionDependsOnConflictOrder(s: seq<Pair>, t: seq<Pair>)
    requires SameConflictOrder(s, t)
    ensures SameElements(Chosen(s), Chosen(t))
    ensures Total(Chosen(s)) == Total(Chosen(t))
  {
    ChosenOneToOne(s);
    ChosenOneToOne(t);
    forall p ensures p in Chosen(s) <==> p in Chosen(t) {
      if p in s {
        var k :| 0 <= k < |s| && s[k] == p;
        SelectionAgreesAt(s, t, k);
      }
    }
    TotalOfSameElements(Chosen(s), Chosen(t));
  }

  // ----- Totals

  lemma {:induction false} TotalConcat(s: seq<Pair>, t: seq<Pair>)
    ensures Total(s + t) == Total(s) + Total(t)
    decreases |t|
  {
    if t == [] {
      assert s + t == s;
    } else {
      assert (s + t)[..|s + t| - 1] == s + t[..|t| - 1];
      TotalConcat(s, t[..|t| - 1]);
    }
  }

  /** The total is the sum of the scores. */
  lemma TotalIsSum(s: seq<Pair>, p: Pair)
    ensures Total([]) == 0 && Total(s + [p]) == Total(s) + p.score
  {
    TotalConcat(s, [p]);
    assert [p][..0] == [];
  }

  lemma TotalWithout(s: seq<Pair>, k: nat)
    requires k < |s|
    ensures Total(s) == Total(s[..k] + s[k + 1..]) + s[k].score
  {
    SplitAround(s, k);
    TotalOfThree(s[..k], s[k], s[k + 1..]);
  }

  lemma SplitAround(s: seq<Pair>, k: nat)
    requires k < |s|
    ensures s == (s[..k] + [s[k]]) + s[k + 1..]
  {
  }

  lemma TotalOfThree(a: seq<Pair>, p: Pair, b: seq<Pair>)
    ensures Total((a + [p]) + b) == Total(a + b) + p.score
  {
    TotalConcat(a + [p], b);
    TotalIsSum(a, p);
    TotalConcat(a, b);
  }

  lemma FirstIsMember(s: seq<Pair>)
    ensures s == [] || s[0] in s
  {
  }

  lemma {:induction false} TotalOfSameElements(s: seq<Pair>, t: seq<Pair>)
    requires Distinct(s) && Distinct(t) && SameElements(s, t)
    ensures Total(s) == Total(t)
    decreases |s|
  {
    if s == [] {
      FirstIsMember(t);
    } else {
      var p, s' := s[|s| - 1], s[..|s| - 1];
      assert p in s;
      var k :| 0 <= k < |t| && t[k] == p;
      var t' := t[..k] + t[k + 1..];
      TotalWithout(t, k);
      assert forall x :: x in t' <==> x in t && x != p;
      assert forall x :: x in s' <==> x in s && x != p;
      TotalOfSameElements(s', t');
    }
  }

  /**
    Every pair of M shares its row with a pair of C that scores at least as much, and no
    two pairs of M share a row: then M totals at most what C totals.
   */
  lemma {:induction false} RowCharge(M: seq<Pair>, C: seq<Pair>)
    requires forall m, n :: 0 <= m < n < |M| ==> M[m].i != M[n].i
    requires forall p :: p in M ==> exists q :: q in C && q.i == p.i && q.score >= p.score
    ensures Total(M) <= Total(C)
    decreases |M|
  {
    if M != [] {
      var p, M' := M[|M| - 1], M[..|M| - 1];
      assert p in M;
      var q :| q in C && q.i == p.i && q.score >= p.score;
      var k :| 0 <= k < |C| && C[k] == q;
      var C' := C[..k] + C[k + 1..];
      TotalWithout(C, k);
      forall p' | p' in M' ensures exists q' :: q' in C' && q'.i == p'.i && q'.score >= p'.score {
        assert p' in M && p'.i != p.i;
        var q' :| q' in C && q'.i == p'.i && q'.score >= p'.score;
        assert q' in C';
      }
      RowCharge(M', C');
    }
  }

  function Transpose(p: Pair): Pair { Pair(p.j, p.i, p.score) }

  function TransposeAll(pairs: seq<Pair>): (r: seq<Pair>)
    ensures |r| == |pairs| && forall k :: 0 <= k < |r| ==> r[k] == Transpose(pairs[k])
    ensures forall p :: p in r <==> Transpose(p) in pairs
  {
    var r := seq(|pairs|, k requires 0 <= k < |pairs| => Transpose(pairs[k]));
    assert forall p :: p in r <==> Transpose(p) in pairs by {
      forall p | Transpose(p) in pairs ensures p in r {
        var k :| 0 <= k < |pairs| && pairs[k] == Transpose(p);
        assert r[k] == p;
      }
    }
    r
  }

  lemma {:induction false} TotalOfTransposed(pairs: seq<Pair>)
    ensures Total(TransposeAll(pairs)) == Total(pairs)
    decreases |pairs|
  {
    if pairs != [] {
      assert TransposeAll(pairs)[..|pairs| - 1] == TransposeAll(pairs[..|pairs| - 1]);
      TotalOfTransposed(pairs[..|pairs| - 1]);
    }
  }

  lemma {:induction false} ChosenOfTransposed(pairs: seq<Pair>)
    ensures Chosen(TransposeAll(pairs)) == TransposeAll(Chosen(pairs))
    decreases |pairs|
  {
    if pairs != [] {
      var front, p := pairs[..|pairs| - 1], pairs[|pairs| - 1];
      assert TransposeAll(pairs)[..|pairs| - 1] == TransposeAll(front);
      ChosenOfTransposed(front);
      var before := Chosen(front);
      assert Free(TransposeAll(before), Transpose(p)) <==> Free(before, p) by {
        if Free(TransposeAll(before), Transpose(p)) {
          forall q | q in before ensures !Conflict(q, p) {
            assert Transpose(Transpose(q)) == q;
            assert Transpose(q) in TransposeAll(before);
          }
        }
      }
    }
  }

  // ----- Greedy is at least half of the best

  /** In a sorted sequence every pair is chosen or conflicts with a chosen pair scoring no less. */
  lemma Blocker(pairs: seq<Pair>, p: Pair) returns (q: Pair)
    requires Distinct(pairs) && SortedByScore(pairs) && p in pairs
    ensures q in Chosen(pairs) && Conflict(q, p) && q.score >= p.score
  {
    var k :| 0 <= k < |pairs| && pairs[k] == p;
    ChosenIffUnblocked(pairs, k);
    if p in Chosen(pairs) {
      q := p;
    } else {
      var m :| 0 <= m < k && Conflict(pairs[m], pairs[k]) && pairs[m] in Chosen(pairs);
      q := pairs[m];
    }
  }

  ghost predicate RowCharged(C: seq<Pair>, p: Pair) {
    exists q :: q in C && q.i == p.i && q.score >= p.score
  }

  /** Splits M into the pairs charged by row to C and the others. */
  lemma {:induction false} SplitByCharge(M: seq<Pair>, C: seq<Pair>) returns (R: seq<Pair>, S: seq<Pair>)
    requires OneToOne(M)
    ensures OneToOne(R) && OneToOne(S) && Total(M) == Total(R) + Total(S)
    ensures forall p :: p in R ==> p in M && RowCharged(C, p)
    ensures forall p :: p in S ==> p in M && !RowCharged(C, p)
    decreases |M|
  {
    if M == [] {
      R, S := [], [];
    } else {
      var p, M' := M[|M| - 1], M[..|M| - 1];
      R, S := SplitByCharge(M', C);
      assert forall q :: q in M' ==> !Conflict(q, p);
      if RowCharged(C, p) { R := R + [p]; } else { S := S + [p]; }
    }
  }

  /** Twice the greedy total is at least the total of any one-to-one set of the same pairs. */
  lemma GreedyIsHalfOptimal(pairs: seq<Pair>, M: seq<Pair>)
    requires Distinct(pairs) && SortedByScore(pairs)
    requires OneToOne(M) && forall p :: p in M ==> p in pairs
    ensures Total(M) <= 2 * Total(Chosen(pairs))
  {
    var C := Chosen(pairs);
    var R, S := SplitByCharge(M, C);
    RowCharge(R, C);
    var C', S' := TransposeAll(C), TransposeAll(S);
    forall p | p in S' ensures exists q :: q in C' && q.i == p.i && q.score >= p.score {
      assert Transpose(p) in S;
      var q := Blocker(pairs, Transpose(p));
      assert Transpose(Transpose(q)) == q;
      assert Transpose(q) in C' && Transpose(q).i == p.i;
    }
    RowCharge(S', C');
    TotalOfTransposed(C);
    TotalOfTransposed(S);
  }

  // ----- The full grid of rows and columns is paired as far as it can be

  ghost predicate HasCell(pairs: seq<Pair>, i: nat, j: nat) {
    exists p :: p in pairs && p.i == i && p.j == j
  }

  /** All pairs with row below m and column below n, once each. */
  ghost predicate IsGrid(pairs: seq<Pair>, m: nat, n: nat) {
    && (forall k, l :: 0 <= k < l < |pairs| ==> pairs[k].i != pairs[l].i || pairs[k].j != pairs[l].j)
    && (forall p :: p in pairs ==> p.i < m && p.j < n)
    && (forall i, j :: 0 <= i < m && 0 <= j < n ==> HasCell(pairs, i, j))
  }

  function Below(n: nat): (s: set<nat>)
    ensures |s| == n && forall k :: k in s <==> 0 <= k < n
  {
    if n == 0 then {} else Below(n - 1) + {n - 1}
  }

  lemma {:induction false} DistinctRows(C: seq<Pair>) returns (rows: set<nat>)
    requires OneToOne(C)
    ensures rows == (set q | q in C :: q.i) && |rows| == |C|
    decreases |C|
  {
    if C == [] {
      rows := {};
    } else {
      var rest := DistinctRows(C[..|C| - 1]);
      var p := C[|C| - 1];
      rows := rest + {p.i};
      assert p.i !in rest;
      assert forall q :: q in C <==> q in C[..|C| - 1] || q == p;
    }
  }

  lemma UnusedRow(C: seq<Pair>, m: nat) returns (i: nat)
    requires OneToOne(C) && |C| < m
    ensures i < m && forall q :: q in C ==> q.i != i
  {
    var rows := DistinctRows(C);
    var all := Below(m);
    if all <= rows {
      SubsetSize(all, rows);
      assert false;
    }
    i :| i in all && i !in rows;
  }

  lemma {:induction false} SubsetSize<T>(s: set<T>, t: set<T>)
    requires s <= t
    ensures |s| <= |t|
    decreases |s|
  {
    if s != {} {
      var x :| x in s;
      SubsetSize(s - {x}, t - {x});
    }
  }

  lemma OneToOneFitsRows(C: seq<Pair>, m: nat)
    requires OneToOne(C) && forall q :: q in C ==> q.i < m
    ensures |C| <= m
  {
    var rows := DistinctRows(C);
    SubsetSize(rows, Below(m));
  }

  lemma TransposedOneToOne(C: seq<Pair>)
    requires OneToOne(C)
    ensures OneToOne(TransposeAll(C))
  {
  }

  lemma GreedyPairsAsManyAsPossible(pairs: seq<Pair>, m: nat, n: nat)
    requires IsGrid(pairs, m, n)
    ensures |Chosen(pairs)| == if m <= n then m else n
  {
    var C := Chosen(pairs);
    ChosenOneToOne(pairs);
    TransposedOneToOne(C);
    OneToOneFitsRows(C, m);
    OneToOneFitsRows(TransposeAll(C), n);
    if |C| < m && |C| < n {
      var i := UnusedRow(C, m);
      var j := UnusedRow(TransposeAll(C), n);
      assert HasCell(pairs, i, j);
      var p :| p in pairs && p.i == i && p.j == j;
      var k :| 0 <= k < |pairs| && pairs[k] == p;
      ChosenIffUnblocked(pairs, k);
      assert Transpose(Transpose(p)) == p;
      assert Free(C, p) by {
        forall q | q in C ensures !Conflict(q, p) {
          assert Transpose(Transpose(q)) == q;
          assert Transpose(q) in TransposeAll(C);
        }
      }
      assert false;
    }
  }

  lemma {:induction false} TotalAtMost(C: seq<Pair>, bound: nat)
    requires forall p :: p in C ==> p.score <= bound
    ensures Total(C) <= bound * |C|
    decreases |C|
  {
    if C != [] {
      TotalAtMost(C[..|C| - 1], bound);
    }
  }

  lemma {:induction false} TotalAtLeast(C: seq<Pair>, bound: nat)
    requires forall p :: p in C ==> p.score >= bound
    ensures Total(C) >= bound * |C|
    decreases |C|
  {
    if C != [] {
      TotalAtLeast(C[..|C| - 1], bound);
    }
  }
}
