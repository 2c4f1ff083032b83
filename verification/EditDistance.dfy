/**
  The edit distance behind the name matcher: the rolling two-row loop, the recursive
  definition it refines, and the proof that the definition is the length of the shortest
  chain of single-character edits.
 */
module EditDistance {

  function Min(x: nat, y: nat): nat { if x <= y then x else y }

  function Max(x: nat, y: nat): nat { if x <= y then y else x }

  function Init<T>(s: seq<T>): seq<T>
    requires s != []
  {
    s[..|s| - 1]
  }

  function Last<T>(s: seq<T>): T
    requires s != []
  {
    s[|s| - 1]
  }

  function Cost(c: char, d: char): nat { if c == d then 0 else 1 }

  /** Edit distance by recursion on the last characters. */
  function Distance(a: string, b: string): (d: nat)
    decreases |a| + |b|
  {
    if a == [] then |b|
    else if b == [] then |a|
    else Min(Min(Distance(a, Init(b)) + 1, Distance(Init(a), b) + 1),
             Distance(Init(a), Init(b)) + Cost(Last(a), Last(b)))
  }

  /** One cell of the table, in terms of the three cells before it. */
  lemma Cell(x': string, y': string, left: nat, above: nat, diagonal: nat)
    requires x' != [] && y' != []
    requires left == Distance(x', Init(y')) && above == Distance(Init(x'), y')
    requires diagonal == Distance(Init(x'), Init(y'))
    ensures Distance(x', y') == Min(Min(left + 1, above + 1), diagonal + Cost(Last(x'), Last(y')))
  {
  }

  /** row holds the distances from x to the first |row| prefixes of b. */
  ghost predicate IsRow(row: seq<nat>, x: string, b: string) {
    |row| <= |b| + 1 && forall k :: 0 <= k < |row| ==> row[k] == Distance(x, b[..k])
  }

  lemma FirstRow(row: seq<nat>, b: string)
    requires |row| == |b| + 1 && forall k :: 0 <= k < |row| ==> row[k] == k
    ensures IsRow(row, [], b)
  {
  }

  /** The next cell of the row of x + [c], computed from the row of x. */
  lemma ExtendRow(previous: seq<nat>, current: seq<nat>, x: string, c: char, b: string)
    requires IsRow(previous, x, b) && IsRow(current, x + [c], b)
    requires 1 <= |current| < |previous|
    ensures var j := |current|;
            IsRow(current + [Min(Min(current[j - 1] + 1, previous[j] + 1), previous[j - 1] + Cost(c, b[j - 1]))],
                  x + [c], b)
  {
    var j := |current|;
    assert Init(x + [c]) == x && Init(b[..j]) == b[..j - 1];
    Cell(x + [c], b[..j], current[j - 1], previous[j], previous[j - 1]);
  }

  /** The loop of the matcher, keeping one finished row and one row under construction. */
  method Levenshtein(a: string, b: string) returns (distance: nat)
    ensures distance == Distance(a, b)
  {
    var m, n := |a|, |b|;
    if m == 0 { return n; }
    if n == 0 { return m; }
    var previousRow: seq<nat> := seq(n + 1, k => k);
    FirstRow(previousRow, b);
    assert a[..0] == [] && IsRow(previousRow, a[..0], b);
    for i := 1 to m + 1
      invariant |previousRow| == n + 1 && IsRow(previousRow, a[..i - 1], b)
    {
      var currentRow: seq<nat> := [i];
      assert a[..i] == a[..i - 1] + [a[i - 1]];
      for j := 1 to n + 1
        invariant |currentRow| == j && IsRow(currentRow, a[..i], b)
      {
        var cost := if a[i - 1] == b[j - 1] then 0 else 1;
        ExtendRow(previousRow, currentRow, a[..i - 1], a[i - 1], b);
        currentRow := currentRow + [Min(Min(currentRow[j - 1] + 1, previousRow[j] + 1), previousRow[j - 1] + cost)];
      }
      previousRow := currentRow;
    }
    LastCell(previousRow, a, b);
    return previousRow[n];
  }

  /** The last cell of the last row is the distance. */
  lemma LastCell(row: seq<nat>, a: string, b: string)
    requires |row| == |b| + 1 && IsRow(row, a[..|a|], b)
    ensures row[|b|] == Distance(a, b)
  {
    assert a[..|a|] == a && b[..|b|] == b;
  }

  // ----- Metric laws

  lemma {:induction false} DistanceSymmetric(a: string, b: string)
    ensures Distance(a, b) == Distance(b, a)
    decreases |a| + |b|
  {
    if a != [] && b != [] {
      DistanceSymmetric(a, Init(b));
      DistanceSymmetric(Init(a), b);
      DistanceSymmetric(Init(a), Init(b));
    }
  }

  lemma {:induction false} DistanceBounds(a: string, b: string)
    ensures |a| <= |b| + Distance(a, b) && |b| <= |a| + Distance(a, b)
    ensures Distance(a, b) <= Max(|a|, |b|)
    decreases |a| + |b|
  {
    if a != [] && b != [] {
      DistanceBounds(a, Init(b));
      DistanceBounds(Init(a), b);
      DistanceBounds(Init(a), Init(b));
    }
  }

  lemma {:induction false} DistanceZeroIffEqual(a: string, b: string)
    ensures Distance(a, b) == 0 <==> a == b
    decreases |a|
  {
    if a != [] && b != [] {
      DistanceZeroIffEqual(Init(a), Init(b));
      assert a == Init(a) + [Last(a)] && b == Init(b) + [Last(b)];
    }
  }

  /** Dropping the last character of either side costs at most one edit. */
  lemma DropLast(a: string, b: string)
    ensures a != [] ==> Distance(a, b) <= Distance(Init(a), b) + 1
    ensures b != [] ==> Distance(a, b) <= Distance(a, Init(b)) + 1
  {
  }

  lemma {:induction false} DistanceTriangle(a: string, b: string, c: string)
    ensures Distance(a, c) <= Distance(a, b) + Distance(b, c)
    decreases |a| + |b| + |c|
  {
    DropLast(a, c);
    if a == [] || c == [] {
      DistanceBounds(a, b);
      DistanceBounds(b, c);
    } else if b == [] {
      DistanceBounds(a, c);
    } else if Distance(a, b) == Distance(Init(a), b) + 1 {
      DistanceTriangle(Init(a), b, c);
    } else if Distance(b, c) == Distance(b, Init(c)) + 1 {
      DistanceTriangle(a, b, Init(c));
    } else if Distance(a, b) == Distance(a, Init(b)) + 1 {
      DistanceTriangle(a, Init(b), c);
      DistanceTriangle(a, Init(b), Init(c));
    } else {
      DistanceTriangle(Init(a), Init(b), c);
      DistanceTriangle(Init(a), Init(b), Init(c));
    }
  }

  // ----- The definition is the least number of single-character edits

  /** s and t differ in one place, where each has at most one character. */
  ghost predicate DifferBetween(p: string, x: string, y: string, q: string, s: string, t: string) {
    |x| <= 1 && |y| <= 1 && s == p + x + q && t == p + y + q
  }

  /** t is s with one character deleted, inserted or replaced. */
  ghost predicate OneEdit(s: string, t: string) {
    exists p, x, y, q :: DifferBetween(p, x, y, q, s, t)
  }

  ghost predicate EditChain(chain: seq<string>, a: string, b: string) {
    && chain != []
    && chain[0] == a
    && Last(chain) == b
    && forall i :: 0 <= i < |chain| - 1 ==> OneEdit(chain[i], chain[i + 1])
  }

  lemma {:induction false} CommonSuffix(x: string, y: string, s: string)
    ensures Distance(x + s, y + s) <= Distance(x, y)
    decreases |s|
  {
    if s == [] {
      assert x + s == x && y + s == y;
    } else {
      assert Init(x + s) == x + Init(s) && Init(y + s) == y + Init(s);
      CommonSuffix(x, y, Init(s));
    }
  }

  lemma AddOne(p: string, p': string)
    requires p' != [] && Init(p') == p
    ensures Distance(p, p') <= 1 && Distance(p', p) <= 1
  {
    DistanceZeroIffEqual(p, p);
    DropLast(p, p');
    DropLast(p', p);
  }

  lemma ReplaceOne(s: string, t: string, p: string)
    requires s != [] && t != [] && p == Init(s) == Init(t)
    ensures Distance(s, t) <= 1
  {
    DistanceZeroIffEqual(p, p);
    Cell(s, t, Distance(s, p), Distance(p, t), 0);
  }

  lemma AtMostOneCharacter(p: string, x: string, y: string)
    requires |x| <= 1 && |y| <= 1
    ensures Distance(p + x, p + y) <= 1
  {
    var px, py := p + x, p + y;
    assert if x == [] then px == p else Init(px) == p;
    assert if y == [] then py == p else Init(py) == p;
    if x == [] && y == [] {
      DistanceZeroIffEqual(p, p);
    } else if x == [] {
      AddOne(p, py);
    } else if y == [] {
      AddOne(p, px);
    } else {
      ReplaceOne(px, py, p);
    }
  }

  /** Replacing x by y, each at most one character, between a prefix and a suffix. */
  lemma EditInside(p: string, x: string, y: string, q: string)
    requires |x| <= 1 && |y| <= 1
    ensures Distance(p + x + q, p + y + q) <= 1
  {
    AtMostOneCharacter(p, x, y);
    CommonSuffix(p + x, p + y, q);
  }

  lemma OneEditIsDistanceOne(s: string, t: string)
    requires OneEdit(s, t)
    ensures Distance(s, t) <= 1
  {
    var p, x, y, q :| DifferBetween(p, x, y, q, s, t);
    EditInside(p, x, y, q);
  }

  lemma {:induction false} ChainIsNoShorter(chain: seq<string>, a: string, b: string)
    requires EditChain(chain, a, b)
    ensures Distance(a, b) <= |chain| - 1
    decreases |chain|
  {
    if |chain| == 1 {
      DistanceZeroIffEqual(a, b);
    } else {
      var c := chain[|chain| - 2];
      assert EditChain(Init(chain), a, c);
      ChainIsNoShorter(Init(chain), a, c);
      assert OneEdit(c, b);
      OneEditIsDistanceOne(c, b);
      DistanceTriangle(a, c, b);
    }
  }

  function AppendToAll(chain: seq<string>, c: char): (r: seq<string>)
    ensures |r| == |chain| && forall i :: 0 <= i < |r| ==> r[i] == chain[i] + [c]
  {
    seq(|chain|, i requires 0 <= i < |chain| => chain[i] + [c])
  }

  lemma OneEditBeforeSuffix(s: string, t: string, c: char)
    requires OneEdit(s, t)
    ensures OneEdit(s + [c], t + [c])
  {
    var p, x, y, q :| DifferBetween(p, x, y, q, s, t);
    assert DifferBetween(p, x, y, q + [c], s + [c], t + [c]);
  }

  lemma ExtendChain(chain: seq<string>, a: string, b: string, c: char)
    requires EditChain(chain, a, b)
    ensures EditChain(AppendToAll(chain, c), a + [c], b + [c])
  {
    var r := AppendToAll(chain, c);
    forall i | 0 <= i < |r| - 1 ensures OneEdit(r[i], r[i + 1]) {
      OneEditBeforeSuffix(chain[i], chain[i + 1], c);
    }
  }

  lemma LastIsOneEdit(a: string)
    requires a != []
    ensures OneEdit(a, Init(a)) && OneEdit(Init(a), a)
  {
    assert DifferBetween(Init(a), [Last(a)], [], [], a, Init(a));
    assert DifferBetween(Init(a), [], [Last(a)], [], Init(a), a);
  }

  lemma PushFront(a': string, rest: seq<string>, a: string, b: string)
    requires EditChain(rest, a, b) && OneEdit(a', a)
    ensures EditChain([a'] + rest, a', b)
  {
  }

  lemma PushBack(rest: seq<string>, a: string, b: string, b': string)
    requires EditChain(rest, a, b) && OneEdit(b, b')
    ensures EditChain(rest + [b'], a, b')
  {
  }

  lemma ReplaceLast(p: string, c: char, d: char)
    ensures OneEdit(p + [c], p + [d])
  {
    assert DifferBetween(p, [c], [d], [], p + [c], p + [d]);
  }

  /** The last character was kept or replaced. */
  lemma ChainByLast(a: string, b: string, rest: seq<string>) returns (chain: seq<string>)
    requires a != [] && b != [] && EditChain(rest, Init(a), Init(b))
    ensures EditChain(chain, a, b) && |chain| == |rest| + Cost(Last(a), Last(b))
  {
    var c, d := Last(a), Last(b);
    ExtendChain(rest, Init(a), Init(b), c);
    chain := AppendToAll(rest, c);
    assert a == Init(a) + [c] && b == Init(b) + [d];
    if c != d {
      ReplaceLast(Init(b), c, d);
      PushBack(chain, a, Init(b) + [c], b);
      chain := chain + [b];
    }
  }

  lemma {:induction false} ChainExists(a: string, b: string) returns (chain: seq<string>)
    ensures EditChain(chain, a, b) && |chain| - 1 == Distance(a, b)
    decreases |a| + |b|
  {
    if a == [] && b == [] {
      chain := [a];
    } else if a != [] && Distance(a, b) == Distance(Init(a), b) + 1 {
      var rest := ChainExists(Init(a), b);
      LastIsOneEdit(a);
      PushFront(a, rest, Init(a), b);
      chain := [a] + rest;
    } else if b != [] && Distance(a, b) == Distance(a, Init(b)) + 1 {
      var rest := ChainExists(a, Init(b));
      LastIsOneEdit(b);
      PushBack(rest, a, Init(b), b);
      chain := rest + [b];
    } else {
      var rest := ChainExists(Init(a), Init(b));
      chain := ChainByLast(a, b, rest);
    }
  }

  /** The distance is exactly the length of the shortest chain of single edits. */
  lemma DistanceIsShortestChain(a: string, b: string)
    ensures exists chain :: EditChain(chain, a, b) && |chain| - 1 == Distance(a, b)
    ensures forall chain :: EditChain(chain, a, b) ==> Distance(a, b) <= |chain| - 1
  {
    var shortest := ChainExists(a, b);
    forall chain | EditChain(chain, a, b) ensures Distance(a, b) <= |chain| - 1 {
      ChainIsNoShorter(chain, a, b);
    }
  }
}
