/** The student dashboard of src/views/StudentDashboard.tsx: the
    recommendation engine (`fetchRecommendation`) and the goal list
    (`addGoal`, `toggleGoal`, `deleteGoal`). The `game_results` query and
    the `student_goals` writes are backend calls; their outcomes are
    parameters here. */
module StudentDashboard {
  import opened Wrappers
  import opened Catalog
  import opened Js

  /** A `game_results` row as the engine selects it: `game_id, score`. */
  datatype ResultRow = ResultRow(gameId: string, score: int)

  /** The label shown when there is nothing to analyse yet. */
  const StartLabel: string := "Start your journey"

  /** The lowest average a weak skill must beat: `minScore` starts at 101. */
  const MinScoreStart: int := 101

  /** The threshold weight of a recommended game, 0.4 in tenths. */
  const Threshold: nat := 4

  // ---------------------------------------------------------------------
  // Catalog lookups

  /** `GAMES.find(g => g.id === id)`. */
  function FindGame(games: seq<Game>, id: string): (r: Option<Game>)
    ensures r.Some? ==>
      exists i :: 0 <= i < |games| && games[i] == r.value && r.value.id == id &&
                  forall j :: 0 <= j < i ==> games[j].id != id
    ensures r.None? <==> forall i :: 0 <= i < |games| ==> games[i].id != id
  {
    if games == [] then None
    else if games[0].id == id then Some(games[0])
    else
      var r := FindGame(games[1..], id);
      assert forall j :: 1 <= j < |games| ==> games[j] == games[1..][j - 1];
      r
  }

  /** The metric entries a row contributes: those of its game, or none
      when its `game_id` is not in the catalog. */
  function RowMetrics(games: seq<Game>, r: ResultRow): seq<Metric>
  {
    match FindGame(games, r.gameId)
    case None => []
    case Some(g) => g.metrics
  }

  /** `GAMES.find(g => g.metrics[c] && g.metrics[c] >= 0.4)`. */
  function FirstQualifying(games: seq<Game>, c: Category): (r: Option<Game>)
    ensures r.Some? ==>
      exists i :: 0 <= i < |games| && games[i] == r.value && Weight(games[i].metrics, c) >= Threshold &&
                  forall j :: 0 <= j < i ==> Weight(games[j].metrics, c) < Threshold
    ensures r.None? <==> forall i :: 0 <= i < |games| ==> Weight(games[i].metrics, c) < Threshold
  {
    if games == [] then None
    else if Weight(games[0].metrics, c) >= Threshold then Some(games[0])
    else
      var r := FirstQualifying(games[1..], c);
      assert forall j :: 1 <= j < |games| ==> games[j] == games[1..][j - 1];
      r
  }

  /** `bestGame || GAMES[0]`: the game recommended to train category `c`. */
  function Recommend(games: seq<Game>, c: Category): (g: Game)
    requires |games| > 0
    ensures g in games
    ensures (exists i :: 0 <= i < |games| && Weight(games[i].metrics, c) >= Threshold) ==>
      Weight(g.metrics, c) >= Threshold &&
      exists i :: 0 <= i < |games| && games[i] == g && forall j :: 0 <= j < i ==> Weight(games[j].metrics, c) < Threshold
    ensures (forall i :: 0 <= i < |games| ==> Weight(games[i].metrics, c) < Threshold) ==> g == games[0]
  {
    match FirstQualifying(games, c)
    case Some(g) => g
    case None => games[0]
  }

  // ---------------------------------------------------------------------
  // Specification of the aggregation: folds over the rows, left to right

  /** The keys of a JavaScript object after assigning each category of `ms`
      in turn: a category not yet present is appended at the end. */
  function InsertKeys(keys: seq<Category>, ms: seq<Metric>): seq<Category>
  {
    if ms == [] then keys
    else
      var k := InsertKeys(keys, ms[..|ms| - 1]);
      var c := ms[|ms| - 1].category;
      if c in k then k else k + [c]
  }

  /** `Object.keys(totals)`: the categories met so far, in the order they
      were first inserted. */
  function KeyOrder(games: seq<Game>, rows: seq<ResultRow>): seq<Category>
  {
    if rows == [] then []
    else InsertKeys(KeyOrder(games, rows[..|rows| - 1]), RowMetrics(games, rows[|rows| - 1]))
  }

  /** `totals[c]`: the full score of every row whose game lists `c`. */
  function Total(games: seq<Game>, rows: seq<ResultRow>, c: Category): int
  {
    if rows == [] then 0
    else
      var r := rows[|rows| - 1];
      Total(games, rows[..|rows| - 1], c) + (if c in Categories(RowMetrics(games, r)) then r.score else 0)
  }

  /** `counts[c]`: the number of rows whose game lists `c`. */
  function Count(games: seq<Game>, rows: seq<ResultRow>, c: Category): nat
  {
    if rows == [] then 0
    else
      var r := rows[|rows| - 1];
      Count(games, rows[..|rows| - 1], c) + (if c in Categories(RowMetrics(games, r)) then 1 else 0)
  }

  function TotalsOf(games: seq<Game>, rows: seq<ResultRow>): map<Category, int>
  {
    map c | c in KeyOrder(games, rows) :: Total(games, rows, c)
  }

  function CountsOf(games: seq<Game>, rows: seq<ResultRow>): map<Category, int>
  {
    map c | c in KeyOrder(games, rows) :: Count(games, rows, c)
  }

  // ---------------------------------------------------------------------
  // The weakest skill, stated on any tally of keys, totals and counts

  /** `totals[a] / counts[a] < totals[b] / counts[b]` for positive counts,
      by cross-multiplication. */
  predicate AvgLess(ta: int, ca: int, tb: int, cb: int)
  {
    ta * cb < tb * ca
  }

  /** Every key has a total and a positive count. */
  predicate Tallied(keys: seq<Category>, totals: map<Category, int>, counts: map<Category, int>)
  {
    forall c :: c in keys ==> c in totals && c in counts && counts[c] > 0
  }

  /** `keys[i]` is what the strict-`<` scan picks: its average is below
      101, no key has a lower average, and every earlier key has a higher
      one (a tie keeps the earlier key). */
  predicate WeakestAt(keys: seq<Category>, totals: map<Category, int>, counts: map<Category, int>, i: int)
  {
    && 0 <= i < |keys|
    && Tallied(keys, totals, counts)
    && var w := keys[i];
    && AvgLess(totals[w], counts[w], MinScoreStart, 1)
    && (forall k :: 0 <= k < |keys| ==> !AvgLess(totals[keys[k]], counts[keys[k]], totals[w], counts[w]))
    && (forall k :: 0 <= k < i ==> AvgLess(totals[w], counts[w], totals[keys[k]], counts[keys[k]]))
  }

  predicate IsWeakest(keys: seq<Category>, totals: map<Category, int>, counts: map<Category, int>, w: Category)
  {
    exists i :: 0 <= i < |keys| && keys[i] == w && WeakestAt(keys, totals, counts, i)
  }

  /** No key averages below 101, so `weakSkill` stays empty. */
  predicate NoneBelowStart(keys: seq<Category>, totals: map<Category, int>, counts: map<Category, int>)
  {
    && Tallied(keys, totals, counts)
    && forall k :: 0 <= k < |keys| ==> !AvgLess(totals[keys[k]], counts[keys[k]], MinScoreStart, 1)
  }

  // ---------------------------------------------------------------------
  // The engine

  /** `totals[c] || 0`. */
  function Get(m: map<Category, int>, c: Category): int
  {
    if c in m then m[c] else 0
  }

  /** The inner `Object.entries(game.metrics).forEach`: every listed
      category gets the row's full score and one more count; a category
      not yet in `totals` becomes its last key. */
  method AddRow(keys: seq<Category>, totals: map<Category, int>, counts: map<Category, int>, ms: seq<Metric>, score: int)
    returns (keys': seq<Category>, totals': map<Category, int>, counts': map<Category, int>)
    requires DistinctCategories(ms)
    requires forall c :: c in totals <==> c in keys
    requires forall c :: c in counts <==> c in keys
    ensures keys' == InsertKeys(keys, ms)
    ensures forall c :: c in totals' <==> c in keys'
    ensures forall c :: c in counts' <==> c in keys'
    ensures forall c :: c in keys' ==>
      totals'[c] == Get(totals, c) + (if c in Categories(ms) then score else 0)
    ensures forall c :: c in keys' ==>
      counts'[c] == Get(counts, c) + (if c in Categories(ms) then 1 else 0)
  {
    keys', totals', counts' := keys, totals, counts;
    for j := 0 to |ms|
      invariant keys' == InsertKeys(keys, ms[..j])
      invariant Bumped(totals, Categories(ms[..j]), score, keys', totals')
      invariant Bumped(counts, Categories(ms[..j]), 1, keys', counts')
    {
      var skill := ms[j].category;
      CategoriesSnoc(keys, ms, j);
      InsertKeysMembers(keys, ms[..j]);
      BumpStep(keys, totals, Categories(ms[..j]), Categories(ms[..j + 1]), skill, score, keys', totals');
      BumpStep(keys, counts, Categories(ms[..j]), Categories(ms[..j + 1]), skill, 1, keys', counts');
      totals' := totals'[skill := Get(totals', skill) + score];
      counts' := counts'[skill := Get(counts', skill) + 1];
      if skill !in keys' {
        keys' := keys' + [skill];
      }
    }
    assert ms[..|ms|] == ms;
  }

  /** `m` has the keys `k` and is `m0` with `w` added under every category
      of `cs`. */
  predicate Bumped(m0: map<Category, int>, cs: seq<Category>, w: int, k: seq<Category>, m: map<Category, int>)
  {
    && (forall c :: c in m <==> c in k)
    && (forall c :: c in k ==> m[c] == Get(m0, c) + (if c in cs then w else 0))
  }

  /** Adding `w` under a category `s` new to `before` turns a map bumped
      for `before` into one bumped for `after`, and `s` becomes a key if
      it was not one. */
  lemma {:induction false} BumpStep(keys: seq<Category>, m0: map<Category, int>,
                                    before: seq<Category>, after: seq<Category>, s: Category, w: int,
                                    k: seq<Category>, m: map<Category, int>)
    requires forall c :: c in m0 <==> c in keys
    requires forall c :: c in keys ==> c in k
    requires s !in before
    requires forall c :: c in after <==> c in before || c == s
    requires Bumped(m0, before, w, k, m)
    ensures Bumped(m0, after, w, if s in k then k else k + [s], m[s := Get(m, s) + w])
  {
    var k' := if s in k then k else k + [s];
    var m' := m[s := Get(m, s) + w];
    forall c | c in k'
      ensures m'[c] == Get(m0, c) + (if c in after then w else 0)
    {
      if c != s {
        assert c in k;
      }
    }
  }

  /** One more entry of a `metrics` object brings one new category. */
  lemma {:induction false} CategoriesSnoc(keys: seq<Category>, ms: seq<Metric>, j: int)
    requires DistinctCategories(ms) && 0 <= j < |ms|
    ensures ms[j].category !in Categories(ms[..j])
    ensures forall c :: c in Categories(ms[..j + 1]) <==> c in Categories(ms[..j]) || c == ms[j].category
    ensures var k := InsertKeys(keys, ms[..j]);
      InsertKeys(keys, ms[..j + 1]) == if ms[j].category in k then k else k + [ms[j].category]
  {
    assert ms[..j + 1][..j] == ms[..j];
  }

  /** The outer `results.forEach`: `fetchRecommendation`'s tally of
      `totals` and `counts`; `keys` records the insertion order of `totals`. */
  method Accumulate(games: seq<Game>, rows: seq<ResultRow>)
    returns (keys: seq<Category>, totals: map<Category, int>, counts: map<Category, int>)
    requires WellFormed(games)
    ensures keys == KeyOrder(games, rows)
    ensures totals == TotalsOf(games, rows)
    ensures counts == CountsOf(games, rows)
  {
    keys, totals, counts := [], map[], map[];
    for i := 0 to |rows|
      invariant keys == KeyOrder(games, rows[..i])
      invariant totals == TotalsOf(games, rows[..i])
      invariant counts == CountsOf(games, rows[..i])
    {
      var r := rows[i];
      PrefixSnoc(rows, i);
      var game := FindGame(games, r.gameId);
      if game.Some? {
        assert RowMetrics(games, r) == game.value.metrics;
        keys, totals, counts := AddRow(keys, totals, counts, game.value.metrics, r.score);
        TallyAfterRow(games, rows[..i], r, keys, totals, counts);
      } else {
        UnknownGameIgnored(games, rows[..i], r);
      }
    }
    assert rows[..|rows|] == rows;
  }

  lemma {:induction false} PrefixSnoc(rows: seq<ResultRow>, i: int)
    requires 0 <= i < |rows|
    ensures rows[..i + 1] == rows[..i] + [rows[i]]
  {
  }

  /** One more row of a known game turns the tally of `rows` into the
      tally of `rows + [r]`. */
  lemma {:induction false} TallyAfterRow(games: seq<Game>, rows: seq<ResultRow>, r: ResultRow,
                      keys: seq<Category>, totals: map<Category, int>, counts: map<Category, int>)
    requires keys == InsertKeys(KeyOrder(games, rows), RowMetrics(games, r))
    requires forall c :: c in totals <==> c in keys
    requires forall c :: c in counts <==> c in keys
    requires forall c :: c in keys ==>
      totals[c] == Get(TotalsOf(games, rows), c) + (if c in Categories(RowMetrics(games, r)) then r.score else 0)
    requires forall c :: c in keys ==>
      counts[c] == Get(CountsOf(games, rows), c) + (if c in Categories(RowMetrics(games, r)) then 1 else 0)
    ensures keys == KeyOrder(games, rows + [r])
    ensures totals == TotalsOf(games, rows + [r])
    ensures counts == CountsOf(games, rows + [r])
  {
    assert (rows + [r])[..|rows|] == rows;
    forall c | c in keys
      ensures totals[c] == Total(games, rows + [r], c) && counts[c] == Count(games, rows + [r], c)
    {
      KeyOrderCounted(games, rows, c);
    }
  }

  /** The `Object.keys(totals).forEach` scan for the lowest average,
      starting from `minScore = 101`, with `minScore` kept as the exact
      fraction `minTotal / minCount`. */
  method PickWeakest(keys: seq<Category>, totals: map<Category, int>, counts: map<Category, int>)
    returns (weak: Option<Category>)
    requires Tallied(keys, totals, counts)
    ensures weak.None? <==> NoneBelowStart(keys, totals, counts)
    ensures weak.Some? ==> IsWeakest(keys, totals, counts, weak.value)
  {
    var minTotal, minCount := MinScoreStart, 1;
    weak := None;
    ghost var at := -1;
    for i := 0 to |keys|
      invariant minCount > 0
      invariant weak.None? ==> at == -1 && minTotal == MinScoreStart && minCount == 1
      invariant weak.None? ==> forall k :: 0 <= k < i ==>
        !AvgLess(totals[keys[k]], counts[keys[k]], MinScoreStart, 1)
      invariant weak.Some? ==> (0 <= at < i && keys[at] == weak.value &&
        minTotal == totals[keys[at]] && minCount == counts[keys[at]] &&
        AvgLess(minTotal, minCount, MinScoreStart, 1))
      invariant weak.Some? ==> forall k :: 0 <= k < i ==>
        !AvgLess(totals[keys[k]], counts[keys[k]], minTotal, minCount)
      invariant weak.Some? ==> forall k :: 0 <= k < at ==>
        AvgLess(minTotal, minCount, totals[keys[k]], counts[keys[k]])
    {
      var skill := keys[i];
      if AvgLess(totals[skill], counts[skill], minTotal, minCount) {
        forall k | 0 <= k < i
          ensures !AvgLess(totals[keys[k]], counts[keys[k]], totals[skill], counts[skill])
          ensures AvgLess(totals[skill], counts[skill], totals[keys[k]], counts[keys[k]])
        {
          LessLe(totals[skill], counts[skill], minTotal, minCount, totals[keys[k]], counts[keys[k]]);
        }
        if weak.Some? {
          LessLess(totals[skill], counts[skill], minTotal, minCount, MinScoreStart, 1);
        }
        weak := Some(skill);
        at := i;
        minTotal, minCount := totals[skill], counts[skill];
      }
    }
    if weak.Some? {
      assert WeakestAt(keys, totals, counts, at);
    }
  }

  /** a < b and b <= c, compared as fractions with positive denominators. */
  lemma {:induction false} LessLe(ta: int, ca: int, tb: int, cb: int, tc: int, cc: int)
    requires ca > 0 && cb > 0 && cc > 0
    requires AvgLess(ta, ca, tb, cb) && !AvgLess(tc, cc, tb, cb)
    ensures AvgLess(ta, ca, tc, cc) && !AvgLess(tc, cc, ta, ca)
  {
    assert ta * cb * cc < tb * ca * cc by { MulLessMono(cc, ta * cb, tb * ca); }
    assert tb * cc * ca <= tc * cb * ca by { MulLeMono(ca, tb * cc, tc * cb); }
    assert (ta * cc) * cb < (tc * ca) * cb;
    if tc * ca <= ta * cc {
      MulLeMono(cb, tc * ca, ta * cc);
      assert false;
    }
  }

  /** a < b and b < c, compared as fractions with positive denominators. */
  lemma {:induction false} LessLess(ta: int, ca: int, tb: int, cb: int, tc: int, cc: int)
    requires ca > 0 && cb > 0 && cc > 0
    requires AvgLess(ta, ca, tb, cb) && AvgLess(tb, cb, tc, cc)
    ensures AvgLess(ta, ca, tc, cc)
  {
    LessLe(ta, ca, tb, cb, tc, cc);
  }

  lemma {:induction false} MulLessMono(k: int, a: int, b: int)
    requires k > 0 && a < b
    ensures k * a < k * b
  {
    assert k * b - k * a == k * (b - a);
  }

  // ---------------------------------------------------------------------
  // Properties of the specification

  lemma {:induction false} InsertKeysMembers(keys: seq<Category>, ms: seq<Metric>)
    ensures forall c :: c in InsertKeys(keys, ms) <==> c in keys || c in Categories(ms)
  {
    if ms != [] {
      InsertKeysMembers(keys, ms[..|ms| - 1]);
    }
  }

  /** A category is a key of `totals` exactly when some row counted it. */
  lemma {:induction false} KeyOrderCounted(games: seq<Game>, rows: seq<ResultRow>, c: Category)
    ensures c in KeyOrder(games, rows) <==> Count(games, rows, c) > 0
    ensures Count(games, rows, c) == 0 ==> Total(games, rows, c) == 0
  {
    if rows != [] {
      var prefix, r := rows[..|rows| - 1], rows[|rows| - 1];
      KeyOrderCounted(games, prefix, c);
      InsertKeysMembers(KeyOrder(games, prefix), RowMetrics(games, r));
    }
  }

  predicate DistinctSeq(s: seq<Category>)
  {
    forall i, j :: 0 <= i < j < |s| ==> s[i] != s[j]
  }

  lemma {:induction false} InsertKeysDistinct(keys: seq<Category>, ms: seq<Metric>)
    requires DistinctSeq(keys)
    ensures DistinctSeq(InsertKeys(keys, ms))
  {
    if ms != [] {
      InsertKeysDistinct(keys, ms[..|ms| - 1]);
      var k, c := InsertKeys(keys, ms[..|ms| - 1]), ms[|ms| - 1].category;
      if c !in k {
        var k' := k + [c];
        forall i, j | 0 <= i < j < |k'| ensures k'[i] != k'[j] {
          if j == |k| {
            assert k'[i] == k[i];
          }
        }
      }
    }
  }

  /** `Object.keys(totals)` never repeats a category. */
  lemma {:induction false} KeyOrderDistinct(games: seq<Game>, rows: seq<ResultRow>)
    ensures DistinctSeq(KeyOrder(games, rows))
  {
    if rows != [] {
      KeyOrderDistinct(games, rows[..|rows| - 1]);
      InsertKeysDistinct(KeyOrder(games, rows[..|rows| - 1]), RowMetrics(games, rows[|rows| - 1]));
    }
  }

  /** The tally the engine builds always has a positive count per key. */
  lemma {:induction false} SpecTallied(games: seq<Game>, rows: seq<ResultRow>)
    ensures Tallied(KeyOrder(games, rows), TotalsOf(games, rows), CountsOf(games, rows))
  {
    forall c | c in KeyOrder(games, rows)
      ensures Count(games, rows, c) > 0
    {
      KeyOrderCounted(games, rows, c);
    }
  }

  /** A row adds its full score, and 1, to every category its game lists,
      whatever the weights, and nothing to any other category. */
  lemma {:induction false} RowContribution(games: seq<Game>, rows: seq<ResultRow>, r: ResultRow, c: Category)
    ensures Total(games, rows + [r], c) ==
      Total(games, rows, c) + (if c in Categories(RowMetrics(games, r)) then r.score else 0)
    ensures Count(games, rows + [r], c) ==
      Count(games, rows, c) + (if c in Categories(RowMetrics(games, r)) then 1 else 0)
  {
    assert (rows + [r])[..|rows|] == rows;
  }

  /** A row whose `game_id` is not in the catalog changes no key, total
      or count. */
  lemma {:induction false} UnknownGameIgnored(games: seq<Game>, rows: seq<ResultRow>, r: ResultRow)
    requires FindGame(games, r.gameId).None?
    ensures KeyOrder(games, rows + [r]) == KeyOrder(games, rows)
    ensures TotalsOf(games, rows + [r]) == TotalsOf(games, rows)
    ensures CountsOf(games, rows + [r]) == CountsOf(games, rows)
  {
    assert (rows + [r])[..|rows|] == rows;
  }

  /** When no row names a catalog game, `totals` stays empty, so the scan
      finds no weak skill and the engine falls back to `GAMES[0]`. */
  lemma {:induction false} NoMatchFallsBack(games: seq<Game>, rows: seq<ResultRow>)
    requires forall i :: 0 <= i < |rows| ==> FindGame(games, rows[i].gameId).None?
    ensures KeyOrder(games, rows) == []
    ensures NoneBelowStart(KeyOrder(games, rows), TotalsOf(games, rows), CountsOf(games, rows))
  {
    if rows != [] {
      NoMatchFallsBack(games, rows[..|rows| - 1]);
      UnknownGameIgnored(games, rows[..|rows| - 1], rows[|rows| - 1]);
      assert rows[..|rows| - 1] + [rows[|rows| - 1]] == rows;
    }
  }

  predicate ScoresInRange(rows: seq<ResultRow>)
  {
    forall i :: 0 <= i < |rows| ==> 0 <= rows[i].score <= 100
  }

  lemma {:induction false} TotalBounded(games: seq<Game>, rows: seq<ResultRow>, c: Category)
    requires ScoresInRange(rows)
    ensures 0 <= Total(games, rows, c) <= 100 * Count(games, rows, c)
  {
    if rows != [] {
      TotalBounded(games, rows[..|rows| - 1], c);
    }
  }

  /** A row counts for every category its game lists. */
  lemma {:induction false} CountPositive(games: seq<Game>, rows: seq<ResultRow>, i: int, c: Category)
    requires 0 <= i < |rows| && c in Categories(RowMetrics(games, rows[i]))
    ensures Count(games, rows, c) > 0
  {
    if i < |rows| - 1 {
      CountPositive(games, rows[..|rows| - 1], i, c);
    }
  }

  /** A row naming a catalog game with a non-empty `metrics` puts a key
      into `totals`. */
  lemma {:induction false} MatchedRowMakesKey(games: seq<Game>, rows: seq<ResultRow>, i: int)
    requires 0 <= i < |rows|
    requires FindGame(games, rows[i].gameId).Some? && |FindGame(games, rows[i].gameId).value.metrics| > 0
    ensures KeyOrder(games, rows) != []
  {
    var ms := RowMetrics(games, rows[i]);
    var c := ms[0].category;
    assert c == Categories(ms)[0];
    CountPositive(games, rows, i, c);
    KeyOrderCounted(games, rows, c);
  }

  /** With scores in [0, 100], any row that matched a catalog game with
      metrics makes the scan find a weak skill: every average is below the
      start value 101. */
  lemma {:induction false} WeakSkillFound(games: seq<Game>, rows: seq<ResultRow>)
    requires ScoresInRange(rows)
    requires exists i :: (0 <= i < |rows| && FindGame(games, rows[i].gameId).Some? &&
                          |FindGame(games, rows[i].gameId).value.metrics| > 0)
    ensures !NoneBelowStart(KeyOrder(games, rows), TotalsOf(games, rows), CountsOf(games, rows))
  {
    var i :| 0 <= i < |rows| && FindGame(games, rows[i].gameId).Some? &&
      |FindGame(games, rows[i].gameId).value.metrics| > 0;
    MatchedRowMakesKey(games, rows, i);
    var c := KeyOrder(games, rows)[0];
    KeyOrderCounted(games, rows, c);
    TotalBounded(games, rows, c);
  }

  /** The tie-break makes the weakest skill unique. */
  lemma {:induction false} WeakestUnique(keys: seq<Category>, totals: map<Category, int>, counts: map<Category, int>, a: Category, b: Category)
    requires IsWeakest(keys, totals, counts, a) && IsWeakest(keys, totals, counts, b)
    ensures a == b
  {
    var i :| 0 <= i < |keys| && keys[i] == a && WeakestAt(keys, totals, counts, i);
    var j :| 0 <= j < |keys| && keys[j] == b && WeakestAt(keys, totals, counts, j);
    assert !(i < j);
    assert !(j < i);
  }

  /** Games that list the same categories in the same order but with other
      weights. */
  predicate SameCategories(g1: seq<Game>, g2: seq<Game>)
  {
    |g1| == |g2| &&
    forall i :: 0 <= i < |g1| ==>
      g1[i].id == g2[i].id && Categories(g1[i].metrics) == Categories(g2[i].metrics)
  }

  lemma {:induction false} FindSameCategories(g1: seq<Game>, g2: seq<Game>, id: string)
    requires SameCategories(g1, g2)
    ensures FindGame(g1, id).None? <==> FindGame(g2, id).None?
    ensures FindGame(g1, id).Some? ==>
      Categories(FindGame(g1, id).value.metrics) == Categories(FindGame(g2, id).value.metrics)
  {
    if g1 != [] && g1[0].id != id {
      assert SameCategories(g1[1..], g2[1..]) by {
        forall i | 0 <= i < |g1| - 1
          ensures g1[1..][i].id == g2[1..][i].id &&
            Categories(g1[1..][i].metrics) == Categories(g2[1..][i].metrics)
        {
          assert g1[1..][i] == g1[i + 1] && g2[1..][i] == g2[i + 1];
        }
      }
      FindSameCategories(g1[1..], g2[1..], id);
    }
  }

  lemma {:induction false} InsertKeysByCategories(keys: seq<Category>, m1: seq<Metric>, m2: seq<Metric>)
    requires Categories(m1) == Categories(m2)
    ensures InsertKeys(keys, m1) == InsertKeys(keys, m2)
  {
    if m1 != [] {
      var n := |m1| - 1;
      assert Categories(m1[..n]) == Categories(m1)[..n];
      assert Categories(m2[..n]) == Categories(m2)[..n];
      assert m1[n].category == Categories(m1)[n];
      InsertKeysByCategories(keys, m1[..n], m2[..n]);
    }
  }

  lemma {:induction false} RowMetricsSameCategories(g1: seq<Game>, g2: seq<Game>, r: ResultRow)
    requires SameCategories(g1, g2)
    ensures Categories(RowMetrics(g1, r)) == Categories(RowMetrics(g2, r))
  {
    FindSameCategories(g1, g2, r.gameId);
  }

  /** The weights are never read: catalogs that differ only in their
      weights give the same key order ... */
  lemma {:induction false} WeightsIgnoredKeys(g1: seq<Game>, g2: seq<Game>, rows: seq<ResultRow>)
    requires SameCategories(g1, g2)
    ensures KeyOrder(g1, rows) == KeyOrder(g2, rows)
  {
    if rows != [] {
      var prefix, r := rows[..|rows| - 1], rows[|rows| - 1];
      WeightsIgnoredKeys(g1, g2, prefix);
      RowMetricsSameCategories(g1, g2, r);
      InsertKeysByCategories(KeyOrder(g1, prefix), RowMetrics(g1, r), RowMetrics(g2, r));
    }
  }

  /** ... the same totals ... */
  lemma {:induction false} WeightsIgnoredTotals(g1: seq<Game>, g2: seq<Game>, rows: seq<ResultRow>, c: Category)
    requires SameCategories(g1, g2)
    ensures Total(g1, rows, c) == Total(g2, rows, c)
  {
    if rows != [] {
      var prefix, r := rows[..|rows| - 1], rows[|rows| - 1];
      WeightsIgnoredTotals(g1, g2, prefix, c);
      RowMetricsSameCategories(g1, g2, r);
      var listed := c in Categories(RowMetrics(g1, r));
      assert listed == (c in Categories(RowMetrics(g2, r)));
      assert Total(g1, rows, c) == Total(g1, prefix, c) + (if listed then r.score else 0);
      assert Total(g2, rows, c) == Total(g2, prefix, c) + (if listed then r.score else 0);
    }
  }

  /** ... and the same counts. */
  lemma {:induction false} WeightsIgnoredCounts(g1: seq<Game>, g2: seq<Game>, rows: seq<ResultRow>, c: Category)
    requires SameCategories(g1, g2)
    ensures Count(g1, rows, c) == Count(g2, rows, c)
  {
    if rows != [] {
      var prefix, r := rows[..|rows| - 1], rows[|rows| - 1];
      WeightsIgnoredCounts(g1, g2, prefix, c);
      RowMetricsSameCategories(g1, g2, r);
      var listed := c in Categories(RowMetrics(g1, r));
      assert listed == (c in Categories(RowMetrics(g2, r)));
      assert Count(g1, rows, c) == Count(g1, prefix, c) + (if listed then 1 else 0);
      assert Count(g2, rows, c) == Count(g2, prefix, c) + (if listed then 1 else 0);
    }
  }

  /** The recommendation is determined by the weights: it is the game at
      the first index that meets the threshold. */
  lemma {:induction false} RecommendIsFirstQualifying(games: seq<Game>, c: Category, i: int)
    requires 0 <= i < |games| && Weight(games[i].metrics, c) >= Threshold
    requires forall j :: 0 <= j < i ==> Weight(games[j].metrics, c) < Threshold
    ensures Recommend(games, c) == games[i]
  {
    var g := Recommend(games, c);
    var k :| 0 <= k < |games| && games[k] == g && forall j :: 0 <= j < k ==> Weight(games[j].metrics, c) < Threshold;
    assert k == i;
  }

  /** In `GAMES` the first game at the 0.4 threshold is not always the
      heaviest one: Technical recommends the gift wrapper (0.4) ahead of
      the desktop ranger (0.7). */
  lemma {:induction false} TechnicalRecommendsGiftWrapper()
    ensures Recommend(Games, Technical).id == "3d-gift-wrapper"
  {
    assert Weight(Games[0].metrics, Technical) == 0;
    assert Weight(Games[1].metrics, Technical) == 4;
    RecommendIsFirstQualifying(Games, Technical, 1);
  }

  /** Social skips the desktop ranger (0.3) and recommends the recipe
      builder (0.5). */
  lemma {:induction false} SocialRecommendsRecipeBuilder()
    ensures Recommend(Games, Social).id == "recipe-builder"
  {
    forall k | 0 <= k < |Games|
      ensures Weight(Games[k].metrics, Social) ==
        if Games[k].metrics[0].category == Social then Games[k].metrics[0].tenths
        else if Games[k].metrics[1].category == Social then Games[k].metrics[1].tenths else 0
    {
      WeightOfPair(Games[k].metrics[0], Games[k].metrics[1], Social);
      assert Games[k].metrics == [Games[k].metrics[0], Games[k].metrics[1]];
    }
    RecommendIsFirstQualifying(Games, Social, 4);
  }

  lemma {:induction false} CatalogNeverFallsBack(c: Category)
    ensures FirstQualifying(Games, c).Some?
  {
    EveryCategoryHasStrongGame(c);
  }

  // ---------------------------------------------------------------------
  // The goal list

  /** A `student_goals` row; `text` is its `label` column. */
  datatype Goal = Goal(id: string, text: string, done: bool)

  /** `goals.map(g => g.id === id ? { ...g, done: !currentStatus } : g)`. */
  function Toggled(goals: seq<Goal>, id: string, currentStatus: bool): (r: seq<Goal>)
    ensures |r| == |goals|
    ensures forall i :: 0 <= i < |goals| ==>
      r[i].id == goals[i].id && r[i].text == goals[i].text &&
      r[i].done == (if goals[i].id == id then !currentStatus else goals[i].done)
  {
    if goals == [] then []
    else
      var head := if goals[0].id == id then goals[0].(done := !currentStatus) else goals[0];
      [head] + Toggled(goals[1..], id, currentStatus)
  }

  /** `goals.filter(g => g.id !== id)`. */
  function Without(goals: seq<Goal>, id: string): (r: seq<Goal>)
    ensures |r| <= |goals|
  {
    if goals == [] then []
    else (if goals[0].id == id then [] else [goals[0]]) + Without(goals[1..], id)
  }

  /** Deleting removes exactly the goals with that id. */
  lemma {:induction false} WithoutMembers(goals: seq<Goal>, id: string)
    ensures forall g :: g in Without(goals, id) <==> g in goals && g.id != id
  {
    if goals != [] {
      WithoutMembers(goals[1..], id);
      assert goals == [goals[0]] + goals[1..];
    }
  }

  /** Called as `toggleGoal(goal.id, goal.done)`, the toggle flips exactly
      the goals with that id; toggling back restores the list. */
  lemma {:induction false} ToggleFlips(goals: seq<Goal>, id: string, status: bool)
    requires forall i :: 0 <= i < |goals| && goals[i].id == id ==> goals[i].done == status
    ensures forall i :: 0 <= i < |goals| ==>
      Toggled(goals, id, status)[i].done == (goals[i].done != (goals[i].id == id))
    ensures Toggled(Toggled(goals, id, status), id, !status) == goals
  {
    var once := Toggled(goals, id, status);
    var twice := Toggled(once, id, !status);
    assert forall i :: 0 <= i < |goals| ==> twice[i] == goals[i];
  }

  /** Deleting keeps the order of the rest: it distributes over `+`. */
  lemma {:induction false} WithoutDistributes(a: seq<Goal>, b: seq<Goal>, id: string)
    ensures Without(a + b, id) == Without(a, id) + Without(b, id)
  {
    if a == [] {
      assert a + b == b;
    } else {
      var ab := a + b;
      assert ab[0] == a[0] && ab[1..] == a[1..] + b;
      WithoutDistributes(a[1..], b, id);
      var head := if a[0].id == id then [] else [a[0]];
      var rest, tail := Without(a[1..], id), Without(b, id);
      assert Without(ab, id) == head + (rest + tail);
      assert Without(a, id) == head + rest;
      assert head + (rest + tail) == (head + rest) + tail;
    }
  }

  lemma {:induction false} WithoutIdempotent(goals: seq<Goal>, id: string)
    ensures Without(Without(goals, id), id) == Without(goals, id)
  {
    if goals != [] {
      WithoutIdempotent(goals[1..], id);
      var head := if goals[0].id == id then [] else [goals[0]];
      WithoutDistributes(head, Without(goals[1..], id), id);
    }
  }

  /** A list with no goal of that id is left as it is. */
  lemma {:induction false} WithoutAbsent(goals: seq<Goal>, id: string)
    requires forall i :: 0 <= i < |goals| ==> goals[i].id != id
    ensures Without(goals, id) == goals
  {
    if goals != [] {
      WithoutAbsent(goals[1..], id);
    }
  }

  // ---------------------------------------------------------------------
  // The component state

  class Dashboard {
    var goals: seq<Goal>
    var newGoal: string
    var recommendedGame: Option<Game>
    var weakestSkill: string
    var loadingRec: bool

    constructor ()
      ensures goals == [] && newGoal == ""
      ensures recommendedGame == None && weakestSkill == "" && loadingRec
    {
      goals, newGoal := [], "";
      recommendedGame, weakestSkill, loadingRec := None, "", true;
    }

    /** The goal input's `onChange`. */
    method SetNewGoal(text: string)
      modifies this
      ensures newGoal == text
      ensures goals == old(goals) && recommendedGame == old(recommendedGame)
      ensures weakestSkill == old(weakestSkill) && loadingRec == old(loadingRec)
    {
      newGoal := text;
    }

    /** `addGoal`: a blank label is rejected before any backend call;
        otherwise the row the insert returns (id `insertedId`, the label as
        typed, not done) is put in front and the input is cleared. A failed
        insert (`insertedId == None`) changes nothing. */
    method AddGoal(insertedId: Option<string>) returns (calledBackend: bool)
      modifies this
      ensures calledBackend <==> !IsBlank(old(newGoal))
      ensures if calledBackend && insertedId.Some? then
          goals == [Goal(insertedId.value, old(newGoal), false)] + old(goals) && newGoal == ""
        else
          goals == old(goals) && newGoal == old(newGoal)
      ensures recommendedGame == old(recommendedGame) && weakestSkill == old(weakestSkill)
      ensures loadingRec == old(loadingRec)
    {
      calledBackend := !IsBlank(newGoal);
      if calledBackend && insertedId.Some? {
        goals := [Goal(insertedId.value, newGoal, false)] + goals;
        newGoal := "";
      }
    }

    /** `toggleGoal`: the optimistic update of the list (a failed backend
        update re-fetches the list, which is not modelled). */
    method ToggleGoal(id: string, currentStatus: bool)
      modifies this
      ensures goals == Toggled(old(goals), id, currentStatus)
      ensures newGoal == old(newGoal) && recommendedGame == old(recommendedGame)
      ensures weakestSkill == old(weakestSkill) && loadingRec == old(loadingRec)
    {
      goals := Toggled(goals, id, currentStatus);
    }

    /** `deleteGoal`: nothing happens unless the user confirms. */
    method DeleteGoal(id: string, confirmed: bool)
      modifies this
      ensures goals == if confirmed then Without(old(goals), id) else old(goals)
      ensures newGoal == old(newGoal) && recommendedGame == old(recommendedGame)
      ensures weakestSkill == old(weakestSkill) && loadingRec == old(loadingRec)
    {
      if confirmed {
        goals := Without(goals, id);
      }
    }

    /** `fetchRecommendation`, given the rows the query returned (`None`
        for a null `data`). */
    method FetchRecommendation(games: seq<Game>, results: Option<seq<ResultRow>>)
      requires WellFormed(games) && |games| > 0
      modifies this
      ensures goals == old(goals) && newGoal == old(newGoal) && !loadingRec
      ensures results.None? || results.value == [] ==>
        recommendedGame == Some(games[0]) && weakestSkill == StartLabel
      ensures results.Some? && results.value != [] ==>
        var rows := results.value;
        var keys, totals, counts := KeyOrder(games, rows), TotalsOf(games, rows), CountsOf(games, rows);
        if NoneBelowStart(keys, totals, counts) then
          recommendedGame == Some(games[0]) && weakestSkill == old(weakestSkill)
        else
          exists w :: IsWeakest(keys, totals, counts, w) &&
            weakestSkill == CategoryName(w) && recommendedGame == Some(Recommend(games, w))
    {
      if results.None? || results.value == [] {
        recommendedGame := Some(games[0]);
        weakestSkill := StartLabel;
        loadingRec := false;
        return;
      }
      var keys, totals, counts := Accumulate(games, results.value);
      SpecTallied(games, results.value);
      var weak := PickWeakest(keys, totals, counts);
      if weak.Some? {
        weakestSkill := CategoryName(weak.value);
        recommendedGame := Some(Recommend(games, weak.value));
      } else {
        recommendedGame := Some(games[0]);
      }
      loadingRec := false;
    }
  }
}
