/** The static game catalog and skill categories of src/constants.ts.
    Weights are kept in tenths (0.4 is 4) so that the threshold test of the
    recommendation engine is exact integer arithmetic. */
module Catalog {

  /** The closed set of skill buckets (`SkillCategory`). */
  datatype Category = Practical | Creative | Analytical | Technical | Social

  /** The categories in the order the `SkillCategory` union lists them. */
  const AllCategories: seq<Category> := [Practical, Creative, Analytical, Technical, Social]

  function CategoryName(c: Category): string
  {
    match c
    case Practical => "Practical"
    case Creative => "Creative"
    case Analytical => "Analytical"
    case Technical => "Technical"
    case Social => "Social"
  }

  /** One `[skill, weight]` entry of a game's `metrics` object; the weight
      is in tenths. */
  datatype Metric = Metric(category: Category, tenths: nat)

  /** A catalog entry. `metrics` keeps the entries in the order the object
      literal lists them, which is the order `Object.entries` yields. */
  datatype Game = Game(id: string, title: string, metrics: seq<Metric>)

  /** The `GAMES` catalog; `Games[0]` is the fallback recommendation. */
  const Games: seq<Game> := [
    Game("pattern-weaver", "Pattern Weaver", [Metric(Creative, 7), Metric(Practical, 3)]),
    Game("3d-gift-wrapper", "3D Gift Wrapper", [Metric(Practical, 6), Metric(Technical, 4)]),
    Game("desktop-ranger", "Desktop Ranger", [Metric(Technical, 7), Metric(Social, 3)]),
    Game("color-sorter", "Color Sorter", [Metric(Analytical, 6), Metric(Practical, 4)]),
    Game("recipe-builder", "Recipe Builder", [Metric(Analytical, 5), Metric(Social, 5)])
  ]

  /** The categories a game lists, in `Object.entries` order. */
  function Categories(ms: seq<Metric>): (cs: seq<Category>)
    ensures |cs| == |ms|
    ensures forall i :: 0 <= i < |ms| ==> cs[i] == ms[i].category
  {
    if ms == [] then [] else Categories(ms[..|ms| - 1]) + [ms[|ms| - 1].category]
  }

  /** `game.metrics[c]` in tenths, with 0 standing for an absent key. */
  function Weight(ms: seq<Metric>, c: Category): (w: nat)
    ensures w > 0 ==> exists i :: 0 <= i < |ms| && ms[i] == Metric(c, w)
    ensures (forall i :: 0 <= i < |ms| ==> ms[i].category != c) ==> w == 0
    ensures forall i :: FirstListedAt(ms, c, i) ==> w == ms[i].tenths
  {
    if ms == [] then 0
    else if ms[0].category == c then ms[0].tenths
    else
      assert forall i :: FirstListedAt(ms, c, i) ==> FirstListedAt(ms[1..], c, i - 1);
      Weight(ms[1..], c)
  }

  /** Entry `i` is the first one of `ms` listed under `c`. */
  predicate FirstListedAt(ms: seq<Metric>, c: Category, i: int)
  {
    0 <= i < |ms| && ms[i].category == c && forall j :: 0 <= j < i ==> ms[j].category != c
  }

  /** A JavaScript object has no duplicate keys: each category is listed at
      most once in a game's metrics. */
  predicate DistinctCategories(ms: seq<Metric>)
  {
    forall i, j :: 0 <= i < j < |ms| ==> ms[i].category != ms[j].category
  }

  /** Every game of the catalog has a proper `metrics` object. */
  predicate WellFormed(games: seq<Game>)
  {
    forall i :: 0 <= i < |games| ==> DistinctCategories(games[i].metrics)
  }

  function SumTenths(ms: seq<Metric>): nat
  {
    if ms == [] then 0 else ms[0].tenths + SumTenths(ms[1..])
  }

  /** One point of the radar chart: `{ subject, A, fullMark }`. */
  datatype RadarPoint = RadarPoint(subject: Category, a: int, fullMark: int)

  /** `INITIAL_RADAR_DATA` of src/constants.ts. */
  const InitialRadarData: seq<RadarPoint> := [
    RadarPoint(Practical, 0, 100),
    RadarPoint(Creative, 0, 100),
    RadarPoint(Analytical, 0, 100),
    RadarPoint(Technical, 0, 100),
    RadarPoint(Social, 0, 100)
  ]

  lemma {:induction false} CategoriesClosed(c: Category)
    ensures c in AllCategories
    ensures |AllCategories| == 5
    ensures forall i, j :: 0 <= i < j < 5 ==> AllCategories[i] != AllCategories[j]
  {
  }

  lemma {:induction false} CategoryNamesDistinct(c: Category, d: Category)
    ensures CategoryName(c) == CategoryName(d) <==> c == d
  {
  }

  lemma {:induction false} GameIdsDistinct()
    ensures forall i, j :: 0 <= i < j < |Games| ==> Games[i].id != Games[j].id
  {
  }

  lemma {:induction false} GamesWellFormed()
    ensures WellFormed(Games)
    ensures forall i :: 0 <= i < |Games| ==> |Games[i].metrics| > 0
    ensures forall i, k :: 0 <= i < |Games| && 0 <= k < |Games[i].metrics| ==>
      0 < Games[i].metrics[k].tenths <= 10
  {
  }

  lemma {:induction false} WeightsSumToOne()
    ensures forall i :: 0 <= i < |Games| ==> SumTenths(Games[i].metrics) == 10
  {
    assert SumTenths(Games[0].metrics) == 10;
    assert SumTenths(Games[1].metrics) == 10;
    assert SumTenths(Games[2].metrics) == 10;
    assert SumTenths(Games[3].metrics) == 10;
    assert SumTenths(Games[4].metrics) == 10;
  }

  /** Every category has a game weighing it at 0.4 or more, so the
      threshold lookup of the recommendation engine never needs its
      fallback for a category it can name. */
  /** `metrics[c]` on a two-entry object, the shape of every catalog game. */
  lemma {:induction false} WeightOfPair(a: Metric, b: Metric, c: Category)
    ensures Weight([a, b], c) == if a.category == c then a.tenths else if b.category == c then b.tenths else 0
  {
    assert [a, b][1..] == [b];
    assert [b][1..] == [];
  }

  lemma {:induction false} EveryCategoryHasStrongGame(c: Category)
    ensures exists i :: 0 <= i < |Games| && Weight(Games[i].metrics, c) >= 4
  {
    match c
    case Creative => assert Weight(Games[0].metrics, c) == 7;
    case Practical => assert Weight(Games[1].metrics, c) == 6;
    case Technical => assert Weight(Games[1].metrics, c) == 4;
    case Analytical => assert Weight(Games[3].metrics, c) == 6;
    case Social => assert Weight(Games[4].metrics, c) == 5;
  }

  lemma {:induction false} FallbackIsPatternWeaver()
    ensures |Games| > 0 && Games[0].id == "pattern-weaver"
  {
  }

  lemma {:induction false} InitialRadarDataIsEmpty()
    ensures |InitialRadarData| == 5
    ensures forall i :: 0 <= i < 5 ==> InitialRadarData[i].subject == AllCategories[i]
    ensures forall i :: 0 <= i < 5 ==> InitialRadarData[i].a == 0 && InitialRadarData[i].fullMark == 100
  {
  }
}
