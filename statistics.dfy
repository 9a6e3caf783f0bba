/**
 * `getSchemeStats` of src/utils/recommender.ts: counts over the active
 * schemes of the catalog. The category counts are a JavaScript object used
 * as a dictionary; its keys keep insertion order, so it is modelled as an
 * association list in order of first appearance.
 */
module Statistics {
  import opened Types

  datatype CategoryCount = CategoryCount(category: string, count: nat)

  /** `{ Central: n, State: m }` */
  datatype LevelCounts = LevelCounts(central: nat, state: nat)

  datatype SchemeStats = SchemeStats(
    totalSchemes: nat,
    categoryCounts: seq<CategoryCount>,
    levelCounts: LevelCounts,
    newSchemes: nat,
    schemesWithDeadlines: nat)

  /** `counts[c] || 0`: a missing key reads as 0. */
  function Lookup(counts: seq<CategoryCount>, c: string): nat
  {
    if counts == [] then 0
    else if counts[0].category == c then counts[0].count
    else Lookup(counts[1..], c)
  }

  predicate HasKey(counts: seq<CategoryCount>, c: string)
  {
    exists i :: 0 <= i < |counts| && counts[i].category == c
  }

  /** No key is listed twice. */
  predicate DistinctKeys(counts: seq<CategoryCount>)
  {
    forall i, j :: 0 <= i < j < |counts| ==> counts[i].category != counts[j].category
  }

  /** `counts[c] = v`: overwrite an existing key in place, or append a new one. */
  function Store(counts: seq<CategoryCount>, c: string, v: nat): seq<CategoryCount>
  {
    if counts == [] then [CategoryCount(c, v)]
    else if counts[0].category == c then [CategoryCount(c, v)] + counts[1..]
    else [counts[0]] + Store(counts[1..], c, v)
  }

  /** Storing keeps every existing key in its place and appends a missing key at the end. */
  lemma {:induction false} StoreShape(counts: seq<CategoryCount>, c: string, v: nat)
    ensures var out := Store(counts, c, v);
      && |out| == |counts| + (if HasKey(counts, c) then 0 else 1)
      && (forall i :: 0 <= i < |counts| ==> out[i].category == counts[i].category)
      && (!HasKey(counts, c) ==> out[|counts|] == CategoryCount(c, v))
  {
    if counts != [] && counts[0].category != c {
      var rest := counts[1..];
      StoreShape(rest, c, v);
      var out := Store(counts, c, v);
      assert out == [counts[0]] + Store(rest, c, v);
      if HasKey(counts, c) {
        var i :| 0 <= i < |counts| && counts[i].category == c;
        assert rest[i - 1] == counts[i];
      }
      if HasKey(rest, c) {
        var i :| 0 <= i < |rest| && rest[i].category == c;
        assert counts[i + 1] == rest[i];
      }
      forall i | 0 <= i < |counts| ensures out[i].category == counts[i].category {
        if i > 0 {
          assert out[i] == Store(rest, c, v)[i - 1];
          assert counts[i] == rest[i - 1];
        }
      }
    } else if counts != [] {
      assert HasKey(counts, c) by {
        assert counts[0].category == c;
      }
    }
  }

  /** Reading after writing: the stored key gives the new value, every other key its old one. */
  lemma {:induction false} LookupStore(counts: seq<CategoryCount>, c: string, v: nat, d: string)
    ensures Lookup(Store(counts, c, v), d) == if d == c then v else Lookup(counts, d)
  {
    if counts != [] && counts[0].category != c {
      LookupStore(counts[1..], c, v, d);
      assert Store(counts, c, v)[1..] == Store(counts[1..], c, v);
    } else if counts != [] {
      assert Store(counts, c, v)[1..] == counts[1..];
    }
  }

  /** Storing never lists a key twice. */
  lemma {:induction false} StoreDistinct(counts: seq<CategoryCount>, c: string, v: nat)
    requires DistinctKeys(counts)
    ensures DistinctKeys(Store(counts, c, v))
  {
    if counts != [] && counts[0].category != c {
      var rest := counts[1..];
      assert DistinctKeys(rest) by {
        forall i, j | 0 <= i < j < |rest| ensures rest[i].category != rest[j].category {
          assert rest[i] == counts[i + 1] && rest[j] == counts[j + 1];
        }
      }
      StoreDistinct(rest, c, v);
      StoreShape(rest, c, v);
      var out := Store(counts, c, v);
      assert out[1..] == Store(rest, c, v);
      forall j | 0 < j < |out| ensures out[j].category != counts[0].category {
        if j - 1 < |rest| {
          assert out[j].category == rest[j - 1].category == counts[j].category;
        } else {
          assert out[j].category == c;
        }
      }
    } else if counts != [] {
      var out := Store(counts, c, v);
      assert out[1..] == counts[1..];
    }
  }

  /** Storing `v` under `c` changes the total by `v` less the old count of `c`. */
  lemma {:induction false} StoreTotal(counts: seq<CategoryCount>, c: string, v: nat)
    requires DistinctKeys(counts)
    ensures Total(Store(counts, c, v)) == Total(counts) - Lookup(counts, c) + v
  {
    if counts != [] && counts[0].category != c {
      var rest := counts[1..];
      assert DistinctKeys(rest) by {
        forall i, j | 0 <= i < j < |rest| ensures rest[i].category != rest[j].category {
          assert rest[i] == counts[i + 1] && rest[j] == counts[j + 1];
        }
      }
      StoreTotal(rest, c, v);
      assert Store(counts, c, v)[1..] == Store(rest, c, v);
    } else if counts != [] {
      assert Store(counts, c, v)[1..] == counts[1..];
      NotFirstKey(counts, c);
    }
  }

  /** A key found at the head of a list with distinct keys is absent from its tail. */
  lemma NotFirstKey(counts: seq<CategoryCount>, c: string)
    requires DistinctKeys(counts) && counts != [] && counts[0].category == c
    ensures Lookup(counts[1..], c) == 0
  {
    LookupMissing(counts[1..], c);
  }

  lemma {:induction false} LookupMissing(counts: seq<CategoryCount>, c: string)
    ensures !HasKey(counts, c) ==> Lookup(counts, c) == 0
  {
    if counts != [] {
      LookupMissing(counts[1..], c);
      if !HasKey(counts, c) {
        assert counts[0].category != c;
        forall i | 0 <= i < |counts[1..]| ensures counts[1..][i].category != c {
          assert counts[1..][i] == counts[i + 1];
        }
      }
    }
  }

  /** The sum of the counts. */
  function Total(counts: seq<CategoryCount>): nat
  {
    if counts == [] then 0 else counts[0].count + Total(counts[1..])
  }

  /** The category dictionary after counting `schemes` in order. */
  function Tally(schemes: seq<Scheme>): seq<CategoryCount>
  {
    if schemes == [] then []
    else
      var counts := Tally(schemes[..|schemes| - 1]);
      var c := schemes[|schemes| - 1].category;
      Store(counts, c, Lookup(counts, c) + 1)
  }

  /** The number of schemes of category `c`. */
  function CountCategory(schemes: seq<Scheme>, c: string): nat
  {
    if schemes == [] then 0
    else CountCategory(schemes[..|schemes| - 1], c) + (if schemes[|schemes| - 1].category == c then 1 else 0)
  }

  function CountLevel(schemes: seq<Scheme>, l: Level): nat
  {
    if schemes == [] then 0
    else CountLevel(schemes[..|schemes| - 1], l) + (if schemes[|schemes| - 1].level == l then 1 else 0)
  }

  /** `filter(s => s.is_new).length` */
  function CountNew(schemes: seq<Scheme>): (n: nat)
    ensures n <= |schemes|
  {
    if schemes == [] then 0
    else CountNew(schemes[..|schemes| - 1]) + (if IsNew(schemes[|schemes| - 1]) then 1 else 0)
  }

  /** `filter(s => s.deadline).length` */
  function CountWithDeadline(schemes: seq<Scheme>): (n: nat)
    ensures n <= |schemes|
  {
    if schemes == [] then 0
    else CountWithDeadline(schemes[..|schemes| - 1]) + (if HasDeadline(schemes[|schemes| - 1]) then 1 else 0)
  }

  /**
   * The dictionary counts every category exactly: its keys are distinct,
   * each category reads as the number of schemes in it, and the counts
   * add up to the number of schemes.
   */
  lemma {:induction false} TallyCounts(schemes: seq<Scheme>)
    ensures DistinctKeys(Tally(schemes))
    ensures forall c :: Lookup(Tally(schemes), c) == CountCategory(schemes, c)
    ensures Total(Tally(schemes)) == |schemes|
  {
    if schemes != [] {
      var init := schemes[..|schemes| - 1];
      var c := schemes[|schemes| - 1].category;
      TallyCounts(init);
      var counts := Tally(init);
      forall d ensures Lookup(Tally(schemes), d) == CountCategory(schemes, d) {
        LookupStore(counts, c, Lookup(counts, c) + 1, d);
      }
      StoreDistinct(counts, c, Lookup(counts, c) + 1);
      StoreTotal(counts, c, Lookup(counts, c) + 1);
    }
  }

  /** Counting one more scheme stores its category's count plus one. */
  lemma TallyStep(init: seq<Scheme>, last: Scheme)
    ensures Tally(init + [last]) == Store(Tally(init), last.category, Lookup(Tally(init), last.category) + 1)
  {
    assert (init + [last])[..|init|] == init;
  }

  /** One more scheme adds one to its own category's count and leaves every other count alone. */
  lemma TallyLast(init: seq<Scheme>, last: Scheme)
    ensures forall c :: Lookup(Tally(init + [last]), c) == Lookup(Tally(init), c) + (if c == last.category then 1 else 0)
  {
    var counts := Tally(init);
    TallyStep(init, last);
    forall c ensures Lookup(Tally(init + [last]), c) == Lookup(counts, c) + (if c == last.category then 1 else 0) {
      LookupStore(counts, last.category, Lookup(counts, last.category) + 1, c);
    }
  }

  /** A category is a key exactly when some scheme has it. */
  lemma {:induction false} TallyKeys(schemes: seq<Scheme>, d: string)
    ensures HasKey(Tally(schemes), d) <==> CountCategory(schemes, d) > 0
  {
    if schemes != [] {
      var init := schemes[..|schemes| - 1];
      var c := schemes[|schemes| - 1].category;
      var counts := Tally(init);
      assert schemes == init + [schemes[|schemes| - 1]];
      TallyStep(init, schemes[|schemes| - 1]);
      TallyKeys(init, d);
      StoreKeys(counts, c, Lookup(counts, c) + 1, d);
    }
  }

  /** Every listed count is at least 1: no key is created without a scheme behind it. */
  lemma {:induction false} TallyPositive(schemes: seq<Scheme>)
    ensures forall i :: 0 <= i < |Tally(schemes)| ==> Tally(schemes)[i].count >= 1
  {
    if schemes != [] {
      var init := schemes[..|schemes| - 1];
      var c := schemes[|schemes| - 1].category;
      TallyPositive(init);
      var counts := Tally(init);
      var out := Store(counts, c, Lookup(counts, c) + 1);
      assert Tally(schemes) == out;
      forall i | 0 <= i < |out| ensures out[i].count >= 1 {
        StoreCounts(counts, c, Lookup(counts, c) + 1, i);
      }
    }
  }

  lemma {:induction false} StoreKeys(counts: seq<CategoryCount>, c: string, v: nat, d: string)
    ensures HasKey(Store(counts, c, v), d) <==> HasKey(counts, d) || d == c
  {
    var out := Store(counts, c, v);
    StoreShape(counts, c, v);
    if HasKey(counts, d) {
      var i :| 0 <= i < |counts| && counts[i].category == d;
      assert out[i].category == d;
    }
    if !HasKey(counts, c) {
      assert out[|counts|].category == c;
    } else {
      var i :| 0 <= i < |counts| && counts[i].category == c;
      assert out[i].category == c;
    }
    if HasKey(out, d) {
      var i :| 0 <= i < |out| && out[i].category == d;
      if i < |counts| {
        assert counts[i].category == d;
      }
    }
  }

  /** Storing a positive value keeps every count positive. */
  lemma {:induction false} StoreCounts(counts: seq<CategoryCount>, c: string, v: nat, i: int)
    requires v >= 1 && forall j :: 0 <= j < |counts| ==> counts[j].count >= 1
    requires 0 <= i < |Store(counts, c, v)|
    ensures Store(counts, c, v)[i].count >= 1
    decreases |counts|
  {
    if counts != [] && counts[0].category != c && i > 0 {
      StoreCounts(counts[1..], c, v, i - 1);
    }
  }

  /** Every scheme is Central or State, so the two level counts add up to the number of schemes. */
  lemma {:induction false} LevelsAddUp(schemes: seq<Scheme>)
    ensures CountLevel(schemes, Central) + CountLevel(schemes, State) == |schemes|
  {
    if schemes != [] {
      LevelsAddUp(schemes[..|schemes| - 1]);
    }
  }

  /** The statistics of a catalog, over its active schemes. */
  function Stats(catalog: seq<Scheme>): SchemeStats
  {
    var active := ActiveSchemes(catalog);
    SchemeStats(|active|, Tally(active),
                LevelCounts(CountLevel(active, Central), CountLevel(active, State)),
                CountNew(active), CountWithDeadline(active))
  }

  /**
   * The statistics agree with each other: category counts and level
   * counts both add up to the number of active schemes, and each category
   * count is the number of active schemes in that category.
   */
  lemma StatsConsistent(catalog: seq<Scheme>)
    ensures var stats := Stats(catalog);
      && Total(stats.categoryCounts) == stats.totalSchemes
      && stats.levelCounts.central + stats.levelCounts.state == stats.totalSchemes
      && (forall c :: Lookup(stats.categoryCounts, c) == CountCategory(ActiveSchemes(catalog), c))
      && stats.newSchemes <= stats.totalSchemes && stats.schemesWithDeadlines <= stats.totalSchemes
  {
    TallyCounts(ActiveSchemes(catalog));
    LevelsAddUp(ActiveSchemes(catalog));
  }

  /** The source's loop: one pass over the active schemes bumping both dictionaries. */
  method CountActive(active: seq<Scheme>) returns (categoryCounts: seq<CategoryCount>, levelCounts: LevelCounts)
    ensures categoryCounts == Tally(active)
    ensures levelCounts == LevelCounts(CountLevel(active, Central), CountLevel(active, State))
  {
    categoryCounts := [];
    levelCounts := LevelCounts(0, 0);
    for i := 0 to |active|
      invariant categoryCounts == Tally(active[..i])
      invariant levelCounts == LevelCounts(CountLevel(active[..i], Central), CountLevel(active[..i], State))
    {
      var scheme := active[i];
      assert active[..i + 1][..i] == active[..i];
      categoryCounts := Store(categoryCounts, scheme.category, Lookup(categoryCounts, scheme.category) + 1);
      if scheme.level == Central {
        levelCounts := levelCounts.(central := levelCounts.central + 1);
      } else {
        levelCounts := levelCounts.(state := levelCounts.state + 1);
      }
    }
    assert active[..|active|] == active;
  }

  /** The source's procedure: filter the active schemes, count them in one pass, then count the new ones and those with a deadline. */
  method GetSchemeStats(catalog: seq<Scheme>) returns (stats: SchemeStats)
    ensures stats == Stats(catalog)
  {
    var activeSchemes := ActiveSchemes(catalog);
    var categoryCounts, levelCounts := CountActive(activeSchemes);
    stats := SchemeStats(|activeSchemes|, categoryCounts, levelCounts,
                         CountNew(activeSchemes), CountWithDeadline(activeSchemes));
  }
}
