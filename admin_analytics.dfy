/** The analytics panel: from the page views of the last thirty days it
    shows the number of views, the number of distinct visitors, the views of
    each of the last seven days and the five most viewed pages. */
module AdminAnalytics {
  import opened Wrappers

  /** A fetched `page_views` row; `createdAt` is the ISO timestamp. */
  datatype View = View(pagePath: string, visitorId: Option<string>, createdAt: string)

  // ---------------------------------------------------------------------
  // A JavaScript `Map` from strings to counts
  // ---------------------------------------------------------------------

  /** The keys in insertion order and the count of each key. */
  datatype CountMap = CountMap(order: seq<string>, counts: map<string, nat>)

  const EMPTY := CountMap([], map[])

  /** The keys listed once each, and exactly the keys that have counts. */
  ghost predicate WellFormed(c: CountMap) {
    (forall i, j :: 0 <= i < j < |c.order| ==> c.order[i] != c.order[j])
    && (forall k :: k in c.counts <==> k in c.order)
  }

  /** `map.set(key, v)`: a key already present keeps its place, a new one
      goes last. */
  function Set(c: CountMap, key: string, v: nat): (r: CountMap)
    ensures r.counts == c.counts[key := v]
    ensures r.order == if key in c.counts then c.order else c.order + [key]
  {
    CountMap(if key in c.counts then c.order else c.order + [key], c.counts[key := v])
  }

  /** Setting a key keeps the map well formed. */
  lemma SetWellFormed(c: CountMap, key: string, v: nat)
    requires WellFormed(c)
    ensures WellFormed(Set(c, key, v))
  {
  }

  /** `map.get(key) || 0`. */
  function Get(c: CountMap, key: string): nat {
    if key in c.counts then c.counts[key] else 0
  }

  /** `Array.from(map.entries())`, each entry as a row. */
  datatype Entry = Entry(key: string, views: nat)

  function EntriesOf(order: seq<string>, counts: map<string, nat>): (r: seq<Entry>)
    requires forall k :: k in order ==> k in counts
    ensures |r| == |order| && forall i :: 0 <= i < |r| ==> r[i] == Entry(order[i], counts[order[i]])
    decreases |order|
  {
    if order == [] then []
    else EntriesOf(order[..|order| - 1], counts) + [Entry(order[|order| - 1], counts[order[|order| - 1]])]
  }

  function Entries(c: CountMap): seq<Entry>
    requires WellFormed(c)
  {
    EntriesOf(c.order, c.counts)
  }

  /** Every key has its entry. */
  lemma EntryOfKey(c: CountMap, key: string)
    requires WellFormed(c) && key in c.counts
    ensures exists k :: 0 <= k < |Entries(c)| && Entries(c)[k] == Entry(key, c.counts[key])
  {
    var k :| 0 <= k < |c.order| && c.order[k] == key;
    assert Entries(c)[k] == Entry(key, c.counts[key]);
  }

  /** The counts of the listed keys added up. */
  function SumOver(order: seq<string>, counts: map<string, nat>): nat
    requires forall k :: k in order ==> k in counts
    decreases |order|
  {
    if order == [] then 0
    else SumOver(order[..|order| - 1], counts) + counts[order[|order| - 1]]
  }

  function Total(c: CountMap): nat
    requires WellFormed(c)
  {
    SumOver(c.order, c.counts)
  }

  /** The views of a list of rows added up. */
  function SumViews(s: seq<Entry>): nat
    decreases |s|
  {
    if s == [] then 0 else SumViews(s[..|s| - 1]) + s[|s| - 1].views
  }

  lemma {:induction false} SumViewsEntries(order: seq<string>, counts: map<string, nat>)
    requires forall k :: k in order ==> k in counts
    ensures SumViews(EntriesOf(order, counts)) == SumOver(order, counts)
    decreases |order|
  {
    if order != [] {
      var n := |order| - 1;
      SumViewsEntries(order[..n], counts);
      var e := EntriesOf(order, counts);
      assert e[..n] == EntriesOf(order[..n], counts);
    }
  }

  /** A count of a key not listed does not enter the sum. */
  lemma {:induction false} SumOverUnlisted(order: seq<string>, counts: map<string, nat>, key: string, v: nat)
    requires forall k :: k in order ==> k in counts
    requires key !in order
    ensures SumOver(order, counts[key := v]) == SumOver(order, counts)
    decreases |order|
  {
    if order != [] {
      var n := |order| - 1;
      assert key !in order[..n] by {
        assert forall k :: k in order[..n] ==> k in order;
      }
      SumOverUnlisted(order[..n], counts, key, v);
    }
  }

  /** Raising the count of a listed key raises the sum by as much. */
  lemma {:induction false} SumOverRaise(order: seq<string>, counts: map<string, nat>, key: string, d: nat)
    requires forall k :: k in order ==> k in counts
    requires forall i, j :: 0 <= i < j < |order| ==> order[i] != order[j]
    requires key in order
    ensures SumOver(order, counts[key := counts[key] + d]) == SumOver(order, counts) + d
    decreases |order|
  {
    var n := |order| - 1;
    var front := order[..n];
    assert forall k :: k in front ==> k in order;
    if order[n] == key {
      assert key !in front by {
        forall i | 0 <= i < n
          ensures front[i] != key
        {
          assert front[i] == order[i];
        }
      }
      SumOverUnlisted(front, counts, key, counts[key] + d);
    } else {
      assert key in front by {
        var i :| 0 <= i < |order| && order[i] == key;
        assert front[i] == key;
      }
      SumOverRaise(front, counts, key, d);
    }
  }

  /** Setting a new key adds its count to the sum. */
  lemma SumOverAppend(order: seq<string>, counts: map<string, nat>, key: string, v: nat)
    requires forall k :: k in order ==> k in counts
    requires key !in order
    ensures SumOver(order + [key], counts[key := v]) == SumOver(order, counts) + v
  {
    assert (order + [key])[..|order|] == order;
    SumOverUnlisted(order, counts, key, v);
  }

  /** Raising one count by one raises the total by one; a new key raises it
      by its count. */
  lemma TotalSet(c: CountMap, key: string, v: nat)
    requires WellFormed(c)
    requires key in c.counts ==> v == c.counts[key] + 1
    ensures Total(Set(c, key, v)) == Total(c) + (if key in c.counts then 1 else v)
  {
    if key in c.counts {
      SumOverRaise(c.order, c.counts, key, 1);
    } else {
      SumOverAppend(c.order, c.counts, key, v);
    }
  }

  // ---------------------------------------------------------------------
  // Counting the views
  // ---------------------------------------------------------------------

  /** The number of views of page `p`. */
  function CountPath(views: seq<View>, p: string): nat
    decreases |views|
  {
    if views == [] then 0
    else CountPath(views[..|views| - 1], p) + (if views[|views| - 1].pagePath == p then 1 else 0)
  }

  /** The number of views on the day whose key is `d`. */
  function CountDay(views: seq<View>, dayKey: string -> string, d: string): nat
    decreases |views|
  {
    if views == [] then 0
    else CountDay(views[..|views| - 1], dayKey, d) + (if dayKey(views[|views| - 1].createdAt) == d then 1 else 0)
  }

  /** A page no view is of has no views. */
  lemma {:induction false} UnseenPathCount(views: seq<View>, p: string)
    requires forall j :: 0 <= j < |views| ==> views[j].pagePath != p
    ensures CountPath(views, p) == 0
    decreases |views|
  {
    if views != [] {
      var n := |views| - 1;
      assert forall j :: 0 <= j < n ==> views[..n][j] == views[j];
      UnseenPathCount(views[..n], p);
    }
  }

  /** The distinct visitor ids, leaving out missing and empty ones as
      `filter(Boolean)` does. */
  function VisitorIds(views: seq<View>): set<string> {
    set j | 0 <= j < |views| && views[j].visitorId.Some? && views[j].visitorId.value != "" :: views[j].visitorId.value
  }

  /** There are never more distinct visitors than views. */
  lemma {:induction false} VisitorsAtMostViews(views: seq<View>)
    ensures |VisitorIds(views)| <= |views|
    decreases |views|
  {
    if views != [] {
      var n := |views| - 1;
      var front := views[..n];
      VisitorsAtMostViews(front);
      var last := if views[n].visitorId.Some? then {views[n].visitorId.value} else {};
      assert VisitorIds(views) <= VisitorIds(front) + last by {
        forall x | x in VisitorIds(views)
          ensures x in VisitorIds(front) + last
        {
          var j :| 0 <= j < |views| && views[j].visitorId.Some? && views[j].visitorId.value != "" && views[j].visitorId.value == x;
          if j < n {
            assert front[j] == views[j];
          }
        }
      }
      SubsetCard(VisitorIds(views), VisitorIds(front) + last);
    }
  }

  lemma SubsetCard(a: set<string>, b: set<string>)
    requires a <= b
    ensures |a| <= |b|
  {
    assert b == a + (b - a);
  }

  // ---------------------------------------------------------------------
  // What the loops of fetchAnalytics compute
  // ---------------------------------------------------------------------

  /** The seven-day map after the seeding loop has set the days from six
      days ago down to `i` days ago to zero; `daysAgo(i)` is the key of the
      day `i` days before today. */
  function SeedFrom(daysAgo: nat -> string, i: nat): CountMap
    requires i <= 7
    decreases 7 - i
  {
    if i == 7 then EMPTY else Set(SeedFrom(daysAgo, i + 1), daysAgo(i), 0)
  }

  predicate Injective(daysAgo: nat -> string) {
    forall a, b :: 0 <= a < b <= 6 ==> daysAgo(a) != daysAgo(b)
  }

  /** The seeded map is well formed, every count zero, with at most one
      key per day seeded so far. */
  lemma {:induction false} SeedShape(daysAgo: nat -> string, i: nat)
    requires i <= 7
    ensures WellFormed(SeedFrom(daysAgo, i)) && |SeedFrom(daysAgo, i).order| <= 7 - i
    ensures forall k :: k in SeedFrom(daysAgo, i).counts ==> SeedFrom(daysAgo, i).counts[k] == 0
    decreases 7 - i
  {
    if i < 7 {
      SeedShape(daysAgo, i + 1);
      SetWellFormed(SeedFrom(daysAgo, i + 1), daysAgo(i), 0);
    }
  }

  /** The seeded map holds every day key. */
  lemma {:induction false} SeedHasDays(daysAgo: nat -> string, i: nat)
    requires i <= 7
    ensures forall j: nat :: i <= j <= 6 ==> daysAgo(j) in SeedFrom(daysAgo, i).counts
    decreases 7 - i
  {
    if i < 7 {
      SeedHasDays(daysAgo, i + 1);
    }
  }

  /** The seeded map holds nothing but day keys. */
  lemma {:induction false} SeedOnlyDays(daysAgo: nat -> string, i: nat)
    requires i <= 7
    ensures forall k :: k in SeedFrom(daysAgo, i).counts ==> exists j: nat :: i <= j <= 6 && k == daysAgo(j)
    decreases 7 - i
  {
    if i < 7 {
      SeedOnlyDays(daysAgo, i + 1);
      var c := SeedFrom(daysAgo, i + 1);
      forall k | k in SeedFrom(daysAgo, i).counts
        ensures exists j: nat :: i <= j <= 6 && k == daysAgo(j)
      {
        if k != daysAgo(i) {
          assert k in c.counts;
          var j: nat :| i + 1 <= j <= 6 && k == daysAgo(j);
        }
      }
    }
  }

  /** With seven different day keys the seeded map lists them oldest
      first. */
  lemma {:induction false} SeedOrder(daysAgo: nat -> string, i: nat)
    requires i <= 7 && Injective(daysAgo)
    ensures |SeedFrom(daysAgo, i).order| == 7 - i
    ensures forall k :: 0 <= k < 7 - i ==> SeedFrom(daysAgo, i).order[k] == daysAgo(6 - k)
    decreases 7 - i
  {
    if i < 7 {
      SeedOrder(daysAgo, i + 1);
      SeedOnlyDays(daysAgo, i + 1);
      var c := SeedFrom(daysAgo, i + 1);
      forall k | k in c.counts
        ensures k != daysAgo(i)
      {
        var j: nat :| i + 1 <= j <= 6 && k == daysAgo(j);
        assert daysAgo(j) != daysAgo(i);
      }
    }
  }

  /** The seven-day map once the views have been counted into it: a view
      raises the count of its day when that day is a key. */
  function CountDaysOf(seed: CountMap, views: seq<View>, dayKey: string -> string): CountMap
    decreases |views|
  {
    if views == [] then seed
    else
      var c := CountDaysOf(seed, views[..|views| - 1], dayKey);
      var day := dayKey(views[|views| - 1].createdAt);
      if day in c.counts then Set(c, day, c.counts[day] + 1) else c
  }

  /** Counting keeps the keys and their order. */
  lemma {:induction false} CountDaysShape(seed: CountMap, views: seq<View>, dayKey: string -> string)
    requires WellFormed(seed)
    ensures WellFormed(CountDaysOf(seed, views, dayKey))
    ensures CountDaysOf(seed, views, dayKey).order == seed.order
    ensures CountDaysOf(seed, views, dayKey).counts.Keys == seed.counts.Keys
    decreases |views|
  {
    if views != [] {
      var n := |views| - 1;
      CountDaysShape(seed, views[..n], dayKey);
      var c := CountDaysOf(seed, views[..n], dayKey);
      var day := dayKey(views[n].createdAt);
      if day in c.counts {
        SetWellFormed(c, day, c.counts[day] + 1);
      }
    }
  }

  /** Each day's count is the number of views of that day. */
  lemma {:induction false} CountDaysValues(seed: CountMap, views: seq<View>, dayKey: string -> string)
    requires forall k :: k in seed.counts ==> seed.counts[k] == 0
    ensures var c := CountDaysOf(seed, views, dayKey);
      forall k :: k in c.counts ==> c.counts[k] == CountDay(views, dayKey, k)
    decreases |views|
  {
    if views != [] {
      CountDaysValues(seed, views[..|views| - 1], dayKey);
    }
  }

  /** The day counts add up to at most the number of views. */
  lemma {:induction false} CountDaysTotal(seed: CountMap, views: seq<View>, dayKey: string -> string)
    requires WellFormed(seed) && forall k :: k in seed.counts ==> seed.counts[k] == 0
    ensures WellFormed(CountDaysOf(seed, views, dayKey))
    ensures Total(CountDaysOf(seed, views, dayKey)) <= |views|
    decreases |views|
  {
    CountDaysShape(seed, views, dayKey);
    if views == [] {
      SumZero(seed.order, seed.counts);
    } else {
      var n := |views| - 1;
      CountDaysTotal(seed, views[..n], dayKey);
      var c := CountDaysOf(seed, views[..n], dayKey);
      var day := dayKey(views[n].createdAt);
      if day in c.counts {
        TotalSet(c, day, c.counts[day] + 1);
      }
    }
  }

  lemma {:induction false} SumZero(order: seq<string>, counts: map<string, nat>)
    requires forall k :: k in order ==> k in counts && counts[k] == 0
    ensures SumOver(order, counts) == 0
    decreases |order|
  {
    if order != [] {
      assert forall k :: k in order[..|order| - 1] ==> k in order;
      SumZero(order[..|order| - 1], counts);
    }
  }

  /** The page map once the views have been counted into it. */
  function CountPagesOf(views: seq<View>): CountMap
    decreases |views|
  {
    if views == [] then EMPTY
    else
      var c := CountPagesOf(views[..|views| - 1]);
      var page := views[|views| - 1].pagePath;
      Set(c, page, Get(c, page) + 1)
  }

  /** The page map is well formed. */
  lemma {:induction false} CountPagesShape(views: seq<View>)
    ensures WellFormed(CountPagesOf(views))
    decreases |views|
  {
    if views != [] {
      var n := |views| - 1;
      CountPagesShape(views[..n]);
      var c := CountPagesOf(views[..n]);
      SetWellFormed(c, views[n].pagePath, Get(c, views[n].pagePath) + 1);
    }
  }

  /** The page map holds the page of every view. */
  lemma {:induction false} CountPagesCovers(views: seq<View>)
    ensures forall j :: 0 <= j < |views| ==> views[j].pagePath in CountPagesOf(views).counts
    decreases |views|
  {
    if views != [] {
      var n := |views| - 1;
      var front := views[..n];
      CountPagesCovers(front);
      forall j | 0 <= j < n
        ensures views[j].pagePath in CountPagesOf(views).counts
      {
        assert front[j] == views[j];
        assert views[j].pagePath in CountPagesOf(front).counts;
      }
    }
  }

  /** Each page's count is its number of views, and at least one. */
  lemma {:induction false} CountPagesValues(views: seq<View>)
    ensures var c := CountPagesOf(views);
      forall p :: p in c.counts ==> c.counts[p] == CountPath(views, p) && c.counts[p] >= 1
    decreases |views|
  {
    if views != [] {
      var n := |views| - 1;
      var front := views[..n];
      CountPagesValues(front);
      CountPagesCovers(front);
      var c := CountPagesOf(front);
      var page := views[n].pagePath;
      if page !in c.counts {
        UnseenPathCount(front, page);
      }
    }
  }

  /** The page counts add up to the number of views. */
  lemma {:induction false} CountPagesTotal(views: seq<View>)
    ensures WellFormed(CountPagesOf(views))
    ensures Total(CountPagesOf(views)) == |views|
    decreases |views|
  {
    CountPagesShape(views);
    if views != [] {
      var n := |views| - 1;
      CountPagesTotal(views[..n]);
      var c := CountPagesOf(views[..n]);
      var page := views[n].pagePath;
      TotalSet(c, page, Get(c, page) + 1);
    }
  }

  /** Every page in the map is a page some view is of. */
  lemma CountedPathOccurs(views: seq<View>, p: string)
    requires p in CountPagesOf(views).counts
    ensures exists j :: 0 <= j < |views| && views[j].pagePath == p
  {
    CountPagesValues(views);
    if forall j :: 0 <= j < |views| ==> views[j].pagePath != p {
      UnseenPathCount(views, p);
    }
  }

  // ---------------------------------------------------------------------
  // The loops of fetchAnalytics
  // ---------------------------------------------------------------------

  /** The first loop: `for (let i = 6; i >= 0; i--) dailyMap.set(key, 0)`. */
  method SeedDays(daysAgo: nat -> string) returns (c: CountMap)
    ensures c == SeedFrom(daysAgo, 0)
  {
    c := EMPTY;
    var i: nat := 7;
    while i > 0
      invariant i <= 7 && c == SeedFrom(daysAgo, i)
    {
      i := i - 1;
      c := Set(c, daysAgo(i), 0);
    }
  }

  /** The second loop: each view raises the count of its day, when that
      day is a key. */
  method CountDays(seed: CountMap, views: seq<View>, dayKey: string -> string) returns (c: CountMap)
    ensures c == CountDaysOf(seed, views, dayKey)
  {
    c := seed;
    var n := 0;
    while n < |views|
      invariant 0 <= n <= |views| && c == CountDaysOf(seed, views[..n], dayKey)
    {
      assert views[..n + 1][..n] == views[..n];
      var day := dayKey(views[n].createdAt);
      if day in c.counts {
        c := Set(c, day, c.counts[day] + 1);
      }
      n := n + 1;
    }
    assert views[..n] == views;
  }

  /** The page loop: each view raises the count of its page, a new page
      entering with one. */
  method CountPages(views: seq<View>) returns (c: CountMap)
    ensures c == CountPagesOf(views)
  {
    c := EMPTY;
    var n := 0;
    while n < |views|
      invariant 0 <= n <= |views| && c == CountPagesOf(views[..n])
    {
      assert views[..n + 1][..n] == views[..n];
      var page := views[n].pagePath;
      c := Set(c, page, Get(c, page) + 1);
      n := n + 1;
    }
    assert views[..n] == views;
  }

  // ---------------------------------------------------------------------
  // The five most viewed pages
  // ---------------------------------------------------------------------

  predicate Descending(s: seq<Entry>) {
    forall i, j :: 0 <= i < j < |s| ==> s[i].views >= s[j].views
  }

  /** `e` put before the first entry with no more views than it. */
  function Insert(e: Entry, s: seq<Entry>): (r: seq<Entry>)
    ensures |r| == |s| + 1 && multiset(r) == multiset(s) + multiset{e}
    ensures r[0] == e || (s != [] && r[0] == s[0])
    decreases |s|
  {
    if s == [] || s[0].views <= e.views then [e] + s
    else
      assert s == [s[0]] + s[1..];
      [s[0]] + Insert(e, s[1..])
  }

  lemma {:induction false} InsertDescending(e: Entry, s: seq<Entry>)
    requires Descending(s)
    ensures Descending(Insert(e, s))
    decreases |s|
  {
    if s != [] && s[0].views > e.views {
      var t := Insert(e, s[1..]);
      InsertDescending(e, s[1..]);
      assert Insert(e, s) == [s[0]] + t;
      forall j | 0 <= j < |t|
        ensures t[j].views <= s[0].views
      {
        assert t[j] in multiset(t);
        if t[j] != e {
          assert t[j] in multiset(s[1..]);
          var k :| 0 <= k < |s[1..]| && s[1..][k] == t[j];
          assert s[k + 1] == t[j];
        }
      }
    }
  }

  /** `sort((a, b) => b.views - a.views)`, by insertion; entries with equal
      views keep their order. */
  function SortByViews(s: seq<Entry>): (r: seq<Entry>)
    ensures multiset(r) == multiset(s) && |r| == |s|
    decreases |s|
  {
    if s == [] then []
    else
      assert s == [s[0]] + s[1..];
      Insert(s[0], SortByViews(s[1..]))
  }

  lemma {:induction false} SortDescending(s: seq<Entry>)
    ensures Descending(SortByViews(s))
    decreases |s|
  {
    if s != [] {
      SortDescending(s[1..]);
      InsertDescending(s[0], SortByViews(s[1..]));
    }
  }

  /** `.slice(0, 5)` of the sorted entries. */
  function TopPages(m: seq<Entry>): seq<Entry> {
    var sorted := SortByViews(m);
    if |sorted| <= 5 then sorted else sorted[..5]
  }

  /** The top pages are the first `min(|m|, 5)` entries of the sorted
      ones, most viewed first, each one of the entries. */
  lemma TopPagesShape(m: seq<Entry>)
    ensures var r := TopPages(m);
      |r| == (if |m| <= 5 then |m| else 5) && Descending(r)
      && forall x :: x in r ==> x in m
  {
    var sorted := SortByViews(m);
    SortDescending(m);
    var r := TopPages(m);
    forall x | x in r
      ensures x in m
    {
      assert x in multiset(sorted);
      assert x in multiset(m);
    }
  }

  /** No entry left out has more views than the last one shown. */
  lemma TopPagesCutoff(m: seq<Entry>, x: Entry)
    requires x in m && x !in TopPages(m)
    ensures |TopPages(m)| == 5 && x.views <= TopPages(m)[4].views
  {
    var sorted := SortByViews(m);
    SortDescending(m);
    assert x in multiset(m);
    assert x in multiset(sorted);
    var k :| 0 <= k < |sorted| && sorted[k] == x;
    if |sorted| <= 5 {
      assert false;
    } else {
      var r := TopPages(m);
      assert forall i :: 0 <= i < 5 ==> r[i] == sorted[i];
      assert k >= 5;
      assert r[4] == sorted[4];
    }
  }

  // ---------------------------------------------------------------------
  // The panel
  // ---------------------------------------------------------------------

  /** The map of the last seven days, seeded and counted. */
  function DailyMap(views: seq<View>, daysAgo: nat -> string, dayKey: string -> string): (c: CountMap)
    ensures WellFormed(c) && c.order == SeedFrom(daysAgo, 0).order
  {
    SeedShape(daysAgo, 0);
    CountDaysShape(SeedFrom(daysAgo, 0), views, dayKey);
    CountDaysOf(SeedFrom(daysAgo, 0), views, dayKey)
  }

  /** The seven-day rows `fetchAnalytics` shows for `views`. */
  function DailyViews(views: seq<View>, daysAgo: nat -> string, dayKey: string -> string): seq<Entry> {
    Entries(DailyMap(views, daysAgo, dayKey))
  }

  /** The page rows `fetchAnalytics` shows for `views`. */
  function PageStats(views: seq<View>): seq<Entry> {
    CountPagesShape(views);
    TopPages(Entries(CountPagesOf(views)))
  }

  /** Each daily row carries the views of its day, the rows have different
      days, and their views add up to at most all the views. */
  lemma DailyViewsCounts(views: seq<View>, daysAgo: nat -> string, dayKey: string -> string)
    ensures var d := DailyViews(views, daysAgo, dayKey);
      (forall k :: 0 <= k < |d| ==> d[k].views == CountDay(views, dayKey, d[k].key))
      && (forall i, j :: 0 <= i < j < |d| ==> d[i].key != d[j].key)
      && SumViews(d) <= |views|
  {
    var seed := SeedFrom(daysAgo, 0);
    SeedShape(daysAgo, 0);
    CountDaysValues(seed, views, dayKey);
    CountDaysTotal(seed, views, dayKey);
    var c := DailyMap(views, daysAgo, dayKey);
    SumViewsEntries(c.order, c.counts);
  }

  /** There are one to seven daily rows, one for each of the seven
      days. */
  lemma DailyViewsHasDays(views: seq<View>, daysAgo: nat -> string, dayKey: string -> string)
    ensures var d := DailyViews(views, daysAgo, dayKey);
      1 <= |d| <= 7 && forall j: nat :: j <= 6 ==> exists k :: 0 <= k < |d| && d[k].key == daysAgo(j)
  {
    var seed := SeedFrom(daysAgo, 0);
    SeedShape(daysAgo, 0);
    SeedHasDays(daysAgo, 0);
    CountDaysShape(seed, views, dayKey);
    var c := DailyMap(views, daysAgo, dayKey);
    forall j: nat | j <= 6
      ensures exists k :: 0 <= k < |Entries(c)| && Entries(c)[k].key == daysAgo(j)
    {
      EntryOfKey(c, daysAgo(j));
    }
  }

  /** Every daily row is one of the seven days. */
  lemma DailyViewsOnlyDays(views: seq<View>, daysAgo: nat -> string, dayKey: string -> string)
    ensures var d := DailyViews(views, daysAgo, dayKey);
      forall k :: 0 <= k < |d| ==> exists j: nat :: j <= 6 && d[k].key == daysAgo(j)
  {
    var seed := SeedFrom(daysAgo, 0);
    SeedShape(daysAgo, 0);
    SeedOnlyDays(daysAgo, 0);
    CountDaysShape(seed, views, dayKey);
    var c := DailyMap(views, daysAgo, dayKey);
    var d := DailyViews(views, daysAgo, dayKey);
    forall k | 0 <= k < |d|
      ensures exists j: nat :: j <= 6 && d[k].key == daysAgo(j)
    {
      assert d[k].key == c.order[k];
      assert c.order[k] in c.counts;
    }
  }

  /** With seven different day keys the rows are the seven days, oldest
      first. */
  lemma DailyViewsOrder(views: seq<View>, daysAgo: nat -> string, dayKey: string -> string)
    requires Injective(daysAgo)
    ensures var d := DailyViews(views, daysAgo, dayKey);
      |d| == 7 && forall k :: 0 <= k < 7 ==> d[k].key == daysAgo(6 - k)
  {
    SeedOrder(daysAgo, 0);
  }

  /** Each page row is a page some view is of, with its number of views. */
  lemma PageStatsRows(views: seq<View>)
    ensures var r := PageStats(views);
      |r| <= 5 && Descending(r)
      && forall k :: 0 <= k < |r| ==> r[k].views == CountPath(views, r[k].key) && r[k].views >= 1
                                      && exists j :: 0 <= j < |views| && views[j].pagePath == r[k].key
  {
    CountPagesShape(views);
    CountPagesValues(views);
    var c := CountPagesOf(views);
    var all := Entries(c);
    TopPagesShape(all);
    var r := PageStats(views);
    forall k | 0 <= k < |r|
      ensures r[k].views == CountPath(views, r[k].key) && r[k].views >= 1
              && exists j :: 0 <= j < |views| && views[j].pagePath == r[k].key
    {
      assert r[k] in all;
      var i :| 0 <= i < |all| && all[i] == r[k];
      assert c.order[i] in c.counts;
      CountedPathOccurs(views, r[k].key);
    }
  }

  /** A viewed page is shown, or five pages are shown each with at least
      its number of views. */
  lemma PageStatsCover(views: seq<View>, j: int)
    requires 0 <= j < |views|
    ensures var r := PageStats(views); var p := views[j].pagePath;
      Entry(p, CountPath(views, p)) in r || (|r| == 5 && CountPath(views, p) <= r[4].views)
  {
    CountPagesShape(views);
    CountPagesCovers(views);
    CountPagesValues(views);
    var c := CountPagesOf(views);
    var all := Entries(c);
    var p := views[j].pagePath;
    assert p in c.order;
    var i :| 0 <= i < |c.order| && c.order[i] == p;
    assert all[i] == Entry(p, CountPath(views, p));
    if Entry(p, CountPath(views, p)) !in PageStats(views) {
      TopPagesCutoff(all, all[i]);
    }
  }

  class AnalyticsPanel {
    var isLoading: bool
    var totalViews: nat
    var uniqueVisitors: nat
    var dailyViews: seq<Entry>
    var pageStats: seq<Entry>

    constructor ()
      ensures isLoading && totalViews == 0 && uniqueVisitors == 0 && dailyViews == [] && pageStats == []
    {
      isLoading, totalViews, uniqueVisitors, dailyViews, pageStats := true, 0, 0, [], [];
    }

    /** The panel shows the figures of `views`. */
    predicate Shows(views: seq<View>, daysAgo: nat -> string, dayKey: string -> string)
      reads this
    {
      totalViews == |views| && uniqueVisitors == |VisitorIds(views)|
      && dailyViews == DailyViews(views, daysAgo, dayKey) && pageStats == PageStats(views)
    }

    /** `fetchAnalytics` with the query's outcome: the rows, or nothing when
        it failed, which leaves the figures as they were. */
    method FetchAnalytics(rows: Option<seq<View>>, daysAgo: nat -> string, dayKey: string -> string)
      modifies this
      ensures !isLoading
      ensures rows.None? ==> totalViews == old(totalViews) && uniqueVisitors == old(uniqueVisitors)
                             && dailyViews == old(dailyViews) && pageStats == old(pageStats)
      ensures rows.Some? ==> Shows(rows.value, daysAgo, dayKey)
    {
      if rows.Some? {
        var views := rows.value;
        var visitors, daily, pages := Tally(views, daysAgo, dayKey);
        totalViews, uniqueVisitors, dailyViews, pageStats := |views|, visitors, daily, pages;
      }
      isLoading := false;
    }
  }

  /** The figures `fetchAnalytics` derives from the rows: the distinct
      visitors, and the two counting passes with the rows they give. */
  method Tally(views: seq<View>, daysAgo: nat -> string, dayKey: string -> string)
    returns (visitors: nat, daily: seq<Entry>, pages: seq<Entry>)
    ensures visitors == |VisitorIds(views)|
    ensures daily == DailyViews(views, daysAgo, dayKey) && pages == PageStats(views)
  {
    visitors := |VisitorIds(views)|;
    var seeded := SeedDays(daysAgo);
    var days := CountDays(seeded, views, dayKey);
    assert days == DailyMap(views, daysAgo, dayKey);
    daily := Entries(days);
    var counted := CountPages(views);
    CountPagesShape(views);
    pages := TopPages(Entries(counted));
  }
}
