/**
 * The statistics handler `GET /stats` of backend/routes/userRoutes.js: the
 * caller's community recipes, their review total, the average of their
 * positive ratings, and the most common tag, found by tallying every tag
 * into a dictionary and scanning its entries for the first strictly
 * larger count.
 *
 * The dictionary is modelled as its keys in insertion order plus a map of
 * counts; `Object.entries` enumerates it in the order of the
 * OrdinaryOwnPropertyKeys operation of ECMA-262: the array-index keys in
 * ascending numeric order, then the other keys in insertion order.
 */
module UserStats {
  import opened JsBuiltins
  import opened CommunityRecipe

  /** The reply body `{ totalRecipes, totalReviews, averageRating, favoriteTag }`. */
  datatype Stats = Stats(totalRecipes: nat, totalReviews: nat, averageRating: real, favoriteTag: string)

  /** The query `{ user: req.user._id }`. */
  function OwnedBy(caller: string): Recipe -> bool
  {
    (r: Recipe) => r.user == caller
  }

  /** The caller's recipes, in table order. */
  function OwnRecipes(table: seq<Recipe>, caller: string): (r: seq<Recipe>)
    ensures forall i :: 0 <= i < |r| ==> r[i].user == caller && r[i] in table
    ensures forall i :: 0 <= i < |table| && table[i].user == caller ==> table[i] in r
    ensures Subsequence(r, table)
    ensures forall x :: Count(r, x) == if x.user == caller then Count(table, x) else 0
  {
    FilterIsSubsequence(table, OwnedBy(caller));
    FilterCount(table, OwnedBy(caller));
    Filter(table, OwnedBy(caller))
  }

  // ---------------------------------------------------------------------
  // The three accumulations, defined on a growing prefix
  // ---------------------------------------------------------------------

  /** The sum of the ratings that are greater than 0. */
  function RatingSum(rs: seq<Recipe>): real
  {
    if rs == [] then 0.0
    else RatingSum(rs[..|rs| - 1]) + (if rs[|rs| - 1].rating > 0.0 then rs[|rs| - 1].rating else 0.0)
  }

  /** The number of ratings that are greater than 0. */
  function RatedCount(rs: seq<Recipe>): nat
  {
    if rs == [] then 0
    else RatedCount(rs[..|rs| - 1]) + (if rs[|rs| - 1].rating > 0.0 then 1 else 0)
  }

  /** The number of reviews the recipes carry together. */
  function ReviewTotal(rs: seq<Recipe>): nat
  {
    if rs == [] then 0 else ReviewTotal(rs[..|rs| - 1]) + |rs[|rs| - 1].reviews|
  }

  /** Every tag of every recipe, recipe by recipe and in each recipe's order. */
  function AllTags(rs: seq<Recipe>): seq<string>
  {
    if rs == [] then [] else AllTags(rs[..|rs| - 1]) + rs[|rs| - 1].tags
  }

  /** The mean of the positive ratings, or 0 when there are none. */
  function Average(rs: seq<Recipe>): (r: real)
    ensures RatedCount(rs) == 0 ==> r == 0.0
    ensures RatedCount(rs) > 0 ==> r * (RatedCount(rs) as real) == RatingSum(rs)
  {
    if RatedCount(rs) > 0 then RatingSum(rs) / (RatedCount(rs) as real) else 0.0
  }

  /** Ratings of 0 (the schema default, "not rated") neither count nor add. */
  lemma {:induction false} UnratedIgnored(rs: seq<Recipe>)
    requires forall i :: 0 <= i < |rs| ==> rs[i].rating == 0.0
    ensures RatedCount(rs) == 0 && RatingSum(rs) == 0.0 && Average(rs) == 0.0
  {
    if rs != [] {
      UnratedIgnored(rs[..|rs| - 1]);
    }
  }

  /** Since every stored rating lies in [0, 5], so does the average. */
  lemma {:induction false} AverageWithinBounds(rs: seq<Recipe>)
    requires forall i :: 0 <= i < |rs| ==> WellFormed(rs[i])
    ensures 0.0 <= RatingSum(rs) <= MaxRating * (RatedCount(rs) as real)
    ensures MinRating <= Average(rs) <= MaxRating
  {
    if rs != [] {
      AverageWithinBounds(rs[..|rs| - 1]);
    }
  }

  // ---------------------------------------------------------------------
  // The tag tally
  // ---------------------------------------------------------------------

  /** The dictionary `tagCounts`: its own keys in insertion order, and their counts. */
  datatype Tally = Tally(keys: seq<string>, counts: map<string, nat>)

  /** `tagCounts[tag] = (tagCounts[tag] || 0) + 1` on a dictionary without inherited members. */
  function Bump(t: Tally, tag: string): Tally
  {
    Tally(if tag in t.counts then t.keys else t.keys + [tag],
          t.counts[tag := (if tag in t.counts then t.counts[tag] else 0) + 1])
  }

  /** The tally of a sequence of tags. */
  function TallyOf(tags: seq<string>): Tally
  {
    if tags == [] then Tally([], map[]) else Bump(TallyOf(tags[..|tags| - 1]), tags[|tags| - 1])
  }

  /**
   * The tally counts every tag exactly as often as it occurs, and its keys
   * are the distinct tags, each once.
   */
  lemma {:induction false} TallyCounts(tags: seq<string>)
    ensures forall k :: k in TallyOf(tags).counts <==> k in tags
    ensures forall k :: k in TallyOf(tags).counts ==> TallyOf(tags).counts[k] == Count(tags, k)
    ensures forall k :: k in TallyOf(tags).keys <==> k in TallyOf(tags).counts
    ensures NoDuplicates(TallyOf(tags).keys)
  {
    if tags != [] {
      var init, last := tags[..|tags| - 1], tags[|tags| - 1];
      assert tags == init + [last];
      TallyCounts(init);
      var before, after := TallyOf(init), TallyOf(tags);
      assert after == Bump(before, last);
      forall k | k in after.counts ensures after.counts[k] == Count(tags, k) {
        CountSnoc(init, last, k);
        if k !in init {
          CountAbsent(init, k);
        }
      }
    }
  }

  lemma {:induction false} CountAbsent<T>(s: seq<T>, x: T)
    requires x !in s
    ensures Count(s, x) == 0
  {
    if s != [] {
      assert x !in s[1..];
      CountAbsent(s[1..], x);
    }
  }

  /** Counting over a sequence with one more element at the end. */
  lemma {:induction false} CountSnoc<T>(s: seq<T>, x: T, y: T)
    ensures Count(s + [x], y) == Count(s, y) + (if x == y then 1 else 0)
  {
    if s != [] {
      assert (s + [x])[1..] == s[1..] + [x];
      CountSnoc(s[1..], x, y);
    }
  }

  // ---------------------------------------------------------------------
  // Object.entries order
  // ---------------------------------------------------------------------

  predicate IsDigit(c: char)
  {
    '0' <= c <= '9'
  }

  /** The decimal value of a string of digits. */
  function DigitsValue(s: string): nat
  {
    if s == [] then 0
    else DigitsValue(s[..|s| - 1]) * 10 + (if IsDigit(s[|s| - 1]) then (s[|s| - 1] - '0') as nat else 0)
  }

  const MaxArrayIndex := 4294967295

  /** A canonical numeric string (no sign, no leading zero) whose value is below 2^32 - 1. */
  predicate IsArrayIndex(k: string)
  {
    && k != []
    && (forall i :: 0 <= i < |k| ==> IsDigit(k[i]))
    && (k[0] == '0' ==> |k| == 1)
    && DigitsValue(k) < MaxArrayIndex
  }

  predicate Ascending(s: seq<string>)
  {
    forall i, j :: 0 <= i < j < |s| ==> DigitsValue(s[i]) <= DigitsValue(s[j])
  }

  /** Insertion of one key into an ascending run. */
  function Insert(k: string, s: seq<string>): (r: seq<string>)
    ensures multiset(r) == multiset(s) + multiset{k}
  {
    if s == [] then [k]
    else if DigitsValue(k) <= DigitsValue(s[0]) then [k] + s
    else
      assert s == [s[0]] + s[1..];
      [s[0]] + Insert(k, s[1..])
  }

  lemma {:induction false} InsertAscending(k: string, s: seq<string>)
    requires Ascending(s)
    ensures Ascending(Insert(k, s))
  {
    if s == [] {
    } else if DigitsValue(k) <= DigitsValue(s[0]) {
      ConsAscending(k, s);
    } else {
      assert Ascending(s[1..]) by {
        assert forall j :: 0 <= j < |s[1..]| ==> s[1..][j] == s[j + 1];
      }
      InsertAscending(k, s[1..]);
      var tail := Insert(k, s[1..]);
      forall j | 0 <= j < |tail| ensures DigitsValue(s[0]) <= DigitsValue(tail[j]) {
        assert tail[j] in multiset(tail);
        assert tail[j] == k || tail[j] in s[1..];
      }
      ConsAscending(s[0], tail);
    }
  }

  /** A key no larger than the first of an ascending sequence keeps it ascending in front. */
  lemma ConsAscending(x: string, t: seq<string>)
    requires Ascending(t)
    requires t == [] || DigitsValue(x) <= DigitsValue(t[0])
    ensures Ascending([x] + t)
  {
    var r := [x] + t;
    forall i, j | 0 <= i < j < |r| ensures DigitsValue(r[i]) <= DigitsValue(r[j]) {
      assert r[j] == t[j - 1];
      if i > 0 {
        assert r[i] == t[i - 1];
      }
    }
  }

  /** The array-index keys in ascending numeric order. */
  function SortByValue(ks: seq<string>): (r: seq<string>)
    ensures multiset(r) == multiset(ks)
    ensures Ascending(r)
  {
    if ks == [] then []
    else
      assert ks == ks[..|ks| - 1] + [ks[|ks| - 1]];
      InsertAscending(ks[|ks| - 1], SortByValue(ks[..|ks| - 1]));
      Insert(ks[|ks| - 1], SortByValue(ks[..|ks| - 1]))
  }

  function NotArrayIndex(k: string): bool
  {
    !IsArrayIndex(k)
  }

  /** The array-index keys, in ascending numeric order. */
  function IndexKeys(keys: seq<string>): seq<string>
  {
    SortByValue(Filter(keys, IsArrayIndex))
  }

  /** The other keys, in insertion order. */
  function OtherKeys(keys: seq<string>): seq<string>
  {
    Filter(keys, NotArrayIndex)
  }

  /** The order in which `Object.entries` yields the keys of a dictionary built in the order `keys`. */
  function EntriesOrder(keys: seq<string>): seq<string>
  {
    IndexKeys(keys) + OtherKeys(keys)
  }

  /**
   * The enumeration puts the array indices first, ascending, then the
   * other keys as a subsequence of insertion order.
   */
  lemma EntriesOrderShape(keys: seq<string>)
    ensures forall k :: k in IndexKeys(keys) ==> IsArrayIndex(k)
    ensures Ascending(IndexKeys(keys))
    ensures forall k :: k in OtherKeys(keys) ==> !IsArrayIndex(k)
    ensures Subsequence(OtherKeys(keys), keys)
  {
    FilterIsSubsequence(keys, NotArrayIndex);
    var idx := Filter(keys, IsArrayIndex);
    forall k | k in IndexKeys(keys) ensures IsArrayIndex(k) {
      assert k in multiset(IndexKeys(keys));
      assert k in idx;
    }
  }

  /** The enumeration holds exactly the dictionary's keys. */
  lemma EntriesOrderKeys(keys: seq<string>)
    ensures forall k :: k in EntriesOrder(keys) <==> k in keys
  {
    var idx := Filter(keys, IsArrayIndex);
    forall k ensures k in EntriesOrder(keys) <==> k in keys {
      assert k in IndexKeys(keys) <==> k in multiset(IndexKeys(keys));
      assert k in IndexKeys(keys) <==> k in idx;
      if k in keys {
        var i :| 0 <= i < |keys| && keys[i] == k;
        if IsArrayIndex(k) {
          assert k in idx;
        } else {
          assert NotArrayIndex(keys[i]);
          assert k in OtherKeys(keys);
        }
      }
    }
  }

  // ---------------------------------------------------------------------
  // The scan for the favourite tag
  // ---------------------------------------------------------------------

  /** One `[tag, count]` entry; a `None` count is a value that is not a number, which no `>` test passes. */
  datatype Entry = Entry(tag: string, count: Option<nat>)

  /** The running `favoriteTag` and `maxCount`. */
  datatype Best = Best(tag: string, max: nat)

  /** The `forEach` over the entries: a later entry wins only with a strictly larger count. */
  function MaxScan(es: seq<Entry>): Best
  {
    if es == [] then Best("", 0)
    else
      var b := MaxScan(es[..|es| - 1]);
      var e := es[|es| - 1];
      if e.count.Some? && e.count.value > b.max then Best(e.tag, e.count.value) else b
  }

  /** A numeric count that wins once is never exceeded later: the scan keeps the first maximum. */
  lemma {:induction false} MaxScanFindsFirstMaximum(es: seq<Entry>) returns (i: nat)
    requires es != []
    requires forall j :: 0 <= j < |es| ==> es[j].count.Some? && es[j].count.value > 0
    ensures i < |es| && es[i].tag == MaxScan(es).tag && es[i].count == Some(MaxScan(es).max)
    ensures forall j :: 0 <= j < |es| ==> es[j].count.value <= MaxScan(es).max
    ensures forall j :: 0 <= j < i ==> es[j].count.value < MaxScan(es).max
  {
    var init := es[..|es| - 1];
    var e := es[|es| - 1];
    if init == [] {
      i := 0;
    } else {
      var k := MaxScanFindsFirstMaximum(init);
      if e.count.value > MaxScan(init).max {
        i := |es| - 1;
      } else {
        i := k;
      }
    }
  }

  /** A scan over no numeric counts finds nothing. */
  lemma {:induction false} MaxScanOfNothingNumeric(es: seq<Entry>)
    requires forall j :: 0 <= j < |es| ==> es[j].count.None?
    ensures MaxScan(es) == Best("", 0)
  {
    if es != [] {
      MaxScanOfNothingNumeric(es[..|es| - 1]);
    }
  }

  /** The entry of `key` in a dictionary without inherited members. */
  function CountEntry(t: Tally): string -> Entry
  {
    (k: string) => Entry(k, if k in t.counts then Some(t.counts[k]) else None)
  }

  /** `Object.entries(tagCounts)` for a dictionary without inherited members. */
  function Entries(t: Tally): seq<Entry>
  {
    Map(EntriesOrder(t.keys), CountEntry(t))
  }

  /** The favourite tag of a tag sequence. */
  function FavoriteTag(tags: seq<string>): string
  {
    MaxScan(Entries(TallyOf(tags))).tag
  }

  /** With no tags at all, the favourite tag is the empty string. */
  lemma NoTagsNoFavorite()
    ensures FavoriteTag([]) == ""
  {
    assert EntriesOrder([]) == [];
  }

  /**
   * With some tag, the favourite tag is one of the tags, no tag occurs
   * more often, and every tag enumerated before it occurs strictly less
   * often (ties go to the first in `Object.entries` order).
   */
  lemma FavoriteTagIsMostCommon(tags: seq<string>) returns (i: nat)
    requires tags != []
    ensures FavoriteTag(tags) in tags
    ensures forall x :: x in tags ==> Count(tags, x) <= Count(tags, FavoriteTag(tags))
    ensures i < |EntriesOrder(TallyOf(tags).keys)| && EntriesOrder(TallyOf(tags).keys)[i] == FavoriteTag(tags)
    ensures forall j :: 0 <= j < i ==>
              Count(tags, EntriesOrder(TallyOf(tags).keys)[j]) < Count(tags, FavoriteTag(tags))
  {
    TallyCounts(tags);
    i := ScanOfTallyFindsMostCommon(TallyOf(tags), tags);
  }

  /** The scan over a tally of `tags`, whatever its key order, keeps the first most common tag. */
  lemma ScanOfTallyFindsMostCommon(t: Tally, tags: seq<string>) returns (i: nat)
    requires tags != []
    requires forall k :: k in t.keys <==> k in tags
    requires forall k :: k in tags ==> k in t.counts && t.counts[k] == Count(tags, k)
    ensures MaxScan(Entries(t)).tag in tags
    ensures forall x :: x in tags ==> Count(tags, x) <= Count(tags, MaxScan(Entries(t)).tag)
    ensures i < |EntriesOrder(t.keys)| && EntriesOrder(t.keys)[i] == MaxScan(Entries(t)).tag
    ensures forall j :: 0 <= j < i ==> Count(tags, EntriesOrder(t.keys)[j]) < Count(tags, MaxScan(Entries(t)).tag)
  {
    EntriesCarryCounts(t, tags);
    i := ScanOfCountedKeys(EntriesOrder(t.keys), Entries(t), tags);
  }

  /** The scan over entries that carry the counts in `tags` of keys covering `tags`. */
  lemma ScanOfCountedKeys(ks: seq<string>, es: seq<Entry>, tags: seq<string>) returns (i: nat)
    requires tags != [] && |es| == |ks|
    requires forall j :: 0 <= j < |ks| ==> ks[j] in tags && es[j] == Entry(ks[j], Some(Count(tags, ks[j])))
    requires forall x :: x in tags ==> x in ks
    ensures MaxScan(es).tag in tags
    ensures forall x :: x in tags ==> Count(tags, x) <= Count(tags, MaxScan(es).tag)
    ensures i < |ks| && ks[i] == MaxScan(es).tag
    ensures forall j :: 0 <= j < i ==> Count(tags, ks[j]) < Count(tags, MaxScan(es).tag)
  {
    assert tags[0] in ks;
    forall j | 0 <= j < |es| ensures es[j].count.Some? && es[j].count.value > 0 {
      CountPositive(tags, ks[j]);
    }
    i := MaxScanFindsFirstMaximum(es);
    forall x | x in tags ensures Count(tags, x) <= Count(tags, MaxScan(es).tag) {
      var j :| 0 <= j < |ks| && ks[j] == x;
      assert es[j].count == Some(Count(tags, x));
    }
  }

  /** The entries of a tally of `tags` carry each tag's count, and every tag has an entry. */
  lemma EntriesCarryCounts(t: Tally, tags: seq<string>)
    requires forall k :: k in t.keys <==> k in tags
    requires forall k :: k in tags ==> k in t.counts && t.counts[k] == Count(tags, k)
    ensures |Entries(t)| == |EntriesOrder(t.keys)|
    ensures forall j :: 0 <= j < |EntriesOrder(t.keys)| ==>
              EntriesOrder(t.keys)[j] in tags
              && Entries(t)[j] == Entry(EntriesOrder(t.keys)[j], Some(Count(tags, EntriesOrder(t.keys)[j])))
    ensures forall x :: x in tags ==> x in EntriesOrder(t.keys)
  {
    var ks := EntriesOrder(t.keys);
    EntriesOrderKeys(t.keys);
    forall j | 0 <= j < |ks| ensures ks[j] in tags && Entries(t)[j] == Entry(ks[j], Some(Count(tags, ks[j]))) {
      assert ks[j] in t.keys;
      assert Entries(t)[j] == CountEntry(t)(ks[j]);
    }
  }

  lemma {:induction false} CountPositive<T>(s: seq<T>, x: T)
    requires x in s
    ensures Count(s, x) > 0
  {
    if s[0] != x {
      assert x in s[1..];
      CountPositive(s[1..], x);
    }
  }

  /**
   * Ties are broken by enumeration order, not by first appearance: "soup"
   * is tallied first, but the array index "5" is enumerated before it.
   */
  lemma IndexKeysEnumeratedFirst()
    ensures FavoriteTag(["soup", "5"]) == "5"
  {
    var t := Tally(["soup", "5"], map["soup" := 1, "5" := 1]);
    TallyOfPair("soup", "5");
    SoupFiveOrder();
    EntriesOfPair(t, "5", "soup");
    ScanOfPair(Entry("5", Some(1)), Entry("soup", Some(1)));
  }

  /** The entries of a tally enumerated as two keys. */
  lemma EntriesOfPair(t: Tally, a: string, b: string)
    requires EntriesOrder(t.keys) == [a, b] && a in t.counts && b in t.counts
    ensures Entries(t) == [Entry(a, Some(t.counts[a])), Entry(b, Some(t.counts[b]))]
  {
    var es := Entries(t);
    assert es[0] == CountEntry(t)(a) && es[1] == CountEntry(t)(b);
  }

  /** The entries as written of a tally enumerated as an inherited name and another key. */
  lemma AsWrittenEntriesOfPair(t: Tally, a: string, b: string)
    requires Filter(t.keys, NotProtoKey) == t.keys && EntriesOrder(t.keys) == [a, b]
    requires a in ObjectPrototypeMembers && b !in ObjectPrototypeMembers && b in t.counts
    ensures EntriesAsWritten(t) == [Entry(a, None), Entry(b, Some(t.counts[b]))]
  {
    var es := EntriesAsWritten(t);
    assert es[0] == InheritedEntry(t)(a) && es[1] == InheritedEntry(t)(b);
  }

  /** The tally of two distinct tags. */
  lemma TallyOfPair(a: string, b: string)
    requires a != b
    ensures TallyOf([a, b]) == Tally([a, b], map[a := 1, b := 1])
  {
    assert [a, b][..1] == [a] && [a][..0] == [];
    assert TallyOf([a]) == Tally([a], map[a := 1]);
  }

  /** The tally of a tag twice, then another. */
  lemma TallyOfDoubleThenOne(a: string, b: string)
    requires a != b
    ensures TallyOf([a, a, b]) == Tally([a, b], map[a := 2, b := 1])
  {
    assert [a, a, b][..2] == [a, a] && [a, a][..1] == [a] && [a][..0] == [];
    assert TallyOf([a]) == Tally([a], map[a := 1]);
    assert TallyOf([a, a]) == Tally([a], map[a := 2]);
  }

  /** The scan of two entries. */
  lemma ScanOfPair(x: Entry, y: Entry)
    ensures MaxScan([x, y]) == (var b := MaxScan([x]); if y.count.Some? && y.count.value > b.max then Best(y.tag, y.count.value) else b)
    ensures MaxScan([x]) == if x.count.Some? && x.count.value > 0 then Best(x.tag, x.count.value) else Best("", 0)
  {
    assert [x, y][..1] == [x] && [x][..0] == [];
  }

  lemma SoupFiveOrder()
    ensures EntriesOrder(["soup", "5"]) == ["5", "soup"]
  {
    assert !IsArrayIndex("soup") by { assert !IsDigit("soup"[0]); }
    FiveIsArrayIndex();
    OrderOfPair("soup", "5");
  }

  lemma FiveIsArrayIndex()
    ensures IsArrayIndex("5")
  {
    assert DigitsValue("5") == 5 by { assert "5"[..0] == []; }
  }

  /** Two keys, the second of them an array index: the index is enumerated first. */
  lemma OrderOfPair(a: string, b: string)
    requires !IsArrayIndex(a) && IsArrayIndex(b)
    ensures EntriesOrder([a, b]) == [b, a]
  {
    FilterOfPair(a, b, IsArrayIndex);
    FilterOfPair(a, b, NotArrayIndex);
    SortOfOne(b);
    assert IndexKeys([a, b]) == [b];
    assert OtherKeys([a, b]) == [a];
  }

  lemma FilterOfPair<T>(x: T, y: T, keep: T -> bool)
    ensures Filter([x, y], keep) == (if keep(x) then [x] else []) + (if keep(y) then [y] else [])
  {
    assert [x, y][1..] == [y] && [y][1..] == [];
  }

  lemma SortOfOne(k: string)
    ensures SortByValue([k]) == [k]
  {
    assert [k][..0] == [];
  }

  // ---------------------------------------------------------------------
  // The tally as written: a plain object literal
  // ---------------------------------------------------------------------

  /** Assigning to `__proto__` a value that is not an object is ignored, so that key never appears. */
  function NotProtoKey(k: string): bool
  {
    k != "__proto__"
  }

  /**
   * The value `tagCounts[k]` holds on the object literal `{}`: for a name
   * every object inherits (`toString`, `constructor`, ...), `tagCounts[k] || 0`
   * is the inherited function, and adding 1 concatenates text, so the
   * count is not a number.
   */
  function InheritedEntry(t: Tally): string -> Entry
  {
    (k: string) => Entry(k, if k in ObjectPrototypeMembers || k !in t.counts then None else Some(t.counts[k]))
  }

  /** `Object.entries(tagCounts)` for the object literal the handler starts from. */
  function EntriesAsWritten(t: Tally): seq<Entry>
  {
    Map(EntriesOrder(Filter(t.keys, NotProtoKey)), InheritedEntry(t))
  }

  /** The favourite tag the handler computes as written. */
  function FavoriteTagAsWritten(tags: seq<string>): string
  {
    MaxScan(EntriesAsWritten(TallyOf(tags))).tag
  }

  /** The scan answers the empty string, or the tag of an entry with a numeric count. */
  lemma {:induction false} MaxScanPicksNumeric(es: seq<Entry>) returns (i: int)
    ensures -1 <= i < |es|
    ensures i == -1 ==> MaxScan(es) == Best("", 0)
    ensures i >= 0 ==> es[i].tag == MaxScan(es).tag && es[i].count.Some?
  {
    if es == [] {
      i := -1;
    } else {
      var e := es[|es| - 1];
      if e.count.Some? && e.count.value > MaxScan(es[..|es| - 1]).max {
        i := |es| - 1;
      } else {
        i := MaxScanPicksNumeric(es[..|es| - 1]);
      }
    }
  }

  /** As written, a tag named like an inherited member can never be the favourite, however often it occurs. */
  lemma InheritedNameNeverFavorite(tags: seq<string>)
    ensures FavoriteTagAsWritten(tags) !in ObjectPrototypeMembers
  {
    InheritedNameNeverScanned(TallyOf(tags));
  }

  lemma InheritedNameNeverScanned(t: Tally)
    ensures MaxScan(EntriesAsWritten(t)).tag !in ObjectPrototypeMembers
  {
    var ks := EntriesOrder(Filter(t.keys, NotProtoKey));
    var es := EntriesAsWritten(t);
    var i := MaxScanPicksNumeric(es);
    if i >= 0 {
      assert es[i] == InheritedEntry(t)(ks[i]);
      assert ks[i] !in ObjectPrototypeMembers;
    } else {
      InheritedNamesAreLong();
    }
  }

  /** The input that shows it: "toString" occurs twice and "soup" once, yet "soup" is reported. */
  lemma InheritedNameLosesToRarerTag()
    ensures FavoriteTagAsWritten(["toString", "toString", "soup"]) == "soup"
    ensures FavoriteTag(["toString", "toString", "soup"]) == "toString"
  {
    var t := Tally(["toString", "soup"], map["toString" := 2, "soup" := 1]);
    TallyOfDoubleThenOne("toString", "soup");
    ToStringSoupOrder();
    InheritedNamesAreLong();
    assert "soup" !in ObjectPrototypeMembers;
    EntriesOfPair(t, "toString", "soup");
    AsWrittenEntriesOfPair(t, "toString", "soup");
    ScanOfPair(Entry("toString", None), Entry("soup", Some(1)));
    ScanOfPair(Entry("toString", Some(2)), Entry("soup", Some(1)));
  }

  lemma ToStringSoupOrder()
    ensures Filter(["toString", "soup"], NotProtoKey) == ["toString", "soup"]
    ensures EntriesOrder(["toString", "soup"]) == ["toString", "soup"]
  {
    assert !IsArrayIndex("toString") by { assert !IsDigit("toString"[0]); }
    assert !IsArrayIndex("soup") by { assert !IsDigit("soup"[0]); }
    assert ["toString", "soup"][1..] == ["soup"] && ["soup"][1..] == [];
    assert Filter(["toString", "soup"], NotProtoKey) == ["toString", "soup"];
    assert Filter(["toString", "soup"], IsArrayIndex) == [];
    assert Filter(["toString", "soup"], NotArrayIndex) == ["toString", "soup"];
  }

  /** Every inherited member name has at least seven characters. */
  lemma InheritedNamesAreLong()
    ensures forall k :: k in ObjectPrototypeMembers ==> |k| >= 7
  {
  }

  /** When no tag is named like an inherited member, the handler as written and the corrected one agree. */
  lemma AsWrittenAgreesWithoutInheritedNames(tags: seq<string>)
    requires forall i :: 0 <= i < |tags| ==> tags[i] !in ObjectPrototypeMembers
    ensures FavoriteTagAsWritten(tags) == FavoriteTag(tags)
  {
    TallyCounts(tags);
    var t := TallyOf(tags);
    forall k | k in t.keys ensures k !in ObjectPrototypeMembers {
      assert k in tags;
    }
    EntriesAgree(t);
  }

  lemma EntriesAgree(t: Tally)
    requires forall k :: k in t.keys ==> k !in ObjectPrototypeMembers
    ensures EntriesAsWritten(t) == Entries(t)
  {
    NoProtoKeyDropped(t.keys);
    EntriesOrderKeys(t.keys);
    var ks := EntriesOrder(t.keys);
    forall j | 0 <= j < |ks| ensures InheritedEntry(t)(ks[j]) == CountEntry(t)(ks[j]) {
      assert ks[j] in t.keys;
    }
    MapAgree(ks, InheritedEntry(t), CountEntry(t));
  }

  lemma NoProtoKeyDropped(keys: seq<string>)
    requires forall k :: k in keys ==> k !in ObjectPrototypeMembers
    ensures Filter(keys, NotProtoKey) == keys
  {
    forall i | 0 <= i < |keys| ensures NotProtoKey(keys[i]) {
      assert keys[i] in keys;
    }
    FilterKeepsAll(keys, NotProtoKey);
  }

  // ---------------------------------------------------------------------
  // The handler
  // ---------------------------------------------------------------------

  /** The first `forEach`: the sum and number of the positive ratings. */
  method SumRatings(own: seq<Recipe>) returns (totalRating: real, ratingCount: nat)
    ensures totalRating == RatingSum(own) && ratingCount == RatedCount(own)
  {
    totalRating, ratingCount := 0.0, 0;
    for i := 0 to |own|
      invariant totalRating == RatingSum(own[..i]) && ratingCount == RatedCount(own[..i])
    {
      assert own[..i + 1][..i] == own[..i];
      if own[i].rating > 0.0 {
        totalRating := totalRating + own[i].rating;
        ratingCount := ratingCount + 1;
      }
    }
    assert own[..|own|] == own;
  }

  /** The inner `forEach`: one recipe's tags bumped into the tally in turn. */
  method BumpAll(keys0: seq<string>, counts0: map<string, nat>, seen: seq<string>, tags: seq<string>)
    returns (keys: seq<string>, counts: map<string, nat>)
    requires Tally(keys0, counts0) == TallyOf(seen)
    ensures Tally(keys, counts) == TallyOf(seen + tags)
  {
    keys, counts := keys0, counts0;
    assert seen + tags[..0] == seen;
    for j := 0 to |tags|
      invariant Tally(keys, counts) == TallyOf(seen + tags[..j])
    {
      var tag := tags[j];
      assert (seen + tags[..j + 1])[..|seen| + j] == seen + tags[..j];
      var current := if tag in counts then counts[tag] else 0;
      if tag !in counts {
        keys := keys + [tag];
      }
      counts := counts[tag := current + 1];
    }
    assert tags[..|tags|] == tags;
  }

  /** The second `forEach`: the tally of every tag of every recipe. */
  method TallyTags(own: seq<Recipe>) returns (keys: seq<string>, counts: map<string, nat>)
    ensures Tally(keys, counts) == TallyOf(AllTags(own))
  {
    keys, counts := [], map[];
    for i := 0 to |own|
      invariant Tally(keys, counts) == TallyOf(AllTags(own[..i]))
    {
      assert own[..i + 1][..i] == own[..i];
      if |own[i].tags| > 0 {
        keys, counts := BumpAll(keys, counts, AllTags(own[..i]), own[i].tags);
      } else {
        assert AllTags(own[..i]) + own[i].tags == AllTags(own[..i]);
      }
    }
    assert own[..|own|] == own;
  }

  /** The `forEach` over `Object.entries(tagCounts)`. */
  method ScanEntries(entries: seq<Entry>) returns (favoriteTag: string, maxCount: nat)
    ensures Best(favoriteTag, maxCount) == MaxScan(entries)
  {
    favoriteTag, maxCount := "", 0;
    for i := 0 to |entries|
      invariant Best(favoriteTag, maxCount) == MaxScan(entries[..i])
    {
      assert entries[..i + 1][..i] == entries[..i];
      var e := entries[i];
      if e.count.Some? && e.count.value > maxCount {
        maxCount := e.count.value;
        favoriteTag := e.tag;
      }
    }
    assert entries[..|entries|] == entries;
  }

  /** The last `forEach`: the review total. */
  method SumReviews(own: seq<Recipe>) returns (totalReviews: nat)
    ensures totalReviews == ReviewTotal(own)
  {
    totalReviews := 0;
    for i := 0 to |own|
      invariant totalReviews == ReviewTotal(own[..i])
    {
      assert own[..i + 1][..i] == own[..i];
      if |own[i].reviews| > 0 {
        totalReviews := totalReviews + |own[i].reviews|;
      }
    }
    assert own[..|own|] == own;
  }

  /** The statistics the handler answers for `caller`, over the recipe table `table`. */
  method ComputeStats(table: seq<Recipe>, caller: string) returns (s: Stats)
    ensures s.totalRecipes == |OwnRecipes(table, caller)|
    ensures s.totalReviews == ReviewTotal(OwnRecipes(table, caller))
    ensures s.averageRating == Average(OwnRecipes(table, caller))
    ensures s.favoriteTag == FavoriteTagAsWritten(AllTags(OwnRecipes(table, caller)))
    ensures (forall i :: 0 <= i < |AllTags(OwnRecipes(table, caller))| ==> AllTags(OwnRecipes(table, caller))[i] !in ObjectPrototypeMembers)
            ==> s.favoriteTag == FavoriteTag(AllTags(OwnRecipes(table, caller)))
  {
    var own := OwnRecipes(table, caller);
    var totalRecipes := |own|;
    var totalRating, ratingCount := SumRatings(own);
    var averageRating := if ratingCount > 0 then totalRating / (ratingCount as real) else 0.0;
    var keys, counts := TallyTags(own);
    var favoriteTag, maxCount := ScanEntries(EntriesAsWritten(Tally(keys, counts)));
    if forall i :: 0 <= i < |AllTags(own)| ==> AllTags(own)[i] !in ObjectPrototypeMembers {
      AsWrittenAgreesWithoutInheritedNames(AllTags(own));
    }
    var totalReviews := SumReviews(own);
    s := Stats(totalRecipes, totalReviews, averageRating, favoriteTag);
  }
}
