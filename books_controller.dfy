/**
 * The in-memory part of the book handlers (api/controllers/books-controller.js):
 * de-duplication of result lists, the series-number filter, the merge of the
 * chosen books into one reading profile, the top-genre and top-tag cut-offs,
 * the search fill-up, and the sort / slice / project pipeline of the
 * recommendation and search handlers. Database queries and aggregations are
 * not modelled: their results are parameters, a query's matches in the
 * order the query sorts them.
 */
module BooksController {
  import opened JsValues
  import opened BookModel
  import opened Helpers
  import opened AppErrors
  import opened QueryHandlers

  // ---------------------------------------------------------------------------
  // removeDuplicates
  // ---------------------------------------------------------------------------

  /**
   * The match of `removeDuplicates` between the element `el` and a candidate
   * `el2`: the candidate's title starts with the element's title, or both
   * have the same ISBN, or the same Goodreads id (each side non-empty).
   * The `_id` clause compares ObjectId objects with `===`, which holds only
   * for the very same object; it is accounted for by `FirstMatch`.
   */
  predicate SameBook(el: Book, el2: Book) {
    || (Present(el2.title) && Present(el.title) && StartsWith(el2.title.value, el.title.value))
    || (Present(el2.isbn) && Present(el.isbn) && el2.isbn == el.isbn)
    || (Present(el2.goodreadsId) && Present(el.goodreadsId) && el2.goodreadsId == el.goodreadsId)
  }

  function FirstMatchFrom(arr: seq<Book>, i: nat, k: nat): (j: nat)
    requires k <= i < |arr|
    ensures k <= j <= i && (j == i || SameBook(arr[i], arr[j]))
    ensures forall m | k <= m < j :: !SameBook(arr[i], arr[m])
    decreases i - k
  {
    if k == i || SameBook(arr[i], arr[k]) then k else FirstMatchFrom(arr, i, k + 1)
  }

  /**
   * `arr.findIndex(el2 => match(arr[i], el2))`: the first index whose book
   * matches the element at `i`; the element itself matches at the latest,
   * by its title or by its own `_id`.
   */
  function FirstMatch(arr: seq<Book>, i: nat): (j: nat)
    requires i < |arr|
    ensures j <= i
    ensures j == i <==> forall m | 0 <= m < i :: !SameBook(arr[i], arr[m])
  {
    FirstMatchFrom(arr, i, 0)
  }

  /** `exclusionsArr.findIndex(el2 => match(el, el2))`; a plain object's `_id` is never `===` an ObjectId. */
  function ExclusionIndex(exclusions: seq<Book>, el: Book): (r: int)
    ensures -1 <= r < |exclusions|
    ensures r == -1 <==> forall m | 0 <= m < |exclusions| :: !SameBook(el, exclusions[m])
    ensures r >= 0 ==> SameBook(el, exclusions[r]) && forall m | 0 <= m < r :: !SameBook(el, exclusions[m])
    decreases |exclusions|
  {
    if exclusions == [] then -1
    else if SameBook(el, exclusions[0]) then 0
    else
      var k := ExclusionIndex(exclusions[1..], el);
      if k == -1 then -1 else k + 1
  }

  /** The filter condition of `removeDuplicates` for the element at `i`. */
  predicate Kept(arr: seq<Book>, exclusions: seq<Book>, i: nat)
    requires i < |arr|
  {
    FirstMatch(arr, i) == i && ExclusionIndex(exclusions, arr[i]) == -1
  }

  /** The filter condition evaluated at every index. */
  function KeepFlags(arr: seq<Book>, exclusions: seq<Book>): seq<bool> {
    seq(|arr|, i requires 0 <= i < |arr| => Kept(arr, exclusions, i))
  }

  /** The elements among the first `n` whose flag is set, in order: `filter` with precomputed flags. */
  function Pick<T>(xs: seq<T>, keep: seq<bool>, n: nat): seq<T>
    requires n <= |xs| == |keep|
  {
    if n == 0 then []
    else Pick(xs, keep, n - 1) + (if keep[n - 1] then [xs[n - 1]] else [])
  }

  /** The indices among the first `n` whose flag is set, in increasing order. */
  function PickedIndices(keep: seq<bool>, n: nat): seq<nat>
    requires n <= |keep|
  {
    if n == 0 then []
    else PickedIndices(keep, n - 1) + (if keep[n - 1] then [n - 1] else [])
  }

  /** `arr.filter(...)` over the first `n` elements. */
  function RemoveDuplicatesPrefix(arr: seq<Book>, exclusions: seq<Book>, n: nat): seq<Book>
    requires n <= |arr|
  {
    Pick(arr, KeepFlags(arr, exclusions), n)
  }

  function RemoveDuplicates(arr: seq<Book>, exclusions: seq<Book>): seq<Book> {
    RemoveDuplicatesPrefix(arr, exclusions, |arr|)
  }

  /** The indices among the first `n` whose element is kept, in increasing order. */
  function KeptIndices(arr: seq<Book>, exclusions: seq<Book>, n: nat): seq<nat>
    requires n <= |arr|
  {
    PickedIndices(KeepFlags(arr, exclusions), n)
  }

  lemma {:induction false} PickedIndicesShape(keep: seq<bool>, n: nat)
    requires n <= |keep|
    ensures var idx := PickedIndices(keep, n);
      && |idx| <= n
      && (forall k | 0 <= k < |idx| :: idx[k] < n)
      && (forall k1, k2 | 0 <= k1 < k2 < |idx| :: idx[k1] < idx[k2])
    decreases n
  {
    if n > 0 {
      PickedIndicesShape(keep, n - 1);
    }
  }

  lemma {:induction false} PickedIndicesMembers(keep: seq<bool>, n: nat)
    requires n <= |keep|
    ensures forall i | 0 <= i < n :: i in PickedIndices(keep, n) <==> keep[i]
    ensures forall i | i in PickedIndices(keep, n) :: i < n
    decreases n
  {
    if n > 0 {
      PickedIndicesMembers(keep, n - 1);
    }
  }

  lemma {:induction false} PickAtPicked<T>(xs: seq<T>, keep: seq<bool>, n: nat)
    requires n <= |xs| == |keep|
    ensures var r := Pick(xs, keep, n);
            var idx := PickedIndices(keep, n);
      && |r| == |idx|
      && (forall k | 0 <= k < |idx| :: idx[k] < |xs| && r[k] == xs[idx[k]])
    decreases n
  {
    if n > 0 {
      PickAtPicked(xs, keep, n - 1);
      PickedIndicesMembers(keep, n - 1);
    }
  }

  /**
   * The result is the subsequence of the kept elements: it picks the kept
   * indices, in increasing order, so it keeps the input order and is never
   * longer than the input.
   */
  lemma {:induction false} RemoveDuplicatesPicksKept(arr: seq<Book>, exclusions: seq<Book>, n: nat)
    requires n <= |arr|
    ensures var r := RemoveDuplicatesPrefix(arr, exclusions, n);
            var idx := KeptIndices(arr, exclusions, n);
      && |r| == |idx| <= n
      && (forall k | 0 <= k < |idx| :: idx[k] < n && r[k] == arr[idx[k]])
      && (forall k1, k2 | 0 <= k1 < k2 < |idx| :: idx[k1] < idx[k2])
      && (forall i | 0 <= i < n :: i in idx <==> Kept(arr, exclusions, i))
  {
    var keep := KeepFlags(arr, exclusions);
    PickedIndicesShape(keep, n);
    PickedIndicesMembers(keep, n);
    PickAtPicked(arr, keep, n);
  }

  /**
   * An element is kept exactly when no earlier element and no exclusion
   * matches it.
   */
  lemma {:induction false} KeptIff(arr: seq<Book>, exclusions: seq<Book>, i: nat)
    requires i < |arr|
    ensures Kept(arr, exclusions, i) <==>
              (forall m | 0 <= m < i :: !SameBook(arr[i], arr[m])) &&
              (forall e | e in exclusions :: !SameBook(arr[i], e))
  {
  }

  /** No element of the result is matched by an earlier one or by an exclusion. */
  lemma {:induction false} RemoveDuplicatesClean(arr: seq<Book>, exclusions: seq<Book>)
    ensures var r := RemoveDuplicates(arr, exclusions);
      && |r| <= |arr|
      && (forall k1, k2 | 0 <= k1 < k2 < |r| :: !SameBook(r[k2], r[k1]))
      && (forall k, e | 0 <= k < |r| && e in exclusions :: !SameBook(r[k], e))
  {
    var r := RemoveDuplicates(arr, exclusions);
    var idx := KeptIndices(arr, exclusions, |arr|);
    RemoveDuplicatesPicksKept(arr, exclusions, |arr|);
    forall k1, k2 | 0 <= k1 < k2 < |r| ensures !SameBook(r[k2], r[k1]) {
      assert idx[k2] in idx;
      KeptIff(arr, exclusions, idx[k2]);
    }
    forall k, e | 0 <= k < |r| && e in exclusions ensures !SameBook(r[k], e) {
      assert idx[k] in idx;
      KeptIff(arr, exclusions, idx[k]);
    }
  }

  lemma {:induction false} AllPickedUnchanged<T>(xs: seq<T>, keep: seq<bool>, n: nat)
    requires n <= |xs| == |keep|
    requires forall i | 0 <= i < n :: keep[i]
    ensures Pick(xs, keep, n) == xs[..n]
    decreases n
  {
    if n > 0 {
      AllPickedUnchanged(xs, keep, n - 1);
      assert xs[..n] == xs[..n - 1] + [xs[n - 1]];
    }
  }

  /** De-duplicating a de-duplicated list with the same exclusions changes nothing. */
  lemma {:induction false} RemoveDuplicatesIdempotent(arr: seq<Book>, exclusions: seq<Book>)
    ensures RemoveDuplicates(RemoveDuplicates(arr, exclusions), exclusions) == RemoveDuplicates(arr, exclusions)
  {
    var r := RemoveDuplicates(arr, exclusions);
    RemoveDuplicatesClean(arr, exclusions);
    var keep := KeepFlags(r, exclusions);
    forall i | 0 <= i < |r| ensures keep[i] {
      KeptIff(r, exclusions, i);
    }
    AllPickedUnchanged(r, keep, |r|);
    assert r[..|r|] == r;
  }

  // ---------------------------------------------------------------------------
  // Filter documents and how the database reads them
  // ---------------------------------------------------------------------------

  /**
   * Whether a filter document admits a book. `$and` and `$or` combine the
   * sub-documents of their lists; every other key is a condition on one
   * field, whose meaning `field` gives.
   */
  predicate Holds(doc: map<string, Value>, b: Book, field: (string, Value, Book) -> bool)
    decreases Obj(doc), 1
  {
    forall k | k in doc :: KeyHolds(k, doc[k], b, field)
  }

  predicate KeyHolds(k: string, v: Value, b: Book, field: (string, Value, Book) -> bool)
    decreases v, 0
  {
    if k == "$and" then
      v.Arr? && forall i | 0 <= i < |v.items| :: v.items[i].Obj? && Holds(v.items[i].fields, b, field)
    else if k == "$or" then
      v.Arr? && exists i | 0 <= i < |v.items| :: v.items[i].Obj? && Holds(v.items[i].fields, b, field)
    else field(k, v, b)
  }

  // ---------------------------------------------------------------------------
  // getSeriesNumberFilter
  // ---------------------------------------------------------------------------

  /** The source of the literal `/^(?!(?:1)$)\d+/`. */
  const NotFirstSource: string := "^(?!(?:1)$)\\d+"

  /** `{ $not: /^(?!(?:1)$)\d+/ }` */
  const NotFirstCondition: Value := Obj(map["$not" := RegexLiteral(NotFirstSource)])

  /**
   * What `/^(?!(?:1)$)\d+/` matches: a string that starts with a digit and
   * is not exactly "1" (the look-ahead fails only on the whole string "1").
   */
  predicate NotFirstPattern(s: string) {
    |s| > 0 && IsDigit(s[0]) && s != "1"
  }

  /** What `/.+/` matches as the database evaluates it: some character is not a line feed. */
  predicate DotPlus(s: string) {
    exists i | 0 <= i < |s| :: s[i] != '\n'
  }

  /** `getSeriesNumberFilter(seriesNumber)`: the switch compares with `===`. */
  function SeriesNumberFilter(seriesNumber: Value): map<string, Value> {
    if seriesNumber == Str("none") then
      map["series" := Null, "seriesNumber" := Null]
    else if seriesNumber == Str("first or none") then
      map["$or" := Arr([Obj(map["seriesNumber" := NotFirstCondition]), Obj(map["seriesNumber" := Null])])]
    else if seriesNumber == Str("first") then
      map["seriesNumber" := NotFirstCondition]
    else
      map["$or" := Arr([Obj(map["seriesNumber" := Obj(map["$regex" := RegexLiteral(".+")])]),
                        Obj(map["seriesNumber" := Null])])]
  }

  /** A pattern of the series-number filter tested on a string; no other pattern is interpreted. */
  predicate RegexTest(source: string, s: string) {
    if source == NotFirstSource then NotFirstPattern(s)
    else if source == ".+" then DotPlus(s)
    else false
  }

  /**
   * A condition on a string field that may be missing or null (`None`):
   * `null` matches exactly the missing or null field, `$not` also matches it.
   */
  predicate ConditionHolds(cond: Value, f: Option<string>) {
    match cond
    case Null => f.None?
    case Str(s) => f == Some(s)
    case Obj(ops) => forall op | op in ops :: OperatorHolds(op, ops[op], f)
    case _ => false
  }

  predicate OperatorHolds(op: string, arg: Value, f: Option<string>) {
    if op == "$not" && arg.RegexLiteral? then !(f.Some? && RegexTest(arg.source, f.value))
    else if op == "$regex" && arg.RegexLiteral? then f.Some? && RegexTest(arg.source, f.value)
    else false
  }

  /** The fields the series-number filter constrains. */
  predicate SeriesField(k: string, cond: Value, b: Book) {
    if k == "series" then ConditionHolds(cond, b.series)
    else if k == "seriesNumber" then ConditionHolds(cond, b.seriesNumber)
    else false
  }

  lemma {:induction false} NotFirstConditionHolds(b: Book)
    ensures Holds(map["seriesNumber" := NotFirstCondition], b, SeriesField)
            <==> !(b.seriesNumber.Some? && NotFirstPattern(b.seriesNumber.value))
  {
    var doc := map["seriesNumber" := NotFirstCondition];
    assert doc.Keys == {"seriesNumber"};
    assert NotFirstCondition.fields.Keys == {"$not"};
  }

  lemma {:induction false} NullConditionHolds(b: Book)
    ensures Holds(map["seriesNumber" := Null], b, SeriesField) <==> b.seriesNumber.None?
  {
    assert map["seriesNumber" := Null].Keys == {"seriesNumber"};
  }

  /** 'none' admits exactly the books with neither a series nor a series number. */
  lemma {:induction false} SeriesNoneFilter(b: Book)
    ensures Holds(SeriesNumberFilter(Str("none")), b, SeriesField) <==> b.series.None? && b.seriesNumber.None?
  {
    var doc := SeriesNumberFilter(Str("none"));
    assert doc.Keys == {"series", "seriesNumber"};
    assert KeyHolds("series", Null, b, SeriesField) <==> b.series.None?;
    assert KeyHolds("seriesNumber", Null, b, SeriesField) <==> b.seriesNumber.None?;
  }

  /**
   * 'first' admits a book without a series number and the number "1", and
   * rejects every other number that starts with a digit, such as "2" or "12".
   */
  lemma {:induction false} SeriesFirstFilter(b: Book)
    ensures Holds(SeriesNumberFilter(Str("first")), b, SeriesField)
            <==> b.seriesNumber.None? || b.seriesNumber == Some("1") || !NotFirstPattern(b.seriesNumber.value)
    ensures b.seriesNumber == Some("1") ==> Holds(SeriesNumberFilter(Str("first")), b, SeriesField)
    ensures b.seriesNumber.Some? && |b.seriesNumber.value| > 0 && IsDigit(b.seriesNumber.value[0])
              && b.seriesNumber != Some("1")
            ==> !Holds(SeriesNumberFilter(Str("first")), b, SeriesField)
  {
    NotFirstConditionHolds(b);
  }

  /** 'first or none' admits the same books as 'first': `$not` already admits a missing number. */
  lemma {:induction false} SeriesFirstOrNoneFilter(b: Book)
    ensures Holds(SeriesNumberFilter(Str("first or none")), b, SeriesField)
            <==> Holds(SeriesNumberFilter(Str("first")), b, SeriesField)
  {
    TwoWayOr(map["seriesNumber" := NotFirstCondition], map["seriesNumber" := Null], b);
    NotFirstConditionHolds(b);
    NullConditionHolds(b);
  }

  /** An `$or` of two documents holds when one of them holds. */
  lemma {:induction false} TwoWayOr(first: map<string, Value>, second: map<string, Value>, b: Book)
    ensures Holds(map["$or" := Arr([Obj(first), Obj(second)])], b, SeriesField)
            <==> Holds(first, b, SeriesField) || Holds(second, b, SeriesField)
  {
    var items := [Obj(first), Obj(second)];
    assert map["$or" := Arr(items)].Keys == {"$or"};
    assert KeyHolds("$or", Arr(items), b, SeriesField)
           <==> Holds(first, b, SeriesField) || Holds(second, b, SeriesField) by {
      assert items[0].fields == first && items[1].fields == second;
    }
  }

  /** The `$regex: /.+/` condition holds for a present series number that `/.+/` matches. */
  lemma {:induction false} RegexConditionHolds(b: Book)
    ensures Holds(map["seriesNumber" := Obj(map["$regex" := RegexLiteral(".+")])], b, SeriesField)
            <==> b.seriesNumber.Some? && DotPlus(b.seriesNumber.value)
  {
    var cond := Obj(map["$regex" := RegexLiteral(".+")]);
    assert map["seriesNumber" := cond].Keys == {"seriesNumber"};
    assert cond.fields.Keys == {"$regex"};
  }

  /** The 'any' filter admits a book whose series number is missing or matches `/.+/`. */
  lemma {:induction false} AnyFilterHolds(b: Book)
    ensures Holds(SeriesNumberFilter(Str("any")), b, SeriesField)
            <==> b.seriesNumber.None? || DotPlus(b.seriesNumber.value)
  {
    TwoWayOr(map["seriesNumber" := Obj(map["$regex" := RegexLiteral(".+")])], map["seriesNumber" := Null], b);
    NullConditionHolds(b);
    RegexConditionHolds(b);
  }

  /**
   * 'any', and every value other than the three names, admits a book whose
   * series number is missing or has a character other than a line feed; an
   * empty series number is rejected.
   */
  lemma {:induction false} SeriesAnyFilter(v: Value, b: Book)
    requires v != Str("none") && v != Str("first or none") && v != Str("first")
    ensures SeriesNumberFilter(v) == SeriesNumberFilter(Str("any"))
    ensures Holds(SeriesNumberFilter(v), b, SeriesField)
            <==> b.seriesNumber.None? || DotPlus(b.seriesNumber.value)
    ensures b.seriesNumber == Some("") ==> !Holds(SeriesNumberFilter(v), b, SeriesField)
  {
    assert SeriesNumberFilter(v) == SeriesNumberFilter(Str("any"));
    AnyFilterHolds(b);
  }

  // ---------------------------------------------------------------------------
  // The bookData merge
  // ---------------------------------------------------------------------------

  predicate NoDup<T(==)>(xs: seq<T>) {
    forall i, j | 0 <= i < j < |xs| :: xs[i] != xs[j]
  }

  /** `[...new Set(xs)]`: every value once, in the order of first occurrence. */
  function Dedup<T(==)>(xs: seq<T>): (r: seq<T>)
    ensures NoDup(r) && Elements(r) == Elements(xs)
    ensures forall i | 0 <= i < |r| :: r[i] in xs
    decreases |xs|
  {
    if xs == [] then []
    else
      var n := |xs| - 1;
      var d := Dedup(xs[..n]);
      var x := xs[n];
      assert xs == xs[..n] + [x];
      assert Elements(xs) == Elements(xs[..n]) + {x};
      if x in d then d
      else
        assert Elements(d + [x]) == Elements(d) + {x};
        d + [x]
  }

  /** The index of the first occurrence of `x`. */
  function IndexOf<T(==)>(xs: seq<T>, x: T): (i: nat)
    requires x in xs
    ensures i < |xs| && xs[i] == x && x !in xs[..i]
  {
    if xs[0] == x then 0
    else
      var k := IndexOf(xs[1..], x);
      assert xs[..k + 1] == [xs[0]] + xs[1..][..k];
      k + 1
  }

  lemma {:induction false} FirstOccurrenceUnique<T>(xs: seq<T>, x: T, i: nat)
    requires i < |xs| && xs[i] == x && x !in xs[..i]
    ensures IndexOf(xs, x) == i
  {
  }

  /** The values of the de-duplicated list appear in the order of their first occurrence. */
  lemma {:induction false} DedupFirstOccurrenceOrder<T>(xs: seq<T>)
    ensures var r := Dedup(xs);
            forall i, j | 0 <= i < j < |r| :: IndexOf(xs, r[i]) < IndexOf(xs, r[j])
    decreases |xs|
  {
    if xs != [] {
      var n := |xs| - 1;
      var p := xs[..n];
      var d := Dedup(p);
      DedupFirstOccurrenceOrder(p);
      assert xs == p + [xs[n]];
      forall x | x in p ensures IndexOf(xs, x) == IndexOf(p, x) {
        var k := IndexOf(p, x);
        assert xs[..k] == p[..k];
        FirstOccurrenceUnique(xs, x, k);
      }
      forall i | 0 <= i < |d| ensures IndexOf(xs, d[i]) < n {
        assert d[i] in p;
      }
      DedupSnoc(p, xs[n]);
      if xs[n] !in d {
        assert xs[n] !in Elements(p);
        FirstOccurrenceUnique(xs, xs[n], n);
        var r := Dedup(xs);
        assert r == d + [xs[n]];
        forall i, j | 0 <= i < j < |r| ensures IndexOf(xs, r[i]) < IndexOf(xs, r[j]) {
          assert r[i] == d[i];
          if j < |d| {
            assert r[j] == d[j];
          }
        }
      }
    }
  }

  lemma {:induction false} DedupOfNoDup<T>(xs: seq<T>)
    requires NoDup(xs)
    ensures Dedup(xs) == xs
    decreases |xs|
  {
    if xs != [] {
      var n := |xs| - 1;
      DedupOfNoDup(xs[..n]);
      assert xs[n] !in xs[..n];
      assert xs == xs[..n] + [xs[n]];
    }
  }

  lemma {:induction false} DedupSnoc<T>(p: seq<T>, e: T)
    ensures Dedup(p + [e]) == if e in Dedup(p) then Dedup(p) else Dedup(p) + [e]
  {
    assert (p + [e])[..|p|] == p;
  }

  /** Folding the de-duplication step by step gives the de-duplication of the whole list. */
  lemma {:induction false} DedupAppend<T>(x: seq<T>, y: seq<T>)
    ensures Dedup(Dedup(x) + y) == Dedup(x + y)
    decreases |y|
  {
    if y == [] {
      DedupOfNoDup(Dedup(x));
      assert Dedup(x) + y == Dedup(x) && x + y == x;
    } else {
      var n := |y| - 1;
      var e := y[n];
      var p := Dedup(x) + y[..n];
      var q := x + y[..n];
      assert Dedup(p) == Dedup(q) by {
        DedupAppend(x, y[..n]);
      }
      assert Dedup(x) + y == p + [e] && x + y == q + [e] by {
        assert y == y[..n] + [e];
      }
      DedupSnoc(p, e);
      DedupSnoc(q, e);
    }
  }

  /** The merged reading profile of the chosen books. */
  datatype BookData = BookData(
    genres: seq<string>,
    tags: seq<string>,
    relatedBooksUrls: seq<string>,
    goodreadsUrls: seq<string>,
    authors: seq<string>,
    series: Option<seq<string>>)

  /** The initial accumulator; `series` starts as null. */
  const EmptyBookData: BookData := BookData([], [], [], [], [], None)

  /** `.filter(Boolean)` on strings: the non-empty ones. */
  function NonEmpty(xs: seq<string>): seq<string>
    decreases |xs|
  {
    if xs == [] then []
    else (if xs[0] != "" then [xs[0]] else []) + NonEmpty(xs[1..])
  }

  /** The filter keeps exactly the non-empty strings. */
  lemma {:induction false} NonEmptyMembers(xs: seq<string>)
    ensures forall x | x in NonEmpty(xs) :: x != "" && x in xs
    ensures forall x | x in xs && x != "" :: x in NonEmpty(xs)
    decreases |xs|
  {
    if xs != [] {
      NonEmptyMembers(xs[1..]);
      var head := if xs[0] != "" then [xs[0]] else [];
      assert NonEmpty(xs) == head + NonEmpty(xs[1..]);
      assert xs == [xs[0]] + xs[1..];
    }
  }

  /** `[acc.series, el.series].flat().filter(Boolean)`; null and undefined are dropped. */
  function SeriesStep(acc: Option<seq<string>>, s: Option<string>): seq<string> {
    NonEmpty((if acc.Some? then acc.value else []) + (if s.Some? then [s.value] else []))
  }

  /** One step of the `reduce`. */
  function MergeStep(acc: BookData, el: Book): BookData {
    BookData(
      Dedup(acc.genres + el.genres),
      Dedup(acc.tags + el.tags),
      Dedup(acc.relatedBooksUrls + el.relatedBooksUrls),
      Dedup(acc.goodreadsUrls + el.goodreadsUrls),
      Dedup(acc.authors + el.authors),
      Some(SeriesStep(acc.series, el.series)))
  }

  /** `req.bookData.reduce(step, initial)`, a left fold. */
  function MergeBookData(books: seq<Book>): BookData
    decreases |books|
  {
    if books == [] then EmptyBookData
    else MergeStep(MergeBookData(books[..|books| - 1]), books[|books| - 1])
  }

  /** The five lists the merge unites. */
  datatype ProfileList = Genres | Tags | RelatedBooksUrls | GoodreadsUrls | Authors

  function BookList(b: Book, l: ProfileList): seq<string> {
    match l
    case Genres => b.genres
    case Tags => b.tags
    case RelatedBooksUrls => b.relatedBooksUrls
    case GoodreadsUrls => b.goodreadsUrls
    case Authors => b.authors
  }

  function ProfileOf(d: BookData, l: ProfileList): seq<string> {
    match l
    case Genres => d.genres
    case Tags => d.tags
    case RelatedBooksUrls => d.relatedBooksUrls
    case GoodreadsUrls => d.goodreadsUrls
    case Authors => d.authors
  }

  /** One list of every book, concatenated in book order. */
  function Gather(books: seq<Book>, l: ProfileList): seq<string>
    decreases |books|
  {
    if books == [] then [] else Gather(books[..|books| - 1], l) + BookList(books[|books| - 1], l)
  }

  /** The non-empty series of the books, in book order. */
  function PresentSeries(books: seq<Book>): seq<string>
    decreases |books|
  {
    if books == [] then []
    else PresentSeries(books[..|books| - 1]) + (if Present(books[|books| - 1].series) then [books[|books| - 1].series.value] else [])
  }

  lemma {:induction false} NonEmptyAppend(xs: seq<string>, ys: seq<string>)
    ensures NonEmpty(xs + ys) == NonEmpty(xs) + NonEmpty(ys)
    decreases |xs|
  {
    if xs == [] {
      assert xs + ys == ys;
    } else {
      NonEmptyAppend(xs[1..], ys);
      var head := if xs[0] != "" then [xs[0]] else [];
      assert (xs + ys)[0] == xs[0] && (xs + ys)[1..] == xs[1..] + ys;
      assert NonEmpty(xs + ys) == head + NonEmpty(xs[1..] + ys);
      assert NonEmpty(xs) == head + NonEmpty(xs[1..]);
    }
  }

  lemma {:induction false} NonEmptyIdentity(xs: seq<string>)
    requires forall i | 0 <= i < |xs| :: xs[i] != ""
    ensures NonEmpty(xs) == xs
    decreases |xs|
  {
    if xs != [] {
      NonEmptyIdentity(xs[1..]);
      assert xs[0] != "";
      assert NonEmpty(xs) == [xs[0]] + NonEmpty(xs[1..]);
      assert xs == [xs[0]] + xs[1..];
    }
  }

  /** Each merged list is the de-duplication of the concatenation of that list over all books. */
  lemma {:induction false} MergeBookDataLists(books: seq<Book>, l: ProfileList)
    ensures ProfileOf(MergeBookData(books), l) == Dedup(Gather(books, l))
    decreases |books|
  {
    if books != [] {
      var n := |books| - 1;
      var acc := MergeBookData(books[..n]);
      MergeBookDataLists(books[..n], l);
      assert ProfileOf(MergeBookData(books), l) == Dedup(ProfileOf(acc, l) + BookList(books[n], l));
      DedupAppend(Gather(books[..n], l), BookList(books[n], l));
    }
  }

  lemma {:induction false} SeriesStepAppend(prev: seq<string>, s: Option<string>)
    requires forall i | 0 <= i < |prev| :: prev[i] != ""
    ensures SeriesStep(Some(prev), s) == prev + (if Present(s) then [s.value] else [])
  {
    var own := if s.Some? then [s.value] else [];
    NonEmptyIdentity(prev);
    NonEmptyAppend(prev, own);
    if own != [] {
      assert own[1..] == [];
    }
  }

  /** `series` stays null without books and otherwise lists the non-empty series in book order. */
  lemma {:induction false} MergeBookDataSeries(books: seq<Book>)
    ensures MergeBookData(books).series == if books == [] then None else Some(PresentSeries(books))
    decreases |books|
  {
    if books != [] {
      var n := |books| - 1;
      var acc := MergeBookData(books[..n]);
      var el := books[n];
      assert MergeBookData(books).series == Some(SeriesStep(acc.series, el.series));
      MergeBookDataSeries(books[..n]);
      if n == 0 {
        assert acc.series == None;
        assert SeriesStep(None, el.series) == SeriesStep(Some([]), el.series);
        SeriesStepAppend([], el.series);
      } else {
        PresentSeriesNonEmpty(books[..n]);
        SeriesStepAppend(PresentSeries(books[..n]), el.series);
      }
    }
  }

  /** PresentSeries holds only non-empty strings. */
  lemma {:induction false} PresentSeriesNonEmpty(books: seq<Book>)
    ensures forall i | 0 <= i < |PresentSeries(books)| :: PresentSeries(books)[i] != ""
    decreases |books|
  {
    if books != [] {
      PresentSeriesNonEmpty(books[..|books| - 1]);
    }
  }

  // ---------------------------------------------------------------------------
  // The filters of the two recommendation aggregations
  // ---------------------------------------------------------------------------

  /** `{ $nin: xs }` */
  function NotIn(xs: seq<string>): Value {
    Obj(map["$nin" := ListField(xs)])
  }

  /** `{ $in: xs }` */
  function InList(xs: seq<string>): Value {
    Obj(map["$in" := ListField(xs)])
  }

  /** The filters `commonFilters` lists before its two spreads. */
  function FixedFilters(d: BookData, includeSameAuthors: Value, includeSameSeries: Value): map<string, Value> {
    map[
      "descriptionHTML" := Obj(map["$exists" := Bool(true), "$ne" := Null]),
      "editionLanguage" := Str("English"),
      "ratingCount" := Obj(map["$gte" := Num(150)]),
      "ratingValue" := Obj(map["$gte" := Num(4)]),
      "numberOfPages" := Obj(map["$gte" := Num(120)]),
      "series" := if !Truthy(includeSameSeries) && d.series.Some? then NotIn(d.series.value) else Undefined,
      "authors" := if !Truthy(includeSameAuthors) then NotIn(d.authors) else Undefined
    ]
  }

  /**
   * `commonFilters`: the fixed quality thresholds, the exclusion of the
   * profile's own series and authors unless asked to include them, then the
   * series-number filter and the request's own filter, each overriding the
   * keys before it.
   */
  function CommonFilters(d: BookData, seriesNumberType: Value, includeSameAuthors: Value,
                         includeSameSeries: Value, filterObj: map<string, Value>): map<string, Value>
  {
    FixedFilters(d, includeSameAuthors, includeSameSeries) + SeriesNumberFilter(seriesNumberType) + filterObj
  }

  lemma {:induction false} SeriesNumberFilterKeys(seriesNumberType: Value)
    ensures "authors" !in SeriesNumberFilter(seriesNumberType)
    ensures seriesNumberType != Str("none") ==> "series" !in SeriesNumberFilter(seriesNumberType)
    ensures seriesNumberType == Str("none") ==> SeriesNumberFilter(seriesNumberType)["series"] == Null
    ensures seriesNumberType != Str("none") && seriesNumberType != Str("first") ==> "$or" in SeriesNumberFilter(seriesNumberType)
  {
  }

  /**
   * The request's filter wins over every common filter; the profile's authors
   * are excluded unless `includeSameAuthors` is truthy, which the string
   * "false" is; under 'none' the series exclusion gives way to `series: null`.
   */
  lemma {:induction false} CommonFiltersPrecedence(d: BookData, seriesNumberType: Value, includeSameAuthors: Value,
                                includeSameSeries: Value, filterObj: map<string, Value>)
    ensures var cf := CommonFilters(d, seriesNumberType, includeSameAuthors, includeSameSeries, filterObj);
      && (forall k | k in filterObj :: k in cf && cf[k] == filterObj[k])
      && ("authors" !in filterObj ==>
            cf["authors"] == if Truthy(includeSameAuthors) then Undefined else NotIn(d.authors))
      && ("series" !in filterObj && seriesNumberType != Str("none") ==>
            cf["series"] == if !Truthy(includeSameSeries) && d.series.Some? then NotIn(d.series.value) else Undefined)
      && ("series" !in filterObj && seriesNumberType == Str("none") ==> cf["series"] == Null)
      && (includeSameAuthors == Str("false") && "authors" !in filterObj ==> cf["authors"] == Undefined)
  {
    var fixed := FixedFilters(d, includeSameAuthors, includeSameSeries);
    var snf := SeriesNumberFilter(seriesNumberType);
    var cf := CommonFilters(d, seriesNumberType, includeSameAuthors, includeSameSeries, filterObj);
    SeriesNumberFilterKeys(seriesNumberType);
    assert cf == (fixed + snf) + filterObj;
    if "authors" !in filterObj {
      assert cf["authors"] == (fixed + snf)["authors"] == fixed["authors"];
    }
    if "series" !in filterObj {
      assert cf["series"] == (fixed + snf)["series"];
    }
  }

  /** The genre and tag clause of the first aggregation's `$match`. */
  function GenresClause(topGenres: seq<string>, topTags: seq<string>): seq<Value> {
    [Obj(map["genres" := InList(topGenres)]), Obj(map["tags" := InList(topTags)])]
  }

  /** The related-URL clause of the second aggregation's `$match`. */
  function RelatedClause(d: BookData): seq<Value> {
    [Obj(map["goodreadsUrls" := InList(d.relatedBooksUrls)]),
     Obj(map["relatedBooksUrls" := InList(d.goodreadsUrls + d.relatedBooksUrls)])]
  }

  /** `{ $or: clause, ...commonFilters }` as written: a `$or` of the common filters replaces the clause. */
  function MatchAsWritten(clause: seq<Value>, commonFilters: map<string, Value>): map<string, Value> {
    map["$or" := Arr(clause)] + commonFilters
  }

  /** The evidently intended stage: the clause and the common filters, both enforced. */
  function Match(clause: seq<Value>, commonFilters: map<string, Value>): map<string, Value> {
    map["$and" := Arr([Obj(map["$or" := Arr(clause)]), Obj(commonFilters)])]
  }

  /** When the common filters hold a `$or`, the stage as written is the common filters alone. */
  lemma {:induction false} MatchAsWrittenDropsClause(clause: seq<Value>, commonFilters: map<string, Value>)
    requires "$or" in commonFilters
    ensures MatchAsWritten(clause, commonFilters) == commonFilters
  {
    assert (map["$or" := Arr(clause)] + commonFilters).Keys == commonFilters.Keys;
  }

  /**
   * Under the default series-number type, and under 'first or none', the
   * genre/tag and related-URL clauses vanish from both aggregations.
   */
  lemma {:induction false} DefaultSeriesTypeDropsClause(d: BookData, seriesNumberType: Value, includeSameAuthors: Value,
                                     includeSameSeries: Value, filterObj: map<string, Value>, clause: seq<Value>)
    requires seriesNumberType != Str("none") && seriesNumberType != Str("first")
    ensures var cf := CommonFilters(d, seriesNumberType, includeSameAuthors, includeSameSeries, filterObj);
            MatchAsWritten(clause, cf) == cf
  {
    var cf := CommonFilters(d, seriesNumberType, includeSameAuthors, includeSameSeries, filterObj);
    SeriesNumberFilterKeys(seriesNumberType);
    assert "$or" in cf;
    MatchAsWrittenDropsClause(clause, cf);
  }

  /** The intended stage admits a book exactly when the clause and every common filter admit it. */
  lemma {:induction false} MatchConjunction(clause: seq<Value>, commonFilters: map<string, Value>, b: Book,
                         field: (string, Value, Book) -> bool)
    ensures Holds(Match(clause, commonFilters), b, field)
            <==> Holds(map["$or" := Arr(clause)], b, field) && Holds(commonFilters, b, field)
  {
    var first := Obj(map["$or" := Arr(clause)]);
    var items := [first, Obj(commonFilters)];
    assert Match(clause, commonFilters).Keys == {"$and"};
    assert KeyHolds("$and", Arr(items), b, field)
           <==> Holds(first.fields, b, field) && Holds(commonFilters, b, field) by {
      assert items[0] == first && items[1] == Obj(commonFilters);
    }
  }

  /** Without a `$or` among the common filters the stage as written already enforces both. */
  lemma {:induction false} MatchAsWrittenWithoutOr(clause: seq<Value>, commonFilters: map<string, Value>, b: Book,
                                field: (string, Value, Book) -> bool)
    requires "$or" !in commonFilters
    ensures Holds(MatchAsWritten(clause, commonFilters), b, field)
            <==> Holds(map["$or" := Arr(clause)], b, field) && Holds(commonFilters, b, field)
  {
    var m := MatchAsWritten(clause, commonFilters);
    assert m.Keys == commonFilters.Keys + {"$or"};
    assert forall k | k in commonFilters :: m[k] == commonFilters[k];
    assert m["$or"] == Arr(clause);
  }

  // ---------------------------------------------------------------------------
  // Top genres and tags, and the match thresholds
  // ---------------------------------------------------------------------------

  /** An index argument of `Array.prototype.slice`: a negative one counts from the end; clamped to the length. */
  function SliceIndex(i: int, len: nat): (r: nat)
    ensures r <= len
    ensures 0 <= i <= len ==> r == i
  {
    if i < 0 then (if len + i < 0 then 0 else len + i)
    else if i > len then len
    else i
  }

  /** `xs.slice(start, end)` */
  function JsSlice<T>(xs: seq<T>, start: int, end: int): seq<T> {
    var s := SliceIndex(start, |xs|);
    var e := SliceIndex(end, |xs|);
    if s < e then xs[s..e] else []
  }

  /** `Math.floor(n * 0.8)`: the nearest double to 0.8 lies above 0.8, so the product never rounds below an integer. */
  function EightyPercent(n: nat): nat {
    n * 8 / 10
  }

  /** `Math.floor(n * 0.66)` */
  function SixtySixPercent(n: int): int {
    n * 66 / 100
  }

  /**
   * `xs.slice(0, Math.floor(n * 0.8))` for five or more items, the whole list
   * below five; `bound` is the 8 or 11 of the dead `n < bound || n > 4` test,
   * whose 0.66 branch no length reaches.
   */
  function TopSlice(xs: seq<string>, bound: int): (r: seq<string>)
    ensures r == if |xs| < 5 then xs else xs[..|xs| * 8 / 10]
    ensures |xs| >= 5 ==> 4 <= |r| < |xs|
  {
    var n := |xs|;
    if n < 5 then xs
    else if n < bound || n > 4 then JsSlice(xs, 0, EightyPercent(n))
    else JsSlice(xs, 0, SixtySixPercent(n))
  }

  /** `Math.floor(topGenres.length * 0.8)` */
  function GenresMatchFilterNumber(topGenres: seq<string>): (k: nat)
    ensures k <= |topGenres| && (|topGenres| > 0 ==> k < |topGenres|)
  {
    EightyPercent(|topGenres|)
  }

  /** `Math.floor(topTags.length * 0.5)` */
  function TagsMatchFilterNumber(topTags: seq<string>): (k: nat)
    ensures 2 * k <= |topTags| < 2 * k + 2
  {
    |topTags| / 2
  }

  /** Slice bounds: the clamped end never passes the clamped start by more than their distance. */
  lemma {:induction false} SliceIndexSpread(a: int, b: int, len: nat)
    requires a <= b
    ensures SliceIndex(b, len) <= SliceIndex(a, len) + (b - a)
  {
  }

  /**
   * `xs.slice(skip, limit * page)` with `skip = (page - 1) * limit` is at most
   * `limit` long whatever the page, and page 1 is the first `limit` items.
   */
  lemma {:induction false} PageWindow<T>(xs: seq<T>, page: int, limit: int)
    requires limit > 0
    ensures |JsSlice(xs, (page - 1) * limit, limit * page)| <= limit
    ensures JsSlice(xs, (1 - 1) * limit, limit * 1) == xs[..Min(limit, |xs|)]
  {
    assert limit * page - (page - 1) * limit == limit by {
      assert (page - 1) * limit == page * limit - limit;
    }
    SliceIndexSpread((page - 1) * limit, limit * page, |xs|);
    assert (1 - 1) * limit == 0 && limit * 1 == limit;
    assert SliceIndex(limit, |xs|) == Min(limit, |xs|);
  }

  /** A slice of `xs` is a contiguous run of it. */
  lemma {:induction false} SliceIsRun<T>(xs: seq<T>, start: int, end: int)
    ensures var s := SliceIndex(start, |xs|);
            var r := JsSlice(xs, start, end);
            s + |r| <= |xs| && forall k | 0 <= k < |r| :: r[k] == xs[s + k]
  {
  }

  // ---------------------------------------------------------------------------
  // Sorting by a field
  // ---------------------------------------------------------------------------

  /** A sort parameter with a leading '-' sorts on the rest, highest first. */
  predicate Descending(sort: string) {
    StartsWith(sort, "-")
  }

  /** `sort.replace('-', '')` when the sort starts with '-': the first '-' goes. */
  function SortField(sort: string): string {
    if Descending(sort) then sort[1..] else sort
  }

  /** The comparator's order as a rank: the sorted list has non-decreasing ranks. */
  function Rank(b: Book, key: Book -> int, desc: bool): int {
    if desc then -key(b) else key(b)
  }

  predicate SortedBy(xs: seq<Book>, key: Book -> int, desc: bool) {
    forall i, j | 0 <= i < j < |xs| :: Rank(xs[i], key, desc) <= Rank(xs[j], key, desc)
  }

  /** Places `x` after every element that does not sort after it, as a stable sort places a later element. */
  function Insert(xs: seq<Book>, x: Book, key: Book -> int, desc: bool): (r: seq<Book>)
    ensures multiset(r) == multiset(xs) + multiset{x}
    decreases |xs|
  {
    if xs == [] || Rank(xs[|xs| - 1], key, desc) <= Rank(x, key, desc) then xs + [x]
    else
      var n := |xs| - 1;
      assert xs == xs[..n] + [xs[n]];
      Insert(xs[..n], x, key, desc) + [xs[n]]
  }

  /** Inserting an element no higher than `bound` into a list no higher than `bound` gives a list no higher than `bound`. */
  lemma {:induction false} InsertBounded(xs: seq<Book>, x: Book, key: Book -> int, desc: bool, bound: int)
    requires forall i | 0 <= i < |xs| :: Rank(xs[i], key, desc) <= bound
    requires Rank(x, key, desc) <= bound
    ensures forall i | 0 <= i < |Insert(xs, x, key, desc)| :: Rank(Insert(xs, x, key, desc)[i], key, desc) <= bound
  {
    var r := Insert(xs, x, key, desc);
    forall i | 0 <= i < |r| ensures Rank(r[i], key, desc) <= bound {
      assert r[i] in multiset(r);
      if r[i] != x {
        assert r[i] in multiset(xs);
        var k :| 0 <= k < |xs| && xs[k] == r[i];
      }
    }
  }

  /** Appending an element no lower than every element keeps a list sorted. */
  lemma {:induction false} SortedSnoc(r: seq<Book>, last: Book, key: Book -> int, desc: bool)
    requires SortedBy(r, key, desc)
    requires forall i | 0 <= i < |r| :: Rank(r[i], key, desc) <= Rank(last, key, desc)
    ensures SortedBy(r + [last], key, desc)
  {
    var t := r + [last];
    forall i, j | 0 <= i < j < |t| ensures Rank(t[i], key, desc) <= Rank(t[j], key, desc) {
      assert t[i] == r[i];
      if j < |r| {
        assert t[j] == r[j];
      }
    }
  }

  /** The front of a sorted list is sorted and no higher than its last element. */
  lemma {:induction false} SortedFront(xs: seq<Book>, key: Book -> int, desc: bool)
    requires xs != [] && SortedBy(xs, key, desc)
    ensures var n := |xs| - 1;
            && SortedBy(xs[..n], key, desc)
            && forall i | 0 <= i < n :: Rank(xs[..n][i], key, desc) <= Rank(xs[n], key, desc)
  {
  }

  /** Inserting into a sorted list keeps it sorted. */
  lemma {:induction false} InsertSorted(xs: seq<Book>, x: Book, key: Book -> int, desc: bool)
    requires SortedBy(xs, key, desc)
    ensures SortedBy(Insert(xs, x, key, desc), key, desc)
    decreases |xs|
  {
    if !(xs == [] || Rank(xs[|xs| - 1], key, desc) <= Rank(x, key, desc)) {
      var n := |xs| - 1;
      var last := xs[n];
      var p := xs[..n];
      var bound := Rank(last, key, desc);
      var r := Insert(p, x, key, desc);
      SortedFront(xs, key, desc);
      InsertSorted(p, x, key, desc);
      InsertBounded(p, x, key, desc, bound);
      SortedSnoc(r, last, key, desc);
      assert Insert(xs, x, key, desc) == r + [last];
    }
  }

  /** A stable sort of `xs` by the comparator of `key` and direction `desc`. */
  function SortBooks(xs: seq<Book>, key: Book -> int, desc: bool): (r: seq<Book>)
    ensures SortedBy(r, key, desc)
    ensures multiset(r) == multiset(xs)
    decreases |xs|
  {
    if xs == [] then []
    else
      var n := |xs| - 1;
      assert xs == xs[..n] + [xs[n]];
      var sorted := SortBooks(xs[..n], key, desc);
      InsertSorted(sorted, xs[n], key, desc);
      Insert(sorted, xs[n], key, desc)
  }

  /**
   * `.sort((a, b) => sort.startsWith('-') ? b[f] - a[f] : a[f] - b[f])`: a
   * permutation of the list, non-increasing in the field for a '-' sort and
   * non-decreasing otherwise.
   */
  function ComparatorSort(xs: seq<Book>, sort: string): (r: seq<Book>)
    ensures multiset(r) == multiset(xs)
    ensures Descending(sort) ==>
              forall i, j | 0 <= i < j < |r| :: SortKey(r[i], SortField(sort)) >= SortKey(r[j], SortField(sort))
    ensures !Descending(sort) ==>
              forall i, j | 0 <= i < j < |r| :: SortKey(r[i], sort) <= SortKey(r[j], sort)
  {
    var key := b => SortKey(b, SortField(sort));
    var r := SortBooks(xs, key, Descending(sort));
    assert forall i, j | 0 <= i < j < |r| :: Rank(r[i], key, Descending(sort)) <= Rank(r[j], key, Descending(sort));
    r
  }

  /** The books of `xs` whose key is `c`, in their order in `xs`. */
  function WithKey(xs: seq<Book>, key: Book -> int, c: int): (r: seq<Book>)
    ensures |r| <= |xs|
    decreases |xs|
  {
    if xs == [] then []
    else WithKey(xs[..|xs| - 1], key, c) + (if key(xs[|xs| - 1]) == c then [xs[|xs| - 1]] else [])
  }

  /** Selecting from a list with one more book at its end. */
  lemma {:induction false} WithKeySnoc(ys: seq<Book>, z: Book, key: Book -> int, c: int)
    ensures WithKey(ys + [z], key, c) == WithKey(ys, key, c) + (if key(z) == c then [z] else [])
  {
    assert (ys + [z])[..|ys|] == ys;
  }

  /** Inserting `x` places it after every book of its own key, so each key's books keep their order. */
  lemma {:induction false} InsertWithKey(xs: seq<Book>, x: Book, key: Book -> int, desc: bool, c: int)
    ensures WithKey(Insert(xs, x, key, desc), key, c) == WithKey(xs, key, c) + (if key(x) == c then [x] else [])
    decreases |xs|
  {
    if xs == [] || Rank(xs[|xs| - 1], key, desc) <= Rank(x, key, desc) {
      WithKeySnoc(xs, x, key, c);
    } else {
      var n := |xs| - 1;
      var front, last := xs[..n], xs[n];
      var inserted := Insert(front, x, key, desc);
      assert Insert(xs, x, key, desc) == inserted + [last];
      assert xs == front + [last];
      InsertWithKey(front, x, key, desc, c);
      WithKeySnoc(inserted, last, key, c);
      WithKeySnoc(front, last, key, c);
      var before := WithKey(front, key, c);
      if key(last) == c {
        assert key(x) != c by { assert Rank(x, key, desc) < Rank(last, key, desc); }
        assert WithKey(Insert(xs, x, key, desc), key, c) == before + [last] == WithKey(xs, key, c);
      } else {
        assert WithKey(Insert(xs, x, key, desc), key, c) == WithKey(inserted, key, c);
        assert WithKey(xs, key, c) == before;
      }
    }
  }

  /**
   * The sort is stable: for every key value, the books with that key come
   * out in the order they went in.
   */
  lemma {:induction false} SortKeepsTies(xs: seq<Book>, key: Book -> int, desc: bool, c: int)
    ensures WithKey(SortBooks(xs, key, desc), key, c) == WithKey(xs, key, c)
    decreases |xs|
  {
    if xs != [] {
      var n := |xs| - 1;
      SortKeepsTies(xs[..n], key, desc, c);
      InsertWithKey(SortBooks(xs[..n], key, desc), xs[n], key, desc, c);
    }
  }

  // ---------------------------------------------------------------------------
  // Projection
  // ---------------------------------------------------------------------------

  /** The object with exactly the listed fields of the book, each as the book holds it. */
  function Projection(b: Book, fields: seq<string>): (r: map<string, Value>)
    ensures r.Keys == Elements(fields)
    ensures forall f | f in r :: r[f] == Field(b, f)
  {
    map f | f in Elements(fields) :: Field(b, f)
  }

  /** `fields.reduce((acc, f) => { acc[f] = el[f]; return acc; }, {})` */
  method Project(b: Book, fields: seq<string>) returns (acc: map<string, Value>)
    ensures acc == Projection(b, fields)
  {
    acc := map[];
    var i := 0;
    while i < |fields|
      invariant 0 <= i <= |fields|
      invariant acc == Projection(b, fields[..i])
    {
      assert fields[..i + 1] == fields[..i] + [fields[i]];
      acc := acc[fields[i] := Field(b, fields[i])];
      i := i + 1;
    }
    assert fields[..|fields|] == fields;
  }

  /** `books.map(el => fields.reduce(...))` */
  /** Every book projected onto the same fields. */
  function ProjectEach(books: seq<Book>, fields: seq<string>): (r: seq<map<string, Value>>)
    ensures |r| == |books|
    ensures forall k | 0 <= k < |r| :: r[k].Keys == Elements(fields)
  {
    seq(|books|, k requires 0 <= k < |books| => Projection(books[k], fields))
  }

  method ProjectAll(books: seq<Book>, fields: seq<string>) returns (items: seq<map<string, Value>>)
    ensures items == ProjectEach(books, fields)
  {
    items := [];
    for k := 0 to |books|
      invariant |items| == k
      invariant forall m | 0 <= m < k :: items[m] == Projection(books[m], fields)
    {
      var item := Project(books[k], fields);
      items := items + [item];
    }
    assert items == ProjectEach(books, fields);
  }

  // ---------------------------------------------------------------------------
  // The search handler
  // ---------------------------------------------------------------------------

  /** The three queries of the search, in the order they may run. */
  datatype SearchQuery = ByTitle | BySeries | ByAuthors

  function Abs(n: int): nat {
    if n < 0 then -n else n
  }

  /**
   * `.limit(n)` on a query whose matches, in the query's sort order, are
   * `matches`: 0 means no limit and a negative limit counts as its size.
   */
  function MongoLimit(matches: seq<Book>, n: int): seq<Book> {
    if n == 0 then matches else matches[..Min(Abs(n), |matches|)]
  }

  datatype SearchFillResult = SearchFillResult(docs: seq<Book>, issued: seq<SearchQuery>)

  /** The documents the three queries collect, and which queries run. */
  function SearchFill(titleMatches: seq<Book>, seriesMatches: seq<Book>, authorMatches: seq<Book>, limit: int)
    : SearchFillResult
  {
    var titles := MongoLimit(titleMatches, limit);
    var afterSeries :=
      if |titles| < limit then SearchFillResult(titles + MongoLimit(seriesMatches, limit - |titles|), [ByTitle, BySeries])
      else SearchFillResult(titles, [ByTitle]);
    if |afterSeries.docs| < limit then
      SearchFillResult(afterSeries.docs + MongoLimit(authorMatches, limit - |afterSeries.docs|), afterSeries.issued + [ByAuthors])
    else afterSeries
  }

  /**
   * The search collects at most `limit` documents, title matches first; it
   * asks for series matches only when the titles gave fewer than `limit`,
   * and for author matches only when it is still short after that.
   */
  lemma {:induction false} SearchFillBounds(titleMatches: seq<Book>, seriesMatches: seq<Book>, authorMatches: seq<Book>, limit: int)
    ensures var f := SearchFill(titleMatches, seriesMatches, authorMatches, limit);
            var titles := MongoLimit(titleMatches, limit);
            var withSeries := |titles| + |MongoLimit(seriesMatches, limit - |titles|)|;
      && (limit > 0 ==> |f.docs| <= limit)
      && (limit < 0 ==> |f.docs| <= -limit && f.issued == [ByTitle])
      && |f.issued| > 0 && f.issued[0] == ByTitle
      && (BySeries in f.issued <==> |titles| < limit)
      && (ByAuthors in f.issued <==> |titles| < limit && withSeries < limit)
      && |titles| <= |f.docs| && f.docs[..|titles|] == titles
      && (forall d | d in f.docs :: d in titleMatches || d in seriesMatches || d in authorMatches)
  {
    var f := SearchFill(titleMatches, seriesMatches, authorMatches, limit);
    var titles := MongoLimit(titleMatches, limit);
    MongoLimitFacts(titleMatches, limit);
    if |titles| < limit {
      var series := MongoLimit(seriesMatches, limit - |titles|);
      MongoLimitFacts(seriesMatches, limit - |titles|);
      var docs := titles + series;
      if |docs| < limit {
        var authors := MongoLimit(authorMatches, limit - |docs|);
        MongoLimitFacts(authorMatches, limit - |docs|);
        assert f.docs == titles + (series + authors);
        assert f.issued == [ByTitle, BySeries, ByAuthors];
      } else {
        assert f == SearchFillResult(docs, [ByTitle, BySeries]);
      }
    } else {
      assert f == SearchFillResult(titles, [ByTitle]);
    }
  }

  /** A limited query returns at most `|n|` of the matches (all of them for 0), in their order. */
  lemma {:induction false} MongoLimitFacts(matches: seq<Book>, n: int)
    ensures |MongoLimit(matches, n)| <= |matches|
    ensures n != 0 ==> |MongoLimit(matches, n)| <= Abs(n)
    ensures MongoLimit(matches, n) == matches[..|MongoLimit(matches, n)|]
    ensures forall d | d in MongoLimit(matches, n) :: d in matches
  {
    assert matches[..|matches|] == matches;
  }

  /** The three queries of lines 96-115, growing `docs` in place. */
  method CollectSearchResults(titleMatches: seq<Book>, seriesMatches: seq<Book>, authorMatches: seq<Book>, limit: int)
    returns (docs: seq<Book>, issued: seq<SearchQuery>)
    ensures SearchFillResult(docs, issued) == SearchFill(titleMatches, seriesMatches, authorMatches, limit)
  {
    docs := MongoLimit(titleMatches, limit);
    issued := [ByTitle];
    if |docs| < limit {
      docs := docs + MongoLimit(seriesMatches, limit - |docs|);
      issued := issued + [BySeries];
    }
    if |docs| < limit {
      docs := docs + MongoLimit(authorMatches, limit - |docs|);
      issued := issued + [ByAuthors];
    }
  }

  /** The way a handler ends without a response of its own. */
  datatype HandlerError =
    | Rejected(error: AppErrorFields)  // `next(new AppError(...))`
    | Thrown(thrown: JsError)          // an exception, passed on by the async wrapper

  const NoSearchTerm: AppErrorFields := NewAppError("No search term has been entered", Some(404))
  const NoBooksFound: AppErrorFields := NewAppError("No books found", Some(404))
  const NoBookData: AppErrorFields := NewAppError("No book id(s) or search term provided", Some(404))

  /** The fields a search result keeps by default. */
  const SearchFields: seq<string> := ["_id", "title", "authors", "coverImage", "series", "seriesNumber"]

  const ReduceError: JsError := TypeError("searchedForFields.reduce is not a function")

  /** `req.query.fields || [...]` as `reduce` reads it: only an array has a `reduce`. */
  function SearchedForFields(fields: Value): Option<seq<string>> {
    if !Truthy(fields) then Some(SearchFields)
    else if fields.Arr? then Some(seq(|fields.items|, i requires 0 <= i < |fields.items| => JsString(fields.items[i])))
    else None
  }

  function SearchLimit(query: map<string, Value>): int {
    NumberOr(Param(query, "limit"), 15)
  }

  /** The books of a search answer, before projection: de-duplicated against the books already found, most rated first. */
  function SearchedBooks(query: map<string, Value>, foundBooks: seq<Book>,
                         titleMatches: seq<Book>, seriesMatches: seq<Book>, authorMatches: seq<Book>): seq<Book>
  {
    var docs := SearchFill(titleMatches, seriesMatches, authorMatches, SearchLimit(query)).docs;
    ComparatorSort(RemoveDuplicates(docs, foundBooks), "-ratingCount")
  }

  /** What `getSearchedForBooks` answers. */
  function SearchedForBooks(query: map<string, Value>, foundBooks: seq<Book>,
                            titleMatches: seq<Book>, seriesMatches: seq<Book>, authorMatches: seq<Book>,
                            validPattern: string -> bool)
    : Result<seq<map<string, Value>>, HandlerError>
  {
    if !Truthy(Param(query, "search")) then Failure(Rejected(NoSearchTerm))
    else if !validPattern(PatternSource(Param(query, "search"))) then Failure(Thrown(InvalidPatternError))
    else
      var books := SearchedBooks(query, foundBooks, titleMatches, seriesMatches, authorMatches);
      var fields := SearchedForFields(Param(query, "fields"));
      if books == [] then Failure(Rejected(NoBooksFound))
      else if fields.None? then Failure(Thrown(ReduceError))
      else Success(ProjectEach(books, fields.value))
  }

  lemma {:induction false} RemoveDuplicatesLength(arr: seq<Book>, exclusions: seq<Book>)
    ensures |RemoveDuplicates(arr, exclusions)| <= |arr|
  {
    RemoveDuplicatesClean(arr, exclusions);
  }

  /** The books left after de-duplication and the sort: no more than the documents, none matching a found book, most rated first. */
  lemma {:induction false} DedupedSortedFacts(docs: seq<Book>, foundBooks: seq<Book>, books: seq<Book>)
    requires books == ComparatorSort(RemoveDuplicates(docs, foundBooks), "-ratingCount")
    ensures |books| <= |docs|
    ensures forall i, j | 0 <= i < j < |books| :: SortKey(books[i], "ratingCount") >= SortKey(books[j], "ratingCount")
    ensures forall i, e | 0 <= i < |books| && e in foundBooks :: !SameBook(books[i], e)
  {
    var filtered := RemoveDuplicates(docs, foundBooks);
    RemoveDuplicatesClean(docs, foundBooks);
    assert |books| == |filtered| by {
      assert |multiset(books)| == |multiset(filtered)|;
    }
    assert SortField("-ratingCount") == "ratingCount";
    forall i, e | 0 <= i < |books| && e in foundBooks ensures !SameBook(books[i], e) {
      assert books[i] in multiset(books);
      assert books[i] in multiset(filtered);
      var k :| 0 <= k < |filtered| && filtered[k] == books[i];
    }
  }

  /**
   * A search answer is non-empty, holds at most `limit` books (15 without a
   * `limit`), each with exactly the requested fields; the books are ordered
   * by rating count, highest first, and none matches a book already found.
   */
  lemma {:induction false} SearchedForBooksProperties(query: map<string, Value>, foundBooks: seq<Book>,
                                   titleMatches: seq<Book>, seriesMatches: seq<Book>, authorMatches: seq<Book>,
                                   validPattern: string -> bool)
    ensures "limit" !in query ==> SearchLimit(query) == 15
    ensures Truthy(Param(query, "search")) && !validPattern(PatternSource(Param(query, "search"))) ==>
              SearchedForBooks(query, foundBooks, titleMatches, seriesMatches, authorMatches, validPattern)
              == Failure(Thrown(InvalidPatternError))
    ensures var r := SearchedForBooks(query, foundBooks, titleMatches, seriesMatches, authorMatches, validPattern);
            var fields := SearchedForFields(Param(query, "fields"));
            r.Success? ==>
              && 0 < |r.value|
              && (SearchLimit(query) > 0 ==> |r.value| <= SearchLimit(query))
              && fields.Some?
              && forall k | 0 <= k < |r.value| :: r.value[k].Keys == Elements(fields.value)
    ensures var books := SearchedBooks(query, foundBooks, titleMatches, seriesMatches, authorMatches);
      && (forall i, j | 0 <= i < j < |books| :: SortKey(books[i], "ratingCount") >= SortKey(books[j], "ratingCount"))
      && (forall i, e | 0 <= i < |books| && e in foundBooks :: !SameBook(books[i], e))
  {
    var limit := SearchLimit(query);
    var docs := SearchFill(titleMatches, seriesMatches, authorMatches, limit).docs;
    var books := SearchedBooks(query, foundBooks, titleMatches, seriesMatches, authorMatches);
    assert limit > 0 ==> |docs| <= limit by {
      SearchFillBounds(titleMatches, seriesMatches, authorMatches, limit);
    }
    DedupedSortedFacts(docs, foundBooks, books);
  }

  /** `getSearchedForBooks`; `issued` lists the queries sent to the database. */
  method GetSearchedForBooks(query: map<string, Value>, foundBooks: seq<Book>,
                             titleMatches: seq<Book>, seriesMatches: seq<Book>, authorMatches: seq<Book>,
                             validPattern: string -> bool)
    returns (r: Result<seq<map<string, Value>>, HandlerError>, issued: seq<SearchQuery>)
    ensures r == SearchedForBooks(query, foundBooks, titleMatches, seriesMatches, authorMatches, validPattern)
    ensures issued == if Truthy(Param(query, "search")) && validPattern(PatternSource(Param(query, "search")))
                      then SearchFill(titleMatches, seriesMatches, authorMatches, SearchLimit(query)).issued
                      else []
  {
    if !Truthy(Param(query, "search")) {
      return Failure(Rejected(NoSearchTerm)), [];
    }
    if !validPattern(PatternSource(Param(query, "search"))) {
      return Failure(Thrown(InvalidPatternError)), [];
    }
    var limit := NumberOr(Param(query, "limit"), 15);
    var fields := SearchedForFields(Param(query, "fields"));
    var docs;
    docs, issued := CollectSearchResults(titleMatches, seriesMatches, authorMatches, limit);
    var filteredBooks := RemoveDuplicates(docs, foundBooks);
    var sorted := ComparatorSort(filteredBooks, "-ratingCount");
    if sorted == [] {
      return Failure(Rejected(NoBooksFound)), issued;
    }
    if fields.None? {
      return Failure(Thrown(ReduceError)), issued;
    }
    var books := ProjectAll(sorted, fields.value);
    return Success(books), issued;
  }

  // ---------------------------------------------------------------------------
  // The recommendation handler
  // ---------------------------------------------------------------------------

  /** The fields of a recommended book. */
  const RecommendedFields: seq<string> := [
    "_id", "title", "coverImage", "authors", "descriptionHTML", "ratingValue", "ratingCount",
    "series", "seriesNumber", "latestPublished", "firstPublished", "latestPublishedFormat",
    "firstPublishedFormat"]

  /** The parameters the recommendation filter leaves to the handler. */
  const RecommendationExcluded: seq<string> := ["id", "seriesNumberType", "includeSameSeries", "includeSameAuthors"]

  const StartsWithError: JsError := TypeError("querySort.startsWith is not a function")

  /** A destructuring default: it applies only to an undefined value. */
  function WithDefault(v: Value, default: Value): Value {
    if v == Undefined then default else v
  }

  /** `...queryObj`: the request parameters without the three the handler reads itself. */
  function RecommendationParams(query: map<string, Value>): map<string, Value> {
    query - {"seriesNumberType", "includeSameAuthors", "includeSameSeries"}
  }

  /** What one aggregation is given: its first `$match` stage, the top lists and the two match thresholds. */
  datatype Aggregation = Aggregation(
    matchStage: map<string, Value>,
    topGenres: seq<string>,
    topTags: seq<string>,
    genresMatchFilterNumber: nat,
    tagsMatchFilterNumber: nat)

  /** The inputs of the genre aggregation and of the related-books aggregation. */
  function Aggregations(d: BookData, query: map<string, Value>, filterObj: map<string, Value>): seq<Aggregation> {
    var cf := CommonFilters(d,
      WithDefault(Param(query, "seriesNumberType"), Str("any")),
      WithDefault(Param(query, "includeSameAuthors"), Bool(false)),
      WithDefault(Param(query, "includeSameSeries"), Bool(false)),
      filterObj);
    var topGenres := TopSlice(d.genres, 8);
    var topTags := TopSlice(d.tags, 11);
    var g := GenresMatchFilterNumber(topGenres);
    var t := TagsMatchFilterNumber(topTags);
    [Aggregation(Match(GenresClause(topGenres, topTags), cf), topGenres, topTags, g, t),
     Aggregation(Match(RelatedClause(d), cf), topGenres, topTags, g, t)]
  }

  /** `.filter(el => !!el.descriptionHTML)` */
  function Described(books: seq<Book>): (r: seq<Book>)
    ensures forall i | 0 <= i < |r| :: Present(r[i].descriptionHTML) && r[i] in books
    ensures forall b | b in books && Present(b.descriptionHTML) :: b in r
    decreases |books|
  {
    if books == [] then []
    else (if Present(books[0].descriptionHTML) then [books[0]] else []) + Described(books[1..])
  }

  /** `queryObj.sort || '-ratingCount'` */
  function QuerySort(queryObj: map<string, Value>): Value {
    var s := Param(queryObj, "sort");
    if Truthy(s) then s else Str("-ratingCount")
  }

  function RecommendationLimit(queryObj: map<string, Value>): int {
    NumberOr(Param(queryObj, "limit"), 100)
  }

  function RecommendationPage(queryObj: map<string, Value>): int {
    NumberOr(Param(queryObj, "page"), 1)
  }

  /** The books of both aggregations without duplicates, keeping those with a description. */
  function Candidates(genresBooks: seq<Book>, relatedBooks: seq<Book>): seq<Book> {
    Described(RemoveDuplicates(genresBooks + relatedBooks, []))
  }

  /** The candidates in the order a string sort parameter asks for; any other value leaves them as they are. */
  function SortedCandidates(querySort: Value, candidates: seq<Book>): seq<Book> {
    if querySort.Str? then ComparatorSort(candidates, querySort.s) else candidates
  }

  /** `.slice((page - 1) * limit, limit * page)` */
  function PageSlice(queryObj: map<string, Value>, sorted: seq<Book>): seq<Book> {
    var limit := RecommendationLimit(queryObj);
    var page := RecommendationPage(queryObj);
    JsSlice(sorted, (page - 1) * limit, limit * page)
  }

  /**
   * The candidates with a description, sorted and cut to the requested page.
   * A sort parameter that is not a string throws once the comparator runs,
   * which takes two candidates.
   */
  function RecommendedPage(queryObj: map<string, Value>, genresBooks: seq<Book>, relatedBooks: seq<Book>)
    : Result<seq<Book>, HandlerError>
  {
    var candidates := Candidates(genresBooks, relatedBooks);
    var querySort := QuerySort(queryObj);
    if !querySort.Str? && |candidates| >= 2 then Failure(Thrown(StartsWithError))
    else Success(PageSlice(queryObj, SortedCandidates(querySort, candidates)))
  }

  /** What `getRecommendedBooks` answers, with the filter call corrected to pass the field list. */
  function RecommendedBooks(query: map<string, Value>, bookData: Option<seq<Book>>,
                            genresBooks: seq<Book>, relatedBooks: seq<Book>, validPattern: string -> bool)
    : Result<seq<map<string, Value>>, HandlerError>
  {
    if bookData.None? then Failure(Rejected(NoBookData))
    else
      var queryObj := RecommendationParams(query);
      match FilterObjSpec(queryObj, RecommendationExcluded, false, validPattern)
      case Failure(e) => Failure(Thrown(e))
      case Success(_) =>
        match RecommendedPage(queryObj, genresBooks, relatedBooks)
        case Failure(e) => Failure(e)
        case Success(books) =>
          if books == [] then Failure(Rejected(NoBooksFound))
          else Success(ProjectEach(books, RecommendedFields))
  }

  /** Without parameters the first page of 100 recommendations is requested. */
  lemma {:induction false} RecommendationDefaults(query: map<string, Value>)
    ensures "limit" !in query ==> RecommendationLimit(RecommendationParams(query)) == 100
    ensures "page" !in query ==> RecommendationPage(RecommendationParams(query)) == 1
  {
    var queryObj := RecommendationParams(query);
    assert "limit" !in query ==> Param(queryObj, "limit") == Undefined;
    assert "page" !in query ==> Param(queryObj, "page") == Undefined;
  }

  /**
   * A recommendation answer is non-empty and holds at most `limit` books,
   * each with exactly the recommended fields.
   */
  lemma {:induction false} RecommendedBooksShape(query: map<string, Value>, bookData: Option<seq<Book>>,
                                   genresBooks: seq<Book>, relatedBooks: seq<Book>, validPattern: string -> bool)
    ensures var r := RecommendedBooks(query, bookData, genresBooks, relatedBooks, validPattern);
            var limit := RecommendationLimit(RecommendationParams(query));
            r.Success? ==>
              && 0 < |r.value|
              && (limit > 0 ==> |r.value| <= limit)
              && forall k | 0 <= k < |r.value| :: r.value[k].Keys == Elements(RecommendedFields)
  {
    PageBound(RecommendationParams(query), genresBooks, relatedBooks);
  }

  /** A recommended page holds at most `limit` books. */
  lemma {:induction false} PageBound(queryObj: map<string, Value>, genresBooks: seq<Book>, relatedBooks: seq<Book>)
    ensures RecommendedPage(queryObj, genresBooks, relatedBooks).Success? && RecommendationLimit(queryObj) > 0 ==>
              |RecommendedPage(queryObj, genresBooks, relatedBooks).value| <= RecommendationLimit(queryObj)
  {
    if RecommendedPage(queryObj, genresBooks, relatedBooks).Success? && RecommendationLimit(queryObj) > 0 {
      var sorted := SortedCandidates(QuerySort(queryObj), Candidates(genresBooks, relatedBooks));
      PageWindow(sorted, RecommendationPage(queryObj), RecommendationLimit(queryObj));
    }
  }

  /** A missing profile and an empty page give 404, each with its own message. */
  lemma {:induction false} RecommendedBooksNotFound(query: map<string, Value>, bookData: Option<seq<Book>>,
                                   genresBooks: seq<Book>, relatedBooks: seq<Book>, validPattern: string -> bool)
    ensures bookData.None? ==> RecommendedBooks(query, bookData, genresBooks, relatedBooks, validPattern) == Failure(Rejected(NoBookData))
    ensures bookData.Some? && FilterObjSpec(RecommendationParams(query), RecommendationExcluded, false, validPattern).Success?
            && RecommendedPage(RecommendationParams(query), genresBooks, relatedBooks) == Success([])
            ==> RecommendedBooks(query, bookData, genresBooks, relatedBooks, validPattern) == Failure(Rejected(NoBooksFound))
  {
  }

  /** Every book of a page slice is a book of the sequence it was cut from. */
  lemma {:induction false} PageSliceMembers(queryObj: map<string, Value>, sorted: seq<Book>)
    ensures forall b | b in PageSlice(queryObj, sorted) :: b in sorted
  {
    SliceMembers(sorted, (RecommendationPage(queryObj) - 1) * RecommendationLimit(queryObj),
                 RecommendationLimit(queryObj) * RecommendationPage(queryObj));
  }

  lemma {:induction false} SliceMembers<T>(xs: seq<T>, start: int, end: int)
    ensures forall b | b in JsSlice(xs, start, end) :: b in xs
  {
    var w := JsSlice(xs, start, end);
    SliceIsRun(xs, start, end);
    var s := SliceIndex(start, |xs|);
    forall b | b in w ensures b in xs {
      var k :| 0 <= k < |w| && w[k] == b;
      assert xs[s + k] == b;
    }
  }

  /** The candidates are described books of the two aggregations. */
  lemma {:induction false} CandidatesMembers(genresBooks: seq<Book>, relatedBooks: seq<Book>)
    ensures forall b | b in Candidates(genresBooks, relatedBooks) ::
              Present(b.descriptionHTML) && b in genresBooks + relatedBooks
  {
    var all := genresBooks + relatedBooks;
    var deduped := RemoveDuplicates(all, []);
    var candidates := Candidates(genresBooks, relatedBooks);
    assert forall b | b in deduped :: b in all by {
      RemoveDuplicatesPicksKept(all, [], |all|);
      forall b | b in deduped ensures b in all {
        var k :| 0 <= k < |deduped| && deduped[k] == b;
      }
    }
    forall b | b in candidates ensures Present(b.descriptionHTML) && b in all {
      var k :| 0 <= k < |candidates| && candidates[k] == b;
    }
  }

  /** The candidates are described books of the two aggregations, in any sort order. */
  lemma {:induction false} SortedCandidatesMembers(querySort: Value, genresBooks: seq<Book>, relatedBooks: seq<Book>)
    ensures forall b | b in SortedCandidates(querySort, Candidates(genresBooks, relatedBooks)) ::
              Present(b.descriptionHTML) && b in genresBooks + relatedBooks
  {
    var candidates := Candidates(genresBooks, relatedBooks);
    var sorted := SortedCandidates(querySort, candidates);
    CandidatesMembers(genresBooks, relatedBooks);
    forall b | b in sorted ensures b in candidates {
      assert b in multiset(sorted);
    }
  }

  /** The books of a page have a description and come from the two aggregations. */
  lemma {:induction false} RecommendedPageSources(queryObj: map<string, Value>, genresBooks: seq<Book>, relatedBooks: seq<Book>)
    ensures var page := RecommendedPage(queryObj, genresBooks, relatedBooks);
            page.Success? ==>
              forall b | b in page.value :: Present(b.descriptionHTML) && b in genresBooks + relatedBooks
  {
    var sorted := SortedCandidates(QuerySort(queryObj), Candidates(genresBooks, relatedBooks));
    PageSliceMembers(queryObj, sorted);
    SortedCandidatesMembers(QuerySort(queryObj), genresBooks, relatedBooks);
  }

  /** A slice of a sequence ordered highest first is ordered highest first. */
  lemma {:induction false} SliceOrder(sorted: seq<Book>, start: int, end: int, key: Book -> int)
    requires forall i, j | 0 <= i < j < |sorted| :: key(sorted[i]) >= key(sorted[j])
    ensures var w := JsSlice(sorted, start, end);
            forall i, j | 0 <= i < j < |w| :: key(w[i]) >= key(w[j])
  {
    var w := JsSlice(sorted, start, end);
    var s := SliceIndex(start, |sorted|);
    SliceIsRun(sorted, start, end);
    forall i, j | 0 <= i < j < |w| ensures key(w[i]) >= key(w[j]) {
      assert w[i] == sorted[s + i] && w[j] == sorted[s + j];
    }
  }

  /** Under a '-' sort (the default is '-ratingCount') a page is non-increasing in the sort field. */
  lemma {:induction false} RecommendedPageOrder(queryObj: map<string, Value>, genresBooks: seq<Book>, relatedBooks: seq<Book>)
    ensures var page := RecommendedPage(queryObj, genresBooks, relatedBooks);
            var sort := QuerySort(queryObj);
            page.Success? && sort.Str? && Descending(sort.s) ==>
              forall i, j | 0 <= i < j < |page.value| ::
                SortKey(page.value[i], SortField(sort.s)) >= SortKey(page.value[j], SortField(sort.s))
    ensures !Truthy(Param(queryObj, "sort")) ==> QuerySort(queryObj) == Str("-ratingCount")
  {
    var querySort := QuerySort(queryObj);
    if querySort.Str? && Descending(querySort.s) {
      var sorted := ComparatorSort(Candidates(genresBooks, relatedBooks), querySort.s);
      assert SortedCandidates(querySort, Candidates(genresBooks, relatedBooks)) == sorted;
      var limit := RecommendationLimit(queryObj);
      var p := RecommendationPage(queryObj);
      assert PageSlice(queryObj, sorted) == JsSlice(sorted, (p - 1) * limit, limit * p);
      SliceOrder(sorted, (p - 1) * limit, limit * p, b => SortKey(b, SortField(querySort.s)));
    }
  }

  /** The part of `getRecommendedBooks` after the two aggregations: merge, keep the described, sort, cut the page. */
  method SelectRecommendedPage(queryObj: map<string, Value>, genresBooks: seq<Book>, relatedBooks: seq<Book>)
    returns (r: Result<seq<Book>, HandlerError>)
    ensures r == RecommendedPage(queryObj, genresBooks, relatedBooks)
  {
    var candidates := Described(RemoveDuplicates(genresBooks + relatedBooks, []));
    var querySort := if Truthy(Param(queryObj, "sort")) then Param(queryObj, "sort") else Str("-ratingCount");
    if !querySort.Str? && |candidates| >= 2 {
      return Failure(Thrown(StartsWithError));
    }
    var sorted := if querySort.Str? then ComparatorSort(candidates, querySort.s) else candidates;
    var limit := NumberOr(Param(queryObj, "limit"), 100);
    var page := NumberOr(Param(queryObj, "page"), 1);
    var skip := (page - 1) * limit;
    return Success(JsSlice(sorted, skip, limit * page));
  }

  /** `getRecommendedBooks` with the filter call corrected; `aggregations` lists what the two aggregations are given. */
  method GetRecommendedBooks(query: map<string, Value>, bookData: Option<seq<Book>>,
                             genresBooks: seq<Book>, relatedBooks: seq<Book>, validPattern: string -> bool)
    returns (r: Result<seq<map<string, Value>>, HandlerError>, aggregations: seq<Aggregation>)
    ensures var f := FilterObjSpec(RecommendationParams(query), RecommendationExcluded, false, validPattern);
      && (bookData.None? || f.Success? ==> r == RecommendedBooks(query, bookData, genresBooks, relatedBooks, validPattern))
      && (bookData.Some? && f.Failure? ==>
            r.Failure? && r.error.Thrown?
            && FilterObjThrows(RecommendationParams(query), RecommendationExcluded, false, validPattern, r.error.thrown))
    ensures var f := FilterObjSpec(RecommendationParams(query), RecommendationExcluded, false, validPattern);
            aggregations == if bookData.Some? && f.Success? then Aggregations(MergeBookData(bookData.value), query, f.value) else []
  {
    if bookData.None? {
      return Failure(Rejected(NoBookData)), [];
    }
    var profile := MergeBookData(bookData.value);
    var queryObj := query - {"seriesNumberType", "includeSameAuthors", "includeSameSeries"};
    assert queryObj == RecommendationParams(query);
    var filterObj := GetFilterObj(queryObj, RecommendationExcluded, false, validPattern);
    if filterObj.Failure? {
      return Failure(Thrown(filterObj.error)), [];
    }
    assert RecommendedBooks(query, bookData, genresBooks, relatedBooks, validPattern)
           == match RecommendedPage(queryObj, genresBooks, relatedBooks)
              case Failure(e) => Failure(e)
              case Success(books) =>
                if books == [] then Failure(Rejected(NoBooksFound))
                else Success(ProjectEach(books, RecommendedFields));
    aggregations := Aggregations(profile, query, filterObj.value);
    var page := SelectRecommendedPage(queryObj, genresBooks, relatedBooks);
    if page.Failure? {
      return Failure(page.error), aggregations;
    }
    var window := page.value;
    var books := ProjectAll(window, RecommendedFields);
    if |books| == 0 {
      return Failure(Rejected(NoBooksFound)), aggregations;
    }
    return Success(books), aggregations;
  }

  // ---------------------------------------------------------------------------
  // The listing handler
  // ---------------------------------------------------------------------------

  /**
   * `getBooks`: the query plan the builder chain produces, with the filter
   * call corrected to pass the options it unpacks. The database's answer is
   * an array, never falsy, so the 404 branch is never taken.
   */
  method GetBooks(query: map<string, Value>, options: FilterOptions, validPattern: string -> bool)
    returns (r: Result<seq<QueryOp>, JsError>)
    ensures var f := FilterObjSpec(query, ExcludedFieldsOf(options), options.isFilterObjPrepared, validPattern);
            var fields := Param(query, "fields");
      && (f.Failure? ==> r.Failure? && FilterObjThrows(query, ExcludedFieldsOf(options), options.isFilterObjPrepared, validPattern, r.error))
      && (f.Success? ==> r == Success(
            (if f.value == map[] then [] else [Find(f.value)])
            + [SortBy(SortSpec(query))]
            + (if Truthy(fields) then [Select(SelectSpec(fields))] else [])
            + PageOps(query)))
  {
    var handler := new QueryHandler([], query);
    var filtered := handler.Filter(options, validPattern);
    if filtered.Failure? {
      return Failure(filtered.error);
    }
    ghost var f := FilterObjSpec(query, ExcludedFieldsOf(options), options.isFilterObjPrepared, validPattern);
    ghost var found := if f.value == map[] then [] else [Find(f.value)];
    assert handler.ops == found;
    var sorted := handler.Sort();
    assert handler.ops == found + [SortBy(SortSpec(query))];
    var limited := sorted.LimitFields();
    var paginated := limited.Paginate();
    assert paginated == handler;
    return Success(paginated.ops);
  }
}
