/**
 * The query builder of the API (api/controllers/query-handler.js). Each
 * builder method replaces the database query by a refined one; the model
 * keeps the refinements as a log of operations.
 */
module QueryHandlers {
  import opened JsValues
  import opened Helpers

  /** One refinement of a database query. */
  datatype QueryOp =
    | Find(filter: map<string, Value>)
    | SortBy(spec: Value)
    | Select(spec: Value)
    | Skip(count: int)
    | Limit(count: int)

  /** The options object `{ excludedFilterFields, isFilterObjPrepared }` handed to `filter`. */
  datatype FilterOptions = FilterOptions(excludedFilterFields: Option<seq<string>>, isFilterObjPrepared: bool)

  /** `queryObj[key]`, undefined when the key is absent. */
  function Param(queryObj: map<string, Value>, key: string): Value {
    if key in queryObj then queryObj[key] else Undefined
  }

  /** `[v].flat().join(sep)`: an array is joined item by item, any other value stands alone. */
  function FlatJoin(v: Value, sep: string): string {
    var elems := if v.Arr? then v.items else [v];
    Join(seq(|elems|, i requires 0 <= i < |elems| => ItemString(elems[i])), sep)
  }

  /** The sort specification handed to the database. */
  function SortSpec(queryObj: map<string, Value>): Value {
    var s := Param(queryObj, "sort");
    if !Truthy(s) then Str("-ratingValue")
    else if IsObject(s) then s
    else Str(FlatJoin(s, " "))
  }

  /** The projection handed to the database, when there is one. */
  function SelectSpec(fields: Value): Value {
    if IsObject(fields) then fields else Str(FlatJoin(fields, " "))
  }

  function PageOf(queryObj: map<string, Value>): int {
    NumberOr(Param(queryObj, "page"), 1)
  }

  function LimitOf(queryObj: map<string, Value>): int {
    NumberOr(Param(queryObj, "limit"), 100)
  }

  /** The two operations `paginate` issues: skip the earlier pages, then take one page. */
  function PageOps(queryObj: map<string, Value>): seq<QueryOp> {
    [Skip((PageOf(queryObj) - 1) * LimitOf(queryObj)), Limit(LimitOf(queryObj))]
  }

  /** The excluded fields an options object carries; `undefined` means none. */
  function ExcludedFieldsOf(options: FilterOptions): seq<string> {
    if options.excludedFilterFields.Some? then options.excludedFilterFields.value else []
  }

  class QueryHandler {
    /** The refinements applied so far to the database query, oldest first. */
    var ops: seq<QueryOp>
    /** The request parameters; no method changes them. */
    const queryObj: map<string, Value>

    constructor(query: seq<QueryOp>, queryObj: map<string, Value>)
      ensures ops == query && this.queryObj == queryObj
    {
      ops := query;
      this.queryObj := queryObj;
    }

    /**
     * Adds a `find` with the filter built from a copy of the parameters, only
     * when that filter has keys. The options are unpacked into the arguments
     * `getFilterObj` declares (see `Helpers.GetFilterObjAsCalled` for the call
     * as written, which throws).
     */
    method Filter(options: FilterOptions, validPattern: string -> bool) returns (r: Result<QueryHandler, JsError>)
      modifies this
      ensures var f := FilterObjSpec(queryObj, ExcludedFieldsOf(options), options.isFilterObjPrepared, validPattern);
        && (f.Failure? ==> r.Failure? && ops == old(ops)
                           && FilterObjThrows(queryObj, ExcludedFieldsOf(options), options.isFilterObjPrepared, validPattern, r.error))
        && (f.Success? ==> r == Success(this) && ops == old(ops) + (if f.value == map[] then [] else [Find(f.value)]))
    {
      var filterObj := GetFilterObj(queryObj, ExcludedFieldsOf(options), options.isFilterObjPrepared, validPattern);
      if filterObj.Failure? {
        return Failure(filterObj.error);
      }
      if filterObj.value != map[] {
        ops := ops + [Find(filterObj.value)];
      }
      return Success(this);
    }

    method Sort() returns (self: QueryHandler)
      modifies this
      ensures self == this
      ensures ops == old(ops) + [SortBy(SortSpec(queryObj))]
    {
      var s := Param(queryObj, "sort");
      if Truthy(s) {
        var sortBy := if IsObject(s) then s else Str(FlatJoin(s, " "));
        ops := ops + [SortBy(sortBy)];
      } else {
        ops := ops + [SortBy(Str("-ratingValue"))];
      }
      return this;
    }

    method LimitFields() returns (self: QueryHandler)
      modifies this
      ensures self == this
      ensures var f := Param(queryObj, "fields");
        ops == old(ops) + (if Truthy(f) then [Select(SelectSpec(f))] else [])
    {
      var f := Param(queryObj, "fields");
      if Truthy(f) {
        ops := ops + [Select(SelectSpec(f))];
      }
      return this;
    }

    method Paginate() returns (self: QueryHandler)
      modifies this
      ensures self == this
      ensures ops == old(ops) + PageOps(queryObj)
    {
      var page := NumberOr(Param(queryObj, "page"), 1);
      var limit := NumberOr(Param(queryObj, "limit"), 100);
      var skip := (page - 1) * limit;
      ops := ops + [Skip(skip), Limit(limit)];
      return this;
    }
  }

  // ---------------------------------------------------------------------------
  // Properties of the builder
  // ---------------------------------------------------------------------------

  /**
   * Without a usable `page` or `limit` the first page of 100 is requested;
   * a numeral parameter gives its own value.
   */
  lemma {:induction false} PaginationDefaults(queryObj: map<string, Value>, page: int, limit: int)
    ensures !Truthy(ToNumber(Param(queryObj, "page"))) ==> PageOf(queryObj) == 1
    ensures !Truthy(ToNumber(Param(queryObj, "limit"))) ==> LimitOf(queryObj) == 100
    ensures "page" !in queryObj && "limit" !in queryObj ==> PageOps(queryObj) == [Skip(0), Limit(100)]
    ensures page != 0 && limit != 0 ==>
              PageOps(map["page" := Str(IntToString(page)), "limit" := Str(IntToString(limit))])
                == [Skip((page - 1) * limit), Limit(limit)]
  {
    if page != 0 && limit != 0 {
      var q := map["page" := Str(IntToString(page)), "limit" := Str(IntToString(limit))];
      NumberOrNumeral(page, 1);
      NumberOrNumeral(limit, 100);
      assert Param(q, "page") == Str(IntToString(page));
      assert Param(q, "limit") == Str(IntToString(limit));
    }
  }

  /** Consecutive pages are adjacent windows of `limit` results: page p covers [(p-1)·limit, p·limit). */
  lemma {:induction false} ConsecutivePagesAdjacent(queryObj: map<string, Value>, page: int)
    requires page != 0 && page + 1 != 0
    ensures var next := queryObj["page" := Str(IntToString(page + 1))];
            var here := queryObj["page" := Str(IntToString(page))];
            && PageOps(next)[0].count == PageOps(here)[0].count + LimitOf(here)
            && LimitOf(next) == LimitOf(here)
  {
    var next := queryObj["page" := Str(IntToString(page + 1))];
    var here := queryObj["page" := Str(IntToString(page))];
    assert PageOf(here) == page by {
      NumberOrNumeral(page, 1);
      assert Param(here, "page") == Str(IntToString(page));
    }
    assert PageOf(next) == page + 1 by {
      NumberOrNumeral(page + 1, 1);
      assert Param(next, "page") == Str(IntToString(page + 1));
    }
    var limit := LimitOf(here);
    assert LimitOf(next) == limit by {
      assert Param(next, "limit") == Param(here, "limit");
    }
    assert (page + 1 - 1) * limit == (page - 1) * limit + limit by {
      assert (page + 1 - 1) * limit == page * limit;
      assert page * limit == (page - 1) * limit + 1 * limit;
    }
  }

  /** The default sort is by rating value, highest first; a plain object passes through unchanged. */
  lemma {:induction false} SortSpecCases(queryObj: map<string, Value>, fields: seq<string>)
    ensures !Truthy(Param(queryObj, "sort")) ==> SortSpec(queryObj) == Str("-ratingValue")
    ensures IsObject(Param(queryObj, "sort")) ==> SortSpec(queryObj) == Param(queryObj, "sort")
    ensures |fields| > 0 ==>
              SortSpec(map["sort" := Arr(seq(|fields|, i requires 0 <= i < |fields| => Str(fields[i])))])
                == Str(Join(fields, " "))
  {
    if |fields| > 0 {
      var v := Arr(seq(|fields|, i requires 0 <= i < |fields| => Str(fields[i])));
      var q := map["sort" := v];
      assert Param(q, "sort") == v && Truthy(v) && !IsObject(v);
      assert FlatJoin(v, " ") == Join(fields, " ") by {
        assert seq(|v.items|, i requires 0 <= i < |v.items| => ItemString(v.items[i])) == fields;
      }
    }
  }

  // How the database reads a space-separated sort or projection string.

  /** The pieces of `s` between the occurrences of `c`. */
  function Split(s: string, c: char): (r: seq<string>)
    ensures |r| > 0
    decreases |s|
  {
    if s == [] then [""]
    else
      var rest := Split(s[1..], c);
      if s[0] == c then [""] + rest else [[s[0]] + rest[0]] + rest[1..]
  }

  lemma {:induction false} SplitPrefix(x: string, c: char, t: string)
    requires c !in x
    ensures Split(x + [c] + t, c) == [x] + Split(t, c)
    decreases |x|
  {
    var s := x + [c] + t;
    if x == [] {
      assert s[0] == c && s[1..] == t;
    } else {
      assert s[0] == x[0] && s[1..] == x[1..] + [c] + t;
      SplitPrefix(x[1..], c, t);
      assert [x[0]] + x[1..] == x;
    }
  }

  lemma {:induction false} SplitWithout(x: string, c: char)
    requires c !in x
    ensures Split(x, c) == [x]
    decreases |x|
  {
    if x != [] {
      SplitWithout(x[1..], c);
      assert [x[0]] + x[1..] == x;
    }
  }

  /** Splitting the joined list at the separator gives the list back when no item holds the separator. */
  lemma {:induction false} SplitJoin(xs: seq<string>, c: char)
    requires |xs| > 0
    requires forall i | 0 <= i < |xs| :: c !in xs[i]
    ensures Split(Join(xs, [c]), c) == xs
    decreases |xs|
  {
    if |xs| == 1 {
      SplitWithout(xs[0], c);
    } else {
      SplitJoin(xs[1..], c);
      SplitPrefix(xs[0], c, Join(xs[1..], [c]));
      assert xs == [xs[0]] + xs[1..];
    }
  }

  /** A list of sort fields reaches the database as the same list of fields. */
  lemma {:induction false} SortFieldsRoundTrip(fields: seq<string>)
    requires |fields| > 0
    requires forall i | 0 <= i < |fields| :: ' ' !in fields[i]
    ensures var q := map["sort" := Arr(seq(|fields|, i requires 0 <= i < |fields| => Str(fields[i])))];
            SortSpec(q).Str? && Split(SortSpec(q).s, ' ') == fields
  {
    SortSpecCases(map[], fields);
    SplitJoin(fields, ' ');
  }
}
