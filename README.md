# Book recommender: the data shaping around the database

This Dafny project models the in-memory logic of the book recommender's API
and the display helpers of its front end. The API runs on Express and
MongoDB, and the front end is Vue.

The API part covers four things:
- how request parameters become a database filter (`getFilterObj` and the
  map helpers);
- the query builder (`QueryHandler`) and `AppError`;
- how the error middleware classifies errors and what each environment
  sends back;
- the two handlers that post-process database results: search and
  recommendations.

The recommendations handler merges the profile books, builds the common
filters and the series-number filter, and derives the genre and tag
thresholds. It then de-duplicates, sorts, slices and projects the candidates.

The front-end part covers the title, slug, author line, cover and alt text of
a book, both as utility functions and as the computed properties of the book
mixin.

## How the model is built

Values and requests:
- JavaScript values are a `Value` datatype. It includes `undefined`, `NaN`, a
  case-insensitive pattern `CIPattern(s)` for `new RegExp(s, 'i')` and a
  regex literal.
- Objects are `map<string, Value>`. Key order is not modelled.
- Book documents are a `Book` record with every field of the schema, including the `updatedAt` and `createdAt` timestamps, so sorting or projecting by them works as on any other date field.

Database calls and the environment:
- Every database call is a parameter: the matches of each search query and
  the results of the two aggregations are sequences given to the handler.
- `process.env.NODE_ENV` is an explicit `Env` parameter.
- Which sources `new RegExp` accepts is a parameter `validPattern`; an
  invalid one throws a SyntaxError, as in the filter conversion and the search.
- Responses are returned records.

State-changing code is modelled imperatively, each method proved against a
specification function:
- `QueryHandler` is a class whose methods append operations (`find`, `sort`,
  `select`, `skip`, `limit`) to a log.
- `AppError` is a class whose constructor assigns its fields.
- The loops of `filterObject` and `getFilterObj` are methods with loop
  invariants. So are the `push` accumulation of the search, the projection
  `reduce` and the reassignments in `errorHandler`.

`getFilterObj` rewrites operator words in the JSON text of the parameters:
- The text rewrite `RewriteWords` is defined on strings. It is proved
  invertible, and proved to split at every non-word character. It also
  commutes with JSON string escaping.
- These facts justify applying it key by key and string by string
  (`RewriteValue`). So, like the source, the model rewrites an operator word
  inside a value too: the string `"in"` becomes `"$in"`.

In the front-end helpers a template literal prints a value with `String(v)`.
So `getCoverAlt(title, false)` appends "false", and the model keeps this.
For an empty author list the utility functions therefore give "Titlefalse",
while the mixin gives "Title". A lemma states this.

## Model

| member | source | states |
|---|---|---|
| BookModel.TimestampFields | api/models/book-model.js:96-103 | the `createdAt` and `updatedAt` dates are fields of a book: read as their timestamps and sorted by them, and a missing one is undefined and sorts as 0 |
| Helpers.OmitKeyValuePairs | api/utils/helpers.js:8-17 | the copy has exactly the keys of the object that are not omitted, each with its original value |
| Helpers.FilterObject | api/utils/helpers.js:19-25 | the loop fills a fresh object with exactly the keys of the object that are allowed, values unchanged |
| Helpers.OmitComplementsFilter | api/utils/helpers.js:8-25 | what `filterObject` keeps and what `omitKeyValuePairs` keeps for the same fields are disjoint and together make up the object |
| Helpers.NumbersConvert | api/utils/helpers.js:28 | a string is never a number, `* 1` leaves a number alone, a string converts to a finite number exactly when it is an integer numeral (empty, or an optional sign and at least one digit), and every integer's numeral converts to that integer |
| Helpers.RestoreRewrite | api/utils/helpers.js:42-45 | dropping the `$` in front of every operator word undoes the rewrite: the rewrite loses no information |
| Helpers.RestoreRewriteBy | api/utils/helpers.js:42-45 | the same round trip for any test of whole words, by induction over the text |
| Helpers.RewriteWordsInjective | api/utils/helpers.js:42-45 | two different texts never rewrite to the same text |
| Helpers.RewriteShape | api/utils/helpers.js:42-45 | the rewrite of an empty text is empty, a leading non-word character is copied, and the result never starts with a bare operator word |
| Helpers.WholeWordRewrite | api/utils/helpers.js:43 | a maximal run of word characters gains a `$` exactly when the whole run is an operator word (`\b` on both sides), and the rest is rewritten after it |
| Helpers.RewriteSplitsAtSeparator | api/utils/helpers.js:38-47 | a non-word character (quote, colon, comma, bracket) splits the rewrite, so the JSON text rewrites key by key and string by string |
| Helpers.RewriteSplitsBy | api/utils/helpers.js:42-45 | the splitting property for any test of whole words |
| Helpers.RewriteNonWordPrefix | api/utils/helpers.js:42-45 | a prefix of non-word characters is copied unchanged in front of the rewritten rest |
| Helpers.RewriteCommutesWithEscape | api/utils/helpers.js:38-45 | rewriting the escaped JSON text of a string equals escaping the rewritten string, so a string literal rewrites to the literal of the rewritten string |
| Helpers.CommutesWithEscapeBy | api/utils/helpers.js:38-45 | the commutation for any test of whole words, by induction over the text |
| Helpers.EscapeAppend | api/utils/helpers.js:38 | escaping a concatenation is the concatenation of the escapes |
| Helpers.RewriteObjectKeys | api/utils/helpers.js:38-47 | every defined parameter's rewritten key is in the parsed filter, and every parsed key restores to a parameter key that rewrites back to it |
| Helpers.RemovedFieldsNeverFilter | api/utils/helpers.js:35-47 | no filter key comes from `page`, `sort`, `limit`, `fields` or an excluded field; a prepared object is exactly the parameters without those fields |
| Helpers.ConvertEntry | api/utils/helpers.js:50-71 | the nested loops over one entry (`$regex`, the four comparisons, the snapshot of keys) give the conversion of that entry, or the SyntaxError when `new RegExp` is handed an invalid source |
| Helpers.ConvertEntries | api/utils/helpers.js:49-72 | the outer loop returns the converted entries whenever no entry is `null` and no pattern is invalid; otherwise it throws the TypeError of a null entry (reading `.$regex` of null) or the SyntaxError of an invalid pattern, one that some entry raises |
| Helpers.GetFilterObj | api/utils/helpers.js:34-75 | the in-place deletions, the text rewrite, the parse and the conversion loops return the filter object the specification function describes whenever it exists, and otherwise throw an exception that one of the entries raises |
| Helpers.FilterObjFailures | api/utils/helpers.js:34-75 | `getFilterObj` throws exactly when the parameters are converted (not prepared) and an entry is null or hands `new RegExp` an invalid source |
| Helpers.ConvertComparisonsEffect | api/utils/helpers.js:54-58 | the comparison loop keeps the key set, converts each truthy comparison value to a number and leaves every other value alone |
| Helpers.ExpandPatternsEffect | api/utils/helpers.js:62-71 | expanding removes the source key, puts the pattern list under the target key and keeps every other key |
| Helpers.ConvertExpandsPatterns | api/utils/helpers.js:62-71 | after conversion `$allregex` and `$inregex` are gone, and `$all`/`$in` hold one case-insensitive pattern per original value; an invalid source among those values makes the conversion throw the SyntaxError |
| Helpers.ConvertRegexEntry | api/utils/helpers.js:50-52 | a truthy `$regex` becomes a case-insensitive pattern with the same source, and an invalid source makes the conversion throw the SyntaxError |
| Helpers.ConvertComparisonEntries | api/utils/helpers.js:54-58 | every truthy `$gte`, `$gt`, `$lte`, `$lt` value becomes a number |
| Helpers.ConvertKeepsOtherKeys | api/utils/helpers.js:49-72 | every key that is not an operator keeps its value |
| Helpers.PatternListLength | api/utils/helpers.js:64 | `[v].flat().map(c => new RegExp(c, 'i'))` throws exactly when an element's source is invalid, and otherwise yields one case-insensitive pattern per array element (one for a scalar), each with that element's source |
| Helpers.OptionsObjectCallThrows | api/utils/helpers.js:34-35 | `getFilterObj` called with an options object, as both call sites do, throws when it spreads the object |
| QueryHandlers.QueryHandler.constructor | api/controllers/query-handler.js:9-14 | the handler starts from the given query and parameters |
| QueryHandlers.QueryHandler.Filter | api/controllers/query-handler.js:16-24 | adds a `find` exactly when the filter object is non-empty, otherwise passes on an exception `getFilterObj` can throw and leaves the query alone; returns the same handler |
| QueryHandlers.QueryHandler.Sort | api/controllers/query-handler.js:26-42 | appends exactly one sort: the parameter, or '-ratingValue' without one; returns the same handler |
| QueryHandlers.QueryHandler.LimitFields | api/controllers/query-handler.js:44-56 | appends a select only when `fields` is truthy; returns the same handler |
| QueryHandlers.QueryHandler.Paginate | api/controllers/query-handler.js:58-71 | appends skip (page-1)·limit, then limit; returns the same handler |
| QueryHandlers.PaginationDefaults | api/controllers/query-handler.js:60-61 | a missing, zero or non-numeric page is 1 and limit 100, so no parameters give skip 0 and limit 100; numerals give their own values |
| QueryHandlers.ConsecutivePagesAdjacent | api/controllers/query-handler.js:60-65 | page p+1 starts exactly `limit` results after page p, with the same limit |
| QueryHandlers.SortSpecCases | api/controllers/query-handler.js:27-39 | no sort gives '-ratingValue', an object passes through, and a list of fields is joined with single spaces |
| QueryHandlers.SortFieldsRoundTrip | api/controllers/query-handler.js:31-35 | splitting the sort string at spaces gives back the list of sort fields, when no field contains a space |
| JsValues.NumberOfIntToString | api/controllers/query-handler.js:60 | `Number` reads the decimal numeral of an integer back as that integer |
| JsValues.NumberOr | api/controllers/query-handler.js:60-61 | `v * 1 \|\| d` is the number `v` denotes unless that is 0 or NaN, otherwise the default |
| JsValues.NumberOrNumeral | api/controllers/query-handler.js:60-61 | a non-zero numeral parameter gives its own value |
| AppErrors.NewAppError | api/utils/app-error.js:2-13 | keeps the message, is operational, uses the code (500 when it is missing or 0), and has status 'fail' exactly when the code's string starts with '4' |
| AppErrors.StatusFailIff | api/utils/app-error.js:6 | status is 'fail' exactly for a non-negative code whose leading digit is 4 |
| AppErrors.StatusOfHttpCodes | api/utils/app-error.js:5-6 | among three-digit codes exactly 4xx gives 'fail'; no code gives 500 and 'error' |
| AppErrors.AppError.constructor | api/utils/app-error.js:2-13 | the constructed object's fields are those of `NewAppError` |
| ErrorHandling.HandleCastErrorDB | api/controllers/error-handler.js:3-6 | a cast error becomes an operational 400 'fail' error |
| ErrorHandling.FirstQuoted | api/controllers/error-handler.js:9 | a match starts and ends with the same quote character |
| ErrorHandling.QuotedFromLeftmost | api/controllers/error-handler.js:9 | the match found is the leftmost one |
| ErrorHandling.QuotedFromFinds | api/controllers/error-handler.js:9 | two equal quotes with no line terminator between them always give a match, starting at or before the first |
| ErrorHandling.CloseFromFinds | api/controllers/error-handler.js:9 | the lazy repetition reaches a closing quote when no line terminator comes before it |
| ErrorHandling.HandleDuplicateFieldsDB | api/controllers/error-handler.js:8-16 | succeeds exactly when the error has a message (`.match` of a missing message throws) and then gives a 400 'fail' error |
| ErrorHandling.HandleJWTError | api/controllers/error-handler.js:18 | 401 'fail' with the fixed invalid-token message |
| ErrorHandling.HandleJWTExpiredError | api/controllers/error-handler.js:20-21 | 401 'fail' with the fixed expired-token message |
| ErrorHandling.HandleUnhandledError | api/controllers/error-handler.js:23-29 | the generic error carries its message, code 500 and status 'error' |
| ErrorHandling.HandleUnhandledErrorAsWritten | api/controllers/error-handler.js:23-29 | the spread copy has code 500 and status 'error' but no message |
| ErrorHandling.ValidationEntries | api/controllers/error-handler.js:48-60 | one entry per sub-error |
| ErrorHandling.SendErrorProd | api/controllers/error-handler.js:74-89 | production never sends error details; an operational error sends its own code, status and message, any other error the generic 500 |
| ErrorHandling.Classify | api/controllers/error-handler.js:104-114 | every classified error has a status code |
| ErrorHandling.ClassifyError | api/controllers/error-handler.js:104-114 | the chain of reassignments of the local error computes the classification, with `handleUnhandledError` corrected as in the second Findings row |
| ErrorHandling.ErrorHandler | api/controllers/error-handler.js:91-123 | the middleware's dispatch gives the response of the specification function for every error and environment, with `handleUnhandledError` corrected as in the second Findings row |
| ErrorHandling.CastErrorResponse | api/controllers/error-handler.js:110 | a CastError reaches a production client as 400 "Invalid <path>: <value>." |
| ErrorHandling.DuplicateKeyResponse | api/controllers/error-handler.js:111 | a code 11000 error gives 400 quoting the first quoted value, or the message itself when nothing is quoted, or the generic 500 for an empty message |
| ErrorHandling.InvalidTokenResponse | api/controllers/error-handler.js:112 | a JsonWebTokenError gives 401 with its fixed message |
| ErrorHandling.ExpiredTokenResponse | api/controllers/error-handler.js:113 | a TokenExpiredError gives 401 with its fixed message |
| ErrorHandling.IncompleteErrorResponse | api/controllers/error-handler.js:114 | an error still lacking code, status or message gives 500 'Something went very wrong!' in production and in development |
| ErrorHandling.ProductionExposure | api/controllers/error-handler.js:74-89 | a complete error reaches production with its own code, status and message when operational, and as the generic 500 otherwise; no details ever |
| ErrorHandling.OtherEnvironmentSilent | api/controllers/error-handler.js:104-122 | outside development and production nothing is sent for an error that is not a validation error, with one exception: a duplicate-key error (code 11000, not a cast error) without a message makes `handleDuplicateFieldsDB` throw a TypeError in every environment |
| ErrorHandling.ValidationResponses | api/controllers/error-handler.js:94-102 | validation errors give 400 with one 'fail' entry per sub-error carrying its message; only development adds the error copy |
| ErrorHandling.UnhandledMessageLost | api/controllers/error-handler.js:23-29 | as written, the generic error reaches production with status 500 and no message; the corrected one carries it |
| BooksController.FirstMatch | api/controllers/books-controller.js:10-17 | the first matching index is at most the element's own, and equals it exactly when no earlier element matches |
| BooksController.ExclusionIndex | api/controllers/books-controller.js:18-24 | -1 exactly when no exclusion matches, otherwise the first matching exclusion |
| BooksController.RemoveDuplicatesPicksKept | api/controllers/books-controller.js:7-26 | the result is the kept elements at increasing indices: a subsequence in input order, never longer than the input |
| BooksController.KeptIff | api/controllers/books-controller.js:8-25 | an element is kept exactly when no earlier element and no exclusion matches it |
| BooksController.RemoveDuplicatesClean | api/controllers/books-controller.js:6-27 | no element of the result is matched by an earlier element of the result or by an exclusion |
| BooksController.RemoveDuplicatesIdempotent | api/controllers/books-controller.js:6-27 | de-duplicating twice with the same exclusions is de-duplicating once |
| BooksController.SeriesNoneFilter | api/controllers/books-controller.js:165-166 | 'none' admits exactly the books with neither series nor series number |
| BooksController.SeriesFirstFilter | api/controllers/books-controller.js:169-170 | 'first' admits "1" and a missing number, and rejects every other number starting with a digit |
| BooksController.SeriesFirstOrNoneFilter | api/controllers/books-controller.js:167-168 | 'first or none' admits the same books as 'first' |
| BooksController.SeriesAnyFilter | api/controllers/books-controller.js:171-173 | any other value gives the 'any' filter, which admits a missing number or one with a character other than a line feed, and rejects "" |
| BooksController.NotFirstConditionHolds | api/controllers/books-controller.js:170 | `$not: /^(?!(?:1)$)\d+/` holds exactly when the number is missing or does not match the pattern |
| BooksController.TwoWayOr | api/controllers/books-controller.js:168 | an `$or` of two documents holds exactly when one of them holds |
| BooksController.AnyFilterHolds | api/controllers/books-controller.js:173 | the 'any' document holds exactly for a missing number or one that `/.+/` matches |
| BooksController.SeriesNumberFilterKeys | api/controllers/books-controller.js:163-175 | the series-number filter never sets `authors`, sets `series` only for 'none', and holds a `$or` except for 'none' and 'first' |
| BooksController.Dedup | api/controllers/books-controller.js:197 | `[...new Set(xs)]` has no duplicates and the same elements |
| BooksController.DedupFirstOccurrenceOrder | api/controllers/books-controller.js:197 | the de-duplicated values keep the order of their first occurrences |
| BooksController.DedupOfNoDup | api/controllers/books-controller.js:197 | a list without duplicates is unchanged |
| BooksController.DedupAppend | api/controllers/books-controller.js:195-203 | de-duplicating step by step equals de-duplicating the whole concatenation |
| BooksController.NonEmptyMembers | api/controllers/books-controller.js:202 | `.filter(Boolean)` keeps exactly the non-empty strings |
| BooksController.MergeBookDataLists | api/controllers/books-controller.js:195-212 | each merged list is the de-duplicated concatenation of that list over all profile books |
| BooksController.MergeBookDataSeries | api/controllers/books-controller.js:202-210 | `series` stays null without books, otherwise lists the non-empty series in book order |
| BooksController.CommonFiltersPrecedence | api/controllers/books-controller.js:222-246 | the request's filter overrides every common filter; authors are excluded unless asked (the string "false" asks); under 'none' the series exclusion gives way to `series: null` |
| BooksController.MatchAsWrittenDropsClause | api/controllers/books-controller.js:271-274 | a `$or` among the common filters replaces the genre/tag clause |
| BooksController.DefaultSeriesTypeDropsClause | api/controllers/books-controller.js:271-274 | under the default series type, and 'first or none', both aggregations' `$match` is the common filters alone |
| BooksController.MatchConjunction | api/controllers/books-controller.js:271-274 | the corrected stage admits a book exactly when both the clause and every common filter admit it |
| BooksController.MatchAsWrittenWithoutOr | api/controllers/books-controller.js:326-333 | without a `$or` among the common filters the stage as written already enforces both |
| BooksController.TopSlice | api/controllers/books-controller.js:251-262 | fewer than 5 items are all kept, otherwise the first floor(0.8·n), at least 4 and fewer than n; the 0.66 branch is never reached |
| BooksController.GenresMatchFilterNumber | api/controllers/books-controller.js:264 | the genre threshold is at most the number of top genres, and below it when there is one |
| BooksController.TagsMatchFilterNumber | api/controllers/books-controller.js:265 | the tag threshold is floor(n/2) |
| BooksController.PageWindow | api/controllers/books-controller.js:384-395 | the page slice holds at most `limit` books whatever the page, and page 1 is the first `limit` |
| BooksController.SliceIsRun | api/controllers/books-controller.js:395 | a slice is a contiguous run of the list |
| BooksController.SliceOrder | api/controllers/books-controller.js:395 | a slice of a list ordered highest first is ordered highest first |
| BooksController.SortBooks | api/controllers/books-controller.js:388-394 | the sort is a permutation ordered by the comparator's key |
| BooksController.ComparatorSort | api/controllers/books-controller.js:120-126 | a permutation, non-increasing in the number the field converts to for a '-' sort and non-decreasing otherwise |
| BooksController.SortKeepsTies | api/controllers/books-controller.js:120-126 | the sort is stable: for every key value, the books with that key come out in the order they went in |
| BooksController.Projection | api/controllers/books-controller.js:127-132 | each projected item has exactly the listed fields, each as the book holds it |
| BooksController.Project | api/controllers/books-controller.js:128-131 | the `reduce` that assigns `acc[f]` builds that projection |
| BooksController.ProjectEach | api/controllers/books-controller.js:396-401 | one item per book, each with exactly the listed keys |
| BooksController.ProjectAll | api/controllers/books-controller.js:396-401 | the `map` loop builds that list |
| BooksController.MongoLimitFacts | api/controllers/books-controller.js:99 | a limited query returns a prefix of its matches, at most `\|n\|` long (all of them for 0) |
| BooksController.SearchFillBounds | api/controllers/books-controller.js:96-115 | the search collects at most `limit` documents, titles first; it queries series only when short after titles, authors only when still short; every document comes from a query |
| BooksController.CollectSearchResults | api/controllers/books-controller.js:96-115 | the `push` accumulation computes those documents and queries |
| BooksController.RemoveDuplicatesLength | api/controllers/books-controller.js:117 | de-duplication never lengthens the documents |
| BooksController.DedupedSortedFacts | api/controllers/books-controller.js:117-126 | the searched books are no more than the documents, none matches a found book, and they are ordered by rating count, highest first |
| BooksController.SearchedForBooksProperties | api/controllers/books-controller.js:53-145 | an invalid search pattern throws the SyntaxError; an answer is non-empty, at most `limit` long (15 by default), each item with exactly the requested fields, ordered by rating count, none already found |
| BooksController.GetSearchedForBooks | api/controllers/books-controller.js:53-145 | the handler answers what the specification says: 404 without a search term, the SyntaxError for an invalid pattern before any query, and otherwise only the queries the fill needs |
| BooksController.Described | api/controllers/books-controller.js:387 | keeps exactly the books with a non-empty description |
| BooksController.RecommendationDefaults | api/controllers/books-controller.js:382-383 | without parameters the first page of 100 is requested |
| BooksController.RecommendedBooksShape | api/controllers/books-controller.js:386-405 | a recommendation answer is non-empty, at most `limit` long, each item with exactly the recommended fields |
| BooksController.PageBound | api/controllers/books-controller.js:395 | a recommended page holds at most `limit` books |
| BooksController.RecommendedBooksNotFound | api/controllers/books-controller.js:189-405 | a missing profile gives 404 'No book id(s) or search term provided', an empty page 404 'No books found' |
| BooksController.PageSliceMembers | api/controllers/books-controller.js:395 | every book of the page comes from the sorted candidates |
| BooksController.CandidatesMembers | api/controllers/books-controller.js:386-387 | every candidate has a description and comes from one of the two aggregations |
| BooksController.SortedCandidatesMembers | api/controllers/books-controller.js:386-394 | the same holds after the sort |
| BooksController.RecommendedPageSources | api/controllers/books-controller.js:386-395 | every recommended book has a description and comes from one of the two aggregations |
| BooksController.RecommendedPageOrder | api/controllers/books-controller.js:381-395 | under a '-' sort (by default '-ratingCount') a page is non-increasing in the number the sort field converts to, so numeral strings such as `seriesNumber` order by their value |
| BooksController.SelectRecommendedPage | api/controllers/books-controller.js:386-395 | the merge, filter, sort and slice compute the recommended page |
| BooksController.GetRecommendedBooks | api/controllers/books-controller.js:189-414 | the handler answers what the specification says, or passes on an exception `getFilterObj` can throw; it hands the aggregations the merged profile, thresholds and corrected `$match` stages |
| BooksController.GetBooks | api/controllers/books-controller.js:29-51 | the builder chain issues find (when non-empty), sort, select (when asked) and the two page operations, in that order, or passes on an exception `getFilterObj` can throw |
| BookUtils.CoverSrcChoice | utils/book.js:3-7 | the cover is the book's own or the default, the book's own only when it is non-empty and not the placeholder name |
| BookUtils.FullTitleShape | utils/book.js:9-13 | no series gives the title itself; with a series the full title starts with title and series and ends with " #n)" or with the series and ")" |
| BookUtils.SlugIdRoundTrip | utils/book.js:15-17 | an id without '-' is read back from the slug, whatever the title |
| BookUtils.AuthorsTextCases | utils/book.js:19-21 | an empty list or empty string gives `false`, a list of names their ", "-joined text, a missing list throws; any other success comes from a non-empty array |
| BookUtils.SplitAuthorsJoin | utils/book.js:19-21 | splitting the author line at ", " gives back the names, when no name holds a comma |
| BookUtils.CoverAltCases | utils/book.js:23-25 | a non-empty author line follows " by "; "" adds nothing; `false` and `undefined` are printed |
| BookUtils.CoverAltOfAuthorsText | utils/book.js:19-25 | fed with `getAuthorsText`, the alt text names the authors of a non-empty list and ends in "false" for an empty one |
| BookMixin.TitleAndSlugAgree | mixins/book-mixin.js:13-22 | the mixin's full title and slug equal the utility functions' for every book |
| BookMixin.CoverSrcAgreement | mixins/book-mixin.js:5-9 | the mixin's cover equals the utility's exactly when the stored cover is truthy or is the default itself; a falsy cover is kept |
| BookMixin.AuthorsTextAgreement | mixins/book-mixin.js:23-25 | the mixin's author line is the ", "-joined names; it equals the utility's text for a non-empty list and is "" where the utility gives `false` |
| BookMixin.AuthorsTextNeedsArray | mixins/book-mixin.js:23-25 | the author line, and so the alt text, succeed exactly when the authors are an array |
| BookMixin.CoverAltAgreement | mixins/book-mixin.js:10-12 | the mixin's alt text equals the utilities' composition for a non-empty list; for an empty list it is the full title alone, where the utilities append "false" |

## Left out

- The MongoDB queries and aggregation stages themselves (`$setIntersection`, `$slice`, `$sort`, `$limit`, `allowDiskUse`): their results are parameters of the handlers. The model states only which filters, thresholds and `$match` documents they receive.
- `getBookDataFromIds` and `prepareRelatedBooksSearch` (books-controller.js:178-187 and 416-436): they only move database results and parameters into the request, and the database part is not modelled.
- `catchAsync`: a promise plumbing function. A handler's exception is returned as `Thrown`.
- `res.status().json()`, `console.error` and `process.env`: I/O. Responses are returned records, and the environment is a parameter.
- `isString` and `isArray` (helpers.js:27, 30): no modelled code calls them.
- Floating point: ratings, `Number()` of decimal or exponent numerals, and `Infinity` are not modelled. Numbers are integers. `Number` of a string reads only optionally signed decimal integers, and anything else is NaN.
- `Math.floor(n * 0.8)` and `Math.floor(n * 0.66)` are integer divisions. This is exact for the lengths that occur, because the double nearest 0.8 lies above 0.8.
- JSON: only the escapes of `"` and `\` are modelled. Control characters in parameters are not.
- Key order of objects: spreads and `JSON.stringify` are modelled on maps. Where two keys collide, the later spread wins.
- ObjectId identity: `el2._id === el._id` compares two ObjectId objects, which is true only for the very same object. A book cannot match an earlier, different element by `_id`, so the model drops that clause. An exclusion coming from the request body is a plain value, and is never `===` an ObjectId.
- Regular expressions: only `/^(?!(?:1)$)\d+/`, `/.+/` and the duplicate-key pattern are interpreted. Which sources `new RegExp` accepts is a `validPattern` parameter, and the SyntaxError's message is a fixed text. How the database matches a pattern is not modelled.
- Helpers.ConvertAll: when one entry is null and another holds an invalid pattern, the exception the source throws depends on the key order. The specification functions (`ConvertAll`, `FilterObjSpec`, `RecommendedBooks`) report the null entry; the contracts of `ConvertEntries`, `GetFilterObj`, `QueryHandler.Filter`, `GetBooks` and `GetRecommendedBooks` admit either exception.
- Dates: stored and compared as millisecond timestamps.
- `b[f] - a[f]` converts both fields to numbers, and the model does the same: a numeral string such as a series number sorts by its value. A field that converts to NaN (missing, or not a numeral) makes the comparator NaN in JavaScript, which leaves the order to the engine. Here that field sorts as 0.
- Stack traces are a string parameter. Which fields are enumerable is modelled only where the spread in `handleUnhandledError` loses the message.
- `JSON.stringify` drops an `undefined` member. The model drops it in the rewrite of the parameters. Responses keep it, as the field's absence.
- `kebabCase` is a function parameter, and so is the `require`d default cover image.
- BooksController.TopSlice: the `bound` argument stands for the 8 and 11 of the always-true test `n < bound || n > 4`. It has no effect, as in the source.

## Findings

| source | as written | input that shows it | evidently intended | confidence | as-written member | corrected member |
|---|---|---|---|---|---|---|
| api/controllers/query-handler.js:17 | `filter(options)` passes the options object `{ excludedFilterFields, isFilterObjPrepared }` as `getFilterObj`'s second argument, whose spread at helpers.js:35 needs an iterable; books-controller.js:240-245 does the same | any request to `getBooks`: the options object is spread and `getFilterObj` throws "excludedFilterFields is not iterable" | unpack the options into the second and third arguments | high; not executed | Helpers.OptionsObjectCallThrows | QueryHandlers.QueryHandler.Filter |
| api/controllers/error-handler.js:23-29 | `{ ...error, stack }` copies only enumerable fields, and an Error's `message` is not enumerable | a plain `Error` without status code in production: the client gets status 500, 'error' and no message | the generic error carries 'Something went very wrong!' | high; not executed | ErrorHandling.UnhandledMessageLost | ErrorHandling.IncompleteErrorResponse (used by ErrorHandling.ClassifyError and ErrorHandling.ErrorHandler) |
| api/controllers/books-controller.js:271-274 | `{ $or: [...genres/tags], ...commonFilters }`: the `$or` of the series-number filter, present under the default 'any' and under 'first or none', replaces the genre/tag clause; the same happens at lines 326-333 | a recommendation request without `seriesNumberType`: the first `$match` of both aggregations is the common filters alone. The genre aggregation no longer requires a genre or tag in common; only the overlap thresholds of lines 310-319 still apply, and they admit every book when both are 0. The related-books aggregation no longer selects by URL; only the thresholds of lines 369-378 still apply | enforce both the clause and the series-number condition, as an `$and` | medium; not executed | BooksController.DefaultSeriesTypeDropsClause | BooksController.MatchConjunction |
