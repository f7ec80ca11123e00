/**
 * A book document with the fields of the book schema (api/models/book-model.js).
 * A missing or null string field is `None`; dates are millisecond timestamps.
 */
module BookModel {
  import opened JsValues

  datatype Book = Book(
    id: string,
    goodreadsUrls: seq<string>,
    goodreadsId: Option<string>,
    coverImage: Option<string>,
    title: Option<string>,
    series: Option<string>,
    seriesNumber: Option<string>,
    seriesBooksUrls: seq<string>,
    descriptionHTML: Option<string>,
    ratingValue: Option<int>,
    ratingCount: Option<int>,
    reviewCount: Option<int>,
    relatedBooksUrls: seq<string>,
    authors: seq<string>,
    bookEdition: Option<string>,
    editionLanguage: Option<string>,
    bookFormat: Option<string>,
    numberOfPages: Option<int>,
    isbn: Option<string>,
    genres: seq<string>,
    tags: seq<string>,
    latestPublished: Option<int>,
    latestPublishedFormat: Option<string>,
    firstPublished: Option<int>,
    firstPublishedFormat: Option<string>,
    updatedAt: Option<int>,
    createdAt: Option<int>)

  function StrField(o: Option<string>): Value {
    if o.Some? then Str(o.value) else Undefined
  }

  function NumField(o: Option<int>): Value {
    if o.Some? then Num(o.value) else Undefined
  }

  function ListField(xs: seq<string>): Value {
    Arr(seq(|xs|, i requires 0 <= i < |xs| => Str(xs[i])))
  }

  /** `book[name]`: the value of a schema field, undefined for any other name. */
  function Field(b: Book, name: string): Value {
    match name
    case "_id" => Str(b.id)
    case "goodreadsUrls" => ListField(b.goodreadsUrls)
    case "goodreadsId" => StrField(b.goodreadsId)
    case "coverImage" => StrField(b.coverImage)
    case "title" => StrField(b.title)
    case "series" => StrField(b.series)
    case "seriesNumber" => StrField(b.seriesNumber)
    case "seriesBooksUrls" => ListField(b.seriesBooksUrls)
    case "descriptionHTML" => StrField(b.descriptionHTML)
    case "ratingValue" => NumField(b.ratingValue)
    case "ratingCount" => NumField(b.ratingCount)
    case "reviewCount" => NumField(b.reviewCount)
    case "relatedBooksUrls" => ListField(b.relatedBooksUrls)
    case "authors" => ListField(b.authors)
    case "bookEdition" => StrField(b.bookEdition)
    case "editionLanguage" => StrField(b.editionLanguage)
    case "bookFormat" => StrField(b.bookFormat)
    case "numberOfPages" => NumField(b.numberOfPages)
    case "isbn" => StrField(b.isbn)
    case "genres" => ListField(b.genres)
    case "tags" => ListField(b.tags)
    case "latestPublished" => NumField(b.latestPublished)
    case "latestPublishedFormat" => StrField(b.latestPublishedFormat)
    case "firstPublished" => NumField(b.firstPublished)
    case "firstPublishedFormat" => StrField(b.firstPublishedFormat)
    case "updatedAt" => NumField(b.updatedAt)
    case "createdAt" => NumField(b.createdAt)
    case _ => Undefined
  }

  /**
   * `b[key] - a[key]` as a sort key: the number the field converts to, so a
   * date is its timestamp and a numeral string such as a series number is
   * its value. A field that converts to NaN (missing, or not a numeral)
   * sorts as 0.
   */
  function SortKey(b: Book, name: string): int {
    match ToNumber(Field(b, name))
    case Num(n) => n
    case _ => 0
  }

  /** The creation and update dates sort by their timestamps, and are read as numbers when projected. */
  lemma {:induction false} TimestampFields(b: Book)
    ensures b.createdAt.Some? ==> Field(b, "createdAt") == Num(b.createdAt.value) && SortKey(b, "createdAt") == b.createdAt.value
    ensures b.updatedAt.Some? ==> Field(b, "updatedAt") == Num(b.updatedAt.value) && SortKey(b, "updatedAt") == b.updatedAt.value
    ensures b.createdAt.None? ==> Field(b, "createdAt") == Undefined && SortKey(b, "createdAt") == 0
  {
  }
}
