/**
 * The computed properties that the book mixin (mixins/book-mixin.js) gives
 * a component showing `this.book`. They repeat the display helpers of
 * `BookUtils` with two differences: the cover falls back to the default
 * only for the placeholder name, and the author line is always a string.
 */
module BookMixin {
  import opened JsValues
  import opened BookUtils

  /** `coverSrc`: the stored cover unless it is the placeholder name; a missing cover is not replaced. */
  function MixinCoverSrc(book: BookView, defaultCover: Value): Value {
    if book.coverImage != Str(DefaultCoverName) then book.coverImage else defaultCover
  }

  /** `fullTitle` */
  function MixinFullTitle(book: BookView): Value {
    if Truthy(book.series) then
      Str(JsString(book.title) + " (" + JsString(book.series)
          + (if Truthy(book.seriesNumber) then " #" + JsString(book.seriesNumber) else "") + ")")
    else book.title
  }

  /** `slug`; `kebab` stands for lodash's `kebabCase`. */
  function MixinSlug(book: BookView, kebab: Value -> string): string {
    "book/" + JsString(book.id) + "-" + kebab(book.title)
  }

  /** `authorsText`: the authors joined with ", ", so "" for an empty list. */
  function MixinAuthorsText(book: BookView): Result<string, JsError> {
    JoinCall(book.authors)
  }

  /** `coverAlt`: the full title, then " by " and the author line when that is not empty. */
  function MixinCoverAlt(book: BookView): Result<string, JsError> {
    match MixinAuthorsText(book)
    case Failure(e) => Failure(e)
    case Success(authors) =>
      Success(JsString(MixinFullTitle(book)) + (if authors != "" then " by " + authors else ""))
  }

  // ---------------------------------------------------------------------------
  // Agreement with the display helpers
  // ---------------------------------------------------------------------------

  /** The mixin's full title and slug are those of the display helpers, for every book. */
  lemma {:induction false} TitleAndSlugAgree(book: BookView, kebab: Value -> string)
    ensures MixinFullTitle(book) == FullTitle(book)
    ensures MixinSlug(book, kebab) == Slug(book, kebab)
  {
  }

  /**
   * The two cover choices differ exactly for a falsy cover that is not the
   * default image itself: the mixin keeps it, the helper replaces it.
   */
  lemma {:induction false} CoverSrcAgreement(book: BookView, defaultCover: Value)
    ensures MixinCoverSrc(book, defaultCover) == CoverSrc(book, defaultCover)
            <==> Truthy(book.coverImage) || book.coverImage == defaultCover
    ensures !Truthy(book.coverImage) ==> MixinCoverSrc(book, defaultCover) == book.coverImage
  {
  }

  /**
   * For a list of names the mixin's author line is the helper's text, except
   * that an empty list gives "" where the helper gives `false`.
   */
  lemma {:induction false} AuthorsTextAgreement(book: BookView, names: seq<string>)
    requires book.authors == Arr(Names(names))
    ensures MixinAuthorsText(book) == Success(Join(names, AuthorSeparator))
    ensures |names| > 0 ==> AuthorsText(book) == Success(Str(MixinAuthorsText(book).value))
    ensures names == [] ==> MixinAuthorsText(book) == Success("") && AuthorsText(book) == Success(Bool(false))
  {
    JoinNames(names);
    AuthorsTextCases(book, names);
  }

  /** Without an author list, or with any other value than an array, the mixin throws on `join`. */
  lemma {:induction false} AuthorsTextNeedsArray(book: BookView)
    ensures MixinAuthorsText(book).Success? <==> book.authors.Arr?
    ensures MixinCoverAlt(book).Success? <==> book.authors.Arr?
  {
  }

  /**
   * The mixin's alt text is the helper's `getCoverAlt(getFullTitle(book),
   * getAuthorsText(book))` for a non-empty list of names; for an empty list
   * it is the full title alone, where the helpers append "false".
   */
  lemma {:induction false} CoverAltAgreement(book: BookView, names: seq<string>)
    requires book.authors == Arr(Names(names))
    ensures |names| > 0 && Join(names, AuthorSeparator) != "" ==>
              MixinCoverAlt(book) == Success(CoverAlt(FullTitle(book), AuthorsText(book).value))
    ensures names == [] ==>
              && MixinCoverAlt(book) == Success(JsString(FullTitle(book)))
              && CoverAlt(FullTitle(book), AuthorsText(book).value) == JsString(FullTitle(book)) + "false"
  {
    AuthorsTextAgreement(book, names);
    CoverAltOfAuthorsText(book, names);
    TitleAndSlugAgree(book, x => "");
    if names == [] {
      assert JsString(FullTitle(book)) + "" == JsString(FullTitle(book));
    }
  }
}
