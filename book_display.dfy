/**
 * The display helpers of the front end (utils/book.js): the cover image,
 * the full title, the page slug, the author line and the cover's alt text.
 * A book is the JSON object the client received, so each field the helpers
 * read may hold any value; a template literal prints a value with
 * `String(v)`, which is `JsString`.
 */
module BookUtils {
  import opened JsValues

  /** The fields of a book object that the display helpers read. */
  datatype BookView = BookView(
    id: Value,
    title: Value,
    series: Value,
    seriesNumber: Value,
    coverImage: Value,
    authors: Value)

  /** The file name the database stores for a book without a cover of its own. */
  const DefaultCoverName: string := "default.jpg"

  /**
   * `getCoverSrc`: the stored cover, unless it is missing or the placeholder
   * name. `defaultCover` stands for the bundled default image that
   * `require` resolves.
   */
  function CoverSrc(book: BookView, defaultCover: Value): Value {
    if Truthy(book.coverImage) && book.coverImage != Str(DefaultCoverName) then book.coverImage
    else defaultCover
  }

  /** The cover is either the book's own or the default, and never the placeholder name. */
  lemma {:induction false} CoverSrcChoice(book: BookView, defaultCover: Value)
    ensures CoverSrc(book, defaultCover) == book.coverImage || CoverSrc(book, defaultCover) == defaultCover
    ensures CoverSrc(book, defaultCover) == book.coverImage && book.coverImage != defaultCover
            ==> Truthy(book.coverImage) && book.coverImage != Str(DefaultCoverName)
    ensures defaultCover != Str(DefaultCoverName) ==> CoverSrc(book, defaultCover) != Str(DefaultCoverName)
    ensures Truthy(defaultCover) ==> Truthy(CoverSrc(book, defaultCover))
  {
  }

  // ---------------------------------------------------------------------------
  // Full title
  // ---------------------------------------------------------------------------

  /** The " #n" part of a full title, present only for a truthy series number. */
  function NumberSuffix(book: BookView): string {
    if Truthy(book.seriesNumber) then " #" + JsString(book.seriesNumber) else ""
  }

  /** `getFullTitle`: the title, followed by the series and its number in parentheses when there is a series. */
  function FullTitle(book: BookView): Value {
    if Truthy(book.series) then Str(JsString(book.title) + " (" + JsString(book.series) + NumberSuffix(book) + ")")
    else book.title
  }

  predicate EndsWith(s: string, suffix: string) {
    |suffix| <= |s| && s[|s| - |suffix|..] == suffix
  }

  /**
   * Without a series the title is returned as it is; with one, the full
   * title starts with the title and the series and closes with the number,
   * when there is one, or with the series itself.
   */
  lemma {:induction false} FullTitleShape(book: BookView)
    ensures !Truthy(book.series) ==> FullTitle(book) == book.title
    ensures Truthy(book.series) ==>
              && FullTitle(book).Str?
              && StartsWith(FullTitle(book).s, JsString(book.title) + " (" + JsString(book.series))
              && (Truthy(book.seriesNumber) ==> EndsWith(FullTitle(book).s, " #" + JsString(book.seriesNumber) + ")"))
              && (!Truthy(book.seriesNumber) ==> EndsWith(FullTitle(book).s, JsString(book.series) + ")"))
  {
    if Truthy(book.series) {
      var head := JsString(book.title) + " (" + JsString(book.series);
      var s := FullTitle(book).s;
      assert s == head + (NumberSuffix(book) + ")");
      assert s[..|head|] == head;
      if Truthy(book.seriesNumber) {
        var tail := " #" + JsString(book.seriesNumber) + ")";
        assert s == (JsString(book.title) + " (" + JsString(book.series)) + tail;
        assert s[|s| - |tail|..] == tail;
      } else {
        var tail := JsString(book.series) + ")";
        assert s == (JsString(book.title) + " (") + tail;
        assert s[|s| - |tail|..] == tail;
      }
    }
  }

  // ---------------------------------------------------------------------------
  // Slug
  // ---------------------------------------------------------------------------

  const SlugPrefix: string := "book/"

  /**
   * `getSlug`: the page path of a book, its id followed by the title in
   * kebab case. `kebab` stands for lodash's `kebabCase`.
   */
  function Slug(book: BookView, kebab: Value -> string): string {
    SlugPrefix + JsString(book.id) + "-" + kebab(book.title)
  }

  /** The part of `s` before the first `c`; all of `s` when there is none. */
  function UpTo(s: string, c: char): (r: string)
    ensures |r| <= |s|
    decreases |s|
  {
    if s == [] || s[0] == c then [] else [s[0]] + UpTo(s[1..], c)
  }

  /** The book id a slug path names: what lies between "book/" and the first '-'. */
  function SlugId(slug: string): Option<string> {
    if StartsWith(slug, SlugPrefix) then Some(UpTo(slug[|SlugPrefix|..], '-')) else None
  }

  lemma {:induction false} UpToPrefix(x: string, c: char, t: string)
    requires c !in x
    ensures UpTo(x + [c] + t, c) == x
    decreases |x|
  {
    if x != [] {
      assert (x + [c] + t)[1..] == x[1..] + [c] + t;
      UpToPrefix(x[1..], c, t);
      assert [x[0]] + x[1..] == x;
    }
  }

  /** An id without '-' (a database object id) is read back from the slug, whatever the title. */
  lemma {:induction false} SlugIdRoundTrip(book: BookView, kebab: Value -> string)
    requires '-' !in JsString(book.id)
    ensures SlugId(Slug(book, kebab)) == Some(JsString(book.id))
  {
    var s := Slug(book, kebab);
    var id := JsString(book.id);
    assert s == SlugPrefix + (id + ['-'] + kebab(book.title));
    assert s[..|SlugPrefix|] == SlugPrefix;
    assert s[|SlugPrefix|..] == id + ['-'] + kebab(book.title);
    UpToPrefix(id, '-', kebab(book.title));
  }

  // ---------------------------------------------------------------------------
  // Authors
  // ---------------------------------------------------------------------------

  /** `v?.length`: the length of a string or an array, an object's `length` entry, otherwise undefined. */
  function LengthOf(v: Value): Value {
    match v
    case Str(s) => Num(|s|)
    case Arr(items) => Num(|items|)
    case Obj(fields) => if "length" in fields then fields["length"] else Undefined
    case _ => Undefined
  }

  const AuthorSeparator: string := ", "

  /** `items.join(', ')` */
  function JoinAuthors(items: seq<Value>): string {
    Join(seq(|items|, i requires 0 <= i < |items| => ItemString(items[i])), AuthorSeparator)
  }

  /** `authors.join(', ')`: only an array has a `join`; reading it on null or undefined throws as well. */
  function JoinCall(authors: Value): Result<string, JsError> {
    match authors
    case Arr(items) => Success(JoinAuthors(items))
    case Undefined => Failure(TypeError("Cannot read properties of undefined (reading 'join')"))
    case Null => Failure(TypeError("Cannot read properties of null (reading 'join')"))
    case _ => Failure(TypeError("book.authors.join is not a function"))
  }

  /**
   * `getAuthorsText`: `false` when the authors have length 0, otherwise the
   * authors joined with ", ". A missing list passes the length test and
   * then throws on `join`.
   */
  function AuthorsText(book: BookView): Result<Value, JsError> {
    if LengthOf(book.authors) == Num(0) then Success(Bool(false))
    else
      match JoinCall(book.authors)
      case Success(s) => Success(Str(s))
      case Failure(e) => Failure(e)
  }

  /** The names of a list of authors, as strings. */
  function Names(names: seq<string>): seq<Value> {
    seq(|names|, i requires 0 <= i < |names| => Str(names[i]))
  }

  /**
   * An empty list gives `false`, a list of names their joined text, and a
   * missing list an exception; an empty string also counts as no authors.
   */
  lemma {:induction false} AuthorsTextCases(book: BookView, names: seq<string>)
    ensures book.authors == Arr([]) ==> AuthorsText(book) == Success(Bool(false))
    ensures book.authors == Arr(Names(names)) && |names| > 0 ==>
              AuthorsText(book) == Success(Str(Join(names, AuthorSeparator)))
    ensures book.authors == Str("") ==> AuthorsText(book) == Success(Bool(false))
    ensures book.authors.Undefined? || book.authors.Null? ==> AuthorsText(book).Failure?
    ensures AuthorsText(book).Success? && AuthorsText(book).value != Bool(false) ==> book.authors.Arr? && |book.authors.items| > 0
  {
    if book.authors == Arr(Names(names)) && |names| > 0 {
      assert LengthOf(book.authors) == Num(|names|);
      JoinNames(names);
    }
  }

  lemma {:induction false} JoinNames(names: seq<string>)
    ensures JoinAuthors(Names(names)) == Join(names, AuthorSeparator)
  {
    var items := Names(names);
    assert seq(|items|, i requires 0 <= i < |items| => ItemString(items[i])) == names;
  }

  /** The author names between the separators of an author line. */
  function SplitAuthors(s: string): (r: seq<string>)
    ensures |r| > 0
    decreases |s|
  {
    if s == [] then [""]
    else if |s| >= 2 && s[..2] == AuthorSeparator then [""] + SplitAuthors(s[2..])
    else
      var rest := SplitAuthors(s[1..]);
      [[s[0]] + rest[0]] + rest[1..]
  }

  lemma {:induction false} SplitAuthorsWithout(x: string)
    requires ',' !in x
    ensures SplitAuthors(x) == [x]
    decreases |x|
  {
    if x != [] {
      SplitAuthorsWithout(x[1..]);
      assert [x[0]] + x[1..] == x;
    }
  }

  lemma {:induction false} SplitAuthorsPrefix(x: string, t: string)
    requires ',' !in x
    ensures SplitAuthors(x + AuthorSeparator + t) == [x] + SplitAuthors(t)
    decreases |x|
  {
    var s := x + AuthorSeparator + t;
    if x == [] {
      assert s[..2] == AuthorSeparator && s[2..] == t;
    } else {
      assert s[0] == x[0] != ',';
      assert s[..2] != AuthorSeparator by { assert s[..2][0] == s[0]; }
      assert s[1..] == x[1..] + AuthorSeparator + t;
      SplitAuthorsPrefix(x[1..], t);
      assert [x[0]] + x[1..] == x;
    }
  }

  /** An author line splits back into the names it was joined from, when no name holds a comma. */
  lemma {:induction false} SplitAuthorsJoin(names: seq<string>)
    requires |names| > 0
    requires forall i | 0 <= i < |names| :: ',' !in names[i]
    ensures SplitAuthors(Join(names, AuthorSeparator)) == names
    decreases |names|
  {
    if |names| == 1 {
      SplitAuthorsWithout(names[0]);
    } else {
      SplitAuthorsJoin(names[1..]);
      SplitAuthorsPrefix(names[0], Join(names[1..], AuthorSeparator));
      assert names == [names[0]] + names[1..];
    }
  }

  // ---------------------------------------------------------------------------
  // Cover alt text
  // ---------------------------------------------------------------------------

  /**
   * `getCoverAlt(title, authors)`: `${title}${authors && ` by ${authors}`}`.
   * A falsy `authors` is printed itself, so `false` adds "false".
   */
  function CoverAlt(title: Value, authors: Value): string {
    JsString(title) + JsString(if Truthy(authors) then Str(" by " + JsString(authors)) else authors)
  }

  /** A non-empty author line is appended after " by "; an empty one adds nothing, but `false` and `undefined` are printed. */
  lemma {:induction false} CoverAltCases(title: string, authors: string)
    ensures authors != "" ==> CoverAlt(Str(title), Str(authors)) == title + " by " + authors
    ensures CoverAlt(Str(title), Str("")) == title
    ensures CoverAlt(Str(title), Bool(false)) == title + "false"
    ensures CoverAlt(Str(title), Undefined) == title + "undefined"
  {
  }

  /**
   * Fed with `getAuthorsText`, the alt text names the authors of a non-empty
   * list, and ends in "false" for a book with an empty author list.
   */
  lemma {:induction false} CoverAltOfAuthorsText(book: BookView, names: seq<string>)
    requires book.authors == Arr(Names(names))
    ensures |names| > 0 && Join(names, AuthorSeparator) != "" ==>
              CoverAlt(FullTitle(book), AuthorsText(book).value)
                == JsString(FullTitle(book)) + " by " + Join(names, AuthorSeparator)
    ensures names == [] ==> CoverAlt(FullTitle(book), AuthorsText(book).value) == JsString(FullTitle(book)) + "false"
  {
    AuthorsTextCases(book, names);
  }
}
