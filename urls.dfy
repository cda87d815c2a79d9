/** The request URLs `BooksService` builds by string concatenation, with
    the decimal rendering a template literal gives an integer, and parsers
    that read the URLs back (what the server does with them), so that the
    rendering is shown to lose nothing. */
module Urls {
  import opened Models

  /** The service's `apiUrl`. */
  const ApiUrl: string := "http://localhost:3000"

  /** The URL prefix of a page request, up to the page number. */
  const PagePrefix: string := ApiUrl + "/books?page="

  /** The separator before the genre filter. */
  const GenreSeparator: string := "&genre="

  /** The URL prefix of a single-book request, up to the identifier. */
  const ItemPrefix: string := ApiUrl + "/books/"

  predicate IsDigit(c: char) {
    '0' <= c <= '9'
  }

  predicate AllDigits(s: string) {
    forall i :: 0 <= i < |s| ==> IsDigit(s[i])
  }

  function DigitChar(d: nat): (c: char)
    requires d < 10
    ensures IsDigit(c) && c as int - '0' as int == d
  {
    ('0' as int + d) as char
  }

  /** The decimal rendering of a non-negative integer: digits only, at
      least one, and no leading zero. */
  function NatToDecimal(n: nat): (s: string)
    ensures |s| > 0 && AllDigits(s)
    ensures |s| > 1 ==> s[0] != '0'
    ensures n < 10 <==> |s| == 1
  {
    if n < 10 then [DigitChar(n)] else NatToDecimal(n / 10) + [DigitChar(n % 10)]
  }

  /** `${n}` for an integer `n`: a minus sign for negative numbers, then the
      decimal digits of the magnitude. */
  function IntToString(n: int): (s: string)
    ensures |s| > 0
    ensures forall i :: 0 <= i < |s| ==> s[i] == '-' || IsDigit(s[i])
  {
    if n < 0 then "-" + NatToDecimal(-n) else NatToDecimal(n)
  }

  /** The value of a string of decimal digits, most significant first. */
  function DecimalValue(s: string): nat
    requires AllDigits(s)
  {
    if s == [] then 0 else DecimalValue(s[..|s| - 1]) * 10 + (s[|s| - 1] as int - '0' as int)
  }

  /** Reads an optional minus sign and a non-empty run of digits. */
  function ParseInt(s: string): Option<int> {
    if s == [] then None
    else if s[0] == '-' then
      if |s| > 1 && AllDigits(s[1..]) then Some(-(DecimalValue(s[1..]) as int)) else None
    else if AllDigits(s) then Some(DecimalValue(s))
    else None
  }

  lemma {:induction false} DecimalRoundTrip(n: nat)
    ensures DecimalValue(NatToDecimal(n)) == n
  {
    if n >= 10 {
      var s := NatToDecimal(n / 10);
      var t := s + [DigitChar(n % 10)];
      assert t[..|t| - 1] == s;
      DecimalRoundTrip(n / 10);
    }
  }

  /** Distinct integers render to distinct strings, and the rendering can be
      read back. */
  lemma IntToStringRoundTrip(n: int)
    ensures ParseInt(IntToString(n)) == Some(n)
  {
    if n < 0 {
      var d := NatToDecimal(-n);
      assert ("-" + d)[1..] == d;
      DecimalRoundTrip(-n);
    } else {
      DecimalRoundTrip(n);
    }
  }

  /** JavaScript truthiness of the optional `genre` argument: `undefined`
      and `''` are falsy. */
  predicate GenreGiven(genre: Option<string>) {
    genre.Some? && genre.value != ""
  }

  /** The genre filter that actually reaches the URL. */
  function EffectiveGenre(genre: Option<string>): Option<string> {
    if GenreGiven(genre) then genre else None
  }

  /** `getAllBooks`: `${apiUrl}/books?page=${page}`, then `&genre=${genre}`
      when the genre is truthy. */
  function AllBooksUrl(page: int, genre: Option<string>): string {
    PagePrefix + IntToString(page) + (if GenreGiven(genre) then GenreSeparator + genre.value else "")
  }

  /** `getBookById`, `updateBook` and `deleteBook`: `${apiUrl}/books/${id}`. */
  function BookUrl(id: int): string {
    ItemPrefix + IntToString(id)
  }

  /** `createBook`: `${apiUrl}/books`. */
  function CollectionUrl(): string {
    ApiUrl + "/books"
  }

  /** The longest prefix of `s` without the character `c`. */
  function TakeUntil(s: string, c: char): (r: string)
    ensures r <= s
    ensures forall i :: 0 <= i < |r| ==> r[i] != c
    ensures |r| < |s| ==> s[|r|] == c
  {
    if s == [] || s[0] == c then [] else [s[0]] + TakeUntil(s[1..], c)
  }

  lemma {:induction false} TakeUntilPrefix(a: string, b: string, c: char)
    requires forall i :: 0 <= i < |a| ==> a[i] != c
    requires b == [] || b[0] == c
    ensures TakeUntil(a + b, c) == a
  {
    if a != [] {
      assert (a + b)[1..] == a[1..] + b;
      TakeUntilPrefix(a[1..], b, c);
    }
  }

  datatype PageQuery = PageQuery(page: int, genre: Option<string>)

  /** Reads a page URL back into its page number and genre filter. */
  function ParseAllBooksUrl(url: string): Option<PageQuery> {
    if !(PagePrefix <= url) then None
    else
      var rest := url[|PagePrefix|..];
      var number := TakeUntil(rest, '&');
      var tail := rest[|number|..];
      match ParseInt(number)
      case None => None
      case Some(page) =>
        if tail == "" then Some(PageQuery(page, None))
        else if GenreSeparator <= tail && |tail| > |GenreSeparator| then Some(PageQuery(page, Some(tail[|GenreSeparator|..])))
        else None
  }

  /** Reads a single-book URL back into its identifier. */
  function ParseBookUrl(url: string): Option<int> {
    if ItemPrefix <= url then ParseInt(url[|ItemPrefix|..]) else None
  }

  /** A page URL carries exactly the page number and the truthy genre. */
  lemma AllBooksUrlRoundTrip(page: int, genre: Option<string>)
    ensures ParseAllBooksUrl(AllBooksUrl(page, genre)) == Some(PageQuery(page, EffectiveGenre(genre)))
  {
    var number := IntToString(page);
    var tail := if GenreGiven(genre) then GenreSeparator + genre.value else "";
    var url := AllBooksUrl(page, genre);
    assert url == PagePrefix + (number + tail);
    assert url[|PagePrefix|..] == number + tail;
    TakeUntilPrefix(number, tail, '&');
    assert (number + tail)[|number|..] == tail;
    IntToStringRoundTrip(page);
    if GenreGiven(genre) {
      assert tail[|GenreSeparator|..] == genre.value;
    }
  }

  /** Two page requests share a URL only when they ask for the same page
      with the same effective genre; in particular genre `''` and no genre
      give the same URL, and different pages never do. */
  lemma AllBooksUrlInjective(p1: int, g1: Option<string>, p2: int, g2: Option<string>)
    ensures AllBooksUrl(p1, g1) == AllBooksUrl(p2, g2) <==> p1 == p2 && EffectiveGenre(g1) == EffectiveGenre(g2)
  {
    AllBooksUrlRoundTrip(p1, g1);
    AllBooksUrlRoundTrip(p2, g2);
  }

  /** A single-book URL carries exactly the identifier. */
  lemma BookUrlRoundTrip(id: int)
    ensures ParseBookUrl(BookUrl(id)) == Some(id)
  {
    assert BookUrl(id)[|ItemPrefix|..] == IntToString(id);
    IntToStringRoundTrip(id);
  }

  /** The collection URL is neither a single-book URL nor a page URL. */
  lemma CollectionUrlDistinct(id: int, page: int, genre: Option<string>)
    ensures ParseBookUrl(CollectionUrl()) == None
    ensures CollectionUrl() != BookUrl(id)
    ensures CollectionUrl() != AllBooksUrl(page, genre)
  {
    assert !(ItemPrefix <= CollectionUrl());
    BookUrlRoundTrip(id);
  }
}
