/**
 * The pagination calculator. From a request URI and a page-size specification it
 * derives the current page, the link template (the URI with its page parameter
 * stripped), the number of records per page, the SQL offset and the number of
 * pages, and stores them in a fresh PagerProps.
 *
 * The settings store is a partial map from setting keys to values of some type V,
 * and PHP's `intval` on those values is the function `intval`. The record counter
 * of the data source is a function from the additional arguments to a count.
 */
module PagerService {
  import opened Wrappers
  import opened Decimal
  import opened PagerPropsEntity

  /** The page size a caller asks for: an int literal, or the key of a setting that holds it. */
  datatype PageSizeSpec = Literal(n: int) | SettingKey(key: string)

  datatype PagerError =
    | SettingNotFound(key: string)
    | WrongSettingType(key: string, expectedType: string)

  // ---------------------------------------------------------------------------
  // Current page: the first match of /[\?&]page=(\d+)/, otherwise 1.

  /** `page=` starts at `i`. */
  predicate PageKeyAt(s: string, i: int) {
    0 <= i && i + 5 <= |s| && s[i..i + 5] == "page="
  }

  /** A match of `[\?&]page=\d` starts at `i`. */
  predicate PageTokenAt(s: string, i: int) {
    0 <= i && i + 7 <= |s| && (s[i] == '?' || s[i] == '&') && PageKeyAt(s, i + 1) && IsDigit(s[i + 6])
  }

  /** `i` is the leftmost position where `[\?&]page=\d` matches. */
  predicate FirstPageTokenAt(s: string, i: int) {
    PageTokenAt(s, i) && forall j :: 0 <= j < i ==> !PageTokenAt(s, j)
  }

  /** Left-to-right search for the first match at or after `from`. */
  function FindPageToken(s: string, from: nat): (r: Option<nat>)
    requires from <= |s|
    ensures r.Some? ==> from <= r.value && PageTokenAt(s, r.value)
    ensures r.Some? ==> forall j :: from <= j < r.value ==> !PageTokenAt(s, j)
    ensures r.None? ==> forall j :: from <= j ==> !PageTokenAt(s, j)
    decreases |s| - from
  {
    if from + 7 > |s| then None
    else if PageTokenAt(s, from) then Some(from)
    else FindPageToken(s, from + 1)
  }

  /**
   * getCurrentPage: the number written after the first `?page=` or `&page=` that is
   * followed by a digit (the whole digit run, as `\d+` is greedy), or 1 when there
   * is no such occurrence.
   */
  function CurrentPage(requestUri: string): (page: nat)
    ensures (forall i :: !PageTokenAt(requestUri, i)) ==> page == 1
    ensures forall i :: FirstPageTokenAt(requestUri, i) ==> page == Value(DigitRun(requestUri[i + 6..]))
  {
    match FindPageToken(requestUri, 0)
    case None => 1
    case Some(i) => Value(DigitRun(requestUri[i + 6..]))
  }

  // ---------------------------------------------------------------------------
  // Link template: preg_replace('/page=\d+?&?/', '', uri), then a separator.

  /**
   * A match of `page=\d+?&?` starts at `i`. The lazy `\d+?` stops after one digit
   * because the rest of the pattern (`&?`) can always match.
   */
  predicate StripMatchAt(s: string, i: int) {
    PageKeyAt(s, i) && i + 6 <= |s| && IsDigit(s[i + 5])
  }

  /**
   * Removes, scanning left to right, every non-overlapping occurrence of `page=`,
   * one digit and an optional `&`.
   */
  function StripPage(s: string): (r: string)
    ensures |r| <= |s|
    decreases |s|
  {
    if StripMatchAt(s, 0) then
      if |s| >= 7 && s[6] == '&' then StripPage(s[7..]) else StripPage(s[6..])
    else if s == [] then []
    else [s[0]] + StripPage(s[1..])
  }

  /** The URI is a link template: it has a query string and ends where a parameter can be appended. */
  predicate IsTemplate(t: string) {
    '?' in t && (t[|t| - 1] == '?' || t[|t| - 1] == '&')
  }

  /**
   * appendCharacterToUri: `?` when there is no query string yet, `&` when the URI
   * ends in neither `?` nor `&`, and nothing when it is already a template.
   */
  function AppendCharacterToUri(uriWithoutPage: string): (suffix: string)
    ensures IsTemplate(uriWithoutPage + suffix)
    ensures suffix == "" <==> IsTemplate(uriWithoutPage)
    ensures suffix == "?" <==> '?' !in uriWithoutPage
    ensures suffix == "" || suffix == "?" || suffix == "&"
  {
    if '?' !in uriWithoutPage then "?"
    else if uriWithoutPage[|uriWithoutPage| - 1] != '?' && uriWithoutPage[|uriWithoutPage| - 1] != '&' then "&"
    else ""
  }

  /** getCurrentUriWithoutPage: the stripped URI with a separator appended when needed. */
  function UriWithoutPage(requestUri: string): (template: string)
    ensures IsTemplate(template)
    ensures |StripPage(requestUri)| <= |template| <= |StripPage(requestUri)| + 1
    ensures StripPage(requestUri) == template[..|StripPage(requestUri)|]
  {
    var stripped := StripPage(requestUri);
    stripped + AppendCharacterToUri(stripped)
  }

  // ---------------------------------------------------------------------------
  // Records per page

  /**
   * getRecordsPerPage: a literal is used as it is (0 and -1 included). A setting key
   * is looked up; a missing key propagates SettingNotFound, and a value whose
   * `intval` is not positive is rejected with WrongSettingType.
   */
  function RecordsPerPage<V>(settings: map<string, V>, intval: V -> int, spec: PageSizeSpec): (r: Result<int, PagerError>)
    ensures spec.Literal? ==> r == Ok(spec.n)
    ensures spec.SettingKey? && spec.key !in settings ==> r == Err(SettingNotFound(spec.key))
    ensures spec.SettingKey? && spec.key in settings ==>
              (r.Ok? <==> intval(settings[spec.key]) > 0) &&
              (r.Ok? ==> r.value == intval(settings[spec.key])) &&
              (r.Err? ==> r.error == WrongSettingType(spec.key, "integer"))
    ensures spec.SettingKey? && r.Ok? ==> r.value > 0
  {
    match spec
    case Literal(n) => Ok(n)
    case SettingKey(key) =>
      if key !in settings then Err(SettingNotFound(key))
      else
        var relevantSettingValue := intval(settings[key]);
        if relevantSettingValue <= 0 then Err(WrongSettingType(key, "integer"))
        else Ok(relevantSettingValue)
  }

  // ---------------------------------------------------------------------------
  // Offset and number of pages

  /** getFirstResult: the SQL offset; 0 when pagination is disabled (page size -1). */
  function FirstResult(currentPage: int, recordsPerPage: int): (offset: int)
    ensures recordsPerPage == -1 ==> offset == 0
  {
    if recordsPerPage == -1 then 0 else (currentPage - 1) * recordsPerPage
  }

  /** The exact ceiling of n / d, for any non-zero divisor. */
  function CeilDiv(n: int, d: int): (k: int)
    requires d != 0
    ensures d > 0 ==> (k - 1) * d < n <= k * d
    ensures d < 0 ==> k * d <= n < (k - 1) * d
  {
    if d > 0 then -((-n) / d) else -(n / (-d))
  }

  /**
   * getNumberOfPages: 0 for page size 0 (no division by zero), 1 for -1, otherwise
   * the ceiling of the record count over the page size. The counter is asked for
   * the record count only in the last case, with the additional arguments unchanged.
   */
  function NumberOfPages<A>(parser: A -> int, recordsPerPage: int, additionalArguments: A): (pages: int)
    ensures recordsPerPage == 0 ==> pages == 0
    ensures recordsPerPage == -1 ==> pages == 1
    ensures recordsPerPage > 0 ==>
              (pages - 1) * recordsPerPage < parser(additionalArguments) <= pages * recordsPerPage
  {
    if recordsPerPage == 0 then 0
    else if recordsPerPage == -1 then 1
    else
      var numberOfRecords := parser(additionalArguments);
      CeilDiv(numberOfRecords, recordsPerPage)
  }

  // ---------------------------------------------------------------------------
  // Properties of the template

  /** A URI in which `page=<digit>` occurs nowhere is left as it is by the strip. */
  lemma {:induction false} StripPageKeepsCleanUri(s: string)
    requires forall i :: !StripMatchAt(s, i)
    ensures StripPage(s) == s
    decreases |s|
  {
    if s != [] {
      assert !StripMatchAt(s, 0);
      forall i ensures !StripMatchAt(s[1..], i) {
        if StripMatchAt(s[1..], i) {
          assert s[1..][i..i + 5] == s[i + 1..i + 6];
          assert StripMatchAt(s, i + 1);
        }
      }
      StripPageKeepsCleanUri(s[1..]);
    }
  }

  /** The strip removes something exactly when `page=<digit>` occurs somewhere in the URI. */
  lemma {:induction false} StripPageShortensIffMatch(s: string)
    ensures |StripPage(s)| < |s| <==> exists i :: StripMatchAt(s, i)
    decreases |s|
  {
    if exists i :: StripMatchAt(s, i) {
      var i :| StripMatchAt(s, i);
      if !StripMatchAt(s, 0) {
        assert s[1..][i - 1..i + 4] == s[i..i + 5];
        assert StripMatchAt(s[1..], i - 1);
        StripPageShortensIffMatch(s[1..]);
      }
    } else {
      StripPageKeepsCleanUri(s);
    }
  }

  /** The length of the match at `i`: `page=` and a digit, and the `&` after them when there is one. */
  function StripMatchLength(s: string, i: int): (n: nat)
    requires StripMatchAt(s, i)
    ensures i + n <= |s|
  {
    if i + 7 <= |s| && s[i + 6] == '&' then 7 else 6
  }

  /**
   * Wherever the first `page=<digit>` occurs, the strip keeps everything before it,
   * drops it (with the `&` after it, if any) and goes on with the rest.
   */
  lemma {:induction false} StripPageRemovesFirstMatch(s: string, k: nat)
    requires StripMatchAt(s, k)
    requires forall i :: 0 <= i < k ==> !StripMatchAt(s, i)
    ensures StripPage(s) == s[..k] + StripPage(s[k + StripMatchLength(s, k)..])
    decreases k
  {
    if k > 0 {
      var t := s[1..];
      assert !StripMatchAt(s, 0);
      assert t[k - 1..k + 4] == s[k..k + 5];
      assert StripMatchAt(t, k - 1);
      forall i | 0 <= i < k - 1 ensures !StripMatchAt(t, i) {
        assert !StripMatchAt(s, i + 1);
      }
      StripPageRemovesFirstMatch(t, k - 1);
      assert StripMatchLength(t, k - 1) == StripMatchLength(s, k);
      assert t[k - 1 + StripMatchLength(s, k)..] == s[k + StripMatchLength(s, k)..];
      assert s[..k] == [s[0]] + t[..k - 1];
    }
  }

  /** The strip passes over a stretch that holds no `p` unchanged. */
  lemma {:induction false} StripPageSkipsPlainPrefix(a: string, b: string)
    requires 'p' !in a
    ensures StripPage(a + b) == a + StripPage(b)
    decreases |a|
  {
    if a != [] {
      assert (a + b)[0] == a[0];
      assert (a + b)[1..] == a[1..] + b;
      assert 'p' !in a[1..];
      StripPageSkipsPlainPrefix(a[1..], b);
      assert a == [a[0]] + a[1..];
    } else {
      assert a + b == b;
    }
  }

  /** The query that follows a removed page parameter: nothing, or `&` and the other parameters. */
  function QueryTail(query: string): string {
    if query == [] then [] else "&" + query
  }

  /** No `page=` can start before the separator: it would have to cover the separator. */
  lemma NoPageKeyAcrossSeparator(base: string, sep: char, rest: string, i: int)
    requires sep == '?' || sep == '&'
    requires forall j :: !PageKeyAt(base, j)
    requires 0 <= i <= |base|
    ensures !PageKeyAt(base + [sep] + rest, i)
  {
    var u := base + [sep] + rest;
    if i + 5 <= |base| {
      assert u[i..i + 5] == base[i..i + 5];
      assert !PageKeyAt(base, i);
    } else if i + 5 <= |u| {
      assert u[i..i + 5][|base| - i] == sep;
    }
  }

  /**
   * When `page=<digit>` follows the separator that ends `base`, and `page=` occurs
   * nowhere in `base`, that parameter is both the first match of the page regex and
   * the first match of the strip regex.
   */
  lemma {:induction false} PageParamAfterSeparator(base: string, sep: char, rest: string)
    requires sep == '?' || sep == '&'
    requires forall i :: !PageKeyAt(base, i)
    requires |rest| >= 6 && rest[..5] == "page=" && IsDigit(rest[5])
    ensures FirstPageTokenAt(base + [sep] + rest, |base|)
    ensures CurrentPage(base + [sep] + rest) == Value(DigitRun(rest[5..]))
    ensures StripMatchAt(base + [sep] + rest, |base| + 1)
    ensures forall i :: 0 <= i <= |base| ==> !StripMatchAt(base + [sep] + rest, i)
  {
    var u := base + [sep] + rest;
    assert u[|base| + 1..|base| + 6] == "page=";
    forall i | 0 <= i <= |base| ensures !PageKeyAt(u, i) {
      NoPageKeyAcrossSeparator(base, sep, rest, i);
    }
    assert PageTokenAt(u, |base|);
    assert u[|base| + 6..] == rest[5..];
  }

  /** After `page=` and a digit have been removed, the strip goes on with what follows. */
  lemma {:induction false} StripAfterPageParam(base: string, sep: char, rest: string, u: string)
    requires sep == '?' || sep == '&'
    requires forall i :: !PageKeyAt(base, i)
    requires |rest| >= 6 && rest[..5] == "page=" && IsDigit(rest[5])
    requires u == base + [sep] + rest
    ensures StripPage(u) == base + [sep] + StripPage(if |rest| >= 7 && rest[6] == '&' then rest[7..] else rest[6..])
  {
    var k := |base| + 1;
    PageParamAfterSeparator(base, sep, rest);
    StripPageRemovesFirstMatch(u, k);
    assert u[..k] == base + [sep];
    assert u[k..] == rest;
  }

  /**
   * A URI whose only page parameter is `page=<one digit>`, right after the `?` or
   * `&` that ends `base`, and which is followed by nothing or by `&` and further
   * parameters: its current page is that digit, and the strip removes the parameter
   * together with the `&` after it.
   */
  lemma {:induction false} SingleDigitPageUri(base: string, sep: char, digit: char, query: string)
    requires sep == '?' || sep == '&'
    requires IsDigit(digit)
    requires forall i :: !PageKeyAt(base, i)
    requires forall i :: !PageKeyAt(query, i)
    ensures CurrentPage(base + [sep] + "page=" + [digit] + QueryTail(query)) == DigitValue(digit)
    ensures StripPage(base + [sep] + "page=" + [digit] + QueryTail(query)) == base + [sep] + query
  {
    var tail := QueryTail(query);
    var rest := "page=" + [digit] + tail;
    var u := base + [sep] + rest;
    assert u == base + [sep] + "page=" + [digit] + tail;
    assert rest[5..] == [digit] + tail;
    assert tail == [] || tail[0] == '&';
    assert DigitRun(rest[5..]) == [digit];
    assert Value([digit]) == DigitValue(digit) by {
      assert [digit][..0] == [];
    }
    PageParamAfterSeparator(base, sep, rest);
    StripAfterPageParam(base, sep, rest, u);
    assert (if |rest| >= 7 && rest[6] == '&' then rest[7..] else rest[6..]) == query;
    StripPageKeepsCleanUri(query);
  }

  /**
   * With a page number of two or more digits the strip removes `page=` and only the
   * first digit: the other digits stay in the template, although the current page
   * is read from all of them.
   */
  lemma {:induction false} MultiDigitPageLeavesDigits(base: string, sep: char, digits: string, query: string)
    requires sep == '?' || sep == '&'
    requires |digits| >= 2 && AllDigits(digits)
    requires forall i :: !PageKeyAt(base, i)
    requires forall i :: !PageKeyAt(query, i)
    ensures CurrentPage(base + [sep] + "page=" + digits + QueryTail(query)) == Value(digits)
    ensures StripPage(base + [sep] + "page=" + digits + QueryTail(query)) == base + [sep] + digits[1..] + QueryTail(query)
  {
    var tail := QueryTail(query);
    var rest := "page=" + digits + tail;
    var u := base + [sep] + rest;
    assert u == base + [sep] + "page=" + digits + tail;
    assert rest[5..] == digits + tail;
    PageParamAfterSeparator(base, sep, rest);
    DigitRunOfDigits(digits, tail);
    MultiDigitStrip(base, sep, digits, tail, rest, u);
    StripPageKeepsCleanUri(query);
    if query != [] {
      StripPageSkipsPlainPrefix("&", query);
    }
  }

  lemma {:induction false} MultiDigitStrip(base: string, sep: char, digits: string, tail: string, rest: string, u: string)
    requires sep == '?' || sep == '&'
    requires |digits| >= 2 && AllDigits(digits)
    requires forall i :: !PageKeyAt(base, i)
    requires rest == "page=" + digits + tail && u == base + [sep] + rest
    ensures StripPage(u) == base + [sep] + digits[1..] + StripPage(tail)
  {
    assert rest[..5] == "page=" && rest[5] == digits[0] && rest[6] == digits[1];
    StripAfterPageParam(base, sep, rest, u);
    assert rest[6..] == digits[1..] + tail;
    assert 'p' !in digits[1..] by {
      forall i | 0 <= i < |digits[1..]| ensures digits[1..][i] != 'p' {
        assert IsDigit(digits[i + 1]);
      }
    }
    StripPageSkipsPlainPrefix(digits[1..], tail);
  }

  /** Appending the separator twice appends nothing the second time. */
  lemma AppendCharacterToUriIdempotent(uri: string)
    ensures AppendCharacterToUri(uri + AppendCharacterToUri(uri)) == ""
  {
  }

  // ---------------------------------------------------------------------------
  // Properties of the offset and the page count

  /**
   * With pagination on, the offset of page p is the start of the (p-1)-th block of
   * page-size records: a non-negative multiple of the page size that gives p back,
   * and the next page starts one page size later.
   */
  lemma {:induction false} FirstResultIsPageStart(currentPage: int, recordsPerPage: int)
    requires currentPage >= 1 && recordsPerPage > 0
    ensures FirstResult(currentPage, recordsPerPage) >= 0
    ensures FirstResult(currentPage, recordsPerPage) % recordsPerPage == 0
    ensures FirstResult(currentPage, recordsPerPage) / recordsPerPage == currentPage - 1
    ensures FirstResult(currentPage + 1, recordsPerPage) == FirstResult(currentPage, recordsPerPage) + recordsPerPage
  {
    var offset := FirstResult(currentPage, recordsPerPage);
    MulNonNegative(currentPage - 1, recordsPerPage);
    DivModUnique(offset, recordsPerPage, currentPage - 1, 0);
    assert currentPage * recordsPerPage == (currentPage - 1) * recordsPerPage + recordsPerPage;
  }

  lemma MulNonNegative(x: int, d: int)
    requires x >= 0 && d > 0
    ensures x * d >= 0
  {
  }

  /** k * d <= (k + j) * d for a positive d and a non-negative j. */
  lemma MulMonotonic(k: int, j: int, d: int)
    requires j >= 0 && d > 0
    ensures k * d + j * d == (k + j) * d
    ensures j * d >= 0
    ensures j >= 1 ==> j * d >= d
  {
    if j >= 1 {
      assert j * d == (j - 1) * d + d;
      MulNonNegative(j - 1, d);
    }
  }

  /** Division with remainder determines quotient and remainder. */
  lemma DivModUnique(n: int, d: int, q: int, r: int)
    requires d > 0 && 0 <= r < d && n == q * d + r
    ensures n / d == q && n % d == r
  {
    var q', r' := n / d, n % d;
    assert n == q' * d + r';
    if q' > q {
      MulMonotonic(q, q' - q, d);
    } else if q' < q {
      MulMonotonic(q', q - q', d);
    }
  }

  /** For a positive page size and a non-negative record count, the page count is the least k with k * size >= count. */
  lemma {:induction false} NumberOfPagesIsLeast<A>(parser: A -> int, recordsPerPage: int, additionalArguments: A, k: int)
    requires recordsPerPage > 0 && parser(additionalArguments) >= 0
    requires k * recordsPerPage >= parser(additionalArguments)
    ensures 0 <= NumberOfPages(parser, recordsPerPage, additionalArguments) <= k
  {
    var pages := NumberOfPages(parser, recordsPerPage, additionalArguments);
    if pages > k {
      MulMonotonic(k, pages - 1 - k, recordsPerPage);
    }
  }

  /**
   * No page number is validated: page p shows records exactly when p is within the
   * page count, that is, when its offset lies before the end of the records.
   */
  lemma {:induction false} PageInRangeIffOffsetBeforeEnd<A>(parser: A -> int, recordsPerPage: int, additionalArguments: A, currentPage: int)
    requires recordsPerPage > 0 && currentPage >= 1
    ensures currentPage <= NumberOfPages(parser, recordsPerPage, additionalArguments)
            <==> FirstResult(currentPage, recordsPerPage) < parser(additionalArguments)
  {
    var pages := NumberOfPages(parser, recordsPerPage, additionalArguments);
    if currentPage <= pages {
      MulMonotonic(currentPage - 1, pages - currentPage, recordsPerPage);
    } else {
      MulMonotonic(pages, currentPage - 1 - pages, recordsPerPage);
    }
  }

  /** For page size 0 or -1 the counter is not consulted: any counter and any arguments give the same count. */
  lemma NumberOfPagesIgnoresCounter<A>(parser1: A -> int, parser2: A -> int, recordsPerPage: int, arguments1: A, arguments2: A)
    requires recordsPerPage == 0 || recordsPerPage == -1
    ensures NumberOfPages(parser1, recordsPerPage, arguments1) == NumberOfPages(parser2, recordsPerPage, arguments2)
  {
  }

  // ---------------------------------------------------------------------------
  // The service object

  class Pager<V> {
    const settingsRetriever: map<string, V>
    const intval: V -> int

    constructor (settingsRetriever: map<string, V>, intval: V -> int)
      ensures this.settingsRetriever == settingsRetriever && this.intval == intval
    {
      this.settingsRetriever := settingsRetriever;
      this.intval := intval;
    }

    /**
     * getPagerProps: a fresh PagerProps holding the five values. A page-size error
     * is returned before the record counter is consulted.
     */
    method GetPagerProps<A>(parser: A -> int, requestUri: string, recordsPerPageData: PageSizeSpec, additionalArguments: A)
      returns (r: Result<PagerProps, PagerError>)
      ensures RecordsPerPage(settingsRetriever, intval, recordsPerPageData).Err? ==>
                r == Err(RecordsPerPage(settingsRetriever, intval, recordsPerPageData).error)
      ensures RecordsPerPage(settingsRetriever, intval, recordsPerPageData).Ok? ==> r.Ok?
      ensures r.Ok? ==>
                var recordsPerPage := RecordsPerPage(settingsRetriever, intval, recordsPerPageData).value;
                var props := r.value;
                fresh(props) &&
                props.currentPage == Some(CurrentPage(requestUri)) &&
                props.uriWithoutPage == Some(UriWithoutPage(requestUri)) &&
                props.recordsPerPage == Some(recordsPerPage) &&
                props.firstResult == Some(FirstResult(CurrentPage(requestUri), recordsPerPage)) &&
                props.numberOfPages == Some(NumberOfPages(parser, recordsPerPage, additionalArguments))
      ensures r.Ok? && r.value.recordsPerPage == Some(-1) ==>
                r.value.firstResult == Some(0) && r.value.numberOfPages == Some(1)
      ensures r.Ok? ==> r.value.uriWithoutPage.Some? && IsTemplate(r.value.uriWithoutPage.value)
    {
      var currentPage := CurrentPage(requestUri);
      var uriWithoutPage := UriWithoutPage(requestUri);
      var recordsPerPageResult := RecordsPerPage(settingsRetriever, intval, recordsPerPageData);
      if recordsPerPageResult.Err? {
        return Err(recordsPerPageResult.error);
      }
      var recordsPerPage := recordsPerPageResult.value;
      var firstResult := FirstResult(currentPage, recordsPerPage);
      var numberOfPages := NumberOfPages(parser, recordsPerPage, additionalArguments);
      var pagerProps := new PagerProps();
      pagerProps := pagerProps.SetCurrentPage(currentPage);
      pagerProps := pagerProps.SetUriWithoutPage(uriWithoutPage);
      pagerProps := pagerProps.SetRecordsPerPage(recordsPerPage);
      pagerProps := pagerProps.SetFirstResult(firstResult);
      pagerProps := pagerProps.SetNumberOfPages(numberOfPages);
      return Ok(pagerProps);
    }
  }
}
