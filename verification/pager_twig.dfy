/**
 * The `page` template filter: turns a link template back into a link to a given
 * page. Registration with the template engine is not part of this model.
 */
module PagerTwig {
  import opened Decimal
  import opened PagerService

  /** pageFilter: the template, then `page=`, then the page number in decimal. */
  function PageFilter(urlWithoutPage: string, pageNumber: int): (link: string)
    ensures |link| == |urlWithoutPage| + 5 + |IntToString(pageNumber)|
    ensures link[..|urlWithoutPage|] == urlWithoutPage
    ensures link[|urlWithoutPage|..|urlWithoutPage| + 5] == "page="
    ensures link[|urlWithoutPage| + 5..] == IntToString(pageNumber)
  {
    urlWithoutPage + "page=" + IntToString(pageNumber)
  }

  /** getName: the name the extension is registered under. */
  function GetName(): (name: string)
    ensures name == "pager_extension"
  {
    "pager_extension"
  }

  /**
   * A link made from a template that ends in `?` or `&` and holds no page parameter
   * of its own leads back to the page it was made for.
   */
  lemma {:induction false} PageFilterRoundTrip(template: string, pageNumber: nat)
    requires |template| > 0 && (template[|template| - 1] == '?' || template[|template| - 1] == '&')
    requires forall i :: !PageTokenAt(template, i)
    ensures CurrentPage(PageFilter(template, pageNumber)) == pageNumber
  {
    var link := PageFilter(template, pageNumber);
    var digits := IntToString(pageNumber);
    var m := |template| - 1;
    assert link == template + "page=" + digits;
    assert link[m + 1..m + 6] == "page=";
    assert PageTokenAt(link, m);
    forall j | 0 <= j < m ensures !PageTokenAt(link, j) {
      if j + 7 <= |template| {
        assert link[j + 1..j + 6] == template[j + 1..j + 6];
        assert !PageTokenAt(template, j);
      }
    }
    assert FirstPageTokenAt(link, m);
    assert link[m + 6..] == digits + [];
    DigitRunOfDigits(digits, []);
  }

  /**
   * A request URI in which `page=` does not occur is on page 1, and every link made
   * from its template leads to the page it was made for.
   */
  lemma {:induction false} CleanUriLinksRoundTrip(requestUri: string, pageNumber: nat)
    requires forall i :: !PageKeyAt(requestUri, i)
    ensures CurrentPage(requestUri) == 1
    ensures CurrentPage(PageFilter(UriWithoutPage(requestUri), pageNumber)) == pageNumber
  {
    forall i ensures !StripMatchAt(requestUri, i) {
      assert !PageKeyAt(requestUri, i);
    }
    StripPageKeepsCleanUri(requestUri);
    forall i ensures !PageTokenAt(requestUri, i) {
      assert !PageKeyAt(requestUri, i + 1);
    }
    var template := UriWithoutPage(requestUri);
    assert template[..|requestUri|] == requestUri;
    forall i ensures !PageTokenAt(template, i) {
      assert !PageKeyAt(requestUri, i + 1);
    }
    PageFilterRoundTrip(template, pageNumber);
  }
}
