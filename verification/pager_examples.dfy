/**
 * The cases of the pager's test suite, with its fixtures: the settings
 * `records_per_page => 5` and `invalid_setting => 'foo'`, and a counter that
 * reports 11 records plus the `add` argument when one is given.
 *
 * The suite's URIs all start with the host `http://test.com`; the lemmas below
 * hold for every host in which the letter `g` does not occur, so that `page=`
 * cannot occur in it.
 */
module PagerExamples {
  import opened Wrappers
  import opened Decimal
  import opened PagerService
  import opened PagerTwig

  /** The values the settings fixture holds: an int and a string. */
  datatype FixtureValue = IntValue(i: int) | StringValue(s: string)

  /** PHP's intval, exact only for the fixture's two values: the int `5` is kept and `'foo'` gives 0. */
  function FixtureIntval(v: FixtureValue): int {
    match v
    case IntValue(i) => i
    case StringValue(s) => Value(DigitRun(s))
  }

  const FixtureSettings: map<string, FixtureValue> :=
    map["records_per_page" := IntValue(5), "invalid_setting" := StringValue("foo")]

  /** The counter fixture: a fixed number of records, plus the `add` argument when given. */
  function FixtureParser(numberOfRecords: int): map<string, int> -> int {
    (additionalArguments: map<string, int>) =>
      if "add" in additionalArguments then numberOfRecords + additionalArguments["add"] else numberOfRecords
  }

  /** `page=` cannot occur in a string without a `g`. */
  lemma NoPageKeyWithoutG(s: string)
    requires 'g' !in s
    ensures forall i :: !PageKeyAt(s, i)
  {
    forall i | 0 <= i && i + 5 <= |s| ensures !PageKeyAt(s, i) {
      assert s[i..i + 5][2] == s[i + 2];
    }
  }

  /** A URI without a page parameter: page 1, and the template gains a trailing `&`. */
  lemma PlainUriExample(host: string)
    requires 'g' !in host
    ensures CurrentPage(host + "?a=1&b=2") == 1
    ensures UriWithoutPage(host + "?a=1&b=2") == host + "?a=1&b=2&"
  {
    var uri := host + "?a=1&b=2";
    assert 'g' !in uri;
    NoPageKeyWithoutG(uri);
    StripPageKeepsCleanUri(uri);
    forall i ensures !PageTokenAt(uri, i) {
      assert !PageKeyAt(uri, i + 1);
    }
    assert '?' in uri by {
      assert uri[|host|] == '?';
    }
  }

  /** `?page=2`: page 2, and the template is the URI up to its `?`. */
  lemma PageNumberUriExample(host: string)
    requires 'g' !in host
    ensures CurrentPage(host + "?page=2") == 2
    ensures UriWithoutPage(host + "?page=2") == host + "?"
  {
    NoPageKeyWithoutG(host);
    NoPageKeyWithoutG("");
    SingleDigitPageUri(host, '?', '2', "");
    assert host + ['?'] + "page=" + ['2'] + QueryTail("") == host + "?page=2";
    assert host + ['?'] + "" == host + "?";
  }

  /** `?page=2&a=1`: page 2, and the `&` after the page parameter goes with it. */
  lemma PageNumberAndQueryUriExample(host: string)
    requires 'g' !in host
    ensures CurrentPage(host + "?page=2&a=1") == 2
    ensures UriWithoutPage(host + "?page=2&a=1") == host + "?a=1&"
  {
    NoPageKeyWithoutG(host);
    NoPageKeyWithoutG("a=1");
    SingleDigitPageUri(host, '?', '2', "a=1");
    assert host + ['?'] + "page=" + ['2'] + QueryTail("a=1") == host + "?page=2&a=1";
    assert host + ['?'] + "a=1" == host + "?a=1";
    assert '?' in host + "?a=1" by {
      assert (host + "?a=1")[|host|] == '?';
    }
  }

  /** Page numbers are not validated: `?page=0` is page 0, and its offset lies one page before the first record. */
  lemma PageZeroExample(host: string, recordsPerPage: int)
    requires 'g' !in host
    requires recordsPerPage > 0
    ensures CurrentPage(host + "?page=0") == 0
    ensures FirstResult(CurrentPage(host + "?page=0"), recordsPerPage) == -recordsPerPage < 0
  {
    NoPageKeyWithoutG(host);
    NoPageKeyWithoutG("");
    SingleDigitPageUri(host, '?', '0', "");
    assert host + ['?'] + "page=" + ['0'] + QueryTail("") == host + "?page=0";
  }

  /** `?page=12&a=1`: page 12, but the template keeps the digit `2`. */
  lemma MultiDigitUriExample(host: string)
    requires 'g' !in host
    ensures CurrentPage(host + "?page=12&a=1") == 12
    ensures UriWithoutPage(host + "?page=12&a=1") == host + "?2&a=1&"
  {
    NoPageKeyWithoutG(host);
    NoPageKeyWithoutG("a=1");
    var digits := ['1', '2'];
    assert AllDigits(digits);
    assert Value(digits) == 12 by {
      assert digits[..1] == ['1'];
    }
    MultiDigitPageLeavesDigits(host, '?', digits, "a=1");
    assert host + ['?'] + "page=" + digits + QueryTail("a=1") == host + "?page=12&a=1";
    assert host + ['?'] + digits[1..] + QueryTail("a=1") == host + "?2&a=1";
    assert '?' in host + "?2&a=1" by {
      assert (host + "?2&a=1")[|host|] == '?';
    }
  }

  lemma RecordsPerPageExamples()
    ensures RecordsPerPage(FixtureSettings, FixtureIntval, Literal(10)) == Ok(10)
    ensures RecordsPerPage(FixtureSettings, FixtureIntval, Literal(-1)) == Ok(-1)
    ensures RecordsPerPage(FixtureSettings, FixtureIntval, SettingKey("records_per_page")) == Ok(5)
    ensures RecordsPerPage(FixtureSettings, FixtureIntval, SettingKey("invalid_setting"))
            == Err(WrongSettingType("invalid_setting", "integer"))
    ensures RecordsPerPage(FixtureSettings, FixtureIntval, SettingKey("missing")) == Err(SettingNotFound("missing"))
  {
    assert DigitRun("foo") == [];
  }

  lemma OffsetAndPageCountExamples()
    ensures FirstResult(1, 10) == 0 && FirstResult(2, 10) == 10 && FirstResult(2, 5) == 5 && FirstResult(2, -1) == 0
    ensures NumberOfPages(FixtureParser(11), 10, map[]) == 2
    ensures NumberOfPages(FixtureParser(11), 5, map[]) == 3
    ensures NumberOfPages(FixtureParser(11), 5, map["add" := 5]) == 4
    ensures NumberOfPages(FixtureParser(11), -1, map[]) == 1
  {
  }

  /**
   * The strip is not anchored to `?` or `&` and runs left to right once, so it can
   * join two fragments into a new page parameter: the template of `?pagpage=1e=2`
   * is `?page=2&`, and a link made from it for page 5 still reads as page 2.
   */
  lemma TemplateMayKeepPageParamExample(host: string)
    requires 'g' !in host
    ensures CurrentPage(host + "?pagpage=1e=2") == 1
    ensures UriWithoutPage(host + "?pagpage=1e=2") == host + "?page=2&"
    ensures CurrentPage(PageFilter(UriWithoutPage(host + "?pagpage=1e=2"), 5)) == 2
  {
    JoinedFragmentsCurrentPage(host);
    JoinedFragmentsStrip(host);
    assert '?' in host + "?page=2" by {
      assert (host + "?page=2")[|host|] == '?';
    }
    JoinedFragmentsLink(host);
  }

  lemma JoinedFragmentsCurrentPage(host: string)
    requires 'g' !in host
    ensures CurrentPage(host + "?pagpage=1e=2") == 1
  {
    var uri := host + "?pagpage=1e=2";
    NoPageKeyWithoutG(host);
    forall i ensures !PageTokenAt(uri, i) {
      if 0 <= i < |host| {
        NoPageKeyAcrossSeparator(host, '?', "pagpage=1e=2", i + 1);
      } else if i == |host| {
        assert uri[i + 1..] == "pagpage=1e=2";
        assert uri[i + 1..i + 6] == "pagpage=1e=2"[..5] == "pagpa";
      } else if |host| < i < |uri| {
        assert uri[i] == "pagpage=1e=2"[i - |host| - 1];
        assert '?' !in "pagpage=1e=2" && '&' !in "pagpage=1e=2";
      }
    }
  }

  lemma JoinedFragmentsStrip(host: string)
    requires 'g' !in host
    ensures StripPage(host + "?pagpage=1e=2") == host + "?page=2"
  {
    var uri := host + "?pagpage=1e=2";
    NoPageKeyWithoutG(host);
    var k := |host| + 4;
    forall i | 0 <= i < k ensures !StripMatchAt(uri, i) {
      if i <= |host| {
        NoPageKeyAcrossSeparator(host, '?', "pagpage=1e=2", i);
      } else {
        assert uri[|host| + 1..] == "pagpage=1e=2";
      }
    }
    assert uri[k..] == "page=1e=2";
    assert StripMatchAt(uri, k);
    StripPageRemovesFirstMatch(uri, k);
    assert uri[..k] == host + "?pag";
    assert uri[k + 6..] == "e=2";
    StripPageSkipsPlainPrefix("e=2", "");
    assert "e=2" + "" == "e=2";
    assert host + "?pag" + "e=2" == host + "?page=2";
  }

  lemma JoinedFragmentsLink(host: string)
    requires 'g' !in host
    ensures CurrentPage(PageFilter(host + "?page=2&", 5)) == 2
  {
    NoPageKeyWithoutG(host);
    assert PageFilter(host + "?page=2&", 5) == host + ['?'] + "page=2&page=5";
    PageParamAfterSeparator(host, '?', "page=2&page=5");
    assert "page=2&page=5"[5..] == ['2'] + "&page=5";
    assert DigitRun(['2'] + "&page=5") == ['2'];
    assert Value(['2']) == 2 by {
      assert ['2'][..0] == [];
    }
  }

  /** `testGetPagerProps`: a URI without a page parameter and a literal page size of 10. */
  method GetPagerPropsCase(host: string)
    returns (currentPage: Option<int>, uriWithoutPage: Option<string>, recordsPerPage: Option<int>,
             firstResult: Option<int>, numberOfPages: Option<int>)
    requires 'g' !in host
    ensures currentPage == Some(1) && uriWithoutPage == Some(host + "?a=1&b=2&")
    ensures recordsPerPage == Some(10) && firstResult == Some(0) && numberOfPages == Some(2)
  {
    var pager := new Pager(FixtureSettings, FixtureIntval);
    PlainUriExample(host);
    OffsetAndPageCountExamples();
    var r := pager.GetPagerProps(FixtureParser(11), host + "?a=1&b=2", Literal(10), map[]);
    var props := r.value;
    currentPage := props.GetCurrentPage();
    uriWithoutPage := props.GetUriWithoutPage();
    recordsPerPage := props.GetRecordsPerPage();
    firstResult := props.GetFirstResult();
    numberOfPages := props.GetNumberOfPages();
  }

  /** `testGetPagerPropsWithPageNumber`: `?page=2` with a literal page size of 10. */
  method PageNumberCase(host: string)
    returns (currentPage: Option<int>, uriWithoutPage: Option<string>, firstResult: Option<int>)
    requires 'g' !in host
    ensures currentPage == Some(2) && uriWithoutPage == Some(host + "?") && firstResult == Some(10)
  {
    var pager := new Pager(FixtureSettings, FixtureIntval);
    PageNumberUriExample(host);
    OffsetAndPageCountExamples();
    var r := pager.GetPagerProps(FixtureParser(11), host + "?page=2", Literal(10), map[]);
    var props := r.value;
    currentPage := props.GetCurrentPage();
    uriWithoutPage := props.GetUriWithoutPage();
    firstResult := props.GetFirstResult();
  }

  /** `testDisablePagination`: a page size of -1 starts at offset 0 on every page. */
  method DisablePaginationCase(host: string) returns (firstResult: Option<int>)
    requires 'g' !in host
    ensures firstResult == Some(0)
  {
    var pager := new Pager(FixtureSettings, FixtureIntval);
    PageNumberUriExample(host);
    var r := pager.GetPagerProps(FixtureParser(11), host + "?page=2", Literal(-1), map[]);
    firstResult := r.value.GetFirstResult();
  }

  /** `testGetPagerPropsWithSetting`: the page size is read from the `records_per_page` setting. */
  method SettingCase(host: string)
    returns (currentPage: Option<int>, uriWithoutPage: Option<string>, recordsPerPage: Option<int>,
             firstResult: Option<int>, numberOfPages: Option<int>)
    requires 'g' !in host
    ensures currentPage == Some(2) && uriWithoutPage == Some(host + "?a=1&")
    ensures recordsPerPage == Some(5) && firstResult == Some(5) && numberOfPages == Some(3)
  {
    var pager := new Pager(FixtureSettings, FixtureIntval);
    PageNumberAndQueryUriExample(host);
    OffsetAndPageCountExamples();
    RecordsPerPageExamples();
    var r := pager.GetPagerProps(FixtureParser(11), host + "?page=2&a=1", SettingKey("records_per_page"), map[]);
    var props := r.value;
    currentPage := props.GetCurrentPage();
    uriWithoutPage := props.GetUriWithoutPage();
    recordsPerPage := props.GetRecordsPerPage();
    firstResult := props.GetFirstResult();
    numberOfPages := props.GetNumberOfPages();
  }

  /** `testGetPagerPropsWithAdditionalArguments`: the `add` argument reaches the counter. */
  method AdditionalArgumentsCase(host: string) returns (numberOfPages: Option<int>)
    requires 'g' !in host
    ensures numberOfPages == Some(4)
  {
    var pager := new Pager(FixtureSettings, FixtureIntval);
    OffsetAndPageCountExamples();
    RecordsPerPageExamples();
    var r := pager.GetPagerProps(FixtureParser(11), host + "?page=2&a=1", SettingKey("records_per_page"), map["add" := 5]);
    numberOfPages := r.value.GetNumberOfPages();
  }

  /** `testGetPagerPropsWithBadSetting`: a setting that is not a positive int is reported. */
  method BadSettingCase(host: string) returns (failure: Option<PagerError>)
    requires 'g' !in host
    ensures failure == Some(WrongSettingType("invalid_setting", "integer"))
  {
    var pager := new Pager(FixtureSettings, FixtureIntval);
    RecordsPerPageExamples();
    var r := pager.GetPagerProps(FixtureParser(11), host + "?page=2&a=1", SettingKey("invalid_setting"), map[]);
    failure := if r.Err? then Some(r.error) else None;
  }
}
