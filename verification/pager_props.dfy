/**
 * The five-field holder the pager fills in. Every field starts out unset (PHP
 * null, here `None`); each setter overwrites its own field in place and returns
 * the receiver, so that calls can be chained.
 */
module PagerPropsEntity {
  import opened Wrappers

  class PagerProps {
    var currentPage: Option<int>
    var uriWithoutPage: Option<string>
    var recordsPerPage: Option<int>
    var firstResult: Option<int>
    var numberOfPages: Option<int>

    constructor ()
      ensures currentPage == None && uriWithoutPage == None && recordsPerPage == None
      ensures firstResult == None && numberOfPages == None
    {
      currentPage, uriWithoutPage, recordsPerPage := None, None, None;
      firstResult, numberOfPages := None, None;
    }

    method SetCurrentPage(currentPage: int) returns (self: PagerProps)
      modifies this`currentPage
      ensures self == this
      ensures this.currentPage == Some(currentPage)
    {
      this.currentPage := Some(currentPage);
      self := this;
    }

    method GetCurrentPage() returns (currentPage: Option<int>)
      ensures currentPage == this.currentPage
    {
      currentPage := this.currentPage;
    }

    method SetUriWithoutPage(uriWithoutPage: string) returns (self: PagerProps)
      modifies this`uriWithoutPage
      ensures self == this
      ensures this.uriWithoutPage == Some(uriWithoutPage)
    {
      this.uriWithoutPage := Some(uriWithoutPage);
      self := this;
    }

    method GetUriWithoutPage() returns (uriWithoutPage: Option<string>)
      ensures uriWithoutPage == this.uriWithoutPage
    {
      uriWithoutPage := this.uriWithoutPage;
    }

    method SetRecordsPerPage(recordsPerPage: int) returns (self: PagerProps)
      modifies this`recordsPerPage
      ensures self == this
      ensures this.recordsPerPage == Some(recordsPerPage)
    {
      this.recordsPerPage := Some(recordsPerPage);
      self := this;
    }

    method GetRecordsPerPage() returns (recordsPerPage: Option<int>)
      ensures recordsPerPage == this.recordsPerPage
    {
      recordsPerPage := this.recordsPerPage;
    }

    method SetFirstResult(firstResult: int) returns (self: PagerProps)
      modifies this`firstResult
      ensures self == this
      ensures this.firstResult == Some(firstResult)
    {
      this.firstResult := Some(firstResult);
      self := this;
    }

    method GetFirstResult() returns (firstResult: Option<int>)
      ensures firstResult == this.firstResult
    {
      firstResult := this.firstResult;
    }

    method SetNumberOfPages(numberOfPages: int) returns (self: PagerProps)
      modifies this`numberOfPages
      ensures self == this
      ensures this.numberOfPages == Some(numberOfPages)
    {
      this.numberOfPages := Some(numberOfPages);
      self := this;
    }

    method GetNumberOfPages() returns (numberOfPages: Option<int>)
      ensures numberOfPages == this.numberOfPages
    {
      numberOfPages := this.numberOfPages;
    }
  }
}
