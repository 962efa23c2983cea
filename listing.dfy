/**
 * The job listing page (app/jobs/page.js): a 1-indexed page cursor moved by
 * clamped Previous/Next and numbered buttons, the query parameters of each
 * request, the defaulting of the response, and the "Showing a - b of n"
 * line and heading.
 */
module Listing {
  import opened Wrappers
  import opened Jobs
  import Text
  import Home

  const JobsPerPage := 10
  const ConnectionFallback := "Failed to connect to server. Check your internet connection and try again."
  const AllListingsHeading := "All Job Listings"

  /** One key/value pair of the request's query string, in insertion order. */
  datatype Param = Param(key: string, value: string)

  /** `params.get(key)`: the value of the first pair with that key. */
  function Get(params: seq<Param>, key: string): (r: Option<string>)
    ensures r.Some? <==> exists i :: 0 <= i < |params| && params[i].key == key
  {
    if params == [] then None
    else if params[0].key == key then Some(params[0].value)
    else Get(params[1..], key)
  }

  /**
   * `new URLSearchParams({ page, limit, ...(category && { category }), ...(location && { location }) })`:
   * page and limit always, then each filter only when it is non-empty.
   */
  function RequestParams(page: nat, category: string, location: string): (r: seq<Param>)
    ensures |r| == 2 + (if category != "" then 1 else 0) + (if location != "" then 1 else 0)
    ensures r[0].key == "page" && r[1] == Param("limit", "10")
  {
    [Param("page", Text.DecimalString(page)), Param("limit", Text.DecimalString(JobsPerPage))]
      + (if category != "" then [Param("category", category)] else [])
      + (if location != "" then [Param("location", location)] else [])
  }

  /** Reading the parameters back gives the page number, the limit 10 and exactly the non-empty filters. */
  lemma RequestParamsRead(page: nat, category: string, location: string)
    ensures Get(RequestParams(page, category, location), "page").Some?
    ensures Text.AllDigits(Get(RequestParams(page, category, location), "page").value)
    ensures Text.DecimalValue(Get(RequestParams(page, category, location), "page").value) == page
    ensures Get(RequestParams(page, category, location), "limit") == Some("10")
    ensures Get(RequestParams(page, category, location), "category") == if category != "" then Some(category) else None
    ensures Get(RequestParams(page, category, location), "location") == if location != "" then Some(location) else None
  {
    var r := RequestParams(page, category, location);
    Text.DecimalRoundTrip(page);
    assert Text.DecimalString(JobsPerPage) == "10";
    var tail := r[2..];
    assert Get(r, "category") == Get(tail, "category");
    assert Get(r, "location") == Get(tail, "location");
    if category != "" {
      assert tail[0] == Param("category", category);
    }
  }

  /** The body of a successful response; an absent member is None. */
  datatype ListingData = ListingData(jobs: Option<seq<Job>>, totalPages: Option<nat>, totalJobs: Option<nat>)

  /** How a request ends. */
  datatype FetchOutcome =
    | Ok(data: ListingData)
      /** A non-OK status; `message` is the error body's `message` member. */
    | HttpError(status: nat, message: Option<string>)
      /** Anything thrown: network failure, the 8-second abort, an unreadable body. */
    | Thrown(reason: string)

  /** `data.totalPages || 1`: a missing or zero count means one page. */
  function TotalPagesOf(d: ListingData): (r: nat)
    ensures r >= 1
    ensures d.totalPages.Some? && d.totalPages.value != 0 ==> r == d.totalPages.value
    ensures d.totalPages.None? || d.totalPages.value == 0 ==> r == 1
  {
    if d.totalPages.Some? && d.totalPages.value != 0 then d.totalPages.value else 1
  }

  /** The message shown for a failed request. */
  function ErrorText(o: FetchOutcome): (r: string)
    requires !o.Ok?
    ensures r != ""
    ensures o.HttpError? ==> r == Text.OrElse(o.message, "HTTP error! status: " + Text.DecimalString(o.status))
    ensures o.Thrown? && o.reason != "" ==> r == o.reason
    ensures o.Thrown? && o.reason == "" ==> r == ConnectionFallback
  {
    match o
    case HttpError(status, message) => Text.OrElse(message, "HTTP error! status: " + Text.DecimalString(status))
    case Thrown(reason) => if reason != "" then reason else ConnectionFallback
  }

  /** "Showing lower - upper of totalJobs jobs". */
  function ShowingLower(page: int): int {
    (page - 1) * JobsPerPage + 1
  }

  function ShowingUpper(page: int, totalJobs: int): (r: int)
    ensures r <= page * JobsPerPage && r <= totalJobs
    ensures r == page * JobsPerPage || r == totalJobs
  {
    Home.Min(page * JobsPerPage, totalJobs)
  }

  /**
   * When the server's count is the length of the full list, the "Showing"
   * range names exactly the positions (1-based) of the page's slice.
   */
  lemma ShowingRangeIsPageSlice(all: seq<Job>, page: int)
    requires page >= 1 && (page - 1) * JobsPerPage < |all|
    ensures var slice := Home.PageSlice(all, page);
      && ShowingUpper(page, |all|) - ShowingLower(page) + 1 == |slice|
      && slice == all[ShowingLower(page) - 1..ShowingUpper(page, |all|)]
  {
  }

  /** The page heading: "<category> Jobs in <location>", or the all-listings title without filters. */
  function Heading(category: string, location: string): (r: string)
    ensures category == "" && location == "" ==> r == AllListingsHeading
    ensures category != "" || location != "" ==>
      && |category| + 6 <= |r| && r[..|category|] == category && r[|category|..|category| + 6] == " Jobs "
      && (location == "" ==> |r| == |category| + 6)
      && (location != "" ==> |r| == |category| + 9 + |location| && r[|category| + 6..] == "in " + location)
  {
    if category != "" || location != "" then
      category + " Jobs " + (if location != "" then "in " + location else "")
    else
      AllListingsHeading
  }

  /** The heading is the all-listings title exactly when neither filter is set. */
  lemma HeadingAllIffNoFilter(category: string, location: string)
    ensures Heading(category, location) == AllListingsHeading <==> category == "" && location == ""
  {
    if category != "" || location != "" {
      var h := Heading(category, location);
      var k := |category|;
      assert h[k] == ' ' && h[k + 4] == 's';
    }
  }

  /** The pagination bar is rendered only when not loading and the page has jobs. */
  predicate PaginationShown(loading: bool, jobs: seq<Job>) {
    !loading && |jobs| > 0
  }

  class ListingPage {
    /** The URL's filters, read again on every render. */
    var category: string
    var location: string
    var jobs: seq<Job>
    var loading: bool
    var currentPage: int
    var totalPages: int
    var totalJobs: int
    var error: Option<string>
    /** The parameters of the last request sent. */
    var lastRequest: Option<seq<Param>>

    ghost predicate Valid()
      reads this
    {
      currentPage >= 1 && totalPages >= 1 && totalJobs >= 0
    }

    /** Mounted with the URL's filters (`searchParams.get(..) || ""`). */
    constructor (category: string, location: string)
      ensures Valid()
      ensures this.category == category && this.location == location
      ensures jobs == [] && loading && currentPage == 1 && totalPages == 1 && totalJobs == 0
      ensures error == None && lastRequest == None
    {
      this.category := category;
      this.location := location;
      jobs := [];
      loading := true;
      currentPage := 1;
      totalPages := 1;
      totalJobs := 0;
      error := None;
      lastRequest := None;
    }

    /**
     * One run of `fetchJobs`: the request carries the current page and
     * filters; on success the response defaults apply, on failure the list
     * empties and the error is recorded; `loading` ends false on every path.
     */
    method FetchJobs(outcome: FetchOutcome)
      requires Valid()
      modifies this`jobs, this`loading, this`totalPages, this`totalJobs, this`error, this`lastRequest
      ensures Valid()
      ensures lastRequest == Some(RequestParams(currentPage, category, location))
      ensures !loading
      ensures outcome.Ok? ==>
        && jobs == outcome.data.jobs.GetOr([])
        && totalPages == TotalPagesOf(outcome.data)
        && totalJobs == outcome.data.totalJobs.GetOr(0)
        && error == None
      ensures !outcome.Ok? ==>
        && jobs == []
        && error == Some(ErrorText(outcome))
        && totalPages == old(totalPages) && totalJobs == old(totalJobs)
      ensures PaginationShown(loading, jobs) <==> outcome.Ok? && outcome.data.jobs.GetOr([]) != []
    {
      loading := true;
      error := None;
      lastRequest := Some(RequestParams(currentPage, category, location));
      match outcome {
        case Ok(data) =>
          jobs := data.jobs.GetOr([]);
          totalPages := TotalPagesOf(data);
          totalJobs := data.totalJobs.GetOr(0);
        case HttpError(_, _) =>
          error := Some(ErrorText(outcome));
          jobs := [];
        case Thrown(_) =>
          error := Some(ErrorText(outcome));
          jobs := [];
      }
      loading := false;
    }

    /**
     * The URL's filters change while the page stays mounted: the render reads
     * the new values, and nothing resets `currentPage`, so the fetch that the
     * effect then runs asks for the old page number under the new filters.
     */
    method ChangeFilters(newCategory: string, newLocation: string)
      requires Valid()
      modifies this`category, this`location
      ensures Valid()
      ensures category == newCategory && location == newLocation
      ensures currentPage == old(currentPage)
    {
      category, location := newCategory, newLocation;
    }

    /** Previous: `setCurrentPage(p => Math.max(1, p - 1))`, unless disabled on page 1. */
    method ClickPrevious()
      requires Valid()
      modifies this`currentPage
      ensures Valid()
      ensures currentPage == if Home.PreviousDisabled(old(currentPage)) then old(currentPage) else Home.Max(1, old(currentPage) - 1)
      ensures currentPage <= old(currentPage)
    {
      if !Home.PreviousDisabled(currentPage) {
        currentPage := Home.Max(1, currentPage - 1);
      }
    }

    /** Next: `setCurrentPage(p => Math.min(totalPages, p + 1))`, unless disabled on the last page. */
    method ClickNext()
      requires Valid()
      modifies this`currentPage
      ensures Valid()
      ensures currentPage == if Home.NextDisabled(old(currentPage), totalPages) then old(currentPage) else Home.Min(totalPages, old(currentPage) + 1)
      ensures !Home.NextDisabled(old(currentPage), totalPages) ==> currentPage <= totalPages
    {
      if !Home.NextDisabled(currentPage, totalPages) {
        currentPage := Home.Min(totalPages, currentPage + 1);
      }
    }

    /** The numbered button `i + 1` (one per page, `0 <= i < totalPages`) selects exactly that page. */
    method ClickPageNumber(i: int)
      requires Valid() && 0 <= i < totalPages
      modifies this`currentPage
      ensures Valid()
      ensures currentPage == i + 1 && currentPage <= totalPages
    {
      currentPage := i + 1;
    }
  }
}
