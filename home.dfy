/**
 * The list arithmetic of the home page (app/page.js): 1-indexed pages of
 * ten, the Previous/Next footer of each of its three tables, the tech/other
 * category split, the 7-day "new" badge and the filter link.
 */
module Home {
  import opened Wrappers
  import opened Jobs
  import Text

  const JobsPerPage := 10

  function Min(a: int, b: int): int {
    if a <= b then a else b
  }

  function Max(a: int, b: int): int {
    if a >= b then a else b
  }

  /** How `Array.prototype.slice` resolves a bound: from the end if negative, clamped to the length. */
  function SliceBound(len: nat, k: int): (r: nat)
    ensures r <= len
    ensures 0 <= k <= len ==> r == k
  {
    if k < 0 then (if len + k < 0 then 0 else len + k) else if k > len then len else k
  }

  /** `s.slice(start, end)`. */
  function JsSlice<T>(s: seq<T>, start: int, end: int): seq<T> {
    var a, b := SliceBound(|s|, start), SliceBound(|s|, end);
    if a < b then s[a..b] else []
  }

  /** `Math.ceil(n / jobsPerPage)`: the fewest pages of ten that hold `n` items. */
  function PageCount(n: nat): (r: nat)
    ensures r * JobsPerPage >= n
    ensures r > 0 ==> (r - 1) * JobsPerPage < n
    ensures r == 0 <==> n == 0
  {
    (n + JobsPerPage - 1) / JobsPerPage
  }

  /**
   * `s.slice((page - 1) * jobsPerPage, page * jobsPerPage)`: the items of
   * page `page`, at most ten, none past the last page.
   */
  function PageSlice<T>(s: seq<T>, page: int): (r: seq<T>)
    requires page >= 1
    ensures |r| <= JobsPerPage
    ensures (page - 1) * JobsPerPage <= |s| ==> r == s[(page - 1) * JobsPerPage..Min(page * JobsPerPage, |s|)]
    ensures page > PageCount(|s|) ==> r == []
  {
    JsSlice(s, (page - 1) * JobsPerPage, page * JobsPerPage)
  }

  /** Pages 1 to `k`, concatenated in order. */
  function PagesUpTo<T>(s: seq<T>, k: nat): seq<T> {
    if k == 0 then [] else PagesUpTo(s, k - 1) + PageSlice(s, k)
  }

  lemma {:induction false} PagesUpToIsPrefix<T>(s: seq<T>, k: nat)
    ensures PagesUpTo(s, k) == s[..Min(k * JobsPerPage, |s|)]
  {
    if k > 0 {
      PagesUpToIsPrefix(s, k - 1);
      var lo := Min((k - 1) * JobsPerPage, |s|);
      var hi := Min(k * JobsPerPage, |s|);
      assert s[..hi] == s[..lo] + s[lo..hi];
    }
  }

  /** Reading pages 1 to `ceil(n / 10)` in order gives back the whole list. */
  lemma PagesReassemble<T>(s: seq<T>)
    ensures PagesUpTo(s, PageCount(|s|)) == s
  {
    PagesUpToIsPrefix(s, PageCount(|s|));
  }

  // ---- The pagination footer ----------------------------------------------

  /** Previous is disabled exactly on the first page. */
  predicate PreviousDisabled(page: int) {
    page == 1
  }

  /** Next is disabled exactly on the last page; with no pages at all it stays enabled. */
  predicate NextDisabled(page: int, totalPages: int) {
    page == totalPages
  }

  /** With an empty table (no pages), Next is enabled on every page. */
  lemma EmptyTableNextEnabled(page: int)
    requires page >= 1
    ensures PageCount(0) == 0 && !NextDisabled(page, PageCount(0))
  {
  }

  // ---- The tech/other split -----------------------------------------------

  const TechCategories: seq<string> := [
    "IT", "SOFTWARE DEVELOPER", "AI & ML", "CLOUD COMPUTING", "DATA SCIENCE",
    "CYBER SECURITY", "DEVOPS", "MOBILE DEVELOPMENT", "DATABASE MANAGEMENT",
    "NETWORKING", "TECHNICAL SUPPORT", "BLOCKCHAIN", "GAME DEVELOPMENT", "IT SUPPORT"]

  /** `s.filter(keep)`. */
  function Filter(s: seq<Job>, keep: Job -> bool): (r: seq<Job>)
    ensures |r| <= |s|
    ensures forall x :: x in r <==> x in s && keep(x)
  {
    if s == [] then [] else (if keep(s[0]) then [s[0]] else []) + Filter(s[1..], keep)
  }

  /** Filtering distributes over concatenation, so a filtered list keeps the input order. */
  lemma {:induction false} FilterConcat(a: seq<Job>, b: seq<Job>, keep: Job -> bool)
    ensures Filter(a + b, keep) == Filter(a, keep) + Filter(b, keep)
  {
    if a != [] {
      FilterConcat(a[1..], b, keep);
      assert (a + b)[0] == a[0];
      assert (a + b)[1..] == a[1..] + b;
    } else {
      assert a + b == b;
    }
  }

  /** The "Other Jobs" test as written: the category itself, case-sensitively, is not a tech entry. */
  predicate IsOther(j: Job) {
    j.category !in TechCategories
  }

  /** The "Tech Industry Jobs" test: the upper-cased category is a tech entry. */
  predicate IsTech(j: Job) {
    Text.ToUpper(j.category) in TechCategories
  }

  /** `otherJobs`: the jobs that pass the as-written "Other Jobs" test, in list order. */
  function OtherJobs(jobs: seq<Job>): (r: seq<Job>)
    ensures |r| <= |jobs|
    ensures forall j :: j in r <==> j in jobs && j.category !in TechCategories
  {
    Filter(jobs, IsOther)
  }

  /** `techJobs`: the jobs whose upper-cased category is a tech entry, in list order. */
  function TechJobs(jobs: seq<Job>): (r: seq<Job>)
    ensures |r| <= |jobs|
    ensures forall j :: j in r <==> j in jobs && Text.ToUpper(j.category) in TechCategories
  {
    Filter(jobs, IsTech)
  }

  /** Every tech entry is already upper case. */
  lemma TechCategoriesUpperCase()
    ensures forall t :: t in TechCategories ==> Text.ToUpper(t) == t
  {
    EntriesUpperCase(0, 4);
    EntriesUpperCase(4, 8);
    EntriesUpperCase(8, 11);
    EntriesUpperCase(11, 14);
  }

  /** The tech entries from index `lo` up to `hi` (at most four) are their own upper-case forms. */
  lemma EntriesUpperCase(lo: nat, hi: nat)
    requires lo <= hi <= |TechCategories| && hi - lo <= 4
    ensures forall k :: lo <= k < hi ==> Text.ToUpper(TechCategories[k]) == TechCategories[k]
  {
    forall k | lo <= k < hi ensures Text.ToUpper(TechCategories[k]) == TechCategories[k] {
      Text.ToUpperFixedPoint(TechCategories[k]);
    }
  }

  /** Every job is listed in at least one of the two tables. */
  lemma EveryJobListed(jobs: seq<Job>)
    ensures forall j :: j in jobs ==> j in OtherJobs(jobs) || j in TechJobs(jobs)
  {
    TechCategoriesUpperCase();
  }

  /** A category spelled exactly as a tech entry goes to the tech table only. */
  lemma ExactTechCategoryOnlyTech(j: Job)
    requires j.category in TechCategories
    ensures IsTech(j) && !IsOther(j)
  {
    TechCategoriesUpperCase();
  }

  // ---- The 7-day "new" badge ------------------------------------------------

  const DayMs := 24 * 60 * 60 * 1000

  /** `isNew(createdAt)` at time `now`: posted strictly less than seven days ago (or in the future). */
  function IsNew(createdAt: int, now: int): (r: bool)
    ensures r <==> now - createdAt < 7 * DayMs
  {
    createdAt > now - 7 * DayMs
  }

  /** A newer posting of a "new" job is new too, and a job posted exactly seven days ago is not. */
  lemma IsNewMonotone(older: int, newer: int, now: int)
    requires older <= newer
    ensures IsNew(older, now) ==> IsNew(newer, now)
    ensures !IsNew(now - 7 * DayMs, now)
  {
  }

  // ---- The filter link ------------------------------------------------------

  /** The URL `handleFilterClick` navigates to, with `enc` standing for `encodeURIComponent`. */
  function FilterUrl(category: string, location: string, enc: string -> string): string {
    "/jobs?"
      + (if category != "" then "category=" + enc(category) else "")
      + (if location != "" then "location=" + enc(location) else "")
  }

  /** With both filters given, no separator is placed between the two parameters. */
  lemma FilterUrlNoSeparator(category: string, location: string, enc: string -> string)
    requires category != "" && location != ""
    ensures FilterUrl(category, location, enc) == "/jobs?category=" + enc(category) + "location=" + enc(location)
    ensures FilterUrl(category, "", enc) == "/jobs?category=" + enc(category)
    ensures FilterUrl("", location, enc) == "/jobs?location=" + enc(location)
  {
  }

  /** The tables of the page. */
  datatype Table = Latest | Other | Tech

  /** The page's state: the fetched list and one page counter per table. */
  class HomePage {
    var jobs: seq<Job>
    var currentPage: int
    var currentPageOtherJobs: int
    var currentPageTechJobs: int
    var navigation: Option<string>

    /** Page counters start at 1 and never drop below it. */
    ghost predicate Valid()
      reads this
    {
      currentPage >= 1 && currentPageOtherJobs >= 1 && currentPageTechJobs >= 1
    }

    constructor ()
      ensures Valid()
      ensures jobs == [] && navigation == None
      ensures currentPage == 1 && currentPageOtherJobs == 1 && currentPageTechJobs == 1
    {
      jobs := [];
      currentPage, currentPageOtherJobs, currentPageTechJobs := 1, 1, 1;
      navigation := None;
    }

    /** The list a table shows, before paging. */
    function TableJobs(t: Table): seq<Job>
      reads this
    {
      match t
      case Latest => jobs
      case Other => OtherJobs(jobs)
      case Tech => TechJobs(jobs)
    }

    function PageOf(t: Table): int
      reads this
    {
      match t
      case Latest => currentPage
      case Other => currentPageOtherJobs
      case Tech => currentPageTechJobs
    }

    /** `Math.ceil(list.length / jobsPerPage)` of the table's own list. */
    function TotalPages(t: Table): (r: nat)
      reads this
      ensures |TableJobs(t)| <= r * JobsPerPage
      ensures r > 0 ==> (r - 1) * JobsPerPage < |TableJobs(t)|
      ensures r == 0 <==> TableJobs(t) == []
    {
      PageCount(|TableJobs(t)|)
    }

    /** The rows a table renders: its current page. */
    function Rows(t: Table): (r: seq<Job>)
      reads this
      requires Valid()
      ensures |r| <= JobsPerPage
      ensures PageOf(t) > TotalPages(t) ==> r == []
    {
      PageSlice(TableJobs(t), PageOf(t))
    }

    /** The fetched payload, normalised and sorted newest first, replaces the list. */
    method Load(p: Payload)
      requires Valid()
      modifies this`jobs
      ensures Valid()
      ensures jobs == LoadedJobs(p)
    {
      var items := NormalizePayload(p);
      jobs := SortNewestFirst(items);
    }

    method SetPage(t: Table, page: int)
      requires Valid() && page >= 1
      modifies this`currentPage, this`currentPageOtherJobs, this`currentPageTechJobs
      ensures Valid()
      ensures PageOf(t) == page
      ensures forall u :: u != t ==> PageOf(u) == old(PageOf(u))
    {
      match t {
        case Latest => currentPage := page;
        case Other => currentPageOtherJobs := page;
        case Tech => currentPageTechJobs := page;
      }
    }

    /** A click on a table's Previous button: `onPageChange(currentPage - 1)` unless disabled. */
    method ClickPrevious(t: Table)
      requires Valid()
      modifies this`currentPage, this`currentPageOtherJobs, this`currentPageTechJobs
      ensures Valid()
      ensures PageOf(t) == if PreviousDisabled(old(PageOf(t))) then old(PageOf(t)) else old(PageOf(t)) - 1
      ensures forall u :: u != t ==> PageOf(u) == old(PageOf(u))
      ensures old(PageOf(t)) <= TotalPages(t) ==> PageOf(t) <= TotalPages(t)
    {
      var p := PageOf(t);
      if !PreviousDisabled(p) {
        SetPage(t, p - 1);
      }
    }

    /** A click on a table's Next button: `onPageChange(currentPage + 1)` unless disabled. */
    method ClickNext(t: Table)
      requires Valid()
      modifies this`currentPage, this`currentPageOtherJobs, this`currentPageTechJobs
      ensures Valid()
      ensures PageOf(t) == if NextDisabled(old(PageOf(t)), TotalPages(t)) then old(PageOf(t)) else old(PageOf(t)) + 1
      ensures forall u :: u != t ==> PageOf(u) == old(PageOf(u))
      ensures old(PageOf(t)) <= TotalPages(t) ==> PageOf(t) <= TotalPages(t)
    {
      var p := PageOf(t);
      if !NextDisabled(p, TotalPages(t)) {
        SetPage(t, p + 1);
      }
    }

    /** `handleFilterClick(category, location)`: builds the query step by step, then navigates. */
    method HandleFilterClick(category: string, location: string, enc: string -> string)
      modifies this`navigation
      ensures navigation == Some(FilterUrl(category, location, enc))
    {
      var query := "/jobs?";
      if category != "" {
        query := query + ("category=" + enc(category));
      }
      ghost var afterCategory := query;
      if location != "" {
        query := query + ("location=" + enc(location));
      }
      assert query == afterCategory + (if location != "" then "location=" + enc(location) else "");
      assert afterCategory == "/jobs?" + (if category != "" then "category=" + enc(category) else "");
      assert query == FilterUrl(category, location, enc);
      navigation := Some(query);
    }
  }

  // ---- Finding: the split is not a partition -------------------------------

  /**
   * A job whose category is a tech entry in mixed case, such as the form
   * option "DevOps", is listed in both tables.
   */
  lemma MixedCaseTechInBoth(j: Job)
    requires j.category == "DevOps"
    ensures IsOther(j) && IsTech(j)
  {
    var c := j.category;
    var u := Text.ToUpper(c);
    assert u == "DEVOPS" by {
      assert forall i :: 0 <= i < |c| ==> u[i] == Text.UpperChar(c[i]);
    }
    assert u == TechCategories[6];
    forall t | t in TechCategories ensures c != t {
      if |t| == |c| {
        assert t == TechCategories[6];
        assert c[1] != t[1];
      }
    }
  }

  /** The evidently intended "Other Jobs" test: upper-case the category as the tech test does. */
  predicate IsOtherCorrected(j: Job) {
    Text.ToUpper(j.category) !in TechCategories
  }

  function OtherJobsCorrected(jobs: seq<Job>): seq<Job> {
    Filter(jobs, IsOtherCorrected)
  }

  /** With the corrected test, the two tables partition the list: each job is in exactly one. */
  lemma {:induction false} CorrectedSplitPartitions(jobs: seq<Job>)
    ensures forall j :: j in jobs ==> (j in OtherJobsCorrected(jobs) <==> j !in TechJobs(jobs))
    ensures |OtherJobsCorrected(jobs)| + |TechJobs(jobs)| == |jobs|
  {
    if jobs != [] {
      CorrectedSplitPartitions(jobs[1..]);
    }
  }
}
