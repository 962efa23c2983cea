/**
 * The job record the pages hold (transient copies of the backend's records),
 * the seven-field form draft shared by the dashboard and the job modal, and
 * the normalisation and newest-first ordering applied to a fetched payload.
 */
module Jobs {
  import opened Wrappers

  /** A job record. `createdAt` is a timestamp in milliseconds; a missing string field is "". */
  datatype Job = Job(
    id: string,
    title: string,
    company: string,
    location: string,
    salary: string,
    category: string,
    description: string,
    qualification: Option<string>,
    createdAt: int)

  /** The names of the inputs of a job form (`e.target.name`). */
  datatype Field = Title | Company | Location | Salary | Category | Description | Qualification

  /** The form draft: one string per field. */
  datatype JobDraft = JobDraft(
    title: string,
    company: string,
    location: string,
    salary: string,
    category: string,
    description: string,
    qualification: string)
  {
    function Get(f: Field): string {
      match f
      case Title => title
      case Company => company
      case Location => location
      case Salary => salary
      case Category => category
      case Description => description
      case Qualification => qualification
    }

    /** Every field is filled in: what a form whose inputs are all `required` lets through. */
    predicate Complete() {
      forall f :: Get(f) != ""
    }

    /** `{ ...draft, [f]: v }`: the named field takes the new value and no other field changes. */
    function With(f: Field, v: string): (d: JobDraft)
      ensures d.Get(f) == v
      ensures forall g :: g != f ==> d.Get(g) == Get(g)
    {
      match f
      case Title => this.(title := v)
      case Company => this.(company := v)
      case Location => this.(location := v)
      case Salary => this.(salary := v)
      case Category => this.(category := v)
      case Description => this.(description := v)
      case Qualification => this.(qualification := v)
    }
  }

  /** The draft with all seven fields empty. */
  const EmptyDraft := JobDraft("", "", "", "", "", "", "")

  /** A fetched body: a bare array of jobs, or an object whose `jobs` member may be absent. */
  datatype Payload = JobArray(items: seq<Job>) | JobObject(jobs: Option<seq<Job>>)

  /** `Array.isArray(data) ? data : data.jobs || []`. */
  function NormalizePayload(p: Payload): seq<Job> {
    match p
    case JobArray(items) => items
    case JobObject(jobs) => jobs.GetOr([])
  }

  /** Ordered by `createdAt`, newest first. */
  predicate NewestFirst(s: seq<Job>) {
    forall i, j :: 0 <= i < j < |s| ==> s[i].createdAt >= s[j].createdAt
  }

  /** Inserts `x` before the first element that is not newer than it. */
  function InsertByDate(x: Job, s: seq<Job>): (r: seq<Job>)
    requires NewestFirst(s)
    ensures NewestFirst(r)
    ensures multiset(r) == multiset(s) + multiset{x}
    ensures forall k :: 0 <= k < |r| ==> r[k] == x || r[k] in s
  {
    if s == [] || x.createdAt >= s[0].createdAt then
      [x] + s
    else
      var rest := InsertByDate(x, s[1..]);
      InsertBehindHead(x, s, rest);
      [s[0]] + rest
  }

  /** Putting the head of `s` back in front of `x` inserted into the tail keeps every promise of the insertion. */
  lemma InsertBehindHead(x: Job, s: seq<Job>, rest: seq<Job>)
    requires s != [] && NewestFirst(s) && x.createdAt < s[0].createdAt
    requires NewestFirst(rest) && multiset(rest) == multiset(s[1..]) + multiset{x}
    requires forall k :: 0 <= k < |rest| ==> rest[k] == x || rest[k] in s[1..]
    ensures NewestFirst([s[0]] + rest)
    ensures multiset([s[0]] + rest) == multiset(s) + multiset{x}
    ensures forall k :: 0 <= k < |rest| + 1 ==> ([s[0]] + rest)[k] == x || ([s[0]] + rest)[k] in s
  {
    assert s == [s[0]] + s[1..];
    forall k | 0 <= k < |rest| ensures rest[k].createdAt <= s[0].createdAt {
      if rest[k] != x {
        var m :| 0 <= m < |s[1..]| && s[1..][m] == rest[k];
        assert s[m + 1] == rest[k];
      }
    }
  }

  /**
   * The comparator sort `(a, b) => b.createdAt - a.createdAt` over integer
   * timestamps: a permutation of its input, newest first.
   */
  function SortNewestFirst(s: seq<Job>): (r: seq<Job>)
    ensures NewestFirst(r)
    ensures multiset(r) == multiset(s)
  {
    if s == [] then []
    else
      assert s == [s[0]] + s[1..];
      InsertByDate(s[0], SortNewestFirst(s[1..]))
  }

  /** The jobs a page shows after a fetch: the normalised payload, newest first. */
  function LoadedJobs(p: Payload): (r: seq<Job>)
    ensures NewestFirst(r)
    ensures multiset(r) == multiset(NormalizePayload(p))
    ensures p.JobObject? && p.jobs.None? ==> r == []
  {
    SortNewestFirst(NormalizePayload(p))
  }
}
