/**
 * The admin dashboard (app/dashboard/page.js): a role guard, an in-memory
 * job list fetched once and then reconciled after each confirmed create,
 * update or delete, and the seven-field form draft.
 */
module Dashboard {
  import opened Wrappers
  import opened Jobs
  import Api
  import Auth

  /** The dashboard's own location choices (fewer than the job modal offers). */
  const Locations: seq<string> := [
    "Pune", "Mumbai", "Bangalore", "Delhi",
    "Haryana", "Chennai", "Hyderabad", "Kolkata",
    "Ahmedabad", "Jaipur", "Remote"]

  const Categories: seq<string> := [
    "IT", "Teacher", "MBA", "Consulting", "Software Developer",
    "Finance", "Healthcare", "Education", "Marketing", "Engineering",
    "AI & ML", "Cloud Computing", "Data Science", "Product Management",
    "Sales & Marketing", "Finance & Administration", "Customer Service",
    "Cyber Security", "DevOps", "Design", "Management", "Quality Assurance",
    "Mobile Development", "Database Management", "Networking", "Technical Support",
    "Blockchain", "Game Development", "IT Support"]

  /**
   * What the browser lets through the form: every input is `required`, and
   * each select is controlled by the draft and starts with an empty
   * placeholder, so a location or category that is not one of its options
   * shows the placeholder and blocks the submit.
   */
  predicate Submittable(d: JobDraft) {
    d.Complete() && d.location in Locations && d.category in Categories
  }

  /**
   * A job whose location is one only the job modal offers ("NCR") loads into
   * a draft that the dashboard form will not submit.
   */
  lemma ModalOnlyLocationBlocksEdit(job: Job)
    requires job.location == "NCR"
    ensures !Submittable(DraftOf(job))
  {
    assert forall k :: 0 <= k < |Locations| ==> Locations[k] != "NCR";
  }

  /** `prev.map(job => job._id === id ? record : job)`. */
  function ReplaceById(jobs: seq<Job>, id: string, record: Job): (r: seq<Job>)
    ensures |r| == |jobs|
    ensures forall i :: 0 <= i < |jobs| && jobs[i].id == id ==> r[i] == record
    ensures forall i :: 0 <= i < |jobs| && jobs[i].id != id ==> r[i] == jobs[i]
  {
    if jobs == [] then []
    else [if jobs[0].id == id then record else jobs[0]] + ReplaceById(jobs[1..], id, record)
  }

  /**
   * When the server's record keeps the id it was stored under, every entry
   * keeps its id and a second identical update changes nothing.
   */
  lemma ReplaceByIdKeepsIds(jobs: seq<Job>, id: string, record: Job)
    requires record.id == id
    ensures forall i :: 0 <= i < |jobs| ==> ReplaceById(jobs, id, record)[i].id == jobs[i].id
    ensures ReplaceById(ReplaceById(jobs, id, record), id, record) == ReplaceById(jobs, id, record)
  {
    var once := ReplaceById(jobs, id, record);
    var twice := ReplaceById(once, id, record);
    assert forall i :: 0 <= i < |jobs| ==> twice[i] == once[i];
  }

  /** `prev.filter(job => job._id !== id)`. */
  function RemoveById(jobs: seq<Job>, id: string): (r: seq<Job>)
    ensures |r| <= |jobs|
    ensures forall j :: j in r <==> j in jobs && j.id != id
  {
    if jobs == [] then []
    else (if jobs[0].id != id then [jobs[0]] else []) + RemoveById(jobs[1..], id)
  }

  /** Removal distributes over concatenation: the jobs that stay keep their relative order. */
  lemma {:induction false} RemoveByIdConcat(a: seq<Job>, b: seq<Job>, id: string)
    ensures RemoveById(a + b, id) == RemoveById(a, id) + RemoveById(b, id)
  {
    if a == [] {
      assert a + b == b;
    } else {
      var head := if a[0].id != id then [a[0]] else [];
      calc {
        RemoveById(a + b, id);
        { assert (a + b)[0] == a[0] && (a + b)[1..] == a[1..] + b; }
        head + RemoveById(a[1..] + b, id);
        { RemoveByIdConcat(a[1..], b, id); }
        head + (RemoveById(a[1..], id) + RemoveById(b, id));
        (head + RemoveById(a[1..], id)) + RemoveById(b, id);
        RemoveById(a, id) + RemoveById(b, id);
      }
    }
  }

  /** Deleting an id no job carries leaves the list as it was. */
  lemma {:induction false} RemoveAbsentId(jobs: seq<Job>, id: string)
    requires forall j :: j in jobs ==> j.id != id
    ensures RemoveById(jobs, id) == jobs
  {
    if jobs != [] {
      assert jobs[0] in jobs;
      assert forall j :: j in jobs[1..] ==> j in jobs;
      RemoveAbsentId(jobs[1..], id);
    }
  }

  /** `handleEdit`'s copy of a job into the draft; a missing qualification becomes "". */
  function DraftOf(job: Job): (d: JobDraft)
    ensures d.title == job.title && d.company == job.company && d.location == job.location
    ensures d.salary == job.salary && d.category == job.category && d.description == job.description
    ensures d.qualification == job.qualification.GetOr("")
  {
    JobDraft(job.title, job.company, job.location, job.salary, job.category, job.description,
             job.qualification.GetOr(""))
  }

  /** The requests the dashboard sends. */
  datatype Request = ListJobs | CreateJob(draft: JobDraft) | UpdateJob(id: string, draft: JobDraft) | DeleteJob(id: string)

  class DashboardPage {
    var jobs: seq<Job>
    var isLoading: bool
    var error: Option<string>
    var editingJob: Option<Job>
    var formData: JobDraft
    /** The last `router.push` target. */
    var navigation: Option<string>
    /** The last `alert` text. */
    var alert: Option<string>
    /** Every request sent, in order. */
    var requests: seq<Request>

    constructor ()
      ensures jobs == [] && isLoading && error == None && editingJob == None
      ensures formData == EmptyDraft && navigation == None && alert == None && requests == []
    {
      jobs := [];
      isLoading := true;
      error := None;
      editingJob := None;
      formData := EmptyDraft;
      navigation := None;
      alert := None;
      requests := [];
    }

    /**
     * The mount effect: without a user go to /login, with a non-admin go to
     * /profile, and in both cases send nothing. An admin's list request
     * fills `jobs` (normalised) on success; a failure that was not an abort
     * empties it and records the rejection's message; loading ends.
     */
    method Mount(user: Option<Auth.User>, response: Result<Payload, Api.ClientError>, aborted: bool)
      modifies this`jobs, this`isLoading, this`error, this`navigation, this`requests
      ensures user.None? ==> navigation == Some("/login")
      ensures user.Some? && user.value.role != Auth.AdminRole ==> navigation == Some("/profile")
      ensures user.None? || user.value.role != Auth.AdminRole ==>
        requests == old(requests) && jobs == old(jobs) && isLoading == old(isLoading) && error == old(error)
      ensures user.Some? && user.value.role == Auth.AdminRole ==>
        && navigation == old(navigation)
        && requests == old(requests) + [ListJobs]
        && !isLoading
        && (response.Success? ==> jobs == NormalizePayload(response.value) && error == None)
        && (response.Failure? && !aborted ==> jobs == [] && error == Api.OnRejected(response.error).message)
        && (response.Failure? && aborted ==> jobs == old(jobs) && error == None)
    {
      if user.None? {
        navigation := Some("/login");
        return;
      }
      if user.value.role != Auth.AdminRole {
        navigation := Some("/profile");
        return;
      }
      isLoading := true;
      error := None;
      requests := requests + [ListJobs];
      match Api.Intercept(response) {
        case Success(payload) =>
          jobs := NormalizePayload(payload);
        case Failure(err) =>
          if !aborted {
            error := err.message;
            jobs := [];
          }
      }
      isLoading := false;
    }

    /** `handleInputChange`: only the named field of the draft changes. */
    method HandleInputChange(name: Field, value: string)
      modifies this`formData
      ensures formData.Get(name) == value
      ensures forall f :: f != name ==> formData.Get(f) == old(formData).Get(f)
    {
      formData := formData.With(name, value);
    }

    /** `handleEdit(job)`: the job becomes the edit target and its fields fill the draft. */
    method HandleEdit(job: Job)
      modifies this`editingJob, this`formData
      ensures editingJob == Some(job)
      ensures formData == DraftOf(job)
    {
      editingJob := Some(job);
      formData := DraftOf(job);
    }

    /**
     * `handleAddOrUpdateJob`: PUT the draft for the job being edited, or
     * POST it. `response` is the server's record (`res.data` for an update,
     * `res.data.job` for a create). On success the list is reconciled and
     * the draft cleared; on failure only an alert is shown. The browser
     * submits only a `Submittable` draft.
     */
    method HandleAddOrUpdateJob(response: Result<Job, Api.ClientError>)
      requires Submittable(formData)
      modifies this`jobs, this`editingJob, this`formData, this`alert, this`requests
      ensures requests == old(requests) + [if old(editingJob).Some?
                                           then UpdateJob(old(editingJob).value.id, old(formData))
                                           else CreateJob(old(formData))]
      ensures response.Success? && old(editingJob).Some? ==>
        && jobs == ReplaceById(old(jobs), old(editingJob).value.id, response.value)
        && editingJob == None && formData == EmptyDraft && alert == old(alert)
      ensures response.Success? && old(editingJob).None? ==>
        && jobs == [response.value] + old(jobs)
        && editingJob == None && formData == EmptyDraft && alert == old(alert)
      ensures response.Failure? ==>
        && jobs == old(jobs) && editingJob == old(editingJob) && formData == old(formData)
        && alert == Some("Error: " + Api.Show(Api.OnRejected(response.error).message))
    {
      var outcome := Api.Intercept(response);
      if editingJob.Some? {
        var id := editingJob.value.id;
        requests := requests + [UpdateJob(id, formData)];
        match outcome {
          case Failure(err) =>
            alert := Some("Error: " + Api.Show(err.message));
            return;
          case Success(record) =>
            jobs := ReplaceById(jobs, id, record);
            editingJob := None;
        }
      } else {
        requests := requests + [CreateJob(formData)];
        match outcome {
          case Failure(err) =>
            alert := Some("Error: " + Api.Show(err.message));
            return;
          case Success(record) =>
            jobs := [record] + jobs;
        }
      }
      formData := EmptyDraft;
    }

    /** `handleDelete(id)`: after the server confirms, no job with that id remains. */
    method HandleDelete(id: string, response: Result<(), Api.ClientError>)
      modifies this`jobs, this`alert, this`requests
      ensures requests == old(requests) + [DeleteJob(id)]
      ensures response.Success? ==> jobs == RemoveById(old(jobs), id) && alert == old(alert)
      ensures response.Success? ==> forall j :: j in jobs ==> j.id != id
      ensures response.Failure? ==>
        jobs == old(jobs) && alert == Some("Failed to delete job: " + Api.Show(Api.OnRejected(response.error).message))
    {
      requests := requests + [DeleteJob(id)];
      match Api.Intercept(response) {
        case Success(_) =>
          jobs := RemoveById(jobs, id);
        case Failure(err) =>
          alert := Some("Failed to delete job: " + Api.Show(err.message));
      }
    }
  }
}
