/**
 * The job form modal (components/JobModal.js): a default draft, reset or
 * loaded from `initialData`, single-field edits, and a required-field guard
 * in front of the `onSubmit` callback.
 */
module JobModal {
  import opened Wrappers
  import opened Jobs
  import Text

  /** The modal's starting draft: location "Pune", category "IT", every other field empty. */
  const DefaultDraft := JobDraft("", "", "Pune", "", "IT", "", "")

  const LocationOptions: seq<string> := [
    "Pune", "Mumbai", "Bangalore", "Delhi", "Haryana",
    "Chennai", "NCR", "Hyderabad", "Kolkata", "Ahmedabad",
    "Gujarat", "Jaipur", "Other", "International", "Remote"]

  const CategoryOptions: seq<string> := [
    "IT", "Teacher", "MBA", "Consulting", "Software Developer",
    "Finance", "Healthcare", "Education", "Marketing", "Engineering",
    "AI & ML", "Cloud Computing", "Data Science", "Product Management",
    "Sales & Marketing", "Finance & Administration", "Customer Service",
    "Cyber Security", "DevOps", "Design", "Management", "Quality Assurance",
    "Mobile Development", "Database Management", "Networking", "Technical Support",
    "Blockchain", "Game Development", "IT Support"]

  const RequiredFieldsText := "Please fill all required fields"
  const OperationFailedText := "Operation failed"

  /** The default location and category are choices the selects offer. */
  lemma DefaultDraftUsesOptions()
    ensures DefaultDraft.location == LocationOptions[0] && DefaultDraft.category == CategoryOptions[0]
    ensures DefaultDraft.Get(Title) == "" && DefaultDraft.Get(Company) == "" && DefaultDraft.Get(Salary) == ""
    ensures DefaultDraft.Get(Description) == "" && DefaultDraft.Get(Qualification) == ""
  {
  }

  /** The guard of `handleSubmit`: title, company or location is empty. */
  predicate MissingRequired(d: JobDraft) {
    d.title == "" || d.company == "" || d.location == ""
  }

  /** Title, company, salary, qualification and description are all non-empty. */
  predicate TextFieldsFilled(d: JobDraft) {
    d.title != "" && d.company != "" && d.salary != "" && d.qualification != "" && d.description != ""
  }

  /** How the parent's `onSubmit` promise settles. */
  datatype SubmitOutcome = Resolved | Rejected(message: Option<string>)

  class JobModalState {
    var formData: JobDraft
    /** The last `toast.error` text. */
    var toast: Option<string>
    /** Every draft handed to `onSubmit`, in order. */
    var submitted: seq<JobDraft>

    constructor ()
      ensures formData == DefaultDraft && toast == None && submitted == []
    {
      formData := DefaultDraft;
      toast := None;
      submitted := [];
    }

    /** The `initialData` effect: load the given record, or reset to the default draft. */
    method SyncInitialData(initialData: Option<JobDraft>)
      modifies this`formData
      ensures formData == initialData.GetOr(DefaultDraft)
    {
      if initialData.Some? {
        formData := initialData.value;
      } else {
        formData := DefaultDraft;
      }
    }

    /** `handleChange`: only the named field changes. */
    method HandleChange(name: Field, value: string)
      modifies this`formData
      ensures formData.Get(name) == value
      ensures forall f :: f != name ==> formData.Get(f) == old(formData).Get(f)
    {
      formData := formData.With(name, value);
    }

    /**
     * `handleSubmit`: a draft missing a required field is reported and never
     * reaches `onSubmit`; otherwise `onSubmit` is called once with the
     * draft, and its failure is reported with its message or a fallback.
     * The five text inputs are `required`, so the browser submits only when
     * they are filled in. The two selects always show an option, so an empty
     * location loaded from `initialData` still reaches the handler's own check.
     */
    method HandleSubmit(onSubmit: SubmitOutcome)
      requires TextFieldsFilled(formData)
      modifies this`toast, this`submitted
      ensures MissingRequired(formData) ==> submitted == old(submitted) && toast == Some(RequiredFieldsText)
      ensures !MissingRequired(formData) ==> submitted == old(submitted) + [formData]
      ensures !MissingRequired(formData) && onSubmit.Resolved? ==> toast == old(toast)
      ensures !MissingRequired(formData) && onSubmit.Rejected? ==>
        toast == Some(Text.OrElse(onSubmit.message, OperationFailedText))
    {
      if MissingRequired(formData) {
        toast := Some(Text.OrElse(Some(RequiredFieldsText), OperationFailedText));
        return;
      }
      submitted := submitted + [formData];
      if onSubmit.Rejected? {
        toast := Some(Text.OrElse(onSubmit.message, OperationFailedText));
      }
    }
  }
}
