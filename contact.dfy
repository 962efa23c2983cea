/**
 * The contact form (app/contact/page.js): per-field validation rules
 * (required fields, the e-mail pattern, a 20-character minimum for the
 * message) and the status transitions of one submission.
 */
module Contact {
  import opened Wrappers
  import Text
  import Api

  datatype ContactForm = ContactForm(name: string, email: string, subject: string, message: string)

  const EmptyForm := ContactForm("", "", "", "")
  const MessageMinLength := 20
  const NetworkFallback := "Network error. Please check your connection."

  // ---- The e-mail pattern /^[A-Z0-9._%+-]+@[A-Z0-9.-]+\.[A-Z]{2,}$/i --------

  /** `[A-Z]` under the `i` flag: an ASCII letter of either case. */
  predicate IsLetter(c: char) {
    'a' <= c <= 'z' || 'A' <= c <= 'Z'
  }

  /** `[A-Z0-9._%+-]`. */
  predicate IsLocalChar(c: char) {
    IsLetter(c) || Text.IsDigit(c) || c == '.' || c == '_' || c == '%' || c == '+' || c == '-'
  }

  /** `[A-Z0-9.-]`. */
  predicate IsDomainChar(c: char) {
    IsLetter(c) || Text.IsDigit(c) || c == '.' || c == '-'
  }

  /**
   * The pattern matches with `@` at index `at` and the final `\.` at index
   * `dot`: a non-empty local part, a non-empty domain, then two or more letters.
   */
  predicate MatchesAt(s: string, at: int, dot: int) {
    && 0 < at && at + 1 < dot && dot + 2 < |s|
    && s[at] == '@' && s[dot] == '.'
    && (forall i :: 0 <= i < at ==> IsLocalChar(s[i]))
    && (forall i :: at < i < dot ==> IsDomainChar(s[i]))
    && (forall i :: dot < i < |s| ==> IsLetter(s[i]))
  }

  /** The regular expression, read as "some way of splitting the string fits it". */
  ghost predicate MatchesEmailPattern(s: string) {
    exists at, dot :: MatchesAt(s, at, dot)
  }

  /** The first index of `c`, or -1: where the pattern's only `@` must sit. */
  function IndexOf(s: string, c: char): (r: int)
    ensures -1 <= r < |s|
    ensures r == -1 <==> c !in s
    ensures r >= 0 ==> s[r] == c && forall i :: 0 <= i < r ==> s[i] != c
  {
    if s == [] then -1
    else if s[0] == c then 0
    else var k := IndexOf(s[1..], c); if k == -1 then -1 else k + 1
  }

  /** The last index of `c`, or -1: where the pattern's final `.` must sit. */
  function LastIndexOf(s: string, c: char): (r: int)
    ensures -1 <= r < |s|
    ensures r == -1 <==> c !in s
    ensures r >= 0 ==> s[r] == c && forall i :: r < i < |s| ==> s[i] != c
  {
    if s == [] then -1
    else if s[|s| - 1] == c then |s| - 1
    else LastIndexOf(s[..|s| - 1], c)
  }

  /** A direct reading of the pattern: split at the only `@` and at the last `.`. */
  predicate IsValidEmail(s: string) {
    MatchesAt(s, IndexOf(s, '@'), LastIndexOf(s, '.'))
  }

  /** The direct reading accepts exactly the strings the regular expression matches. */
  lemma ValidEmailIffPattern(s: string)
    ensures IsValidEmail(s) <==> MatchesEmailPattern(s)
  {
    if MatchesEmailPattern(s) {
      var at, dot :| MatchesAt(s, at, dot);
      assert forall i :: 0 <= i < at ==> s[i] != '@' by {
        forall i | 0 <= i < at ensures s[i] != '@' {
          assert IsLocalChar(s[i]);
        }
      }
      assert IndexOf(s, '@') == at;
      assert forall i :: dot < i < |s| ==> s[i] != '.' by {
        forall i | dot < i < |s| ensures s[i] != '.' {
          assert IsLetter(s[i]);
        }
      }
      assert LastIndexOf(s, '.') == dot;
    }
  }

  // ---- The browser's own check of an `<input type="email">` ---------------------

  /** A character allowed before the `@` of a valid e-mail address (HTML Living Standard, section 4.10.5.1.5). */
  predicate IsHtmlLocalChar(c: char) {
    IsLetter(c) || Text.IsDigit(c) || c in ".!#$%&'*+/=?^_`{|}~-"
  }

  predicate IsAlphanumeric(c: char) {
    IsLetter(c) || Text.IsDigit(c)
  }

  /** One domain label: 1 to 63 letters, digits and hyphens, starting and ending with a letter or digit. */
  predicate IsDomainLabel(l: string) {
    && 1 <= |l| <= 63
    && IsAlphanumeric(l[0]) && IsAlphanumeric(l[|l| - 1])
    && forall i :: 0 <= i < |l| ==> IsAlphanumeric(l[i]) || l[i] == '-'
  }

  /** The domain is one or more labels separated by single dots. */
  predicate IsHtmlDomain(d: string)
    decreases |d|
  {
    var k := IndexOf(d, '.');
    if k == -1 then IsDomainLabel(d) else IsDomainLabel(d[..k]) && IsHtmlDomain(d[k + 1..])
  }

  /** A valid e-mail address in the HTML sense: a non-empty local part, `@`, and a domain of labels. */
  predicate IsHtmlEmail(s: string) {
    var at := IndexOf(s, '@');
    && at > 0
    && (forall i :: 0 <= i < at ==> IsHtmlLocalChar(s[i]))
    && IsHtmlDomain(s[at + 1..])
  }

  /** The browser lets the submit through: the e-mail input is empty or holds a valid address. */
  predicate BrowserAccepts(f: ContactForm) {
    f.email == "" || IsHtmlEmail(f.email)
  }

  /**
   * The page's pattern accepts an address whose domain starts with a dot,
   * which the browser refuses, so such a form is never submitted.
   */
  lemma PatternAcceptsEmptyLabel()
    ensures IsValidEmail("a@.b.cd") && !IsHtmlEmail("a@.b.cd")
  {
    var s := "a@.b.cd";
    assert MatchesAt(s, 1, 4);
    ValidEmailIffPattern(s);
    assert s[0] != '@' && s[1] == '@';
    assert IndexOf(s, '@') == 1;
    assert s[1 + 1..] == ".b.cd";
    assert IndexOf(".b.cd", '.') == 0;
  }

  // ---- Field rules, each reporting its first failing rule --------------------

  function NameError(v: string): (r: Option<string>)
    ensures r.None? <==> v != ""
    ensures r.Some? ==> r.value == "Name is required"
  {
    if v == "" then Some("Name is required") else None
  }

  function EmailError(v: string): (r: Option<string>)
    ensures r.None? <==> v != "" && MatchesAt(v, IndexOf(v, '@'), LastIndexOf(v, '.'))
    ensures v == "" ==> r == Some("Email is required")
    ensures v != "" && r.Some? ==> r == Some("Invalid email address")
  {
    if v == "" then Some("Email is required")
    else if !IsValidEmail(v) then Some("Invalid email address")
    else None
  }

  function SubjectError(v: string): (r: Option<string>)
    ensures r.None? <==> v != ""
    ensures r.Some? ==> r.value == "Subject is required"
  {
    if v == "" then Some("Subject is required") else None
  }

  function MessageError(v: string): (r: Option<string>)
    ensures r.None? <==> Text.Utf16Length(v) >= MessageMinLength
    ensures v == "" ==> r == Some("Message is required")
    ensures v != "" && r.Some? ==> r == Some("Message must be at least 20 characters")
  {
    if v == "" then Some("Message is required")
    else if Text.Utf16Length(v) < MessageMinLength then Some("Message must be at least 20 characters")
    else None
  }

  /**
   * The minimum is measured in UTF-16 code units: eighteen characters of the
   * Basic Multilingual Plane and one emoji are nineteen characters but pass
   * the 20-character rule.
   */
  lemma AstralCharCountsTwice(s: string, c: char)
    requires |s| == 18 && forall i :: 0 <= i < |s| ==> s[i] as int <= 0xFFFF
    requires c as int > 0xFFFF
    ensures |s + [c]| == 19 && MessageError(s + [c]).None?
  {
    Text.Utf16LengthAppend(s, c);
  }

  /** No field reports an error: the only case in which `onSubmit` runs. */
  predicate FormValid(f: ContactForm) {
    NameError(f.name).None? && EmailError(f.email).None? && SubjectError(f.subject).None?
      && MessageError(f.message).None?
  }

  /**
   * The form is accepted exactly when name and subject are non-empty, the
   * e-mail matches the pattern and the message has at least 20 characters.
   */
  lemma FormValidIff(f: ContactForm)
    ensures FormValid(f) <==>
      && f.name != "" && f.subject != ""
      && MatchesEmailPattern(f.email)
      && Text.Utf16Length(f.message) >= MessageMinLength
  {
    ValidEmailIffPattern(f.email);
    if MatchesEmailPattern(f.email) {
      var at, dot :| MatchesAt(f.email, at, dot);
      assert f.email != "";
    }
  }

  /** The banner under the form. */
  datatype SubmitStatus = SubmitStatus(success: bool, message: string)

  /** The body of the contact endpoint's reply. */
  datatype ContactReply = ContactReply(success: bool, message: string)

  datatype ContactField = Name | Email | Subject | Message

  class ContactPage {
    var form: ContactForm
    var isSubmitting: bool
    var submitStatus: SubmitStatus
    /** Every payload posted, in order. */
    var posts: seq<ContactForm>

    constructor ()
      ensures form == EmptyForm && !isSubmitting && submitStatus == SubmitStatus(false, "") && posts == []
    {
      form := EmptyForm;
      isSubmitting := false;
      submitStatus := SubmitStatus(false, "");
      posts := [];
    }

    /** Typing into one input. */
    method Input(field: ContactField, value: string)
      modifies this`form
      ensures form == match field
        case Name => old(form).(name := value)
        case Email => old(form).(email := value)
        case Subject => old(form).(subject := value)
        case Message => old(form).(message := value)
    {
      match field {
        case Name => form := form.(name := value);
        case Email => form := form.(email := value);
        case Subject => form := form.(subject := value);
        case Message => form := form.(message := value);
      }
    }

    /**
     * A submit: a form the browser refuses (an e-mail that is not a valid
     * address) or the field rules reject posts nothing and changes nothing
     * here; a valid one posts exactly its four fields once, and the status
     * ends as the reply or failure dictates, with `isSubmitting` false again.
     */
    method Submit(response: Result<ContactReply, Api.ClientError>)
      requires !isSubmitting
      modifies this`form, this`isSubmitting, this`submitStatus, this`posts
      ensures !isSubmitting
      ensures !(BrowserAccepts(old(form)) && FormValid(old(form))) ==>
        form == old(form) && submitStatus == old(submitStatus) && posts == old(posts)
      ensures BrowserAccepts(old(form)) && FormValid(old(form)) ==> posts == old(posts) + [old(form)]
      ensures BrowserAccepts(old(form)) && FormValid(old(form)) && response.Success? && response.value.success ==>
        submitStatus == SubmitStatus(true, response.value.message) && form == EmptyForm
      ensures BrowserAccepts(old(form)) && FormValid(old(form)) && response.Success? && !response.value.success ==>
        submitStatus == SubmitStatus(false, "") && form == old(form)
      ensures BrowserAccepts(old(form)) && FormValid(old(form)) && response.Failure? ==>
        && form == old(form)
        && submitStatus == SubmitStatus(false, Text.OrElse(ResponseMessage(response.error), NetworkFallback))
    {
      if !BrowserAccepts(form) || !FormValid(form) {
        return;
      }
      isSubmitting := true;
      submitStatus := SubmitStatus(false, "");
      posts := posts + [ContactForm(form.name, form.email, form.subject, form.message)];
      match response {
        case Success(reply) =>
          if reply.success {
            submitStatus := SubmitStatus(true, reply.message);
            form := EmptyForm;
          }
        case Failure(err) =>
          submitStatus := SubmitStatus(false, Text.OrElse(ResponseMessage(err), NetworkFallback));
      }
      isSubmitting := false;
    }
  }

  /** `error.response?.data?.message`. */
  function ResponseMessage(e: Api.ClientError): Option<string> {
    if e.response.Some? && e.response.value.data.Some? then e.response.value.data.value.message else None
  }
}
