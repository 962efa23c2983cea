/**
 * The profile page (app/profile/page.js): the redirect without a user and
 * the labels derived from the user record.
 */
module Profile {
  import opened Wrappers
  import Text
  import Auth

  /** `role.charAt(0).toUpperCase() + role.slice(1)`. */
  function RoleLabel(role: string): (r: string)
    ensures |r| == |role|
    ensures role != "" ==> r[0] == Text.UpperChar(role[0]) && r[1..] == role[1..]
  {
    if role == "" then "" else [Text.UpperChar(role[0])] + role[1..]
  }

  /** Capitalising an already capitalised label changes nothing. */
  lemma RoleLabelIdempotent(role: string)
    ensures RoleLabel(RoleLabel(role)) == RoleLabel(role)
  {
    if role != "" {
      var c := role[0];
      assert Text.UpperChar(Text.UpperChar(c)) == Text.UpperChar(c);
    }
  }

  /** The admin role is shown as "Admin"; a role label never changes the rest of the role. */
  lemma AdminRoleLabel()
    ensures RoleLabel(Auth.AdminRole) == "Admin"
    ensures RoleLabel("") == ""
  {
    assert Text.UpperChar('a') == 'A';
  }

  /** "Administrator" exactly for the admin role. */
  function AccountType(role: string): (r: string)
    ensures r == "Administrator" <==> role == Auth.AdminRole
    ensures r == "Standard User" <==> role != Auth.AdminRole
  {
    if role == Auth.AdminRole then "Administrator" else "Standard User"
  }

  /** `user.phone ? user.phone : "Not provided"`. */
  function PhoneDisplay(phone: string): (r: string)
    ensures r != ""
    ensures phone != "" ==> r == phone
    ensures phone == "" ==> r == "Not provided"
  {
    if phone != "" then phone else "Not provided"
  }

  /** The two buttons at the foot of the page. */
  datatype Action = EditProfile | UpdatePassword

  /** Where each button navigates; the two targets differ. */
  function ActionTarget(a: Action): (r: string)
    ensures r == "/profile/edit" <==> a == EditProfile
    ensures r == "/profile/update-password" <==> a == UpdatePassword
  {
    match a
    case EditProfile => "/profile/edit"
    case UpdatePassword => "/profile/update-password"
  }

  /** What the page shows. */
  datatype View =
    | Spinner
    | Details(roleLabel: string, accountType: string, phone: string)

  /** What the page does for the session user: the redirect target (if any) and the view. */
  function Render(user: Option<Auth.User>): (r: (Option<string>, View))
    ensures user.None? <==> r.0 == Some("/login")
    ensures user.Some? ==> r.0 == None
    ensures user.None? <==> r.1 == Spinner
    ensures user.Some? ==> r.1 == Details(RoleLabel(user.value.role), AccountType(user.value.role), PhoneDisplay(user.value.phone))
  {
    match user
    case None => (Some("/login"), Spinner)
    case Some(u) => (None, Details(RoleLabel(u.role), AccountType(u.role), PhoneDisplay(u.phone)))
  }
}
