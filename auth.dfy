/**
 * The session store (context/AuthContext.js): one `user` field, filled by
 * the startup fetch, replaced by `login`, cleared by `logout` once the
 * backend has confirmed.
 */
module Auth {
  import opened Wrappers
  import Api

  /** A user record; `role` is "admin" for administrators. A missing phone is "". */
  datatype User = User(id: string, name: string, email: string, phone: string, role: string)

  const AdminRole := "admin"

  class Session {
    var user: Option<User>

    /** `useState(null)`: nobody is signed in until the startup fetch resolves. */
    constructor ()
      ensures user == None
    {
      user := None;
    }

    /** The startup fetch of the current user: its data on success, nobody on any failure. */
    method FetchUser(response: Result<User, Api.ClientError>)
      modifies this
      ensures user == (if response.Success? then Some(response.value) else None)
    {
      match response {
        case Success(u) => user := Some(u);
        case Failure(_) => user := None;
      }
    }

    /** `login(userData)`: the session user becomes exactly `u`. */
    method Login(u: User)
      modifies this
      ensures user == Some(u)
    {
      user := Some(u);
    }

    /**
     * `logout()`: the backend call comes first; the session is cleared only if
     * it resolves. If it fails, the returned promise rejects (with the
     * interceptor's value) and `user` keeps its old value.
     */
    method Logout(response: Result<(), Api.ClientError>) returns (rejected: Option<Api.ServerData>)
      modifies this
      ensures response.Success? ==> user == None && rejected == None
      ensures response.Failure? ==> user == old(user) && rejected == Some(Api.OnRejected(response.error))
    {
      var outcome := Api.Intercept(response);
      match outcome {
        case Success(_) =>
          user := None;
          rejected := None;
        case Failure(err) =>
          rejected := Some(err);
      }
    }
  }
}
