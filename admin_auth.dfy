/** `verify_admin` of backend/utils/auth.py (HTTP Basic credentials). */
module AdminAuth {
  import opened Wrappers
  import opened Http

  const AdminUsername := "admin"
  const AdminPassword := "forge2024"

  datatype Credentials = Credentials(username: string, password: string)

  /** The error raised for wrong credentials. */
  const Unauthorized := HttpError(401, "Incorrect admin credentials", [("WWW-Authenticate", "Basic")])

  /**
   * Both comparisons are made (`secrets.compare_digest`, modelled as
   * equality) before either decides; the username is returned on success.
   */
  function VerifyAdmin(credentials: Credentials): (r: Result<string, HttpError>)
    ensures r.Ok? <==> credentials.username == "admin" && credentials.password == "forge2024"
    ensures r.Ok? ==> r.value == credentials.username
    ensures r.Err? ==> r.error.status == 401 && r.error.detail == "Incorrect admin credentials"
                       && r.error.headers == [("WWW-Authenticate", "Basic")]
  {
    var correctUsername := credentials.username == AdminUsername;
    var correctPassword := credentials.password == AdminPassword;
    if !(correctUsername && correctPassword) then Err(Unauthorized)
    else Ok(credentials.username)
  }
}
