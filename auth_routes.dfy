/** backend/routes/auth.py: registration and login over the in-memory `users_db`. */
module AuthRoutes {
  import opened Wrappers
  import opened Http
  import opened Users
  import Text

  /** The token every response carries. */
  const MockToken := "mock-jwt-token"

  /** A response with the user's data and the token; only registration adds a message. */
  datatype AuthResponse = AuthResponse(user: User, token: string, message: Option<string>)

  /** The name an auto-registered account gets: the first `@`-separated piece of the email. */
  function NameFromEmail(email: string): (name: string)
    ensures |name| <= |email| && email[..|name|] == name && '@' !in name
    ensures |name| < |email| ==> email[|name|] == '@'
  {
    Text.FirstOfSplit(email, '@');
    Text.Split(email, '@')[0]
  }

  /** `users_db`, keyed by email. */
  class UsersDb {
    var users: map<string, User>

    /** Every account is stored under its own email, on the starter plan, without admin rights. */
    ghost predicate Valid()
      reads this
    {
      forall email :: email in users ==>
        users[email].email == email && users[email].subscription == "Starter" && !users[email].isAdmin
    }

    constructor ()
      ensures users == map[] && Valid()
    {
      users := map[];
    }

    /**
     * `POST /api/auth/register`. The password is not used. The account's
     * UUID and timestamp are inputs.
     */
    method RegisterUser(email: string, password: string, name: string, company: Option<string>,
                        userId: string, createdAt: string)
      returns (r: Result<AuthResponse, HttpError>)
      requires Valid()
      modifies this
      ensures Valid()
      ensures email in old(users) ==> r == Err(Raise(400, "User already exists")) && users == old(users)
      ensures email !in old(users) ==>
                && users == old(users)[email := Create(email, name, company, userId, createdAt)]
                && r == Ok(AuthResponse(users[email], MockToken, Some("Account created successfully")))
      ensures r.Ok? ==> users.Keys == old(users.Keys) + {email} && |users| == |old(users)| + 1
    {
      if email in users {
        r := Err(Raise(400, "User already exists"));
        return;
      }
      var newUser := Create(email, name, company, userId, createdAt);
      users := users[email := newUser];
      r := Ok(AuthResponse(newUser, MockToken, Some("Account created successfully")));
    }

    /**
     * `POST /api/auth/login`. A known email gets its account whatever the
     * password; an unknown one is registered on the spot with the name
     * before its `@` and an empty company.
     */
    method LoginUser(email: string, password: string, userId: string, createdAt: string)
      returns (r: AuthResponse)
      requires Valid()
      modifies this
      ensures Valid()
      ensures email in users && r.user == users[email] && r.token == "mock-jwt-token"
      ensures r.user.email == email && r.user.subscription == "Starter" && !r.user.isAdmin
      ensures email in old(users) ==> users == old(users) && r == AuthResponse(old(users)[email], MockToken, None)
      ensures email !in old(users) ==>
                && users == old(users)[email := Create(email, NameFromEmail(email), Some(""), userId, createdAt)]
                && r.message == Some("Account created successfully")
    {
      if email in users {
        r := AuthResponse(users[email], MockToken, None);
        return;
      }
      var registered := RegisterUser(email, password, NameFromEmail(email), Some(""), userId, createdAt);
      r := registered.value;
    }
  }
}
