/** `User` of backend/models/user.py. */
module Users {
  import opened Wrappers

  datatype User = User(
    id: string,
    email: string,
    name: string,
    company: Option<string>,
    subscription: string,
    createdAt: string,
    isAdmin: bool)

  /** The plan every new account starts on. */
  const DefaultSubscription := "Starter"

  /**
   * `User.create(email, name, company)`; `company` is `None` when omitted.
   * The UUID and the timestamp are inputs.
   */
  function Create(email: string, name: string, company: Option<string>, id: string, createdAt: string)
    : (u: User)
    ensures u.email == email && u.name == name && u.company == company
    ensures u.subscription == "Starter" && !u.isAdmin
    ensures u.id == id && u.createdAt == createdAt
  {
    User(id, email, name, company, DefaultSubscription, createdAt, false)
  }
}
