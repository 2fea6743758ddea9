/**
 * The User schema (models/User.js): required name, email and password, a unique
 * email, the role enum defaulting to "customer", and counters defaulting to 0.
 */
module UserModel {
  import opened Wrappers

  /** The string form of a user's `_id`, as carried in tokens and compared by the handlers. */
  type UserId = string

  datatype Role = Admin | Customer

  function RoleName(r: Role): string {
    match r
    case Admin => "admin"
    case Customer => "customer"
  }

  /** The role enum validator: only the two names are admitted. */
  function ParseRole(s: string): (r: Option<Role>)
    ensures r.Some? <==> s == "admin" || s == "customer"
    ensures r.Some? ==> RoleName(r.value) == s
  {
    if s == "admin" then Some(Admin) else if s == "customer" then Some(Customer) else None
  }

  datatype User = User(
    id: UserId,
    name: string,
    email: string,
    password: string,
    role: Role,
    orderCount: int,
    totalSpent: real,
    createdAt: nat)

  /** The fields a caller supplies when creating a user; absent ones take the schema defaults. */
  datatype UserDraft = UserDraft(
    name: Option<string>,
    email: Option<string>,
    password: Option<string>,
    role: Option<string>,
    orderCount: Option<int>,
    totalSpent: Option<real>)

  predicate Present(s: Option<string>) {
    s.Some? && s.value != ""
  }

  predicate UniqueEmails(users: seq<User>) {
    forall i, j :: 0 <= i < j < |users| ==> users[i].email != users[j].email
  }

  predicate EmailTaken(users: seq<User>, email: string) {
    exists i :: 0 <= i < |users| && users[i].email == email
  }

  datatype CreateOutcome = Created(users: seq<User>, user: User) | ValidationFailed | DuplicateKey

  /** `new User(draft).save()`: defaults applied, validators run, then the unique email index. */
  function CreateUser(users: seq<User>, id: UserId, d: UserDraft, now: nat): (r: CreateOutcome)
    ensures r.Created? <==>
      Present(d.name) && Present(d.email) && Present(d.password)
      && (d.role.None? || ParseRole(d.role.value).Some?)
      && !EmailTaken(users, d.email.value)
    ensures r.Created? ==> r.users == users + [r.user] && r.user.email == d.email.value
    ensures r.Created? ==> r.user.role == (if d.role.Some? then ParseRole(d.role.value).value else Customer)
    ensures r.Created? ==> r.user.orderCount == d.orderCount.GetOr(0) && r.user.totalSpent == d.totalSpent.GetOr(0.0)
    ensures r.Created? ==> r.user.createdAt == now
    ensures r.Created? ==> r.user.id == id && r.user.name == d.name.value && r.user.password == d.password.value
    ensures r.ValidationFailed? <==>
      !(Present(d.name) && Present(d.email) && Present(d.password)
        && (d.role.None? || ParseRole(d.role.value).Some?))
  {
    if !(Present(d.name) && Present(d.email) && Present(d.password)) then ValidationFailed
    else
      var role := if d.role.None? then Some(Customer) else ParseRole(d.role.value);
      if role.None? then ValidationFailed
      else if EmailTaken(users, d.email.value) then DuplicateKey
      else
        var u := User(id, d.name.value, d.email.value, d.password.value, role.value,
                      d.orderCount.GetOr(0), d.totalSpent.GetOr(0.0), now);
        Created(users + [u], u)
  }

  /** No sequence of user creations can give two users the same email. */
  lemma CreateKeepsEmailsUnique(users: seq<User>, id: UserId, d: UserDraft, now: nat)
    requires UniqueEmails(users)
    requires CreateUser(users, id, d, now).Created?
    ensures UniqueEmails(CreateUser(users, id, d, now).users)
  {
    var r := CreateUser(users, id, d, now);
    var s := r.users;
    forall i, j | 0 <= i < j < |s| ensures s[i].email != s[j].email {
      if j == |users| {
        assert s[j] == r.user;
        assert !(users[i].email == d.email.value);
      }
    }
  }
}
