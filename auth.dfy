/** The authentication routes (server/routes/auth.js) over the user collection: registration
    with its uniqueness check, login with its credential check, and the current-user view. The
    User schema, password hashing and token signing live outside these routes: the password
    check is a parameter of `Login`, and a token is modelled by the claims it carries. */
module Auth {
  import opened Common

  datatype User = User(
    username: string,
    email: string,
    password: string,
    firstName: string,
    lastName: string,
    role: Role,
    faculty: string,
    program: Option<string>,
    lastLogin: Option<Timestamp>)

  /** A registration request. */
  datatype Registration = Registration(
    username: string,
    email: string,
    password: string,
    firstName: string,
    lastName: string,
    role: Role,
    faculty: string,
    program: Option<string>)

  /** The user object every response carries: the account without its password or last login. */
  datatype UserView = UserView(
    id: Id,
    username: string,
    email: string,
    firstName: string,
    lastName: string,
    role: Role,
    faculty: string,
    program: Option<string>)

  /** A signed token's claims: the user's id and role, issued now (in seconds) for seven days. */
  datatype Claims = Claims(id: Id, role: Role, issuedAt: int, expiresAt: int)

  /** `expiresIn: '7d'`, in seconds. */
  const TokenLifetime: int := 7 * 24 * 60 * 60

  const Taken: string := "User with this email or username already exists"
  const InvalidCredentials: string := "Invalid credentials"

  function ViewOf(id: Id, u: User): (v: UserView)
    ensures v.id == id && v.username == u.username && v.email == u.email
    ensures v.firstName == u.firstName && v.lastName == u.lastName
    ensures v.role == u.role && v.faculty == u.faculty && v.program == u.program
  {
    UserView(id, u.username, u.email, u.firstName, u.lastName, u.role, u.faculty, u.program)
  }

  /** `jwt.sign({id, role}, secret, {expiresIn: '7d'})` at time `now` (milliseconds). */
  function Sign(id: Id, u: User, now: Timestamp): (c: Claims)
    ensures c.id == id && c.role == u.role
    ensures c.expiresAt - c.issuedAt == TokenLifetime == 604800
    ensures c.issuedAt * 1000 <= now < c.issuedAt * 1000 + 1000
  {
    Claims(id, u.role, now / 1000, now / 1000 + TokenLifetime)
  }

  /** The account a registration creates: `program` only for a student, no login yet. */
  function NewUser(b: Registration): (u: User)
    ensures u.program == (if b.role == Student then b.program else None)
    ensures u.lastLogin.None?
    ensures u.username == b.username && u.email == b.email && u.password == b.password
    ensures u.firstName == b.firstName && u.lastName == b.lastName
    ensures u.role == b.role && u.faculty == b.faculty
  {
    User(b.username, b.email, b.password, b.firstName, b.lastName, b.role, b.faculty,
         if b.role == Student then b.program else None, None)
  }

  /** `findOne({$or: [{email}, {username}]})` finds an account. */
  predicate Clashes(users: map<Id, User>, email: string, username: string) {
    exists id :: id in users && (users[id].email == email || users[id].username == username)
  }

  /** No two accounts share an email, and no two share a username. */
  predicate Accounts(users: map<Id, User>, nextId: Id) {
    && (forall id :: id in users ==> id < nextId)
    && (forall i, j :: i in users && j in users && i != j ==>
          users[i].email != users[j].email && users[i].username != users[j].username)
  }

  lemma AddKeepsAccounts(users: map<Id, User>, nextId: Id, u: User)
    requires Accounts(users, nextId) && !Clashes(users, u.email, u.username)
    ensures nextId !in users && Accounts(users[nextId := u], nextId + 1)
  {
    forall id | id in users ensures users[id].email != u.email && users[id].username != u.username {
    }
  }

  lemma LoginKeepsAccounts(users: map<Id, User>, nextId: Id, id: Id, now: Timestamp)
    requires Accounts(users, nextId) && id in users
    ensures Accounts(users[id := users[id].(lastLogin := Some(now))], nextId)
  {
  }

  /** With unique emails, an email names at most one account. */
  lemma EmailNamesOne(users: map<Id, User>, nextId: Id, i: Id, j: Id)
    requires Accounts(users, nextId) && i in users && j in users && users[i].email == users[j].email
    ensures i == j
  {
  }

  class UserStore {
    var users: map<Id, User>
    var nextId: Id

    ghost predicate Valid()
      reads this
    {
      Accounts(users, nextId)
    }

    constructor ()
      ensures Valid() && users == map[]
    {
      users := map[];
      nextId := 0;
    }

    /** `POST /auth/register`: an email or username already in use is a 400 and changes nothing;
        otherwise exactly one account is added and the response carries its token and view. */
    method Register(b: Registration, now: Timestamp) returns (res: Result<(Claims, UserView)>)
      requires Valid()
      modifies this
      ensures Valid()
      ensures res.Err? <==> Clashes(old(users), b.email, b.username)
      ensures res.Err? ==> res.error == BadRequest(Taken) && users == old(users) && nextId == old(nextId)
      ensures res.Ok? ==>
                var id := res.value.1.id;
                && id !in old(users)
                && users == old(users)[id := NewUser(b)]
                && res.value == (Sign(id, NewUser(b), now), ViewOf(id, NewUser(b)))
    {
      if exists id :: id in users && (users[id].email == b.email || users[id].username == b.username) {
        return Err(BadRequest(Taken));
      }
      var user := NewUser(b);
      AddKeepsAccounts(users, nextId, user);
      var id := nextId;
      users := users[id := user];
      nextId := nextId + 1;
      res := Ok((Sign(id, user, now), ViewOf(id, user)));
    }

    /** `POST /auth/login`: an unknown email and a wrong password give the same 400 and change
        nothing; otherwise only that account's `lastLogin` changes, to now. */
    method Login(email: string, password: string, comparePassword: (User, string) -> bool, now: Timestamp)
      returns (res: Result<(Claims, UserView)>)
      requires Valid()
      modifies this
      ensures Valid() && nextId == old(nextId)
      ensures res.Err? <==> !exists id :: id in old(users) && old(users)[id].email == email &&
                                          comparePassword(old(users)[id], password)
      ensures res.Err? ==> res.error == BadRequest(InvalidCredentials) && users == old(users)
      ensures res.Ok? ==>
                var id := res.value.1.id;
                && id in old(users) && old(users)[id].email == email
                && comparePassword(old(users)[id], password)
                && users == old(users)[id := old(users)[id].(lastLogin := Some(now))]
                && res.value == (Sign(id, old(users)[id], now), ViewOf(id, old(users)[id]))
    {
      if !exists id :: id in users && users[id].email == email {
        return Err(BadRequest(InvalidCredentials));
      }
      var id :| id in users && users[id].email == email;
      var user := users[id];
      if !comparePassword(user, password) {
        forall other | other in users && users[other].email == email ensures other == id {
          EmailNamesOne(users, nextId, id, other);
        }
        return Err(BadRequest(InvalidCredentials));
      }
      LoginKeepsAccounts(users, nextId, id, now);
      user := user.(lastLogin := Some(now));
      users := users[id := user];
      res := Ok((Sign(id, user, now), ViewOf(id, user)));
    }

    /** `GET /auth/me`: the view of the authenticated account. */
    function Me(id: Id): (v: UserView)
      reads this
      requires id in users
      ensures v.id == id && v.email == users[id].email && v.username == users[id].username
      ensures v.firstName == users[id].firstName && v.lastName == users[id].lastName
      ensures v.role == users[id].role && v.faculty == users[id].faculty && v.program == users[id].program
    {
      ViewOf(id, users[id])
    }
  }

  /** The responses never depend on the password: two accounts that differ only in their password
      (or last login) are shown identically. */
  lemma ViewHidesPassword(id: Id, u: User, password: string, at: Option<Timestamp>)
    ensures ViewOf(id, u.(password := password, lastLogin := at)) == ViewOf(id, u)
  {
  }

  /** Only a student keeps a programme: whatever a lecturer or leader sends, it is dropped. */
  lemma ProgramOnlyForStudents(b: Registration)
    ensures NewUser(b).program.Some? ==> b.role == Student && NewUser(b).program == b.program
  {
  }
}
