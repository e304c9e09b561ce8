/** The in-memory user table of the backend and its registration endpoint.
    Password hashing belongs to the authentication module and is taken as a
    function parameter `hash`. */
module Users {
  import opened Results

  /** The `User` response model: a user without the password hash. */
  datatype User = User(username: string, email: Option<string>, fullName: Option<string>, disabled: Option<bool>)

  /** `UserInDB`: a user with its `hashed_password`. In the body of a
      registration request this field carries the plain password. */
  datatype UserInDB = UserInDB(username: string, email: Option<string>, fullName: Option<string>,
                               disabled: Option<bool>, hashedPassword: string)

  datatype HttpError = HttpError(status: int, detail: string)

  const AlreadyRegistered := HttpError(400, "Username already registered")

  /** `User(**record)`: the record without its password hash. */
  function Public(u: UserInDB): User
  {
    User(u.username, u.email, u.fullName, u.disabled)
  }

  /** Every entry is stored under its own username. */
  ghost predicate KeyedByUsername(db: map<string, UserInDB>)
  {
    forall k :: k in db ==> db[k].username == k
  }

  /** The table the server starts with: the one test user. */
  function Seed(hash: string -> string): (db: map<string, UserInDB>)
    ensures db.Keys == {"testuser"}
    ensures db["testuser"].hashedPassword == hash("testpassword")
    ensures KeyedByUsername(db)
  {
    map["testuser" := UserInDB("testuser", Some("test@example.com"), Some("Test User"), Some(false), hash("testpassword"))]
  }

  /** `register_user` on a value of the table: the response, and the table
      afterwards. A taken username is refused and leaves the table as it
      was; a new one adds exactly that key, with the hash of the supplied
      password and the other fields copied from the request. */
  function Register(db: map<string, UserInDB>, user: UserInDB, hash: string -> string): (r: (Result<User, HttpError>, map<string, UserInDB>))
    ensures user.username in db ==> r.0 == Err(AlreadyRegistered) && r.1 == db
    ensures user.username !in db ==>
      && r.1.Keys == db.Keys + {user.username}
      && r.1[user.username] == user.(hashedPassword := hash(user.hashedPassword))
      && (forall k :: k in db ==> r.1[k] == db[k])
      && r.0 == Ok(Public(r.1[user.username]))
    ensures KeyedByUsername(db) ==> KeyedByUsername(r.1)
  {
    var hashed := hash(user.hashedPassword);
    if user.username in db then (Err(AlreadyRegistered), db)
    else
      var stored := UserInDB(user.username, user.email, user.fullName, user.disabled, hashed);
      (Ok(Public(stored)), db[user.username := stored])
  }

  /** Once a username is registered, any later registration of it fails and
      changes nothing, whatever the other fields and the password are. */
  lemma SecondRegistrationFails(db: map<string, UserInDB>, first: UserInDB, second: UserInDB,
                                hash1: string -> string, hash2: string -> string)
    requires second.username == first.username
    ensures var after := Register(db, first, hash1).1;
      Register(after, second, hash2) == (Err(AlreadyRegistered), after)
  {
  }

  /** The seeded test user cannot be registered again. */
  lemma TestUserIsTaken(user: UserInDB, hash: string -> string, hash2: string -> string)
    requires user.username == "testuser"
    ensures Register(Seed(hash), user, hash2).0 == Err(AlreadyRegistered)
  {
  }

  /** The module-level `users_db` dictionary. */
  class UsersDb {
    var users: map<string, UserInDB>

    ghost predicate Valid()
      reads this
    {
      KeyedByUsername(users)
    }

    constructor (hash: string -> string)
      ensures Valid() && users == Seed(hash)
    {
      users := Seed(hash);
    }

    /** `register_user`: check the username, then insert the record in place. */
    method RegisterUser(user: UserInDB, hash: string -> string) returns (r: Result<User, HttpError>)
      requires Valid()
      modifies this
      ensures Valid()
      ensures (r, users) == Register(old(users), user, hash)
    {
      var hashed := hash(user.hashedPassword);
      if user.username in users {
        return Err(AlreadyRegistered);
      }
      users := users[user.username := UserInDB(user.username, user.email, user.fullName, user.disabled, hashed)];
      r := Ok(Public(users[user.username]));
    }
  }
}
