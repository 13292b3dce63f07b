/**
 * Sign-up and log-in (backend/internal/service/auth_service.go) over the user table
 * (backend/internal/repository/user_repository.go). Password hashing, the password
 * check and token signing are parameters: the model fixes what is done with their
 * results, not how they are computed.
 */
module AuthService {
  import opened Wrappers
  import opened Text
  import opened Domain

  datatype Credentials = Credentials(username: string, password: string)

  datatype AuthResponse = AuthResponse(token: string, user: User)

  /** No user in `rows` has this name. */
  ghost predicate Unknown(rows: map<int, User>, name: string) {
    forall id :: id in rows ==> rows[id].username != name
  }

  /** No two users share a name: what refusing a taken name at sign-up keeps true. */
  ghost predicate UniqueNames(rows: map<int, User>) {
    forall a, b :: a in rows && b in rows && rows[a].username == rows[b].username ==> a == b
  }

  /** The user table: rows by id, and the next serial id. */
  class UserStore {
    var rows: map<int, User>
    var nextId: int

    ghost predicate Valid()
      reads this
    {
      && nextId >= 1
      && forall id :: id in rows ==> rows[id].id == id && 1 <= id < nextId
    }

    constructor ()
      ensures Valid() && rows == map[] && nextId == 1
    {
      rows := map[];
      nextId := 1;
    }

    /** `Create`: a fresh id and `created_at == updated_at == now`. A failed insert changes nothing. */
    method Create(u: User, now: int, fail: bool) returns (r: Result<User>)
      requires Valid()
      modifies this
      ensures Valid()
      ensures fail ==> r.Err? && unchanged(this)
      ensures !fail ==> && r == Ok(u.(id := old(nextId), createdAt := now, updatedAt := now))
                        && old(nextId) !in old(rows)
                        && rows == old(rows)[old(nextId) := r.value]
                        && nextId == old(nextId) + 1
    {
      if fail {
        return Err("failed to create user");
      }
      var row := u.(id := nextId, createdAt := now, updatedAt := now);
      rows := rows[nextId := row];
      nextId := nextId + 1;
      r := Ok(row);
    }

    /** `FindByUsername`: a user with that name (the one with the lowest id), or none. */
    method FindByUsername(name: string) returns (r: Option<User>)
      requires Valid()
      ensures r.Some? ==> r.value.id in rows && rows[r.value.id] == r.value && r.value.username == name
      ensures r.None? <==> Unknown(rows, name)
    {
      var id := 1;
      while id < nextId
        invariant 1 <= id <= nextId
        invariant forall k :: k in rows && k < id ==> rows[k].username != name
      {
        if id in rows && rows[id].username == name {
          return Some(rows[id]);
        }
        id := id + 1;
      }
      return None;
    }

    /** `FindByID`: the user with that id, or an error when there is none. */
    method FindByID(id: int) returns (r: Result<User>)
      ensures r.Ok? <==> id in rows
      ensures r.Ok? ==> r.value == rows[id]
      ensures r.Err? ==> r == Err("user not found")
    {
      if id in rows {
        r := Ok(rows[id]);
      } else {
        r := Err("user not found");
      }
    }
  }

  class Auth {
    const users: UserStore

    constructor (users: UserStore)
      ensures this.users == users
    {
      this.users := users;
    }

    /**
     * `Login`: both fields are required; an unknown name and a wrong password give the
     * same error; otherwise the response carries the stored user and a token signed for
     * its id and name.
     */
    method Login(req: Credentials, check: (string, string) -> bool, sign: (int, string) -> Option<string>)
      returns (r: Result<AuthResponse>)
      requires users.Valid()
      ensures req.username == "" || req.password == "" ==> r == Err("username and password are required")
      ensures req.username != "" && req.password != "" && Unknown(users.rows, req.username) ==>
                r == Err("invalid username or password")
      ensures r.Ok? ==> && req.username != "" && req.password != ""
                        && r.value.user.id in users.rows && users.rows[r.value.user.id] == r.value.user
                        && r.value.user.username == req.username
                        && check(r.value.user.password, req.password)
                        && sign(r.value.user.id, r.value.user.username) == Some(r.value.token)
      ensures UniqueNames(users.rows) && req.username != "" && req.password != "" ==>
                forall id :: id in users.rows && users.rows[id].username == req.username ==>
                  && (!check(users.rows[id].password, req.password) ==> r == Err("invalid username or password"))
                  && (check(users.rows[id].password, req.password) && sign(id, req.username).Some? ==> r.Ok?)
    {
      if req.username == "" || req.password == "" {
        return Err("username and password are required");
      }
      var found := users.FindByUsername(req.username);
      if found.None? {
        return Err("invalid username or password");
      }
      var user := found.value;
      if !check(user.password, req.password) {
        return Err("invalid username or password");
      }
      var token := sign(user.id, user.username);
      if token.None? {
        return Err("failed to generate token");
      }
      r := Ok(AuthResponse(token.value, user));
    }

    /**
     * `Signup`: both fields are required, then a password of at least 6 bytes, then a
     * name nobody has. The stored password is the hash of the given one. The user is
     * stored before the token is signed, so a signing failure leaves the user created.
     */
    method Signup(req: Credentials, now: int, hash: string -> Option<string>, sign: (int, string) -> Option<string>,
                  createFails: bool)
      returns (r: Result<AuthResponse>)
      requires users.Valid() && UniqueNames(users.rows)
      modifies users
      ensures users.Valid() && UniqueNames(users.rows)
      ensures req.username == "" || req.password == "" ==>
                r == Err("username and password are required") && unchanged(users)
      ensures req.username != "" && req.password != "" && Utf8Len(req.password) < 6 ==>
                r == Err("password must be at least 6 characters") && unchanged(users)
      ensures req.username != "" && req.password != "" && Utf8Len(req.password) >= 6
              && !Unknown(old(users.rows), req.username) ==>
                r == Err("username already exists") && unchanged(users)
      ensures r.Ok? ==> && req.username != "" && Utf8Len(req.password) >= 6
                        && Unknown(old(users.rows), req.username)
                        && hash(req.password).Some?
                        && r.value.user == User(old(users.nextId), req.username, hash(req.password).value, now, now)
                        && users.rows == old(users.rows)[r.value.user.id := r.value.user]
                        && sign(r.value.user.id, req.username) == Some(r.value.token)
      ensures users.rows != old(users.rows) ==>
                && Unknown(old(users.rows), req.username) && !createFails && hash(req.password).Some?
                && users.rows == old(users.rows)[old(users.nextId) :=
                                   User(old(users.nextId), req.username, hash(req.password).value, now, now)]
      ensures req.username != "" && req.password != "" && Utf8Len(req.password) >= 6
              && Unknown(old(users.rows), req.username) && hash(req.password).Some? && !createFails ==>
                (r.Ok? <==> sign(old(users.nextId), req.username).Some?)
    {
      if req.username == "" || req.password == "" {
        return Err("username and password are required");
      }
      if Utf8Len(req.password) < 6 {
        return Err("password must be at least 6 characters");
      }
      var existing := users.FindByUsername(req.username);
      if existing.Some? {
        return Err("username already exists");
      }
      var hashed := hash(req.password);
      if hashed.None? {
        return Err("failed to hash password");
      }
      var created := users.Create(User(0, req.username, hashed.value, 0, 0), now, createFails);
      if created.Err? {
        return Err("failed to create user");
      }
      var user := created.value;
      var token := sign(user.id, user.username);
      if token.None? {
        return Err("failed to generate token");
      }
      r := Ok(AuthResponse(token.value, user));
    }

    /** `GetUserByID`: the user with that id, or "user not found". */
    method GetUserByID(id: int) returns (r: Result<User>)
      ensures r.Ok? <==> id in users.rows
      ensures r.Ok? ==> r.value == users.rows[id]
      ensures r.Err? ==> r == Err("user not found")
    {
      r := users.FindByID(id);
    }
  }
}
