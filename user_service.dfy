/** The user service: the `users` table and registration. */
module UserService {
  import opened Http

  /** The 400 raised for a second registration of an email. */
  const EmailTaken := HttpError(400, "Email already registered")

  /** A row of `users`: there is no column for the plaintext password. */
  datatype UserRecord = UserRecord(id: string, email: string, hashedPassword: string)

  /** The body of `POST /users`. */
  datatype UserCreate = UserCreate(email: string, password: string)

  /** `response_model=UserResponse`: only the id and the email leave the
      service. */
  datatype UserResponse = UserResponse(id: string, email: string)

  /** `filter(User.email == email).first()`: the position of the first row
      with this email. */
  function FindByEmail(users: seq<UserRecord>, email: string): (r: Option<nat>)
    ensures r.Some? ==>
      && r.value < |users| && users[r.value].email == email
      && forall i :: 0 <= i < r.value ==> users[i].email != email
    ensures r.None? <==> forall i :: 0 <= i < |users| ==> users[i].email != email
  {
    if users == [] then None
    else if users[0].email == email then Some(0)
    else match FindByEmail(users[1..], email)
      case None => None
      case Some(k) => Some(k + 1)
  }

  /** The one row with this email, where emails are unique. */
  lemma FirstIsOnly(users: seq<UserRecord>, email: string, i: nat)
    requires EmailsUnique(users)
    requires i < |users| && users[i].email == email
    ensures FindByEmail(users, email) == Some(i)
  {
  }

  /** After an append, the lookup finds what it found before, or else the
      new row when it carries the email. */
  lemma {:induction false} FindAfterAppend(users: seq<UserRecord>, row: UserRecord, email: string)
    ensures FindByEmail(users + [row], email) ==
      if FindByEmail(users, email).Some? then FindByEmail(users, email)
      else if row.email == email then Some(|users|)
      else None
  {
    if users == [] {
      assert users + [row] == [row];
    } else {
      assert (users + [row])[1..] == users[1..] + [row];
      FindAfterAppend(users[1..], row, email);
    }
  }

  /** The `unique=True` constraint on `email`. */
  ghost predicate EmailsUnique(users: seq<UserRecord>) {
    forall i, j :: 0 <= i < j < |users| ==> users[i].email != users[j].email
  }

  /** The primary key `id`. */
  ghost predicate IdsUnique(users: seq<UserRecord>) {
    forall i, j :: 0 <= i < j < |users| ==> users[i].id != users[j].id
  }

  /** Whether a row already has this id, which makes the commit fail. */
  predicate IdTaken(users: seq<UserRecord>, id: string) {
    exists i :: 0 <= i < |users| && users[i].id == id
  }

  /** What the response model keeps of a row. */
  function ToResponse(u: UserRecord): UserResponse {
    UserResponse(u.id, u.email)
  }

  class UserTable {
    var users: seq<UserRecord>

    ghost predicate Valid()
      reads this
    {
      EmailsUnique(users) && IdsUnique(users)
    }

    constructor ()
      ensures Valid() && users == []
    {
      users := [];
    }

    /** `create_user`. `hash` stands for `pwd_context.hash` (bcrypt, salt
        included) and `newId` for the uuid4 default of `id`. */
    method CreateUser(request: UserCreate, hash: string -> string, newId: string)
      returns (r: Result<UserResponse>)
      requires Valid()
      modifies this
      ensures Valid()
      ensures FindByEmail(old(users), request.email).Some? ==>
        r == Err(EmailTaken) && users == old(users)
      ensures FindByEmail(old(users), request.email).None? && IdTaken(old(users), newId) ==>
        r == Err(InternalServerError) && users == old(users)
      ensures FindByEmail(old(users), request.email).None? && !IdTaken(old(users), newId) ==>
        && users == old(users) + [UserRecord(newId, request.email, hash(request.password))]
        && r == Ok(UserResponse(newId, request.email))
      // the registered email now leads to the new row
      ensures r.Ok? ==> FindByEmail(users, request.email) == Some(|old(users)|)
    {
      var existing := FindByEmail(users, request.email);
      if existing.Some? {
        return Err(EmailTaken);
      }
      var hashedPassword := hash(request.password);
      var newUser := UserRecord(newId, request.email, hashedPassword);
      if IdTaken(users, newId) {
        return Err(InternalServerError);
      }
      FindAfterAppend(users, newUser, request.email);
      users := users + [newUser];
      r := Ok(ToResponse(newUser));
    }
  }
}
