/**
 * The two tables and the writing operations on them:
 * `crud/users.py` (`create_user`, `delete_user`) and
 * `crud/detection.py` (`create_detection_record`).
 * The database is a `Tables` value; the class `Database` holds it in fields
 * and each method is specified by the pure transition function of the same name.
 * Password hashing (bcrypt with a random salt) is a function parameter.
 */
module Store {
  import opened Wrappers
  import opened Records

  /** The ways a store operation fails. */
  datatype CrudError =
    | HttpError(status: nat, detail: string)   // an HTTPException raised by the operation
    | DoesNotExist                             // the ORM found no row for a `get`
    | TooLong(column: string)                  // a value longer than its column allows
    | NotNull(column: string)                  // None for a column that is NOT NULL
    | HashOfNone                               // hashing a missing password raises
    | NegativeLimit                            // a query LIMIT below zero is refused

  const UsernameTaken := HttpError(400, "Username already exists")
  const UserNotFound := HttpError(404, "User not found")
  const NotYourAccount := HttpError(403, "You are not allowed to delete this user")
  const DeletedMessage := "User deleted successfully"

  /** `UserInSchema` read as a value: every writable column of `Users`. */
  datatype UserIn = UserIn(username: string, fullName: Option<string>, password: Option<string>)

  /** `UserOutSchema`: a user without the password and the timestamps. */
  datatype UserOut = UserOut(id: int, username: string, fullName: Option<string>)

  function OutOf(u: UserRow): (o: UserOut)
    ensures o.id == u.id && o.username == u.username && o.fullName == u.fullName
  {
    UserOut(u.id, u.username, u.fullName)
  }

  // ---------------------------------------------------------------------
  // Lookups

  /** `Users.get(username=…)`: the row with that username, if any. */
  function FindByUsername(users: seq<UserRow>, name: string): (r: Option<UserRow>)
    ensures r.Some? ==> r.value in users && r.value.username == name
    ensures r.None? <==> forall u :: u in users ==> u.username != name
  {
    if |users| == 0 then None
    else if users[0].username == name then Some(users[0])
    else FindByUsername(users[1..], name)
  }

  /** `Users.get(id=…)`: the row with that id, if any. */
  function FindById(users: seq<UserRow>, id: int): (r: Option<UserRow>)
    ensures r.Some? ==> r.value in users && r.value.id == id
    ensures r.None? <==> forall u :: u in users ==> u.id != id
  {
    if |users| == 0 then None
    else if users[0].id == id then Some(users[0])
    else FindById(users[1..], id)
  }

  // ---------------------------------------------------------------------
  // The database and its constraints

  /** Both tables with the next value of each SERIAL primary key. */
  datatype Tables = Tables(users: seq<UserRow>, history: seq<DetectionRecord>, nextUserId: int, nextRecordId: int)

  /** Freshly migrated tables: empty, both sequences at 1. */
  const EmptyTables := Tables([], [], 1, 1)

  /**
   * The constraints of the schema: unique usernames, unique primary keys
   * below their sequence, column lengths, and every history row referring
   * to an existing user.
   */
  predicate Valid(t: Tables) {
    && (forall a, b :: a in t.users && b in t.users && a.username == b.username ==> a == b)
    && (forall a, b :: a in t.users && b in t.users && a.id == b.id ==> a == b)
    && (forall u :: u in t.users ==> u.id < t.nextUserId && FitsUserColumns(u.username, u.fullName, u.password))
    && (forall a, b :: a in t.history && b in t.history && a.id == b.id ==> a == b)
    && (forall r :: r in t.history ==>
          r.id < t.nextRecordId && |r.modelUsed| <= ModelUsedMaxLength && FindById(t.users, r.userId).Some?)
  }

  lemma EmptyTablesValid()
    ensures Valid(EmptyTables)
  {
  }

  /** The tables after an operation together with what the operation returns or raises. */
  datatype Outcome<T> = Outcome(tables: Tables, result: Result<T, CrudError>)

  // ---------------------------------------------------------------------
  // create_user

  /** The first column of a user whose value is too long, if any. */
  function UserColumnsError(username: string, fullName: Option<string>, password: Option<string>): (e: Option<CrudError>)
    ensures e.None? <==> FitsUserColumns(username, fullName, password)
    ensures e.Some? ==> e.value.TooLong?
  {
    if |username| > UsernameMaxLength then Some(TooLong("username"))
    else if fullName.Some? && |fullName.value| > FullNameMaxLength then Some(TooLong("full_name"))
    else if password.Some? && |password.value| > PasswordMaxLength then Some(TooLong("password"))
    else None
  }

  /** The row `Users.create` inserts: the next id, the hashed password, both timestamps `now`. */
  function NewUserRow(t: Tables, username: string, fullName: Option<string>, hashed: string, now: int): (row: UserRow)
    ensures Valid(t) ==> forall u :: u in t.users ==> u.id != row.id
    ensures row.username == username && row.password == Some(hashed)
  {
    UserRow(t.nextUserId, username, fullName, Some(hashed), now, now)
  }

  /**
   * `create_user`: hash the password, insert the row, return it without the
   * password. A missing password makes the hash raise; an over-long value is
   * rejected by the column validators; a taken username becomes a 400.
   */
  function CreateUserStep(t: Tables, input: UserIn, hash: string -> string, now: int): (o: Outcome<UserOut>)
    ensures o.result.Err? ==> o.tables == t
    ensures input.password.None? ==> o.result == Err(HashOfNone)
    ensures o.result.Ok? <==>
      && input.password.Some?
      && FitsUserColumns(input.username, input.fullName, Some(hash(input.password.value)))
      && FindByUsername(t.users, input.username).None?
    ensures input.password.Some? && FitsUserColumns(input.username, input.fullName, Some(hash(input.password.value)))
              && FindByUsername(t.users, input.username).Some?
            ==> o.result == Err(UsernameTaken)
    ensures o.result.Ok? ==>
      && o.tables.history == t.history
      && o.tables.nextRecordId == t.nextRecordId
      && o.tables.nextUserId == t.nextUserId + 1
      && o.tables.users == t.users + [NewUserRow(t, input.username, input.fullName, hash(input.password.value), now)]
      && o.result.value == UserOut(t.nextUserId, input.username, input.fullName)
  {
    if input.password.None? then Outcome(t, Err(HashOfNone))
    else
      var hashed := hash(input.password.value);
      var tooLong := UserColumnsError(input.username, input.fullName, Some(hashed));
      if tooLong.Some? then Outcome(t, Err(tooLong.value))
      else if FindByUsername(t.users, input.username).Some? then Outcome(t, Err(UsernameTaken))
      else
        var row := NewUserRow(t, input.username, input.fullName, hashed, now);
        Outcome(t.(users := t.users + [row], nextUserId := t.nextUserId + 1), Ok(OutOf(row)))
  }

  /** Creating a user keeps every constraint of the schema. */
  lemma CreateUserKeepsValid(t: Tables, input: UserIn, hash: string -> string, now: int)
    requires Valid(t)
    ensures Valid(CreateUserStep(t, input, hash, now).tables)
  {
    var o := CreateUserStep(t, input, hash, now);
    if o.result.Ok? {
      var row := NewUserRow(t, input.username, input.fullName, hash(input.password.value), now);
      assert o.tables.users == t.users + [row];
      forall r | r in o.tables.history
        ensures FindById(o.tables.users, r.userId).Some?
      {
        var u := FindById(t.users, r.userId).value;
        assert u in o.tables.users;
      }
    }
  }

  /**
   * After a successful registration the user can be found by name, holding
   * the hashed password, and the returned id is that row's id.
   */
  lemma CreatedUserIsFound(t: Tables, input: UserIn, hash: string -> string, now: int)
    requires Valid(t)
    requires CreateUserStep(t, input, hash, now).result.Ok?
    ensures var o := CreateUserStep(t, input, hash, now);
      && FindByUsername(o.tables.users, input.username)
         == Some(UserRow(o.result.value.id, input.username, input.fullName, Some(hash(input.password.value)), now, now))
  {
    var o := CreateUserStep(t, input, hash, now);
    CreateUserKeepsValid(t, input, hash, now);
    var row := NewUserRow(t, input.username, input.fullName, hash(input.password.value), now);
    assert row in o.tables.users;
    var found := FindByUsername(o.tables.users, input.username);
    assert found.Some?;
    assert found.value == row;
  }

  /** Registering the same username twice: the second attempt is a 400 and changes nothing. */
  lemma {:induction false} SecondRegistrationRejected(t: Tables, first: UserIn, second: UserIn, hash: string -> string, now: int, later: int)
    requires CreateUserStep(t, first, hash, now).result.Ok?
    requires second.username == first.username && second.password.Some?
    requires FitsUserColumns(second.username, second.fullName, Some(hash(second.password.value)))
    ensures var t1 := CreateUserStep(t, first, hash, now).tables;
      CreateUserStep(t1, second, hash, later) == Outcome(t1, Err(UsernameTaken))
  {
    var t1 := CreateUserStep(t, first, hash, now).tables;
    var row := NewUserRow(t, first.username, first.fullName, hash(first.password.value), now);
    assert row in t1.users;
    assert FindByUsername(t1.users, second.username).Some?;
  }

  // ---------------------------------------------------------------------
  // delete_user

  /** `Users.filter(id=…).delete()` on the users table. */
  function RemoveUser(users: seq<UserRow>, id: int): (r: seq<UserRow>)
    ensures forall u :: u in r <==> u in users && u.id != id
  {
    if |users| == 0 then []
    else if users[0].id == id then RemoveUser(users[1..], id)
    else [users[0]] + RemoveUser(users[1..], id)
  }

  /** The ON DELETE CASCADE of `detection_history.user_id`. */
  function RemoveHistoryOf(history: seq<DetectionRecord>, userId: int): (r: seq<DetectionRecord>)
    ensures forall x :: x in r <==> x in history && x.userId != userId
  {
    if |history| == 0 then []
    else if history[0].userId == userId then RemoveHistoryOf(history[1..], userId)
    else [history[0]] + RemoveHistoryOf(history[1..], userId)
  }

  /**
   * `delete_user`: an unknown id is a 404, someone else's id a 403, and the
   * caller's own id removes the row together with its detection history.
   */
  function DeleteUserStep(t: Tables, userId: int, current: UserOut): (o: Outcome<string>)
    ensures FindById(t.users, userId).None? ==> o == Outcome(t, Err(UserNotFound))
    ensures FindById(t.users, userId).Some? && userId != current.id ==> o == Outcome(t, Err(NotYourAccount))
    ensures o.result.Ok? <==> FindById(t.users, userId).Some? && userId == current.id
    ensures o.result.Ok? ==>
      && o.result.value == DeletedMessage
      && (forall u :: u in o.tables.users <==> u in t.users && u.id != userId)
      && (forall x :: x in o.tables.history <==> x in t.history && x.userId != userId)
      && o.tables.nextUserId == t.nextUserId && o.tables.nextRecordId == t.nextRecordId
  {
    if FindById(t.users, userId).None? then Outcome(t, Err(UserNotFound))
    else if userId != current.id then Outcome(t, Err(NotYourAccount))
    else Outcome(t.(users := RemoveUser(t.users, userId), history := RemoveHistoryOf(t.history, userId)), Ok(DeletedMessage))
  }

  /** Deleting a user keeps every constraint: no history row is left pointing at the removed user. */
  lemma DeleteUserKeepsValid(t: Tables, userId: int, current: UserOut)
    requires Valid(t)
    ensures Valid(DeleteUserStep(t, userId, current).tables)
  {
    var o := DeleteUserStep(t, userId, current);
    if o.result.Ok? {
      forall r | r in o.tables.history
        ensures FindById(o.tables.users, r.userId).Some?
      {
        var u := FindById(t.users, r.userId).value;
        assert u in o.tables.users;
      }
    }
  }

  /** After deleting oneself, the account can be found neither by id nor by name. */
  lemma DeletedUserIsGone(t: Tables, userId: int, current: UserOut)
    requires Valid(t)
    requires DeleteUserStep(t, userId, current).result.Ok?
    ensures var o := DeleteUserStep(t, userId, current);
      && FindById(o.tables.users, userId).None?
      && FindByUsername(o.tables.users, FindById(t.users, userId).value.username).None?
  {
    var o := DeleteUserStep(t, userId, current);
    var gone := FindById(t.users, userId).value;
    forall u | u in o.tables.users
      ensures u.username != gone.username
    {
      assert u in t.users && u.id != gone.id;
    }
  }

  // ---------------------------------------------------------------------
  // create_detection_record

  /**
   * `create_detection_record`: the user must exist; the row belongs to the
   * `user_id` argument (the `user_id` inside the request body is not read);
   * `model_used` must fit its column and the object count must be present.
   */
  function CreateDetectionRecordStep(t: Tables, userId: int, data: DetectionHistoryCreate, now: int): (o: Outcome<DetectionRecord>)
    ensures o.result.Err? ==> o.tables == t
    ensures FindById(t.users, userId).None? ==> o.result == Err(DoesNotExist)
    ensures o.result.Ok? <==>
      && FindById(t.users, userId).Some?
      && |data.base.modelUsed| <= ModelUsedMaxLength
      && data.base.detectedObjectsCount.Some?
    ensures o.result.Ok? ==>
      && o.result.value.userId == userId
      && o.result.value.createdAt == now
      && o.result.value.id == t.nextRecordId
      && ToOut(o.result.value) == DetectionHistoryOut(data.base, t.nextRecordId, userId, now)
      && o.tables == t.(history := t.history + [o.result.value], nextRecordId := t.nextRecordId + 1)
  {
    if FindById(t.users, userId).None? then Outcome(t, Err(DoesNotExist))
    else if |data.base.modelUsed| > ModelUsedMaxLength then Outcome(t, Err(TooLong("model_used")))
    else if data.base.detectedObjectsCount.None? then Outcome(t, Err(NotNull("detected_objects_count")))
    else
      var row := RecordOf(t.nextRecordId, userId, data.base, now);
      StoredRecordReadsBack(t.nextRecordId, userId, data.base, now);
      Outcome(t.(history := t.history + [row], nextRecordId := t.nextRecordId + 1), Ok(row))
  }

  /** The `user_id` field of the request body has no effect on the result. */
  lemma BodyUserIdIgnored(t: Tables, userId: int, data: DetectionHistoryCreate, other: int, now: int)
    ensures CreateDetectionRecordStep(t, userId, data, now) == CreateDetectionRecordStep(t, userId, data.(userId := other), now)
  {
  }

  /** Recording a detection keeps every constraint of the schema. */
  lemma CreateDetectionRecordKeepsValid(t: Tables, userId: int, data: DetectionHistoryCreate, now: int)
    requires Valid(t)
    ensures Valid(CreateDetectionRecordStep(t, userId, data, now).tables)
  {
  }

  // ---------------------------------------------------------------------
  // The database object

  /** `UserInSchema`: its password is replaced by its hash during registration. */
  class UserInSchema {
    const username: string
    const fullName: Option<string>
    var password: Option<string>

    constructor (username: string, fullName: Option<string>, password: Option<string>)
      ensures this.username == username && this.fullName == fullName && this.password == password
    {
      this.username := username;
      this.fullName := fullName;
      this.password := password;
    }
  }

  /** The database connection: both tables held in fields. */
  class Database {
    var users: seq<UserRow>
    var history: seq<DetectionRecord>
    var nextUserId: int
    var nextRecordId: int

    function Contents(): Tables
      reads this
    {
      Tables(users, history, nextUserId, nextRecordId)
    }

    constructor ()
      ensures Contents() == EmptyTables && Valid(Contents())
    {
      users := [];
      history := [];
      nextUserId := 1;
      nextRecordId := 1;
    }

    /** `create_user`, including its in-place update of the input's password. */
    method CreateUser(user: UserInSchema, hash: string -> string, now: int) returns (r: Result<UserOut, CrudError>)
      modifies this, user
      ensures user.password == (if old(user.password).Some? then Some(hash(old(user.password).value)) else None)
      ensures var o := CreateUserStep(old(Contents()), UserIn(user.username, user.fullName, old(user.password)), hash, now);
        Contents() == o.tables && r == o.result
      ensures old(Valid(Contents())) ==> Valid(Contents())
    {
      ghost var before := Contents();
      ghost var input := UserIn(user.username, user.fullName, user.password);
      if Valid(before) { CreateUserKeepsValid(before, input, hash, now); }
      if user.password.None? {
        return Err(HashOfNone);
      }
      user.password := Some(hash(user.password.value));
      var tooLong := UserColumnsError(user.username, user.fullName, user.password);
      if tooLong.Some? {
        return Err(tooLong.value);
      }
      if FindByUsername(users, user.username).Some? {
        return Err(UsernameTaken);
      }
      var row := NewUserRow(Contents(), user.username, user.fullName, user.password.value, now);
      users := users + [row];
      nextUserId := nextUserId + 1;
      r := Ok(OutOf(row));
    }

    /** `delete_user`. */
    method DeleteUser(userId: int, current: UserOut) returns (r: Result<string, CrudError>)
      modifies this
      ensures var o := DeleteUserStep(old(Contents()), userId, current);
        Contents() == o.tables && r == o.result
      ensures old(Valid(Contents())) ==> Valid(Contents())
    {
      if Valid(Contents()) { DeleteUserKeepsValid(Contents(), userId, current); }
      if FindById(users, userId).None? {
        return Err(UserNotFound);
      }
      if userId != current.id {
        return Err(NotYourAccount);
      }
      users := RemoveUser(users, userId);
      history := RemoveHistoryOf(history, userId);
      r := Ok(DeletedMessage);
    }

    /** `create_detection_record`. */
    method CreateDetectionRecord(userId: int, data: DetectionHistoryCreate, now: int) returns (r: Result<DetectionRecord, CrudError>)
      modifies this
      ensures var o := CreateDetectionRecordStep(old(Contents()), userId, data, now);
        Contents() == o.tables && r == o.result
      ensures old(Valid(Contents())) ==> Valid(Contents())
    {
      if Valid(Contents()) { CreateDetectionRecordKeepsValid(Contents(), userId, data, now); }
      if FindById(users, userId).None? {
        return Err(DoesNotExist);
      }
      if |data.base.modelUsed| > ModelUsedMaxLength {
        return Err(TooLong("model_used"));
      }
      if data.base.detectedObjectsCount.None? {
        return Err(NotNull("detected_objects_count"));
      }
      var row := RecordOf(nextRecordId, userId, data.base, now);
      history := history + [row];
      nextRecordId := nextRecordId + 1;
      r := Ok(row);
    }
  }
}
