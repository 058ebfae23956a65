/**
 * The user table and the service over it (server/src/modules/user/user.service.ts,
 * entity server/src/modules/user/entities/user.entity.ts). The table is a map
 * from account id to record, shared by every service that injects the user
 * repository.
 */
module Users {
  import opened Base
  import opened Jwt
  import Tables

  /** An account record: `surname` is nullable, `password` holds the bcrypt hash. */
  datatype User = User(id: string, email: string, phone: string, name: string,
                       surname: Option<string>, role: Role, password: string)

  /** An account as returned to clients: the record without its `password` field. */
  datatype PublicUser = PublicUser(id: string, email: string, phone: string, name: string,
                                   surname: Option<string>, role: Role)

  datatype CreateUserDto = CreateUserDto(email: string, phone: string, name: string,
                                         surname: Option<string>, password: string)

  /**
   * A field of a request body that `@IsOptional()` lets through: left out of
   * the JSON, sent as `null`, or sent with a value.
   */
  datatype Field<T> = Absent | Null | Given(value: T)

  /** Every field optional (`PartialType`), plus an optional role. */
  datatype UpdateUserDto = UpdateUserDto(email: Field<string>, phone: Field<string>, name: Field<string>,
                                         surname: Field<string>, password: Field<string>, role: Field<Role>)

  /** The column default for `role`. */
  const DefaultRole: Role := SUPERADMIN

  const EmailExists: HttpError := Conflict("This email already exists")
  const UserNotFound: HttpError := NotFound("User not found")
  const CreateFailed: HttpError := InternalServerError("Failed to create user")
  const DeleteFailed: HttpError := InternalServerError("Failed to delete user")
  const NotAllowedToChangeRole: HttpError := BadRequest("You are not allowed to change the role")
  /** The driver's message when a save breaks the unique index on `email`. */
  const UniqueViolation: string := "duplicate key value violates unique constraint"
  /** The driver's message when a save writes `null` into a column declared without `nullable`. */
  const NotNullViolation: string := "null value violates not-null constraint"

  /** `const { password, ...result } = user`. */
  function WithoutPassword(u: User): PublicUser
  {
    PublicUser(u.id, u.email, u.phone, u.name, u.surname, u.role)
  }

  /** Puts a password field back on a public record. */
  function WithPassword(p: PublicUser, password: string): User
  {
    User(p.id, p.email, p.phone, p.name, p.surname, p.role, password)
  }

  /** Stripping the password loses nothing else: it can be put back. */
  lemma PasswordStripRoundTrip(u: User)
    ensures WithPassword(WithoutPassword(u), u.password) == u
    ensures WithoutPassword(WithPassword(WithoutPassword(u), "")) == WithoutPassword(u)
  {
  }

  /** A DTO field sent with a value, or the stored value. */
  function Pick<T>(field: Field<T>, stored: T): T
  {
    if field.Given? then field.value else stored
  }

  /** The DTO sends `null` for a column that is not `nullable`: every column but `surname`. */
  predicate NullsRequired(dto: UpdateUserDto)
  {
    dto.email.Null? || dto.phone.Null? || dto.name.Null? || dto.password.Null? || dto.role.Null?
  }

  /**
   * `{ ...user, ...dto }`: fields sent in the DTO replace the stored ones, a
   * `null` included. None when that puts `null` into a column that is not
   * `nullable`, which no record can hold; a `null` surname clears it.
   */
  function Overlay(u: User, dto: UpdateUserDto): (r: Option<User>)
    ensures r.None? <==> NullsRequired(dto)
    ensures r.Some? ==> r.value.id == u.id
    ensures r.Some? && dto.email.Given? ==> r.value.email == dto.email.value
    ensures r.Some? && dto.email.Absent? ==> r.value.email == u.email
    ensures r.Some? && dto.phone.Given? ==> r.value.phone == dto.phone.value
    ensures r.Some? && dto.phone.Absent? ==> r.value.phone == u.phone
    ensures r.Some? && dto.name.Given? ==> r.value.name == dto.name.value
    ensures r.Some? && dto.name.Absent? ==> r.value.name == u.name
    ensures r.Some? && dto.surname.Given? ==> r.value.surname == Some(dto.surname.value)
    ensures r.Some? && dto.surname.Null? ==> r.value.surname == None
    ensures r.Some? && dto.surname.Absent? ==> r.value.surname == u.surname
    ensures r.Some? && dto.role.Given? ==> r.value.role == dto.role.value
    ensures r.Some? && dto.role.Absent? ==> r.value.role == u.role
    ensures r.Some? && dto.password.Given? ==> r.value.password == dto.password.value
    ensures r.Some? && dto.password.Absent? ==> r.value.password == u.password
  {
    if NullsRequired(dto) then None
    else
      var surname := match dto.surname
        case Absent => u.surname
        case Null => None
        case Given(s) => Some(s);
      Some(User(u.id, Pick(dto.email, u.email), Pick(dto.phone, u.phone), Pick(dto.name, u.name),
                surname, Pick(dto.role, u.role), Pick(dto.password, u.password)))
  }

  /** The DTO with no field present. */
  const NoChanges: UpdateUserDto := UpdateUserDto(Absent, Absent, Absent, Absent, Absent, Absent)

  /** An empty DTO leaves the record as it is, and overlaying twice is overlaying once. */
  lemma OverlayLaws(u: User, dto: UpdateUserDto)
    ensures Overlay(u, NoChanges) == Some(u)
    ensures Overlay(u, dto).Some? ==> Overlay(Overlay(u, dto).value, dto) == Overlay(u, dto)
  {
  }

  /** The DTO that writes every field of a record back (`{ ...user }` as update data). */
  function AllFields(u: User): UpdateUserDto
  {
    UpdateUserDto(Given(u.email), Given(u.phone), Given(u.name),
                  if u.surname.Some? then Given(u.surname.value) else Absent,
                  Given(u.password), Given(u.role))
  }

  /**
   * Overlaying a record's own fields, with one field changed, gives that
   * record with that field changed, whatever was stored before, provided the
   * ids agree; a nullable surname that is null is kept from the stored record.
   */
  lemma OverlayAllFields(stored: User, u: User, role: Role)
    requires stored.id == u.id && (u.surname.None? ==> stored.surname.None?)
    ensures Overlay(stored, AllFields(u).(role := Given(role))) == Some(u.(role := role))
  {
  }

  /** `where: { email }` as a row predicate. */
  function HasEmail(email: string): User -> bool
  {
    (u: User) => u.email == email
  }

  /** `where: { role }` as a row predicate. */
  function HasRole(role: Role): User -> bool
  {
    (u: User) => u.role == role
  }

  /** Some stored record has this email. */
  predicate EmailTaken(rows: map<string, User>, email: string)
  {
    Tables.Matching(rows, HasEmail(email)) != {}
  }

  /** Some record other than `id` has this email. */
  predicate EmailTakenByOther(rows: map<string, User>, id: string, email: string)
  {
    exists k :: k in rows && k != id && rows[k].email == email
  }

  /** Each record is stored under its own id, and no two records share an email. */
  predicate WellFormed(rows: map<string, User>)
  {
    && (forall k :: k in rows ==> rows[k].id == k)
    && (forall a, b :: a in rows && b in rows && a != b ==> rows[a].email != rows[b].email)
  }

  /** A record built from a create DTO: its fields, the hashed password and the default role. */
  predicate CreatedFrom(u: User, dto: CreateUserDto, hash: string -> string)
  {
    && u.email == dto.email && u.phone == dto.phone && u.name == dto.name && u.surname == dto.surname
    && u.password == hash(dto.password) && u.role == DefaultRole
  }

  /** Adding a record with a fresh id and an email nobody has keeps the table well formed. */
  lemma StoreNewKeepsWellFormed(rows: map<string, User>, u: User)
    requires WellFormed(rows) && u.id !in rows && !EmailTaken(rows, u.email)
    ensures WellFormed(rows[u.id := u])
  {
    forall k | k in rows
      ensures rows[k].email != u.email
    {
      assert HasEmail(u.email)(rows[k]) ==> k in Tables.Matching(rows, HasEmail(u.email));
    }
  }

  /** Replacing a record by one with the same id and an email no other record has keeps the table well formed. */
  lemma ReplaceKeepsWellFormed(rows: map<string, User>, u: User)
    requires WellFormed(rows) && u.id in rows && !EmailTakenByOther(rows, u.id, u.email)
    ensures WellFormed(rows[u.id := u])
  {
  }

  /** In a well-formed table no other record shares a record's email. */
  lemma OwnEmailNotTakenByOther(rows: map<string, User>, id: string)
    requires WellFormed(rows) && id in rows
    ensures !EmailTakenByOther(rows, id, rows[id].email)
  {
  }

  /** Removing records keeps the table well formed. */
  lemma RemoveKeepsWellFormed(rows: map<string, User>, ids: set<string>)
    requires WellFormed(rows)
    ensures WellFormed(rows - ids)
  {
  }

  /** The user table (`Repository<User>`), shared by the services that inject it. */
  class UserRepository {
    var rows: map<string, User>

    predicate Valid()
      reads this
    {
      WellFormed(rows)
    }

    constructor()
      ensures Valid() && rows == map[]
    {
      rows := map[];
    }
  }

  /** `UserService`. */
  class UserService {
    const repo: UserRepository

    constructor(repo: UserRepository)
      ensures this.repo == repo
    {
      this.repo := repo;
    }

    /**
     * `create`: a taken email is a conflict and nothing is written; otherwise
     * the DTO is stored under the new id with its password hashed and the
     * default role, unless the save fails.
     */
    method Create(dto: CreateUserDto, uuid: string, hash: string -> string, fault: Option<string>)
      returns (r: Result<User>)
      requires repo.Valid() && uuid !in repo.rows
      modifies repo
      ensures repo.Valid()
      ensures EmailTaken(old(repo.rows), dto.email) ==> r == Err(EmailExists) && repo.rows == old(repo.rows)
      ensures !EmailTaken(old(repo.rows), dto.email) && fault.Some? ==>
                r == Err(CreateFailed) && repo.rows == old(repo.rows)
      ensures !EmailTaken(old(repo.rows), dto.email) && fault.None? ==>
                && r.Ok? && r.value.id == uuid && CreatedFrom(r.value, dto, hash)
                && repo.rows == old(repo.rows)[uuid := r.value]
    {
      var existing := Tables.FindOne(repo.rows, HasEmail(dto.email));
      if existing.Some? {
        return Err(EmailExists);
      }
      var hashed := hash(dto.password);
      var user := User(uuid, dto.email, dto.phone, dto.name, dto.surname, DefaultRole, hashed);
      if fault.Some? {
        return Err(CreateFailed);
      }
      StoreNewKeepsWellFormed(repo.rows, user);
      repo.rows := repo.rows[uuid := user];
      return Ok(user);
    }

    /** `findAllUsers`: every stored record, each once, in no particular order. */
    method FindAllUsers() returns (users: seq<User>)
      requires repo.Valid()
      ensures |users| == |repo.rows|
      ensures forall k :: k in repo.rows ==> repo.rows[k] in users
      ensures forall u :: u in users ==> u.id in repo.rows && repo.rows[u.id] == u
    {
      var keys := Tables.FindAll(repo.rows, (u: User) => true);
      assert Tables.Matching(repo.rows, (u: User) => true) == repo.rows.Keys;
      users := [];
      var i := 0;
      while i < |keys|
        invariant 0 <= i <= |keys|
        invariant |users| == i
        invariant forall j :: 0 <= j < i ==> users[j] == repo.rows[keys[j]]
      {
        users := users + [repo.rows[keys[i]]];
        i := i + 1;
      }
      forall k | k in repo.rows
        ensures repo.rows[k] in users
      {
        var j :| 0 <= j < |keys| && keys[j] == k;
        assert users[j] == repo.rows[k];
      }
      forall u | u in users
        ensures u.id in repo.rows && repo.rows[u.id] == u
      {
        var j :| 0 <= j < |users| && users[j] == u;
        assert keys[j] in Tables.Matching(repo.rows, (u: User) => true);
      }
    }

    /** `findUserById`: the record stored under `id`, or NotFound. */
    function FindUserById(id: string): (r: Result<User>)
      reads repo
      requires repo.Valid()
      ensures r.Ok? <==> id in repo.rows
      ensures r.Ok? ==> r.value.id == id && r.value in repo.rows.Values
      ensures r.Err? ==> r.error == UserNotFound
    {
      if id in repo.rows then Ok(repo.rows[id]) else Err(UserNotFound)
    }

    /** `findUserByEmail`: the one record with that email, or NotFound. */
    method FindUserByEmail(email: string) returns (r: Result<User>)
      requires repo.Valid()
      ensures r.Err? <==> !EmailTaken(repo.rows, email)
      ensures r.Err? ==> r.error == UserNotFound
      ensures forall k :: k in repo.rows && repo.rows[k].email == email ==> r == Ok(repo.rows[k])
    {
      var found := Tables.FindOne(repo.rows, HasEmail(email));
      assert forall k :: k in repo.rows && repo.rows[k].email == email ==> k in Tables.Matching(repo.rows, HasEmail(email));
      if found.None? {
        return Err(UserNotFound);
      }
      return Ok(repo.rows[found.value]);
    }

    /**
     * `updateUser`: an unknown id is NotFound; a USER requester whose DTO does
     * not set the role to USER (an omitted or `null` role included) is
     * refused; otherwise the record overlaid with the DTO is saved, unless
     * the save fails: on a `null` for a column that is not `nullable`, on the
     * unique email index, or for another reason.
     */
    method UpdateUser(id: string, dto: UpdateUserDto, payload: Payload, fault: Option<string>)
      returns (r: Result<User>)
      requires repo.Valid()
      modifies repo
      ensures repo.Valid()
      ensures id !in old(repo.rows) ==> r == Err(UserNotFound) && repo.rows == old(repo.rows)
      ensures id in old(repo.rows) && payload.role == USER && dto.role != Given(USER) ==>
                r == Err(NotAllowedToChangeRole) && repo.rows == old(repo.rows)
      ensures id in old(repo.rows) && !(payload.role == USER && dto.role != Given(USER)) && NullsRequired(dto) ==>
                r == Err(InternalServerError(NotNullViolation))
      ensures r.Ok? <==> id in old(repo.rows) && !(payload.role == USER && dto.role != Given(USER))
                         && !NullsRequired(dto)
                         && !EmailTakenByOther(old(repo.rows), id, Overlay(old(repo.rows)[id], dto).value.email)
                         && fault.None?
      ensures r.Ok? ==> Overlay(old(repo.rows)[id], dto) == Some(r.value) && repo.rows == old(repo.rows)[id := r.value]
      ensures r.Err? ==> repo.rows == old(repo.rows)
    {
      if id !in repo.rows {
        return Err(UserNotFound);
      }
      var user := repo.rows[id];
      if payload.role == USER && dto.role != Given(USER) {
        return Err(NotAllowedToChangeRole);
      }
      var overlaid := Overlay(user, dto);
      if overlaid.None? {
        return Err(InternalServerError(NotNullViolation));
      }
      var updated := overlaid.value;
      if EmailTakenByOther(repo.rows, id, updated.email) {
        return Err(InternalServerError(UniqueViolation));
      }
      if fault.Some? {
        return Err(InternalServerError(fault.value));
      }
      ReplaceKeepsWellFormed(repo.rows, updated);
      repo.rows := repo.rows[id := updated];
      return Ok(updated);
    }

    /** `removeUser`: an unknown id is NotFound; otherwise exactly that record goes, unless the remove fails. */
    method RemoveUser(id: string, fault: Option<string>) returns (r: Result<()>)
      requires repo.Valid()
      modifies repo
      ensures repo.Valid()
      ensures id !in old(repo.rows) ==> r == Err(UserNotFound)
      ensures id in old(repo.rows) && fault.Some? ==> r == Err(DeleteFailed)
      ensures r.Ok? <==> id in old(repo.rows) && fault.None?
      ensures repo.rows == if r.Ok? then old(repo.rows) - {id} else old(repo.rows)
    {
      if id !in repo.rows {
        return Err(UserNotFound);
      }
      if fault.Some? {
        return Err(DeleteFailed);
      }
      RemoveKeepsWellFormed(repo.rows, {id});
      repo.rows := repo.rows - {id};
      return Ok(());
    }
  }
}
