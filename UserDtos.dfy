/** The user data-transfer object and its conversions: from the request JSON,
    to and from the domain user, to the response JSON and to credentials.
    Every `string | undefined` field is an `Option<string>`. */
module UserDtos {
  import opened Common
  import opened Text

  /** The JSON shape `IUserDto`. */
  datatype UserJson = UserJson(
    maskedUid: Option<string>,
    firstName: Option<string>,
    lastName: Option<string>,
    email: Option<string>,
    passwordB64: Option<string>,
    gender: Option<string>)

  /** The class `UserDto`. */
  datatype UserDto = UserDto(
    uid: Option<string>,
    maskedUid: Option<string>,
    email: Option<string>,
    password: Option<string>,
    firstName: Option<string>,
    lastName: Option<string>,
    gender: Option<string>,
    phone: Option<string>,
    birthDate: Option<string>)

  /** The domain user, with `email` standing for the value of its `Email`. */
  datatype User = User(
    uid: Option<string>,
    maskedUid: Option<string>,
    firstName: Option<string>,
    lastName: Option<string>,
    email: Option<string>,
    gender: Option<string>,
    createdAt: Option<string>,
    verified: bool,
    password: Option<string>)

  /** The JSON given to `CredentialsDto.fromJSON`. */
  datatype CredentialsJson = CredentialsJson(email: Option<string>, passwordB64: Option<string>)

  /** A freshly constructed `UserDto`: every field undefined. */
  const EmptyDto: UserDto := UserDto(None, None, None, None, None, None, None, None, None)

  function LowerEmail(email: Option<string>): (r: Option<string>)
    ensures r.None? <==> email.None?
    ensures email.Some? ==> r.value == ToLower(email.value)
  {
    match email
    case None => None
    case Some(e) => Some(ToLower(e))
  }

  /** `UserDto.fromJSON`: lower-cases the email, renames `passwordB64` to
      `password`, copies names and gender and leaves the rest undefined. */
  function FromJson(json: UserJson): (dto: UserDto)
    ensures dto.email == LowerEmail(json.email)
    ensures dto.password == json.passwordB64
    ensures dto.firstName == json.firstName && dto.lastName == json.lastName
    ensures dto.gender == json.gender
    ensures dto.uid.None? && dto.maskedUid.None? && dto.phone.None? && dto.birthDate.None?
  {
    EmptyDto.(
      email := LowerEmail(json.email),
      password := json.passwordB64,
      firstName := json.firstName,
      lastName := json.lastName,
      gender := json.gender)
  }

  /** `UserDto.fromMaskedUid`: only the masked uid is set. */
  function FromMaskedUid(maskedUid: string): (dto: UserDto)
    ensures dto.maskedUid == Some(maskedUid)
    ensures dto.uid.None? && dto.email.None? && dto.password.None? && dto.firstName.None?
    ensures dto.lastName.None? && dto.gender.None? && dto.phone.None? && dto.birthDate.None?
  {
    EmptyDto.(maskedUid := Some(maskedUid))
  }

  /** `UserDto.fromDomain`: masked uid, email and names are carried over;
      the password and the gender never are. */
  function FromDomain(user: User): (dto: UserDto)
    ensures dto.maskedUid == user.maskedUid && dto.email == user.email
    ensures dto.firstName == user.firstName && dto.lastName == user.lastName
    ensures dto.password.None? && dto.gender.None?
    ensures dto.uid.None? && dto.phone.None? && dto.birthDate.None?
  {
    EmptyDto.(
      maskedUid := user.maskedUid,
      email := user.email,
      firstName := user.firstName,
      lastName := user.lastName)
  }

  /** `UserDto.toDomain`: the DTO's names, email, gender and password, with
      the identity, creation time and verification flag the caller gives. */
  function ToDomain(dto: UserDto, uid: Option<string>, maskedUid: string, createdAt: string, verified: bool): (user: User)
    ensures user.uid == uid && user.maskedUid == Some(maskedUid)
    ensures user.createdAt == Some(createdAt) && user.verified == verified
    ensures user.firstName == dto.firstName && user.lastName == dto.lastName
    ensures user.email == dto.email && user.gender == dto.gender
    ensures user.password == dto.password
  {
    User(uid, Some(maskedUid), dto.firstName, dto.lastName, dto.email, dto.gender,
         Some(createdAt), verified, dto.password)
  }

  /** `UserDto.toDto`: the response JSON, which never carries a password. */
  function ToJson(dto: UserDto): (json: UserJson)
    ensures json.passwordB64.None?
    ensures json.maskedUid == dto.maskedUid && json.email == dto.email
    ensures json.firstName == dto.firstName && json.lastName == dto.lastName
    ensures json.gender == dto.gender
  {
    UserJson(dto.maskedUid, dto.firstName, dto.lastName, dto.email, None, dto.gender)
  }

  /** `UserDto.getCredentialsDto`: the email as it is, the password as
      `passwordB64`. */
  function GetCredentials(dto: UserDto): (c: CredentialsJson)
    ensures c.email == dto.email && c.passwordB64 == dto.password
  {
    CredentialsJson(dto.email, dto.password)
  }

  /** Field names submitted to the validator, as locale-word keys. */
  datatype Word = FirstName | LastName | Email | Password | Gender | Uid

  type Validations = map<Word, Option<string>>

  /** The dictionary `isValid` submits: the five registration fields. */
  function RegistrationFields(dto: UserDto): (v: Validations)
    ensures v.Keys == {FirstName, LastName, Email, Password, Gender}
    ensures v[FirstName] == dto.firstName && v[LastName] == dto.lastName
    ensures v[Email] == dto.email && v[Password] == dto.password && v[Gender] == dto.gender
  {
    map[FirstName := dto.firstName, LastName := dto.lastName, Email := dto.email,
        Password := dto.password, Gender := dto.gender]
  }

  /** The dictionary `isValidToGet` submits: the masked uid alone. */
  function LookupFields(dto: UserDto): (v: Validations)
    ensures v.Keys == {Uid} && v[Uid] == dto.maskedUid
  {
    map[Uid := dto.maskedUid]
  }

  /** What the unseen validator does with a dictionary: accept it, or refuse
      it after recording an error (message and status) in the caller's result. */
  datatype Verdict = Valid | Invalid(message: Message, status: ApplicationStatus)

  /** Round trip through the request and response JSON: the email comes back
      lower-cased, names and gender unchanged, password and masked uid absent;
      reading the response back changes nothing further. */
  lemma {:induction false} JsonRoundTrip(json: UserJson)
    ensures ToJson(FromJson(json)) ==
      json.(maskedUid := None, email := LowerEmail(json.email), passwordB64 := None)
    ensures FromJson(ToJson(FromJson(json))) == FromJson(json).(password := None)
  {
    if json.email.Some? {
      ToLowerIdempotent(json.email.value);
    }
  }

  /** Two request emails give the same DTO email exactly when they agree
      character by character up to ASCII letter case. */
  lemma EmailCaseInsensitive(json1: UserJson, json2: UserJson)
    requires json1.email.Some? && json2.email.Some?
    ensures FromJson(json1).email == FromJson(json2).email <==>
      var e1, e2 := json1.email.value, json2.email.value;
      |e1| == |e2| && forall k :: 0 <= k < |e1| ==> LowerChar(e1[k]) == LowerChar(e2[k])
  {
    var e1, e2 := json1.email.value, json2.email.value;
    if |e1| == |e2| && forall k :: 0 <= k < |e1| ==> LowerChar(e1[k]) == LowerChar(e2[k]) {
      assert ToLower(e1) == ToLower(e2);
    }
  }

  /** Domain round trip: a DTO taken to the domain and back keeps its email
      and names, takes the given masked uid, and loses password and gender. */
  lemma DomainRoundTrip(dto: UserDto, uid: Option<string>, maskedUid: string, createdAt: string, verified: bool)
    ensures FromDomain(ToDomain(dto, uid, maskedUid, createdAt, verified)) ==
      EmptyDto.(maskedUid := Some(maskedUid), email := dto.email,
                firstName := dto.firstName, lastName := dto.lastName)
  {
  }

  /** No chain of conversions that ends in the response JSON leaks a
      password: neither from a request nor from a stored user. */
  lemma NoPasswordLeaks(json: UserJson, user: User)
    ensures ToJson(FromJson(json)).passwordB64.None?
    ensures ToJson(FromDomain(user)).passwordB64.None?
    ensures FromDomain(user).password.None?
  {
  }
}
