/** The register-user use case: validate the DTO, build the user (hashing
    the password on a worker), check the email, check uniqueness, check the
    password, persist, and report exactly one outcome. */
module RegisterUser {
  import opened Common
  import opened UserDtos

  const USE_CASE_CONTEXT: string := "RegisterUserUseCase"

  /** What the use case's `Result` holds: nothing yet, an error set with
      `setError`, or a message set with `setMessage`. */
  datatype ResultState =
    | Fresh
    | Error(message: Message, status: ApplicationStatus)
    | Informed(message: Message, status: ApplicationStatus)

  /** How `execute` ends: it returns its result, or an exception leaves it. */
  datatype Completion = Returned(state: ResultState) | Threw(error: ErrorValue)

  /** A call to a collaborator, as a spy would record it. */
  datatype Call = HashTask(text: string) | LookupEmail(email: string) | PersistUser(user: User)

  /** The collaborators whose code is not part of this model. */
  datatype Collaborators = Collaborators(
    isValidEntry: Validations -> Verdict,               // Validator.isValidEntry
    emailIsValid: string -> bool,                       // Email.isValid
    passwordIsValid: Option<string> -> bool,            // isValidAsPassword(decodeBase64(p))
    encrypt: string -> string,                          // the ENCRYPT_PASSWORD worker task
    maskedUid: string,                                  // GuidUtil.getV4WithoutDashes()
    createdAt: string)                                  // DateTimeUtils.getISONow()

  datatype Run = Run(completion: Completion, calls: seq<Call>)

  const SUCCESS_STATE: ResultState := Informed(UserWasCreated, Success)

  /** `(user.email as Email).value` on a user without an email. */
  const UNDEFINED_EMAIL_ERROR: ErrorValue := OtherError("TypeError: reading 'value' of undefined")

  /** `Throw.when(CONTEXT, true, message, INVALID_INPUT)`. */
  function Thrown(message: Message): ErrorValue {
    ApplicationError(USE_CASE_CONTEXT, message, InvalidInput)
  }

  /** A template literal renders an undefined value as "undefined". */
  function TemplateText(value: Option<string>): string {
    match value
    case None => "undefined"
    case Some(s) => s
  }

  /** The worker's input text: the email value, a dash, the stored password. */
  function HashInput(email: string, password: Option<string>): (text: string)
    ensures |text| == |email| + 1 + |TemplateText(password)|
    ensures text[..|email|] == email && text[|email|] == '-'
    ensures text[|email| + 1..] == TemplateText(password)
    ensures password.None? ==> text[|email| + 1..] == "undefined"
  {
    email + "-" + TemplateText(password)
  }

  /** The call order `execute` follows: hash, then look up, then persist. */
  function Rank(call: Call): nat {
    match call
    case HashTask(_) => 0
    case LookupEmail(_) => 1
    case PersistUser(_) => 2
  }

  predicate InOrder(calls: seq<Call>) {
    |calls| <= 3 && forall k :: 0 <= k < |calls| ==> Rank(calls[k]) == k
  }

  predicate Persisted(calls: seq<Call>) {
    |calls| == 3 && calls[2].PersistUser?
  }

  /** The user `buildUser` produces: no uid, a fresh masked uid and creation
      time, not verified, and the worker's hash as password. */
  function BuiltUser(dto: UserDto, env: Collaborators, email: string): (user: User)
    ensures user.uid == None && !user.verified
    ensures user.maskedUid == Some(env.maskedUid) && user.createdAt == Some(env.createdAt)
    ensures user.email == dto.email && user.firstName == dto.firstName
    ensures user.lastName == dto.lastName && user.gender == dto.gender
    ensures user.password == Some(env.encrypt(HashInput(email, dto.password)))
  {
    ToDomain(dto, None, env.maskedUid, env.createdAt, false)
      .(password := Some(env.encrypt(HashInput(email, dto.password))))
  }

  /** Every step of `execute` passes for this request. */
  predicate AllStepsPass(args: UserJson, env: Collaborators, known: set<string>, persists: User -> bool) {
    var dto := FromJson(args);
    && env.isValidEntry(RegistrationFields(dto)).Valid?
    && dto.email.Some?
    && env.emailIsValid(dto.email.value)
    && dto.email.value !in known
    && env.passwordIsValid(dto.password)
    && persists(BuiltUser(dto, env, dto.email.value))
  }

  /** The specification of `execute` for a repository that knows the emails
      `known` and whose `register` succeeds for the users `persists` accepts. */
  function Execution(args: UserJson, env: Collaborators, known: set<string>, persists: User -> bool): (r: Run)
    // Collaborators are called in the fixed order, each at most once.
    ensures InOrder(r.calls)
    // A DTO the validator refuses ends the run before any collaborator call.
    ensures var verdict := env.isValidEntry(RegistrationFields(FromJson(args)));
      verdict.Invalid? ==> r == Run(Returned(Error(verdict.message, verdict.status)), [])
    // Success is reported exactly when every step passed.
    ensures r.completion == Returned(SUCCESS_STATE) <==> AllStepsPass(args, env, known, persists)
    // Hashing precedes the email check, which precedes any repository call.
    ensures |r.calls| >= 2 ==> FromJson(args).email.Some? && env.emailIsValid(FromJson(args).email.value)
    ensures r.completion == Threw(Thrown(InvalidEmail)) ==> |r.calls| == 1
    // Only an unknown email with an acceptable password reaches `register`;
    // the user stored has the lower-cased email, no uid and is unverified.
    ensures Persisted(r.calls) ==>
      var dto := FromJson(args);
      && dto.email.Some? && dto.email.value !in known
      && env.passwordIsValid(dto.password)
      && r.calls[2].user == BuiltUser(dto, env, dto.email.value)
      && r.calls[2].user.email == dto.email
      && r.calls[2].user.uid.None? && !r.calls[2].user.verified
    // A known email is reported with that email, and `register` is not called.
    ensures |r.calls| == 2 && r.completion.Returned? ==>
      && r.calls[1].email == FromJson(args).email.value
      && r.calls[1].email in known
      && r.completion.state == Error(UserWithEmailAlreadyExists(r.calls[1].email), InvalidInput)
    // A valid DTO without an email crashes before any collaborator call.
    ensures var dto := FromJson(args);
      env.isValidEntry(RegistrationFields(dto)).Valid? && dto.email.None? ==>
        r == Run(Threw(UNDEFINED_EMAIL_ERROR), [])
    // With a valid DTO and an email, the first failing check decides the outcome.
    ensures var dto := FromJson(args);
      env.isValidEntry(RegistrationFields(dto)).Valid? && dto.email.Some? ==>
        var e := dto.email.value;
        var hash := HashTask(HashInput(e, dto.password));
        && (!env.emailIsValid(e) ==> r == Run(Threw(Thrown(InvalidEmail)), [hash]))
        && (env.emailIsValid(e) && e in known ==>
              r == Run(Returned(Error(UserWithEmailAlreadyExists(e), InvalidInput)), [hash, LookupEmail(e)]))
        && (env.emailIsValid(e) && e !in known && !env.passwordIsValid(dto.password) ==>
              r == Run(Threw(Thrown(InvalidPassword)), [hash, LookupEmail(e)]))
        && (env.emailIsValid(e) && e !in known && env.passwordIsValid(dto.password) ==>
              && Persisted(r.calls)
              && r.calls == [hash, LookupEmail(e), PersistUser(BuiltUser(dto, env, e))])
    // A failing `register` is an internal error.
    ensures Persisted(r.calls) ==>
      r.completion.Returned? && r.completion.state == if persists(r.calls[2].user) then SUCCESS_STATE else Error(ErrorCreatingUser, InternalError)
  {
    var dto := FromJson(args);
    match env.isValidEntry(RegistrationFields(dto))
    case Invalid(message, status) => Run(Returned(Error(message, status)), [])
    case Valid =>
      if dto.email.None? then Run(Threw(UNDEFINED_EMAIL_ERROR), [])
      else
        var email := dto.email.value;
        var user := BuiltUser(dto, env, email);
        var hashed := [HashTask(HashInput(email, dto.password))];
        if !env.emailIsValid(email) then Run(Threw(Thrown(InvalidEmail)), hashed)
        else
          var looked := hashed + [LookupEmail(email)];
          if email in known then Run(Returned(Error(UserWithEmailAlreadyExists(email), InvalidInput)), looked)
          else if !env.passwordIsValid(dto.password) then Run(Threw(Thrown(InvalidPassword)), looked)
          else
            var persisted := looked + [PersistUser(user)];
            if !persists(user) then Run(Returned(Error(ErrorCreatingUser, InternalError)), persisted)
            else Run(Returned(SUCCESS_STATE), persisted)
  }

  /** Registering the same email again, in any letter case, after a success
      is refused with that email once the second request passes validation,
      and nothing is persisted the second time. */
  lemma SecondRegistrationRejected(
    first: UserJson, second: UserJson, env: Collaborators, known: set<string>, persists: User -> bool
  )
    requires Execution(first, env, known, persists).completion == Returned(SUCCESS_STATE)
    requires FromJson(second).email == FromJson(first).email
    requires env.isValidEntry(RegistrationFields(FromJson(second))).Valid?
    ensures var email := FromJson(first).email.value;
      && Execution(second, env, known + {email}, persists).completion
         == Returned(Error(UserWithEmailAlreadyExists(email), InvalidInput))
      && !Persisted(Execution(second, env, known + {email}, persists).calls)
  {
  }

  /** The use case's `Result` object. */
  class UseCaseResult {
    var state: ResultState

    constructor ()
      ensures state == Fresh
    {
      state := Fresh;
    }

    method SetError(message: Message, status: ApplicationStatus)
      modifies this
      ensures state == Error(message, status)
    {
      state := Error(message, status);
    }

    method SetMessage(message: Message, status: ApplicationStatus)
      modifies this
      ensures state == Informed(message, status)
    {
      state := Informed(message, status);
    }
  }

  /** The user repository: the emails it knows, and which users its
      `register` accepts (a store failure is a falsy result). */
  class UserRepository {
    var emails: set<string>
    const persists: User -> bool

    constructor (emails: set<string>, persists: User -> bool)
      ensures this.emails == emails && this.persists == persists
    {
      this.emails := emails;
      this.persists := persists;
    }

    method GetByEmail(email: string) returns (found: bool)
      ensures found <==> email in emails
    {
      found := email in emails;
    }

    method Register(user: User) returns (registered: bool)
      modifies this
      ensures registered == persists(user)
      ensures emails == if registered && user.email.Some? then old(emails) + {user.email.value} else old(emails)
    {
      registered := persists(user);
      if registered && user.email.Some? {
        emails := emails + {user.email.value};
      }
    }
  }

  class RegisterUserUseCase {
    const userRepository: UserRepository
    const env: Collaborators
    /** Every collaborator call made so far, in order. */
    var calls: seq<Call>

    constructor (userRepository: UserRepository, env: Collaborators)
      ensures this.userRepository == userRepository && this.env == env && calls == []
    {
      this.userRepository := userRepository;
      this.env := env;
      calls := [];
    }

    /** `execute`: one completion per call, the collaborator calls the
        specification lists, and a new known email only on success. */
    method Execute(args: UserJson) returns (completion: Completion)
      modifies this, userRepository
      ensures var run := Execution(args, env, old(userRepository.emails), userRepository.persists);
        completion == run.completion && calls == old(calls) + run.calls
      ensures userRepository.emails ==
        if completion == Returned(SUCCESS_STATE) then old(userRepository.emails) + {FromJson(args).email.value}
        else old(userRepository.emails)
    {
      var result := new UseCaseResult();
      var userDto := FromJson(args);
      var verdict := env.isValidEntry(RegistrationFields(userDto));
      if verdict.Invalid? {
        result.SetError(verdict.message, verdict.status);
        return Returned(result.state);
      }

      var user, buildError := BuildUser(userDto);
      if buildError.Some? {
        return Threw(buildError.value);
      }

      var emailError := ValidateEmail(user.email);
      if emailError.Some? {
        return Threw(emailError.value);
      }

      var userExists := UserExists(result, user.email.value);
      if userExists {
        return Returned(result.state);
      }

      var passwordError := ValidatePassword(userDto.password);
      if passwordError.Some? {
        return Threw(passwordError.value);
      }

      var userRegistered := RegisterUser(result, user);
      if !userRegistered {
        return Returned(result.state);
      }

      result.SetMessage(UserWasCreated, Success);
      return Returned(result.state);
    }

    /** `validateEmail`: the error `Throw.when` raises, if any. */
    method ValidateEmail(email: Option<string>) returns (thrown: Option<ErrorValue>)
      ensures thrown == if email.Some? && env.emailIsValid(email.value) then None else Some(Thrown(InvalidEmail))
    {
      var isValidEmail := email.Some? && env.emailIsValid(email.value);
      thrown := if !isValidEmail then Some(Thrown(InvalidEmail)) else None;
    }

    /** `validatePassword`: the error `Throw.when` raises, if any. */
    method ValidatePassword(passwordBase64: Option<string>) returns (thrown: Option<ErrorValue>)
      ensures thrown == if env.passwordIsValid(passwordBase64) then None else Some(Thrown(InvalidPassword))
    {
      var isValidPassword := env.passwordIsValid(passwordBase64);
      thrown := if !isValidPassword then Some(Thrown(InvalidPassword)) else None;
    }

    /** `userExists`: a known email is recorded as an INVALID_INPUT error
        naming it. */
    method UserExists(result: UseCaseResult, email: string) returns (found: bool)
      modifies this, result
      ensures calls == old(calls) + [LookupEmail(email)]
      ensures found <==> email in userRepository.emails
      ensures result.state ==
        if found then Error(UserWithEmailAlreadyExists(email), InvalidInput) else old(result.state)
    {
      calls := calls + [LookupEmail(email)];
      found := userRepository.GetByEmail(email);
      if found {
        result.SetError(UserWithEmailAlreadyExists(email), InvalidInput);
      }
    }

    /** `buildUser`: the domain user with the worker's hash as password, or
        the TypeError raised when the user has no email to hash with. */
    method BuildUser(userDto: UserDto) returns (user: User, thrown: Option<ErrorValue>)
      modifies this
      ensures thrown.None? <==> userDto.email.Some?
      ensures thrown.Some? ==> thrown.value == UNDEFINED_EMAIL_ERROR && calls == old(calls)
      ensures thrown.None? ==>
        && user == BuiltUser(userDto, env, userDto.email.value)
        && calls == old(calls) + [HashTask(HashInput(userDto.email.value, userDto.password))]
    {
      var maskedUid := env.maskedUid;
      var createdAt := env.createdAt;
      user := ToDomain(userDto, None, maskedUid, createdAt, false);
      var hash, error := EncryptPassword(user);
      if error.Some? {
        return user, error;
      }
      user := user.(password := Some(hash));
      thrown := None;
    }

    /** `encryptPassword`: one worker task on `email-password`. */
    method EncryptPassword(user: User) returns (hash: string, thrown: Option<ErrorValue>)
      modifies this
      ensures thrown.None? <==> user.email.Some?
      ensures thrown.Some? ==> thrown.value == UNDEFINED_EMAIL_ERROR && calls == old(calls)
      ensures thrown.None? ==>
        && hash == env.encrypt(HashInput(user.email.value, user.password))
        && calls == old(calls) + [HashTask(HashInput(user.email.value, user.password))]
    {
      if user.email.None? {
        return "", Some(UNDEFINED_EMAIL_ERROR);
      }
      var text := HashInput(user.email.value, user.password);
      calls := calls + [HashTask(text)];
      hash := env.encrypt(text);
      thrown := None;
    }

    /** `registerUser`: a falsy `register` is recorded as INTERNAL_ERROR. */
    method RegisterUser(result: UseCaseResult, user: User) returns (registered: bool)
      modifies this, result, userRepository
      ensures calls == old(calls) + [PersistUser(user)]
      ensures registered == userRepository.persists(user)
      ensures userRepository.emails ==
        if registered && user.email.Some? then old(userRepository.emails) + {user.email.value}
        else old(userRepository.emails)
      ensures result.state == if registered then old(result.state) else Error(ErrorCreatingUser, InternalError)
    {
      calls := calls + [PersistUser(user)];
      registered := userRepository.Register(user);
      if !registered {
        result.SetError(ErrorCreatingUser, InternalError);
      }
    }
  }
}
