/** Values shared by the request-outcome pipeline: optional values, the
    application statuses, the locale-independent message keys, the errors a
    handler can raise, and the `next` continuation of the HTTP framework. */
module Common {

  datatype Option<+T> = None | Some(value: T)

  /** The closed set of application-level outcome codes the core emits. */
  datatype ApplicationStatus = Success | InvalidInput | Unauthorized | InternalError

  /** Message-table keys. The locale tables themselves are not modelled; the
      duplicate-email message is the one key that carries a parameter. */
  datatype Message =
    | AuthorizationRequired
    | InvalidEmail
    | InvalidPassword
    | UserWasCreated
    | ErrorCreatingUser
    | UserWithEmailAlreadyExists(email: string)

  /** `ApplicationError(context, message, status)`, and any other value a
      promise can be rejected with or a statement can throw. */
  datatype ErrorValue =
    | ApplicationError(context: string, message: Message, status: ApplicationStatus)
    | OtherError(description: string)

  /** The framework's `next` function: every call is recorded, `None` for a
      plain `next()` and `Some(e)` for `next(e)`. */
  class NextFunction {
    var calls: seq<Option<ErrorValue>>

    constructor ()
      ensures calls == []
    {
      calls := [];
    }

    method Call(argument: Option<ErrorValue>)
      modifies this
      ensures calls == old(calls) + [argument]
    {
      calls := calls + [argument];
    }
  }
}
