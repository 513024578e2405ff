/** Values shared by every component: optional values, results and the error catalog. */
module Errors {

  datatype Option<+T> = None | Some(value: T)

  datatype Result<+T> = Ok(value: T) | Err(error: Error)

  /** The error values the SDK distinguishes.  `Transport` stands for every error that comes from
      outside the catalog and is not a context error, `Untyped` for one made on the spot; `cause` is the
      wrapped error. */
  datatype Error =
    | Canceled
    | DeadlineExceeded
    | Transport(code: int)
    | AuthError(status: int, cause: Option<Error>)
    | CommunicationError(status: int, attempt: int, cause: Option<Error>)
    | ScanError(scanId: string, reason: string)
    | ReportError(reportId: string)
    | Untyped(message: string, subject: string)
    | ConfigurationError(field: string)
  {
    /** errors.As(err, *AuthError). */
    predicate HasAuth() {
      AuthError? || (match this
                     case CommunicationError(_, _, Some(e)) => e.HasAuth()
                     case _ => false)
    }

    /** errors.As(err, *CommunicationError). */
    predicate HasCommunication() {
      CommunicationError? || (match this
                              case AuthError(_, Some(e)) => e.HasCommunication()
                              case _ => false)
    }

    /** errors.Is(err, context.Canceled) || errors.Is(err, context.DeadlineExceeded). */
    predicate IsCancellation() {
      Canceled? || DeadlineExceeded? || (match this
                                         case AuthError(_, Some(e)) => e.IsCancellation()
                                         case CommunicationError(_, _, Some(e)) => e.IsCancellation()
                                         case _ => false)
    }

    /** The error and everything it wraps, outermost first. */
    function Chain(): seq<Error> {
      match this
      case AuthError(_, Some(e)) => [this] + e.Chain()
      case CommunicationError(_, _, Some(e)) => [this] + e.Chain()
      case _ => [this]
    }

    /** The three tests look through the whole chain. */
    lemma {:induction false} KindsAreInTheChain()
      ensures HasAuth() <==> exists x :: x in Chain() && x.AuthError?
      ensures HasCommunication() <==> exists x :: x in Chain() && x.CommunicationError?
      ensures IsCancellation() <==> Canceled in Chain() || DeadlineExceeded in Chain()
    {
      assert this in Chain();
      match this
      case AuthError(_, Some(e)) => e.KindsAreInTheChain();
      case CommunicationError(_, _, Some(e)) => e.KindsAreInTheChain();
      case _ =>
    }
  }
}
