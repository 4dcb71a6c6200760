/** The exceptions the library throws, and the Result/Outcome wrappers that carry them
    out of an operation in place of a C++ throw. */
module Errors {

  /** One constructor per exception class the core throws or lets propagate. */
  datatype Exception =
    | PollError(code: int)                                   // PollException, built from the OS error code
    | InvalidSocketConnection(message: string, descriptor: int) // InvalidSocketConnectionException
    | BadChannel                                             // Channels::BadChannelException
    | ConnectionClosed                                       // ChanneledSocketConnection::ConnectionClosedException
    | InvalidStateTransition                                 // Server/Client::InvalidStateTransitionException
    | InvalidSocketPoll                                      // Client::InvalidSocketPollException
    | OutOfRange                                             // std::out_of_range from unordered_map::at
    | ConnectError | BindError | ListenError | AcceptError   // the socket layer's failures
  {
    /** InvalidSocketConnectionException derives from PollException. */
    predicate IsPollException() {
      PollError? || InvalidSocketConnection?
    }

    /** The descriptor an InvalidSocketConnectionException was built with. */
    function GetDescriptor(): (fd: int)
      requires InvalidSocketConnection?
      ensures this == InvalidSocketConnection(message, fd)
    {
      descriptor
    }
  }

  datatype Result<+T> = Success(value: T) | Failure(error: Exception) {
    predicate IsFailure() { Failure? }

    function PropagateFailure<U>(): Result<U>
      requires Failure?
    {
      Failure(error)
    }

    function Extract(): T
      requires Success?
    {
      value
    }
  }

  datatype Outcome = Pass | Fail(error: Exception) {
    predicate IsFailure() { Fail? }

    function PropagateFailure(): Outcome
      requires Fail?
    {
      this
    }
  }

  /** An InvalidSocketConnectionException is caught by a handler for PollException,
      and reports the descriptor it was raised for. */
  lemma InvalidSocketConnectionIsPollException(message: string, fd: int)
    ensures InvalidSocketConnection(message, fd).IsPollException()
    ensures InvalidSocketConnection(message, fd).GetDescriptor() == fd
  {
  }
}
