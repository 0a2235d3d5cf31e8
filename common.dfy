/** Values shared by the listener, the registrar and the command handlers. */
module Common {

  datatype Option<+T> = None | Some(value: T)

  /** The sender of a datagram, as dgram's `rinfo` gives it (family and size are not used). */
  datatype RemoteInfo = RemoteInfo(address: string, port: int)

  /** A transport-level socket error: the failing system call and the error code. */
  datatype SocketError = SocketError(syscall: string, code: string)

  /** What a thrown error, or an exit, carries. */
  datatype Reason =
    | Message(text: string)        // an error whose `message` is `text`, or a plain text message
    | NullSocket                   // a property read on the socket handle while it is still null
    | MissingServer                // a property read on an undefined server reference
    | SocketNotRunning             // dgram refuses to use a closed socket
    | SocketAlreadyBound           // dgram refuses to bind a socket twice
    | SocketFailure(error: SocketError)  // the socket error object itself
}
