/** What the hosted database hands back to the code that calls it: an
    error object that is passed along as it is. */
module Backend {

  /** A database or auth error; only its message is ever read. */
  datatype BackendError = BackendError(message: string)
}
