/** Failures as the library sees them.

    A thrown failure is described by the set of exception classes it is an
    instance of (its class and every supertype that matters here) and by its
    optional detail message. An `is X` test in the source becomes `X in tags`,
    so nothing is assumed about how the exception classes are related. */
module Failures {

  datatype Option<+T> = None | Some(value: T)

  /** The exception classes the core tests for, and any other class by name. */
  datatype ExceptionClass =
    | UnknownHostException
    | URLParseException
    | NetConnectException
    | NetSocketTimeoutException
    | DownloadFileException
    | ConvertException
    | RequestParamsException
    | ServerResponseException
    | NullPointerException
    | NoCacheException
    | ResponseException
    | NetException
    | IOException
    | CancellationException
    | OtherClass(name: string)

  /** A thrown failure: the classes it is an instance of and `Throwable.message`. */
  datatype Throwable = Throwable(tags: set<ExceptionClass>, message: Option<string>)
}
