/** Option, Result and Outcome: the null references and exceptions of the launcher, made explicit. */
module Wrappers {

  /** A possibly absent value; `None` stands for Java's `null`. */
  datatype Option<+T> = None | Some(value: T)

  /** A value or the exception that aborted its computation. */
  datatype Result<+T, +E> = Ok(value: T) | Err(error: E)

  /** Normal completion or the exception that aborted a `void` operation. */
  datatype Outcome<+E> = Pass | Fail(error: E)
}

/** The exceptions that abort the launcher and reach the entry point. */
module Failures {

  datatype Fatal =
    /** RuntimeException "ssl requires a property value for: <option>" */
    | MissingKeyStore(option: string)
    /** NumberFormatException from Integer.parseInt or Integer.decode */
    | NotANumber(text: string)
    /** ConversionException: an override-file value that is not an integer */
    | NotAnInteger(key: string, text: string)
    /** NullPointerException from `new File(null)` when no temp directory is known */
    | NoTempDirectory
    /** NullPointerException from `new File(null)` when `user.home` is not set */
    | NoUserHome
    /** IOException "Error, could not add URL to system classloader": `addURL` cannot be reached or invoked by reflection */
    | ClassLoaderRefused
    /** IllegalArgumentException from Thread.sleep on a negative timeout */
    | NegativeTimeout(millis: int)
}
