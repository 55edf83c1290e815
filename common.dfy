/** Values shared by both Pardot clients: Go's 64-bit `int`, optional values,
    and the error values the clients return. */
module Common {

  const MinInt: int := -0x8000_0000_0000_0000
  const MaxInt: int := 0x7fff_ffff_ffff_ffff

  /** Go's `int` on a 64-bit platform. */
  type GoInt = n: int | MinInt <= n <= MaxInt

  /** The API version segment both packages put into every path. */
  const Version: string := "version/4"

  datatype Option<T> = None | Some(value: T) {
    function GetOr(default: T): T {
      if Some? then value else default
    }
  }

  /** The Go error values of the core, one constructor per kind. The text of
      errors produced by the Go standard library is not modelled; they get a
      constructor of their own. */
  datatype Error =
    | LoginFailed(msg: string)                       // ErrLoginFailed: Pardot error code 15
    | InvalidJson(msg: string)                       // ErrInvalidJSON: Pardot error code 71
    | QueryProspectsEof                              // QueryProspectsEOF: the page had no prospects key
    | BatchCreateErrors(errors: map<GoInt, string>)  // BatchCreateProspectErrors
    | BatchUpdateErrors(errors: map<GoInt, string>)  // BatchUpdateProspectErrors
    | Plain(msg: string)                             // errors.New
    | Wrapped(context: string, cause: Error)         // errors.Wrap
    | Transport(reason: string)                      // http.Client.Do failed
    | ReadBody                                       // ioutil.ReadAll failed
    | JsonSyntax                                     // the bytes are not JSON
    | JsonType                                       // a JSON value does not fit its Go destination
    | JsonTarget                                     // json.Unmarshal into a nil destination
    | Marshal(reason: string)                        // json.Marshal failed

  /** The two results of a Go function returning `(T, error)`. */
  datatype Result<T> = Ok(value: T) | Err(error: Error)

  /** What a call of a client can end in: a value, an error, or a Go panic. */
  datatype Outcome<T> = Done(value: T) | Failed(error: Error) | Panicked(reason: string)
}
