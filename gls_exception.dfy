/**
 * The exception record of the GLS client library (src/pygls/GLSException.py)
 * and the error codes the module defines.
 */
module GLSExceptions {
  import opened Wrappers

  /** Error code: unknown error. */
  const EcUnknownError: int := 0
  /** Error code: the server does not support the requested protocol version. */
  const EcVersionNotSupported: int := 1

  /**
   * The value of the module attribute `name`, as `GLSException.<name>` reads it;
   * `None` when the module defines no such name, where Python raises an AttributeError.
   */
  function ErrorCode(name: string): (code: Option<int>)
  {
    if name == "EC_UNKNOWN_ERROR" then Some(EcUnknownError)
    else if name == "EC_VERSION_NOT_SUPPORTED" then Some(EcVersionNotSupported)
    else None
  }

  /**
   * A GLS exception: a one-line message, an optional error code and an optional
   * detailed message. The fields are set once, at construction.
   */
  datatype GLSException = GLSException(msg: string, errorCode: Option<int>, longMsg: Option<string>)
  {
    function GetMsg(): (m: string) { msg }

    function GetErrorCode(): (code: Option<int>) { errorCode }

    function GetLongMsg(): (m: Option<string>) { longMsg }
  }

  /** The constructor; `errorCode` and `longMsg` may be omitted and then are `None`. */
  function NewGLSException(msg: string, errorCode: Option<int> := None, longMsg: Option<string> := None): (e: GLSException)
    ensures e.GetMsg() == msg && e.GetErrorCode() == errorCode && e.GetLongMsg() == longMsg
  {
    GLSException(msg, errorCode, longMsg)
  }

  /** An exception built with the message alone has neither an error code nor a long message. */
  lemma DefaultsAreNone(msg: string)
    ensures NewGLSException(msg).GetErrorCode() == None
    ensures NewGLSException(msg).GetLongMsg() == None
    ensures NewGLSException(msg).GetMsg() == msg
  {
  }

  /**
   * Exactly two error codes are defined, 0 and 1, and they differ; in particular
   * there is no `EC_AUTHENTICATION_ERROR`.
   */
  lemma DefinedErrorCodes()
    ensures EcUnknownError == 0 && EcVersionNotSupported == 1
    ensures ErrorCode("EC_UNKNOWN_ERROR") == Some(EcUnknownError)
    ensures ErrorCode("EC_VERSION_NOT_SUPPORTED") == Some(EcVersionNotSupported)
    ensures forall name :: ErrorCode(name).Some? <==>
              name == "EC_UNKNOWN_ERROR" || name == "EC_VERSION_NOT_SUPPORTED"
    ensures ErrorCode("EC_AUTHENTICATION_ERROR") == None
  {
  }
}
