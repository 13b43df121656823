/** Values and failures shared by every part of the gateway model.
    Python exceptions become `Err(kind)`; the kinds name the exception class
    the source raises (or lets escape) at that point. */
module Outcomes {

  datatype Option<+T> = None | Some(value: T)

  /** The codes carried by the gateway's own BTLEException. */
  datatype BtleCode = Disconnected | CommError | InternalError

  datatype Error =
    | ValueError           // UUID range or length, int(s, 16) on a non-hex string
    | TypeError            // binascii.a2b_hex on odd-length or non-hex text (Python 2)
    | IndexError           // a token or list index past the end
    | KeyError             // dictionary lookup of a missing key
    | StructError          // struct.unpack given the wrong number of bytes
    | AttributeError       // an attribute the receiver does not have (None.upper, set.append)
    | NameError            // an undefined name evaluated
    | PexpectTimeout       // pexpect.TIMEOUT: gatttool did not answer in time
    | PexpectEof           // pexpect.EOF: the gatttool process has exited
    | Btle(code: BtleCode) // BTLEException(code, message)
  {
    /** Raised by the pexpect transport rather than by the gateway's code. */
    predicate Transport() {
      this == PexpectTimeout || this == PexpectEof
    }
  }

  datatype Result<+T> = Ok(value: T) | Err(error: Error) {
    predicate IsFailure() { Err? }

    function PropagateFailure<U>(): Result<U>
      requires Err?
    {
      Err(error)
    }

    function Extract(): T
      requires Ok?
    {
      value
    }
  }

  /** A result without a value, for operations that only succeed or raise. */
  datatype Outcome = Pass | Fail(error: Error) {
    predicate IsFailure() { Fail? }

    function PropagateFailure<U>(): Result<U>
      requires Fail?
    {
      Err(error)
    }
  }

  /** What one pexpect `expect` call gives back: the matched text, or one of
      the two exceptions pexpect raises instead. */
  datatype Resp = Matched(text: string) | Timeout | Eof
}
