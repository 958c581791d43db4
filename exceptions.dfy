/** despot/exceptions.py and the other exceptions the modelled code raises or
    catches. */
module Exceptions {
  import opened Wrappers

  /** The concrete subclasses of `DespotException`. */
  datatype DespotClass = StreamErrorClass | FilenameTemplateErrorClass | ContentUnavailableErrorClass

  /** The class attribute `default_message`. */
  function DefaultMessage(c: DespotClass): string
  {
    match c
    case StreamErrorClass => "Failed to open stream"
    case FilenameTemplateErrorClass => "Invalid filename template"
    case ContentUnavailableErrorClass => "Track is not available to you"
  }

  /** `issubclass(c, base)` among the three classes:
      `ContentUnavailableError` derives from `StreamError`. */
  predicate IsSubclass(c: DespotClass, base: DespotClass)
  {
    c == base || (c == ContentUnavailableErrorClass && base == StreamErrorClass)
  }

  /** An exception as the modelled code raises it. */
  datatype Exc =
    | Despot(cls: DespotClass, message: string)
    | ValueError(args: seq<string>)         // `args` is empty for a bare `raise ValueError`
    | TypeError(unexpectedKeyword: string)  // a call with a keyword the callee does not accept
    | DuplicateKeyword                      // TypeError for an argument given twice; which one is not recorded
    | KeyError(key: string)
    | IndexError
    | AttributeError
    | NotImplementedError
    | RecursionError
    | RuntimeError(message: string)
    | StatusCodeException(code: int)        // librespot's ApiClient.StatusCodeException
    | FeederFailure                         // any other exception out of the content feeder
    | Abort(cause: Exc)                     // click's Abort, raised from `cause`

  /** `cls(msg)`: the message is `msg or cls.default_message`. */
  function Raise(c: DespotClass, msg: Option<string>): (e: Exc)
    ensures e.Despot? && e.cls == c
    ensures msg.Some? && msg.value != "" ==> e.message == msg.value
    ensures msg.None? || msg.value == "" ==> e.message == DefaultMessage(c)
  {
    Despot(c, if msg.Some? && msg.value != "" then msg.value else DefaultMessage(c))
  }

  /** `isinstance(e, StreamError)`. */
  predicate IsStreamError(e: Exc)
  {
    e.Despot? && IsSubclass(e.cls, StreamErrorClass)
  }

  /** A despot exception never carries an empty message, and the
      unavailable-content error is a stream error while the template error
      is not. */
  lemma RaiseProperties(c: DespotClass, msg: Option<string>)
    ensures Raise(c, msg).message != ""
    ensures IsStreamError(Raise(ContentUnavailableErrorClass, msg))
    ensures !IsStreamError(Raise(FilenameTemplateErrorClass, msg))
  {
  }
}
