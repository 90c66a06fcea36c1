/**
 * The last-resort error responder (src/middleware/errorHandler.js): it
 * classifies an error and answers `{ success: false, error, stack? }`.
 */
module ErrorHandler {
  import opened Values

  const DuplicateKeyCode := 11000
  const CastMessage := "Resource not found"
  const DuplicateMessage := "Duplicate field value entered"
  const FallbackMessage := "Server Error"

  /**
   * The properties of a thrown error that the responder reads:
   * `fieldMessages` are the messages of `err.errors`, in their order.
   */
  datatype ErrorInfo = ErrorInfo(
    name: string,
    code: Option<int>,
    statusCode: Option<int>,
    message: Option<string>,
    fieldMessages: seq<string>,
    stack: Option<string>)

  /** The handler's local `error`: the message and status code it ends with. */
  datatype Classified = Classified(message: Option<string>, statusCode: Option<int>)

  /** The JSON body. `stack` is absent when None (JSON drops an undefined value). */
  datatype ErrorBody = ErrorBody(success: bool, error: string, stack: Option<string>)

  datatype ErrorReply = ErrorReply(status: int, body: ErrorBody)

  /** `Object.values(err.errors).map(v => v.message).join(sep)`. */
  function Join(parts: seq<string>, sep: string): (r: string)
    ensures parts == [] ==> r == ""
    ensures parts != [] ==> |parts[0]| <= |r| && r[..|parts[0]|] == parts[0]
  {
    if parts == [] then ""
    else if |parts| == 1 then parts[0]
    else parts[0] + sep + Join(parts[1..], sep)
  }

  /** Joining two non-empty lists of messages puts one separator between the two joins. */
  lemma {:induction false} JoinAppend(a: seq<string>, b: seq<string>, sep: string)
    requires a != [] && b != []
    ensures Join(a + b, sep) == Join(a, sep) + sep + Join(b, sep)
  {
    if |a| == 1 {
      assert (a + b)[1..] == b;
    } else {
      assert (a + b)[1..] == a[1..] + b;
      JoinAppend(a[1..], b, sep);
    }
  }

  /** With a non-empty separator, the join is empty only for no message or one empty message. */
  lemma JoinEmptyIff(parts: seq<string>, sep: string)
    requires sep != ""
    ensures Join(parts, sep) == "" <==> parts == [] || (|parts| == 1 && parts[0] == "")
  {
  }

  /**
   * The chain of `if`s: start from the error's own message and status code,
   * and let each matching rule replace the whole record; the last match wins.
   */
  function Classify(err: ErrorInfo): (c: Classified)
    ensures err.name == "ValidationError" ==> c == Classified(Some(Join(err.fieldMessages, ", ")), Some(400))
    ensures err.name != "ValidationError" && err.code == Some(DuplicateKeyCode)
            ==> c == Classified(Some(DuplicateMessage), Some(400))
    ensures err.name != "ValidationError" && err.code != Some(DuplicateKeyCode) && err.name == "CastError"
            ==> c == Classified(Some(CastMessage), Some(404))
    ensures err.name != "ValidationError" && err.code != Some(DuplicateKeyCode) && err.name != "CastError"
            ==> c == Classified(err.message, err.statusCode)
  {
    var e := Classified(err.message, err.statusCode);
    var e := if err.name == "CastError" then Classified(Some(CastMessage), Some(404)) else e;
    var e := if err.code == Some(DuplicateKeyCode) then Classified(Some(DuplicateMessage), Some(400)) else e;
    var e := if err.name == "ValidationError" then Classified(Some(Join(err.fieldMessages, ", ")), Some(400)) else e;
    e
  }

  /** `x || fallback` for a status code: absent and 0 are falsy. */
  function StatusOr(code: Option<int>, fallback: int): int
  {
    if code.Some? && code.value != 0 then code.value else fallback
  }

  /** `x || fallback` for a message: absent and "" are falsy. */
  function MessageOr(message: Option<string>, fallback: string): string
  {
    if message.Some? && message.value != "" then message.value else fallback
  }

  /** The reply for `err`; `nodeEnv` is `process.env.NODE_ENV`. */
  function HandleError(err: ErrorInfo, nodeEnv: Option<string>): (r: ErrorReply)
    ensures !r.body.success
    ensures r.body.error != ""
    ensures r.body.stack == (if nodeEnv == Some("development") then err.stack else None)
    ensures err.name == "ValidationError" ==>
      && r.status == 400
      && r.body.error == MessageOr(Some(Join(err.fieldMessages, ", ")), FallbackMessage)
    ensures err.name != "ValidationError" && err.code == Some(DuplicateKeyCode) ==>
      r.status == 400 && r.body.error == DuplicateMessage
    ensures err.name == "CastError" && err.code != Some(DuplicateKeyCode) ==>
      r.status == 404 && r.body.error == CastMessage
    ensures err.name != "CastError" && err.name != "ValidationError" && err.code != Some(DuplicateKeyCode) ==>
      r.status == StatusOr(err.statusCode, 500) && r.body.error == MessageOr(err.message, FallbackMessage)
  {
    var e := Classify(err);
    ErrorReply(
      StatusOr(e.statusCode, 500),
      ErrorBody(false, MessageOr(e.message, FallbackMessage),
                if nodeEnv == Some("development") then err.stack else None))
  }

  /** A validation error with messages "m1", ..., "mn" (n >= 1, not all empty) answers them joined by ", ". */
  lemma {:induction false} ValidationMessagesJoined(err: ErrorInfo, nodeEnv: Option<string>)
    requires err.name == "ValidationError"
    requires |err.fieldMessages| >= 2 || (|err.fieldMessages| == 1 && err.fieldMessages[0] != "")
    ensures HandleError(err, nodeEnv).status == 400
    ensures HandleError(err, nodeEnv).body.error == Join(err.fieldMessages, ", ")
  {
    JoinEmptyIff(err.fieldMessages, ", ");
  }

  /**
   * The validation rule is checked last: a validation error answers the
   * same whatever name-independent rule also matched, here a duplicate-key
   * code or an own status code and message.
   */
  lemma ValidationOverridesEarlierRules(err: ErrorInfo, nodeEnv: Option<string>)
    requires err.name == "ValidationError"
    ensures HandleError(err, nodeEnv)
            == HandleError(err.(code := None, statusCode := None, message := None), nodeEnv)
  {
  }

  /** The duplicate-key rule overrides a cast error: a CastError with code 11000 answers 400. */
  lemma DuplicateKeyOverridesCast(err: ErrorInfo, nodeEnv: Option<string>)
    requires err.name == "CastError" && err.code == Some(DuplicateKeyCode)
    ensures HandleError(err, nodeEnv).status == 400
    ensures HandleError(err, nodeEnv).body.error == DuplicateMessage
  {
  }

  /** A validation error whose `errors` is empty still answers 400, with the fallback message. */
  lemma EmptyValidationErrorFallsBack(err: ErrorInfo, nodeEnv: Option<string>)
    requires err.name == "ValidationError" && err.fieldMessages == []
    ensures HandleError(err, nodeEnv).status == 400
    ensures HandleError(err, nodeEnv).body.error == FallbackMessage
  {
  }

  /** A status code of 0 is falsy: the reply is 500. */
  lemma ZeroStatusIs500(err: ErrorInfo, nodeEnv: Option<string>)
    requires err.name != "CastError" && err.name != "ValidationError" && err.code != Some(DuplicateKeyCode)
    requires err.statusCode == Some(0)
    ensures HandleError(err, nodeEnv).status == 500
  {
  }

  /** The stack appears in the body exactly in development mode (and when the error has one). */
  lemma StackOnlyInDevelopment(err: ErrorInfo, nodeEnv: Option<string>)
    ensures HandleError(err, nodeEnv).body.stack.Some? <==> nodeEnv == Some("development") && err.stack.Some?
  {
  }
}
