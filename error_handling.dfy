/** The two ways the API reports a failure. The error middleware turns every
    exception that escapes a request handler into an HTTP status and a failed
    API response carrying a message. A request refused by its validator never
    reaches a handler: automatic validation records the failures in the model
    state, and the configured model-state factory writes the 400 reply. */
module ErrorHandling {
  import opened Common
  import opened Text

  const BadRequest: nat := 400
  const Unauthorized: nat := 401
  const InternalServerError: nat := 500
  const BadGateway: nat := 502

  const UnexpectedMessage: string := "An unexpected error occurred."
  const InvalidInputMessage: string := "Invalid input."
  const Separator: string := "; "

  /** `Enumerable.Distinct`: each value once, at its first occurrence. */
  function Distinct(xs: seq<string>): (r: seq<string>)
    ensures |r| <= |xs|
    ensures forall x :: x in r <==> x in xs
    ensures forall i, j :: 0 <= i < j < |r| ==> r[i] != r[j]
  {
    if xs == [] then []
    else
      var rest := Distinct(xs[..|xs| - 1]);
      var last := xs[|xs| - 1];
      assert forall x :: x in xs <==> x in xs[..|xs| - 1] || x == last;
      if last in rest then rest else rest + [last]
  }

  /** A list with no repeated value is its own distinct form. */
  lemma {:induction false} DistinctOfDistinct(xs: seq<string>)
    requires forall i, j :: 0 <= i < j < |xs| ==> xs[i] != xs[j]
    ensures Distinct(xs) == xs
  {
    if xs != [] {
      var init := xs[..|xs| - 1];
      DistinctOfDistinct(init);
      assert xs[|xs| - 1] !in init;
      assert init + [xs[|xs| - 1]] == xs;
    }
  }

  /** Removing repeats twice is removing them once. */
  lemma DistinctIdempotent(xs: seq<string>)
    ensures Distinct(Distinct(xs)) == Distinct(xs)
  {
    DistinctOfDistinct(Distinct(xs));
  }

  /** `string.Join(separator, parts)`. */
  function Join(separator: string, parts: seq<string>): (r: string)
    ensures parts == [] ==> r == []
    ensures |parts| == 1 ==> r == parts[0]
    ensures |parts| > 0 ==> |r| == SumOfLengths(parts) + (|parts| - 1) * |separator|
  {
    if parts == [] then []
    else if |parts| == 1 then parts[0]
    else Join(separator, parts[..|parts| - 1]) + separator + parts[|parts| - 1]
  }

  function SumOfLengths(parts: seq<string>): nat {
    if parts == [] then 0 else SumOfLengths(parts[..|parts| - 1]) + |parts[|parts| - 1]|
  }

  /** A joined text starts with the first part and ends with the last one. */
  lemma {:induction false} JoinBoundaries(separator: string, parts: seq<string>)
    requires |parts| > 0
    ensures parts[0] <= Join(separator, parts)
    ensures |parts[|parts| - 1]| <= |Join(separator, parts)|
    ensures Join(separator, parts)[|Join(separator, parts)| - |parts[|parts| - 1]|..] == parts[|parts| - 1]
  {
    if |parts| > 1 {
      var init := parts[..|parts| - 1];
      JoinBoundaries(separator, init);
      assert init[0] == parts[0];
      var j := Join(separator, init);
      assert Join(separator, parts) == j + separator + parts[|parts| - 1];
      assert parts[0] <= j;
    }
  }

  /** What the middleware writes: the status code and the message of a failed
      `ApiResponse`. */
  datatype ErrorReply = ErrorReply(statusCode: nat, message: string)

  /** The catch chain of `InvokeAsync`, one clause per exception kind. */
  function Dispatch(e: Error): (r: ErrorReply)
    ensures e.ValidationFailed? ==> r == ErrorReply(BadRequest, Join(Separator, Distinct(e.messages)))
    ensures e.DomainRule? || e.InvalidOperation? ==> r == ErrorReply(BadRequest, e.message)
    ensures e.InvalidSignature? ==> r == ErrorReply(Unauthorized, e.message)
    ensures e.Integration? ==> r == ErrorReply(BadGateway, e.message)
    ensures e.Unexpected? ==> r == ErrorReply(InternalServerError, UnexpectedMessage)
  {
    match e
    case ValidationFailed(messages) => ErrorReply(BadRequest, Join(Separator, Distinct(messages)))
    case DomainRule(message) => ErrorReply(BadRequest, message)
    case InvalidSignature(message) => ErrorReply(Unauthorized, message)
    case InvalidOperation(message) => ErrorReply(BadRequest, message)
    case Integration(message) => ErrorReply(BadGateway, message)
    case Unexpected(_) => ErrorReply(InternalServerError, UnexpectedMessage)
  }

  /** Only an unexpected exception is reported as a server error, and only a
      failed GitHub call as a gateway error; everything else is the client's. */
  lemma StatusClassifiesError(e: Error)
    ensures Dispatch(e).statusCode == InternalServerError <==> e.Unexpected?
    ensures Dispatch(e).statusCode == BadGateway <==> e.Integration?
    ensures Dispatch(e).statusCode == Unauthorized <==> e.InvalidSignature?
    ensures Dispatch(e).statusCode == BadRequest <==> e.ValidationFailed? || e.DomainRule? || e.InvalidOperation?
  {
  }

  /** An unexpected exception never leaks its own message. */
  lemma UnexpectedMessageHidden(m1: string, m2: string)
    ensures Dispatch(Unexpected(m1)) == Dispatch(Unexpected(m2))
  {
  }

  /** A validation failure reporting the same message several times shows it
      once; a single distinct message is shown as it is. */
  lemma RepeatedValidationMessageShownOnce(m: string, n: nat)
    requires n > 0
    ensures Dispatch(ValidationFailed(seq(n, _ => m))).message == m
  {
    DistinctOfRepeated(m, n);
  }

  lemma {:induction false} DistinctOfRepeated(m: string, n: nat)
    requires n > 0
    ensures Distinct(seq(n, _ => m)) == [m]
  {
    var ms := seq(n, _ => m);
    if n > 1 {
      DistinctOfRepeated(m, n - 1);
      assert ms[..n - 1] == seq(n - 1, _ => m);
    }
  }

  /** The message of a validation failure begins with its first message. */
  lemma ValidationMessageStartsWithFirst(messages: seq<string>)
    requires messages != []
    ensures messages[0] <= Dispatch(ValidationFailed(messages)).message
  {
    var d := Distinct(messages);
    assert messages[0] in d;
    DistinctKeepsFirst(messages);
    JoinBoundaries(Separator, d);
  }

  /** The first value of a non-empty list stays first after removing repeats. */
  lemma {:induction false} DistinctKeepsFirst(xs: seq<string>)
    requires xs != []
    ensures Distinct(xs) != [] && Distinct(xs)[0] == xs[0]
  {
    if |xs| > 1 {
      var init := xs[..|xs| - 1];
      DistinctKeepsFirst(init);
      assert init[0] == xs[0];
    }
  }

  // ------------------------------------------------- refused request models

  /** Each model-state error as shown: a blank message becomes "Invalid input.". */
  function ShownMessages(messages: seq<string>): (r: seq<string>)
    ensures |r| == |messages|
    ensures forall i :: 0 <= i < |r| ==> !IsBlank(r[i])
    ensures forall i :: 0 <= i < |r| && !IsBlank(messages[i]) ==> r[i] == messages[i]
    ensures forall i :: 0 <= i < |r| && IsBlank(messages[i]) ==> r[i] == InvalidInputMessage
  {
    assert !IsWhiteSpace(InvalidInputMessage[0]);
    seq(|messages|, i requires 0 <= i < |messages| => if IsBlank(messages[i]) then InvalidInputMessage else messages[i])
  }

  /** `InvalidModelStateResponseFactory`: a 400 whose message is the distinct
      shown messages joined by "; ". */
  function InvalidModelStateReply(messages: seq<string>): (r: ErrorReply)
    ensures r.statusCode == BadRequest
    ensures messages == [] <==> r.message == []
  {
    var shown := ShownMessages(messages);
    assert shown != [] ==> !IsBlank(shown[0]) && shown[0] != [];
    DistinctNonEmpty(shown);
    ErrorReply(BadRequest, Join(Separator, Distinct(shown)))
  }

  /** Removing repeats keeps a non-empty list non-empty, and keeps its first value first. */
  lemma DistinctNonEmpty(xs: seq<string>)
    ensures xs == [] <==> Distinct(xs) == []
    ensures xs != [] ==> Distinct(xs)[0] == xs[0]
  {
    if xs != [] {
      DistinctKeepsFirst(xs);
    }
  }

  /** The reply to a refused request begins with its first (shown) message. */
  lemma ModelStateReplyStartsWithFirst(messages: seq<string>)
    requires messages != []
    ensures ShownMessages(messages)[0] <= InvalidModelStateReply(messages).message
  {
    var shown := ShownMessages(messages);
    DistinctKeepsFirst(shown);
    JoinBoundaries(Separator, Distinct(shown));
  }

  /** When no message is blank, the model-state reply is exactly the reply the
      middleware gives for a validation exception with the same messages. */
  lemma ModelStateReplyMatchesMiddleware(messages: seq<string>)
    requires forall i :: 0 <= i < |messages| ==> !IsBlank(messages[i])
    ensures InvalidModelStateReply(messages) == Dispatch(ValidationFailed(messages))
  {
    assert ShownMessages(messages) == messages;
  }

  /** A model-state error without a message is shown as "Invalid input.", once. */
  lemma BlankErrorShownAsInvalidInput(blank: string, n: nat)
    requires IsBlank(blank) && n > 0
    ensures InvalidModelStateReply(seq(n, _ => blank)).message == InvalidInputMessage
  {
    assert ShownMessages(seq(n, _ => blank)) == seq(n, _ => InvalidInputMessage);
    DistinctOfRepeated(InvalidInputMessage, n);
  }

  // ------------------------------------------------------------ the response

  /** `ApiResponse<object>` as serialised: the error form has no data. */
  datatype ApiResponse = ApiResponse(success: bool, data: Option<()>, message: string)

  /** `ApiResponse<object>.Fail(message)` */
  function FailResponse(message: string): (r: ApiResponse)
    ensures !r.success && r.data.None? && r.message == message
  {
    ApiResponse(false, None, message)
  }

  /** The part of `HttpContext.Response` the middleware writes. */
  class HttpResponse {
    var contentType: string
    var statusCode: nat
    var body: seq<ApiResponse>

    /** A response nobody has written to yet. */
    constructor ()
      ensures contentType == [] && statusCode == 200 && body == []
    {
      contentType := [];
      statusCode := 200;
      body := [];
    }

    /** `WriteErrorAsync`: a JSON body holding one failed response. */
    method WriteError(statusCode': nat, message: string)
      modifies this
      ensures contentType == "application/json"
      ensures statusCode == statusCode'
      ensures body == old(body) + [FailResponse(message)]
    {
      contentType := "application/json";
      statusCode := statusCode';
      body := body + [FailResponse(message)];
    }

    /** `InvokeAsync` after `next` has run: `thrown` is the exception that
        escaped it, if any. Without one the response is left as it is. */
    method Handle(thrown: Option<Error>)
      modifies this
      ensures thrown.None? ==> unchanged(this)
      ensures thrown.Some? ==>
        && contentType == "application/json"
        && statusCode == Dispatch(thrown.value).statusCode
        && body == old(body) + [FailResponse(Dispatch(thrown.value).message)]
    {
      if thrown.Some? {
        var reply := Dispatch(thrown.value);
        WriteError(reply.statusCode, reply.message);
      }
    }
  }
}
