/**
 * Error chains: the rpc package's ClientError, the market package's SDKError, and the plain errors around them.
 * Covers sdk/rpc/errors.go, sdk/market/errors.go, sdk/market/error_classification.go and toSDKError.
 */
module Errors {
  import opened Basics

  datatype Kind = RateLimited | Timeout | RpcUnavailable | Unknown

  datatype Code =
    | InvalidArgument | NotFound | UnsupportedRoute | AccountNotFound | RpcFailure
    | DecodeFailure | TooManyRequests | Unavailable | TimedOut | Internal

  /**
   * An error value with the chain Unwrap walks.  A plain error renders its cause between two texts of its own, is
   * or is not context.DeadlineExceeded, and may be a net.Error that says whether it timed out.
   */
  datatype Error =
    | Plain(before: string, cause: Option<Error>, after: string, deadline: bool, net: Option<bool>)
    | ClientError(operation: string, kind: Kind, cause: Option<Error>)
    | SDKError(code: Code, message: string, cause: Option<Error>)

  function KindText(k: Kind): string {
    match k
    case RateLimited => "rate_limited"
    case Timeout => "timeout"
    case RpcUnavailable => "rpc_unavailable"
    case Unknown => "unknown"
  }

  function CodeText(c: Code): string {
    match c
    case InvalidArgument => "invalid_argument"
    case NotFound => "not_found"
    case UnsupportedRoute => "unsupported_route"
    case AccountNotFound => "account_not_found"
    case RpcFailure => "rpc_error"
    case DecodeFailure => "decode_error"
    case TooManyRequests => "rate_limited"
    case Unavailable => "rpc_unavailable"
    case TimedOut => "timeout"
    case Internal => "internal"
  }

  /** err.Error() */
  function Text(e: Error): string {
    match e
    case Plain(before, None, after, _, _) => before + after
    case Plain(before, Some(c), after, _, _) => before + Text(c) + after
    case ClientError(op, kind, None) => op + ": " + KindText(kind)
    case ClientError(op, kind, Some(c)) => op + ": " + KindText(kind) + ": " + Text(c)
    case SDKError(code, message, None) => CodeText(code) + ": " + message
    case SDKError(code, message, Some(c)) => CodeText(code) + ": " + message + ": " + Text(c)
  }

  // ---- errors.As and errors.Is along the chain ----

  function OutermostClientError(e: Error): (r: Option<Error>)
    ensures r.Some? ==> r.value.ClientError?
  {
    if e.ClientError? then Some(e)
    else if e.cause.Some? then OutermostClientError(e.cause.value)
    else None
  }

  function OutermostSDKError(e: Error): (r: Option<Error>)
    ensures r.Some? ==> r.value.SDKError?
  {
    if e.SDKError? then Some(e)
    else if e.cause.Some? then OutermostSDKError(e.cause.value)
    else None
  }

  predicate IsDeadlineExceeded(e: Error) {
    (e.Plain? && e.deadline) || (e.cause.Some? && IsDeadlineExceeded(e.cause.value))
  }

  /** The Timeout() of the outermost net.Error, when the chain holds one. */
  function NetTimeout(e: Error): Option<bool> {
    if e.Plain? && e.net.Some? then e.net
    else if e.cause.Some? then NetTimeout(e.cause.value)
    else None
  }

  // ---- strings.ToLower and strings.Contains ----

  function LowerChar(c: char): char {
    if 'A' <= c <= 'Z' then c - 'A' + 'a' else c
  }

  function Lower(s: string): string {
    seq(|s|, i requires 0 <= i < |s| => LowerChar(s[i]))
  }

  predicate Contains(s: string, part: string) {
    exists i | 0 <= i <= |s| :: part <= s[i..]
  }

  predicate SaysRateLimited(msg: string) {
    Contains(msg, "429") || Contains(msg, "rate limit") || Contains(msg, "ratelimit")
  }

  predicate SaysTimeout(msg: string) {
    Contains(msg, "timeout") || Contains(msg, "deadline exceeded")
  }

  predicate SaysUnavailable(msg: string) {
    Contains(msg, "connection refused") || Contains(msg, "service unavailable") || Contains(msg, "reset by peer")
  }

  // ---- classification ----

  function ClassifyError(e: Error): Kind {
    match OutermostClientError(e)
    case Some(c) => c.kind
    case None =>
      if IsDeadlineExceeded(e) || NetTimeout(e) == Some(true) then Timeout
      else
        var msg := Lower(Text(e));
        if SaysRateLimited(msg) then RateLimited
        else if SaysTimeout(msg) then Timeout
        else if SaysUnavailable(msg) then RpcUnavailable
        else Unknown
  }

  predicate IsRetryableError(e: Error) {
    ClassifyError(e) in {RateLimited, Timeout, RpcUnavailable}
  }

  function WrapClientError(operation: string, e: Error): Error {
    if OutermostClientError(e).Some? then e else ClientError(operation, ClassifyError(e), Some(e))
  }

  function ClassifyErrorCode(e: Error): Code {
    match ClassifyError(e)
    case RateLimited => TooManyRequests
    case Timeout => TimedOut
    case RpcUnavailable => Unavailable
    case Unknown =>
      var msg := Lower(Text(e));
      if Contains(msg, "unsupported pool route") then UnsupportedRoute
      else if Contains(msg, "not found") || Contains(msg, "missing account") || Contains(msg, "account missing") then
        AccountNotFound
      else if Contains(msg, "decode") || Contains(msg, "invalid account data") || Contains(msg, "invalid pool")
              || Contains(msg, "invalid mint") || Contains(msg, "invalid token") then DecodeFailure
      else if Contains(msg, "rpc") then RpcFailure
      else Internal
  }

  function ToSDKError(e: Error): (r: Error)
    ensures r.SDKError?
  {
    match OutermostSDKError(e)
    case Some(s) =>
      if s.code == Internal && s.cause.Some? then SDKError(ClassifyErrorCode(s.cause.value), s.message, s.cause) else s
    case None => SDKError(ClassifyErrorCode(e), Text(e), Some(e))
  }

  // ---- kinds and codes survive wrapping ----

  function WrapAll(operations: seq<string>, e: Error): Error {
    if operations == [] then e else WrapAll(operations[1..], WrapClientError(operations[0], e))
  }

  /** Any number of WrapClientError layers leaves kind and retryability as they were; only the first adds a node. */
  lemma {:induction false} WrappingKeepsKind(operations: seq<string>, e: Error)
    ensures ClassifyError(WrapAll(operations, e)) == ClassifyError(e)
    ensures IsRetryableError(WrapAll(operations, e)) <==> IsRetryableError(e)
    ensures operations != [] ==> WrapAll(operations, e) == WrapClientError(operations[0], e)
  {
    if operations != [] {
      WrappingKeepsKind(operations[1..], WrapClientError(operations[0], e));
    }
  }

  /** What SDK code puts around an error on its way up: fmt.Errorf with %w, or NewError. */
  datatype Layer = Formatted(before: string, after: string) | Coded(code: Code, message: string)

  function Around(layers: seq<Layer>, e: Error): Error {
    if layers == [] then e
    else
      match layers[0]
      case Formatted(before, after) => Plain(before, Some(Around(layers[1..], e)), after, false, None)
      case Coded(code, message) => SDKError(code, message, Some(Around(layers[1..], e)))
  }

  function MatchingCode(k: Kind): Code
    requires k != Unknown
  {
    match k
    case RateLimited => TooManyRequests
    case Timeout => TimedOut
    case RpcUnavailable => Unavailable
  }

  lemma {:induction false} AroundKeepsClientError(layers: seq<Layer>, e: Error)
    requires OutermostClientError(e).Some?
    ensures OutermostClientError(Around(layers, e)) == OutermostClientError(e)
  {
    if layers != [] {
      AroundKeepsClientError(layers[1..], e);
    }
  }

  /** A classified ClientError keeps its kind, and names its market code, through any layers above it. */
  lemma ClientErrorDecidesCode(layers: seq<Layer>, e: Error)
    requires OutermostClientError(e).Some?
    ensures ClassifyError(Around(layers, e)) == ClassifyError(e)
    ensures ClassifyError(e) != Unknown ==> ClassifyErrorCode(Around(layers, e)) == MatchingCode(ClassifyError(e))
  {
    AroundKeepsClientError(layers, e);
  }

  lemma ContainsWidens(left: string, s: string, right: string, part: string)
    requires Contains(Lower(s), part)
    ensures Contains(Lower(left + s + right), part)
  {
    var whole := Lower(left + s + right);
    assert whole == Lower(left) + Lower(s) + Lower(right);
    var i :| 0 <= i <= |Lower(s)| && part <= Lower(s)[i..];
    assert whole[|left| + i..] == Lower(s)[i..] + Lower(right);
  }

  lemma SaysWidens(left: string, s: string, right: string)
    ensures SaysRateLimited(Lower(s)) ==> SaysRateLimited(Lower(left + s + right))
    ensures SaysTimeout(Lower(s)) ==> SaysTimeout(Lower(left + s + right))
    ensures SaysUnavailable(Lower(s)) ==> SaysUnavailable(Lower(left + s + right))
  {
    forall part | Contains(Lower(s), part)
      ensures Contains(Lower(left + s + right), part)
    {
      ContainsWidens(left, s, right, part);
    }
  }

  /** The text of an error stays readable inside the text of the layer around it. */
  lemma LayerText(layer: Layer, e: Error) returns (left: string, right: string)
    ensures Text(Around([layer], e)) == left + Text(e) + right
  {
    assert [layer][1..] == [];
    match layer
    case Formatted(before, after) =>
      left, right := before, after;
    case Coded(code, message) =>
      left, right := CodeText(code) + ": " + message + ": ", "";
      assert left + Text(e) + right == left + Text(e);
  }

  /** An error that would be retried is still retried after SDK layers were put around it. */
  lemma {:induction false} RetryableIsNeverLost(layers: seq<Layer>, e: Error)
    requires IsRetryableError(e)
    ensures IsRetryableError(Around(layers, e))
  {
    if layers != [] {
      var inner := Around(layers[1..], e);
      RetryableIsNeverLost(layers[1..], e);
      var left, right := LayerText(layers[0], inner);
      assert Around(layers, e) == Around([layers[0]], inner) by {
        assert [layers[0]][1..] == [];
      }
      SaysWidens(left, Text(inner), right);
    }
  }

  /** toSDKError applied to its own result changes nothing. */
  lemma ToSDKErrorIdempotent(e: Error)
    ensures ToSDKError(ToSDKError(e)) == ToSDKError(e)
  {
  }

  /** Formatting never changes what toSDKError makes of a coded error: same code, message and cause. */
  lemma {:induction false} CodedErrorSurvives(layers: seq<Layer>, e: Error)
    requires OutermostSDKError(e).Some?
    requires forall i | 0 <= i < |layers| :: layers[i].Formatted?
    ensures OutermostSDKError(Around(layers, e)) == OutermostSDKError(e)
    ensures ToSDKError(Around(layers, e)) == ToSDKError(e)
  {
    if layers != [] {
      CodedErrorSurvives(layers[1..], e);
      assert layers[0].Formatted?;
    }
  }

  /**
   * What a calculator's failure looks like to the caller of a bulk request.  The calculator codes the error it met by
   * classification, whatever is formatted around that is stripped, and the item shows exactly the coded error; so an
   * RPC failure shows the market code of its kind, however deep it lies.
   */
  lemma CodeReachesCaller(below: seq<Layer>, message: string, above: seq<Layer>, e: Error)
    requires forall i | 0 <= i < |above| :: above[i].Formatted?
    ensures var cause := Around(below, e);
            var coded := SDKError(ClassifyErrorCode(cause), message, Some(cause));
            && ToSDKError(Around(above, coded)) == coded
            && (OutermostClientError(e).Some? && ClassifyError(e) != Unknown ==>
                  coded.code == MatchingCode(ClassifyError(e)))
  {
    var cause := Around(below, e);
    CodedErrorSurvives(above, SDKError(ClassifyErrorCode(cause), message, Some(cause)));
    if OutermostClientError(e).Some? {
      ClientErrorDecidesCode(below, e);
    }
  }

  // ---- errors that only have a text ----

  /** errors.New(msg) */
  function Message(msg: string): Error {
    Plain(msg, None, "", false, None)
  }

  ghost predicate Occurs(word: string, msg: string) {
    exists left: string, right: string :: msg == left + word + right
  }

  lemma ContainsIsOccurs(msg: string, word: string)
    ensures Contains(msg, word) <==> Occurs(word, msg)
  {
    if Contains(msg, word) {
      var i :| 0 <= i <= |msg| && word <= msg[i..];
      assert msg == msg[..i] + word + msg[i + |word|..];
    }
    if Occurs(word, msg) {
      var left: string, right: string :| msg == left + word + right;
      assert msg[|left|..] == word + right;
    }
  }

  predicate NoCapitals(msg: string) {
    forall i | 0 <= i < |msg| :: !('A' <= msg[i] <= 'Z')
  }

  /** other is msg with some capital letters made small. */
  predicate SmallerCase(msg: string, other: string) {
    && |msg| == |other|
    && forall i | 0 <= i < |msg| ::
         msg[i] == other[i] || ('A' <= msg[i] <= 'Z' && other[i] as int == msg[i] as int + 32)
  }

  lemma LowerText(msg: string)
    requires NoCapitals(msg)
    ensures Lower(Text(Message(msg))) == msg
  {
  }

  lemma SaysWords(msg: string)
    ensures SaysRateLimited(msg) <==> Occurs("429", msg) || Occurs("rate limit", msg) || Occurs("ratelimit", msg)
    ensures SaysTimeout(msg) <==> Occurs("timeout", msg) || Occurs("deadline exceeded", msg)
    ensures SaysUnavailable(msg) <==>
            || Occurs("connection refused", msg) || Occurs("service unavailable", msg) || Occurs("reset by peer", msg)
  {
    ContainsIsOccurs(msg, "429");
    ContainsIsOccurs(msg, "rate limit");
    ContainsIsOccurs(msg, "ratelimit");
    ContainsIsOccurs(msg, "timeout");
    ContainsIsOccurs(msg, "deadline exceeded");
    ContainsIsOccurs(msg, "connection refused");
    ContainsIsOccurs(msg, "service unavailable");
    ContainsIsOccurs(msg, "reset by peer");
  }

  /** The kind of an error that only has a text, by the words in it. */
  lemma TextDecidesKind(msg: string)
    requires NoCapitals(msg)
    ensures ClassifyError(Message(msg))
         == if Occurs("429", msg) || Occurs("rate limit", msg) || Occurs("ratelimit", msg) then RateLimited
            else if Occurs("timeout", msg) || Occurs("deadline exceeded", msg) then Timeout
            else if Occurs("connection refused", msg) || Occurs("service unavailable", msg)
                    || Occurs("reset by peer", msg) then RpcUnavailable
            else Unknown
  {
    LowerText(msg);
    SaysWords(msg);
  }

  /** The code such an error is shown with: that of its kind, or else by further words in it. */
  lemma TextDecidesCode(msg: string)
    requires NoCapitals(msg)
    ensures ClassifyErrorCode(Message(msg))
         == match ClassifyError(Message(msg))
            case RateLimited => TooManyRequests
            case Timeout => TimedOut
            case RpcUnavailable => Unavailable
            case Unknown =>
              if Occurs("unsupported pool route", msg) then UnsupportedRoute
              else if Occurs("not found", msg) || Occurs("missing account", msg) || Occurs("account missing", msg) then
                AccountNotFound
              else if Occurs("decode", msg) || Occurs("invalid account data", msg) || Occurs("invalid pool", msg)
                      || Occurs("invalid mint", msg) || Occurs("invalid token", msg) then DecodeFailure
              else if Occurs("rpc", msg) then RpcFailure
              else Internal
  {
    LowerText(msg);
    ContainsIsOccurs(msg, "unsupported pool route");
    ContainsIsOccurs(msg, "not found");
    ContainsIsOccurs(msg, "missing account");
    ContainsIsOccurs(msg, "account missing");
    ContainsIsOccurs(msg, "decode");
    ContainsIsOccurs(msg, "invalid account data");
    ContainsIsOccurs(msg, "invalid pool");
    ContainsIsOccurs(msg, "invalid mint");
    ContainsIsOccurs(msg, "invalid token");
    ContainsIsOccurs(msg, "rpc");
  }

  /** Capital letters make no difference to either. */
  lemma CaseIsIgnored(msg: string, other: string)
    requires SmallerCase(msg, other)
    ensures ClassifyError(Message(msg)) == ClassifyError(Message(other))
    ensures ClassifyErrorCode(Message(msg)) == ClassifyErrorCode(Message(other))
  {
    forall i | 0 <= i < |msg|
      ensures LowerChar(msg[i]) == LowerChar(other[i])
    {
      SameLetter(msg[i], other[i]);
    }
    assert Lower(Text(Message(msg))) == Lower(Text(Message(other)));
  }

  lemma SameLetter(c: char, d: char)
    requires c == d || ('A' <= c <= 'Z' && d as int == c as int + 32)
    ensures LowerChar(c) == LowerChar(d)
  {
  }

  lemma UncodedTexts(msg: string, operation: string)
    ensures Text(Message(msg)) == msg
    ensures Text(ClientError(operation, RateLimited, None)) == operation + ": rate_limited"
    ensures Text(ClientError(operation, Timeout, Some(Message(msg)))) == operation + ": timeout: " + msg
    ensures Text(ClientError(operation, RpcUnavailable, Some(Message(msg)))) == operation + ": rpc_unavailable: " + msg
  {
    assert msg + "" == msg;
    assert operation + ": " + "rate_limited" == operation + ": rate_limited";
    assert operation + ": " + "timeout" + ": " + msg == operation + ": timeout: " + msg;
    assert operation + ": " + "rpc_unavailable" + ": " + msg == operation + ": rpc_unavailable: " + msg;
  }

  /** What an uncoded error is shown as: its own text, its own classification, and itself as the cause. */
  lemma UncodedIsShown(msg: string, operation: string)
    ensures ToSDKError(Message(msg)) == SDKError(ClassifyErrorCode(Message(msg)), msg, Some(Message(msg)))
    ensures ToSDKError(ClientError(operation, RateLimited, None))
         == SDKError(TooManyRequests, operation + ": rate_limited", Some(ClientError(operation, RateLimited, None)))
    ensures ToSDKError(ClientError(operation, Timeout, Some(Message(msg))))
         == SDKError(TimedOut, operation + ": timeout: " + msg,
                     Some(ClientError(operation, Timeout, Some(Message(msg)))))
    ensures ToSDKError(ClientError(operation, RpcUnavailable, Some(Message(msg))))
         == SDKError(Unavailable, operation + ": rpc_unavailable: " + msg,
                     Some(ClientError(operation, RpcUnavailable, Some(Message(msg)))))
  {
    UncodedTexts(msg, operation);
  }

  /** A deadline or a timed-out connection anywhere in the chain is a timeout, whatever the text. */
  lemma DeadlinesAreTimeouts(before: string, after: string, msg: string, net: Option<bool>)
    ensures ClassifyError(Plain(msg, None, "", true, net)) == Timeout
    ensures ClassifyError(Plain(msg, None, "", false, Some(true))) == Timeout
    ensures ClassifyError(Plain(before, Some(Plain(msg, None, "", true, None)), after, false, None)) == Timeout
    ensures ClassifyError(Plain(before, Some(Plain(msg, None, "", false, Some(true))), after, false, None)) == Timeout
  {
    var deadline, timedOut := Plain(msg, None, "", true, None), Plain(msg, None, "", false, Some(true));
    assert OutermostClientError(deadline).None? && IsDeadlineExceeded(deadline);
    assert OutermostClientError(timedOut).None? && NetTimeout(timedOut) == Some(true);
  }

  /** A coded error is shown as it is, unless it is coded internal around a cause; then the cause decides its code. */
  lemma CodedIsShown(code: Code, message: string, cause: Error)
    ensures ToSDKError(SDKError(code, message, None)) == SDKError(code, message, None)
    ensures code != Internal ==>
              ToSDKError(SDKError(code, message, Some(cause))) == SDKError(code, message, Some(cause))
    ensures ToSDKError(SDKError(Internal, message, Some(cause)))
         == SDKError(ClassifyErrorCode(cause), message, Some(cause))
  {
  }

  /** What a chain says of itself, layer by layer. */
  lemma TextOfChains(msg: string, operation: string, code: Code, before: string, after: string)
    ensures Text(SDKError(code, msg, None)) == CodeText(code) + ": " + msg
    ensures Text(SDKError(NotFound, msg, Some(Message(before)))) == "not_found: " + msg + ": " + before
    ensures Text(Plain(before, Some(Message(msg)), after, false, None)) == before + msg + after
    ensures Text(ClientError(operation, Unknown, Some(Message(msg)))) == operation + ": unknown: " + msg
  {
    assert msg + "" == msg && before + "" == before;
    assert "not_found" + ": " + msg + ": " + before == "not_found: " + msg + ": " + before;
    assert operation + ": " + "unknown" + ": " + msg == operation + ": unknown: " + msg;
  }

  /** What is worth a retry: the three kinds and no other, and of errors without a kind those that read like one. */
  lemma WorthARetry(operation: string, kind: Kind, cause: Option<Error>, msg: string)
    requires NoCapitals(msg)
    ensures IsRetryableError(ClientError(operation, kind, cause)) <==> kind != Unknown
    ensures IsRetryableError(Message(msg)) <==>
            || Occurs("429", msg) || Occurs("rate limit", msg) || Occurs("ratelimit", msg)
            || Occurs("timeout", msg) || Occurs("deadline exceeded", msg)
            || Occurs("connection refused", msg) || Occurs("service unavailable", msg) || Occurs("reset by peer", msg)
  {
    TextDecidesKind(msg);
  }

  /** The codes in the words a caller reads. */
  lemma CodesInWords()
    ensures CodeText(InvalidArgument) == "invalid_argument" && CodeText(NotFound) == "not_found"
    ensures CodeText(UnsupportedRoute) == "unsupported_route" && CodeText(AccountNotFound) == "account_not_found"
    ensures CodeText(RpcFailure) == "rpc_error" && CodeText(DecodeFailure) == "decode_error"
    ensures CodeText(TooManyRequests) == "rate_limited" && CodeText(Unavailable) == "rpc_unavailable"
    ensures CodeText(TimedOut) == "timeout" && CodeText(Internal) == "internal"
  {
  }
}
