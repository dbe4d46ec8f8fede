/**
 The error values the tunnel recovery inspects: HTTP statuses, an unexpected end of
 file, network errors and context errors, under any chain of wrappers.
 */
module GoErrors {
  import opened Values

  datatype ContextError = Canceled | DeadlineExceeded

  datatype Error =
    | HttpStatus(code: int)
    | UnexpectedEOF
    | Context(cause: ContextError)
    | Plain(text: string)
    | Network(operation: string, inner: Error)  // url.Error: a net.Error that also unwraps
    | Wrapped(prefix: string, inner: Error)     // fmt.Errorf("prefix: %w", inner)

  const STATUS_UNAUTHORIZED := 401
  const STATUS_REQUEST_TIMEOUT := 408
  const STATUS_TOO_MANY_REQUESTS := 429
  const STATUS_INTERNAL_SERVER_ERROR := 500

  /** errors.As with target HttpResponseError: the outermost HTTP status of the chain. */
  function AsHttpStatus(e: Error): Option<int> {
    match e
    case HttpStatus(code) => Some(code)
    case Network(_, inner) => AsHttpStatus(inner)
    case Wrapped(_, inner) => AsHttpStatus(inner)
    case _ => None
  }

  /** errors.Is for a sentinel value. */
  predicate Is(e: Error, target: Error) {
    e == target ||
    match e
    case Network(_, inner) => Is(inner, target)
    case Wrapped(_, inner) => Is(inner, target)
    case _ => false
  }

  /** errors.As with target net.Error; context.DeadlineExceeded is one. */
  predicate IsNetworkError(e: Error) {
    match e
    case Network(_, _) => true
    case Context(cause) => cause == DeadlineExceeded
    case Wrapped(_, inner) => IsNetworkError(inner)
    case _ => false
  }

  predicate IsCanceled(e: Error) {
    Is(e, Context(Canceled))
  }

  /** registrationRetryable: an HTTP status decides alone, whatever else the chain holds. */
  predicate Retryable(e: Error) {
    match AsHttpStatus(e)
    case Some(code) =>
      code == STATUS_REQUEST_TIMEOUT || code == STATUS_TOO_MANY_REQUESTS ||
      STATUS_INTERNAL_SERVER_ERROR <= code <= 599
    case None => Is(e, UnexpectedEOF) || IsNetworkError(e)
  }

  // ---------- Chains of wrappers ----------

  datatype Layer = Prefix(text: string) | NetworkOperation(operation: string)

  /** An error under some wrappers, outermost first. */
  function Under(layers: seq<Layer>, e: Error): Error {
    if layers == [] then e
    else
      match layers[0]
      case Prefix(text) => Wrapped(text, Under(layers[1..], e))
      case NetworkOperation(operation) => Network(operation, Under(layers[1..], e))
  }

  predicate IsLeaf(e: Error) {
    !e.Wrapped? && !e.Network?
  }

  /** Every error is a leaf under wrappers. */
  lemma {:induction false} EveryErrorIsUnder(e: Error) returns (layers: seq<Layer>, leaf: Error)
    ensures IsLeaf(leaf) && e == Under(layers, leaf)
  {
    match e
    case Wrapped(prefix, inner) =>
      var more;
      more, leaf := EveryErrorIsUnder(inner);
      layers := [Prefix(prefix)] + more;
    case Network(operation, inner) =>
      var more;
      more, leaf := EveryErrorIsUnder(inner);
      layers := [NetworkOperation(operation)] + more;
    case _ =>
      layers, leaf := [], e;
  }

  /** What errors.As and errors.Is find is the leaf, whatever is around it. */
  lemma {:induction false} LeafIsFound(layers: seq<Layer>, leaf: Error)
    requires IsLeaf(leaf)
    ensures AsHttpStatus(Under(layers, leaf)) == if leaf.HttpStatus? then Some(leaf.code) else None
    ensures IsCanceled(Under(layers, leaf)) <==> leaf == Context(Canceled)
    ensures Is(Under(layers, leaf), UnexpectedEOF) <==> leaf == UnexpectedEOF
    ensures IsNetworkError(Under(layers, leaf)) <==>
            leaf == Context(DeadlineExceeded) || exists layer | layer in layers :: layer.NetworkOperation?
  {
    if layers != [] {
      LeafIsFound(layers[1..], leaf);
      assert layers == [layers[0]] + layers[1..];
    }
  }

  /**
   What is retried, under any wrappers: of the HTTP statuses exactly 408, 429 and 500 to 599;
   without a status, an unexpected end of file, a passed deadline, or anything in a network error.
   */
  lemma RetryableIff(layers: seq<Layer>, leaf: Error)
    requires IsLeaf(leaf)
    ensures Retryable(Under(layers, leaf)) <==>
            match leaf
            case HttpStatus(code) => code == 408 || code == 429 || 500 <= code <= 599
            case UnexpectedEOF => true
            case Context(DeadlineExceeded) => true
            case _ => exists layer | layer in layers :: layer.NetworkOperation?
  {
    LeafIsFound(layers, leaf);
  }

  // ---------- Texts ----------

  function Digits(n: nat): string {
    if n < 10 then ["0123456789"[n]] else Digits(n / 10) + ["0123456789"[n % 10]]
  }

  /** The text of the error's Error() method. */
  function Message(e: Error): string {
    match e
    case HttpStatus(code) =>
      "HTTP status " + if code < 0 then "-" + Digits(-code) else Digits(code)
    case UnexpectedEOF => "unexpected EOF"
    case Context(Canceled) => "context canceled"
    case Context(DeadlineExceeded) => "context deadline exceeded"
    case Plain(text) => text
    case Network(operation, inner) => operation + ": " + Message(inner)
    case Wrapped(prefix, inner) => prefix + ": " + Message(inner)
  }

  predicate OccursAt(text: string, part: string, i: nat)
    requires i <= |text|
  {
    part <= text[i..]
  }

  /** strings.Contains */
  predicate Contains(text: string, part: string) {
    exists i | 0 <= i <= |text| :: OccursAt(text, part, i)
  }

  /** Piko exposes a rejected credential only through the text "401:" of its error. */
  predicate AuthenticationFailure(e: Error) {
    Contains(Message(e), "401:")
  }

  /** A rejection by Piko is an error whose text has "401:" in it, anywhere. */
  lemma AuthenticationFailureIff(e: Error)
    ensures AuthenticationFailure(e) <==> exists before, after :: Message(e) == before + "401:" + after
  {
    var text := Message(e);
    if i :| 0 <= i <= |text| && OccursAt(text, "401:", i) {
      assert text == text[..i] + "401:" + text[i + 4..];
    }
    if before, after :| text == before + "401:" + after {
      assert text[|before|..] == "401:" + after;
      assert OccursAt(text, "401:", |before|);
    }
  }

  lemma ContainedCharsOccur(text: string, part: string, c: char)
    requires c in part
    ensures Contains(text, part) ==> c in text
  {
    var k :| 0 <= k < |part| && part[k] == c;
    if i :| 0 <= i <= |text| && OccursAt(text, part, i) {
      assert text[i + k] == text[i..][k] == c;
    }
  }

  lemma {:induction false} DigitsHaveNoColon(n: nat)
    ensures ':' !in Digits(n)
  {
    if n >= 10 {
      DigitsHaveNoColon(n / 10);
    }
  }

  /**
   The Route Registry's own 401 is never mistaken for a rejection by Piko: its text has
   no colon.
   */
  lemma RegistryStatusIsNotPikoRejection(code: int)
    ensures !AuthenticationFailure(HttpStatus(code))
  {
    DigitsHaveNoColon(if code < 0 then -code else code);
    ContainedCharsOccur(Message(HttpStatus(code)), "401:", ':');
  }

  /** Wrapping adds a prefix to the text, so a rejection stays one under any wrapper. */
  lemma WrappingKeepsRejection(prefix: string, e: Error)
    requires AuthenticationFailure(e)
    ensures AuthenticationFailure(Wrapped(prefix, e))
  {
    var text := Message(e);
    var i :| 0 <= i <= |text| && OccursAt(text, "401:", i);
    var whole := Message(Wrapped(prefix, e));
    var at := |prefix| + 2 + i;
    assert whole[at..] == text[i..];
    assert OccursAt(whole, "401:", at);
  }
}
