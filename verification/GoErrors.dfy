/** Go error values as this program builds them: typed or sentinel leaves under layers of
    `errors.Wrap`. A nil error is `None`. Error texts are abbreviated throughout. */
module GoErrors {
  datatype Option<+T> = None | Some(value: T)

  /** Codes a registry puts in an error response; `OtherCode` is every code the program does not name. */
  datatype ErrorCode = ManifestUnknown | NameUnknown | NameInvalid | UnauthorizedCode | OtherCode(code: string)

  datatype Error =
    | Plain(text: string)
    | NilArgument
    | TimeOutReached
    | EmptyDigest
    | EmptyArgResult
    | RedisNil
    | MissingKey(key: string)
    | NegativeExpiration
    | Transport(codes: seq<ErrorCode>)
    | ImageIsNotFound(ref: string, detail: Error)
    | Unauthorized(ref: string, detail: Error)
    | RegistryIsNotFound(registry: string, detail: Error)
    | Wrapped(context: string, inner: Error)

  type Err = Option<Error>

  /** `errors.Wrap`: wrapping nil gives nil. */
  function Wrap(err: Err, context: string): Err {
    if err.None? then None else Some(Wrapped(context, err.value))
  }

  /** `errors.Cause`: peel every wrapping layer. The typed registry errors hold a detail error
      but do not expose it as a cause. */
  function Cause(e: Error): Error {
    if e.Wrapped? then Cause(e.inner) else e
  }

  /** `errors.Is` against a sentinel. */
  predicate Is(e: Error, sentinel: Error) {
    e == sentinel || (e.Wrapped? && Is(e.inner, sentinel))
  }

  /** `Error()`. */
  function Message(e: Error): string {
    match e
    case Plain(text) => text
    case NilArgument => "NilArgumentError"
    case TimeOutReached => "TimeOutError"
    case EmptyDigest => "empty digest"
    case EmptyArgResult => "no records"
    case RedisNil => "redis: nil"
    case MissingKey(key) => "Key <" + key + "> is missing."
    case NegativeExpiration => "negative expiration"
    case Transport(_) => "transport"
    case ImageIsNotFound(ref, detail) => "Image is not found <" + ref + ">: <" + Message(detail) + ">"
    case Unauthorized(ref, detail) => "Unauthorized <" + ref + ">: <" + Message(detail) + ">"
    case RegistryIsNotFound(registry, detail) => "Registry is not found <" + registry + ">: <" + Message(detail) + ">"
    case Wrapped(context, inner) => context + ": " + Message(inner)
  }

  /** Any number of wrapping layers, outermost context first. */
  function WrapAll(contexts: seq<string>, e: Error): Error {
    if contexts == [] then e else Wrapped(contexts[0], WrapAll(contexts[1..], e))
  }

  /** However deep an error is wrapped, its cause and its identity as a sentinel survive. */
  lemma {:induction false} WrappingKeepsCause(contexts: seq<string>, e: Error, sentinel: Error)
    requires !sentinel.Wrapped?
    ensures Cause(WrapAll(contexts, e)) == Cause(e)
    ensures Is(WrapAll(contexts, e), sentinel) <==> Cause(e) == sentinel
  {
    if contexts == [] {
      IsMeansCause(e, sentinel);
    } else {
      WrappingKeepsCause(contexts[1..], e, sentinel);
    }
  }

  lemma {:induction false} IsMeansCause(e: Error, sentinel: Error)
    requires !sentinel.Wrapped?
    ensures Is(e, sentinel) <==> Cause(e) == sentinel
  {
    if e.Wrapped? {
      IsMeansCause(e.inner, sentinel);
    }
  }

  /** And its text is at the end of the whole message. */
  lemma {:induction false} WrappingKeepsMessage(contexts: seq<string>, e: Error)
    ensures var whole := Message(WrapAll(contexts, e));
            |whole| >= |Message(e)| && whole[|whole| - |Message(e)|..] == Message(e)
  {
    if contexts != [] {
      WrappingKeepsMessage(contexts[1..], e);
      var rest := Message(WrapAll(contexts[1..], e));
      assert Message(WrapAll(contexts, e)) == contexts[0] + ": " + rest;
    }
  }
}
