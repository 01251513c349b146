/** Resolving an image reference to a digest: crane under the retry policy, the registry client's
    three authentications, the chain over them with its stop rule, and the digest cache in front.
    What the registry and the keychain factories answer is an input. */
module DigestResolution {
  import opened GoErrors
  import opened Contracts
  import opened CacheStore
  import opened KeySpace
  import opened ProviderCache
  import opened RetryPolicy
  import opened CacheClients

  datatype ImageReference =
    | Tag(original: string, registry: string, repository: string, tag: string)
    | Digest(original: string, registry: string, repository: string, digest: string)

  // Crane and its known errors.

  datatype CraneReply = CraneReply(digest: string, err: Err)

  predicate IsUnauthorized(codes: seq<ErrorCode>) {
    UnauthorizedCode in codes
  }

  predicate IsImageNotFound(codes: seq<ErrorCode>) {
    exists code :: code in codes && (code == ManifestUnknown || code == NameUnknown || code == NameInvalid)
  }

  /** `TryParseCraneErrToRegistryKnownErr`: unauthorized is looked for first; an error that is not
      itself a transport error stays as it is. */
  function KnownError(ref: string, e: Error): Error {
    if !e.Transport? then e
    else if IsUnauthorized(e.codes) then Unauthorized(ref, e)
    else if IsImageNotFound(e.codes) then ImageIsNotFound(ref, e)
    else e
  }

  /** One call of `CraneWrapper.getDigest`. */
  function CraneAttempt(ref: string, r: CraneReply): Attempt<string> {
    if r.err.Some? then Attempt("", Some(KnownError(ref, r.err.value)))
    else if r.digest == "" then Attempt("", Some(EmptyDigest))
    else Attempt(r.digest, None)
  }

  const CRANE_RETRIES: ShouldRetry := e => !Cause(e).ImageIsNotFound? && !Cause(e).Unauthorized?

  function CraneAction(ref: string, replies: nat -> CraneReply): Action<string> {
    (k: nat) => CraneAttempt(ref, replies(k))
  }

  function CraneDigest(config: RetryPolicyConfiguration, ref: string, replies: nat -> CraneReply): Attempt<string> {
    var r := Retried(CraneAction(ref, replies), CRANE_RETRIES, config.retryAttempts, "");
    if r.err.Some? then Attempt("", Wrap(r.err, "extract")) else r
  }

  method CraneWrapperDigest(config: RetryPolicyConfiguration, ref: string,
      replies: nat -> CraneReply) returns (digest: string, err: Err)
    ensures Attempt(digest, err) == CraneDigest(config, ref, replies)
  {
    var calls, slept;
    digest, err, calls, slept := RetryActionString(config, Some(CraneAction(ref, replies)), Some(CRANE_RETRIES), "");
    if err.Some? {
      return "", Wrap(err, "extract");
    }
  }

  /** With an attempt, the registry is asked again exactly after an error that is not known or an empty
      digest: "unauthorized" and "image not found" are final, like a digest. */
  lemma CraneStops(config: RetryPolicyConfiguration, ref: string, replies: nat -> CraneReply)
    requires config.retryAttempts >= 1
    requires forall k: nat :: replies(k).err.Some? ==> Outside(replies(k).err.value)
    ensures var calls := Calls(CraneAction(ref, replies), CRANE_RETRIES, config.retryAttempts);
      && 1 <= calls <= config.retryAttempts
      && (forall k: nat :: k < calls - 1 ==> !Final(replies(k)))
      && (calls < config.retryAttempts ==> Final(replies(calls - 1)))
  {
    var action := CraneAction(ref, replies);
    RetriedMeans(action, CRANE_RETRIES, config.retryAttempts, "");
    forall k: nat ensures Retryable(action(k), CRANE_RETRIES) <==> !Final(replies(k)) {
    }
  }

  predicate Final(r: CraneReply) {
    AnswersUnauthorized(r) || AnswersImageNotFound(r) || (r.err.None? && r.digest != "")
  }

  // The registry client.

  datatype Auth = ACRAttach | K8S | Default

  /** What the keychain factories and the registry would answer to each authentication. */
  datatype Env = Env(acrKeychain: Err, k8sKeychain: Err, acrReplies: nat -> CraneReply, k8sReplies: nat -> CraneReply,
                     defaultReplies: nat -> CraneReply)

  function Replies(env: Env, auth: Auth): nat -> CraneReply {
    match auth
    case ACRAttach => env.acrReplies
    case K8S => env.k8sReplies
    case Default => env.defaultReplies
  }

  function KeychainErr(env: Env, auth: Auth): Err {
    match auth
    case ACRAttach => Wrap(env.acrKeychain, "acr")
    case K8S => env.k8sKeychain
    case Default => None
  }

  /** The registry client: make the keychain, then ask crane; both errors are wrapped on the way. */
  function ClientDigest(config: RetryPolicyConfiguration, env: Env, ref: ImageReference, auth: Auth): Attempt<string> {
    if KeychainErr(env, auth).Some? then Attempt("", Wrap(KeychainErr(env, auth), "keychain"))
    else
      var r := CraneDigest(config, ref.original, Replies(env, auth));
      if r.err.Some? then Attempt("", Wrap(Wrap(r.err, "client"), "getDigest")) else r
  }

  // The chain of authentications.

  function Chain(ref: ImageReference): seq<Auth> {
    (if IsAcr(ref.registry) then [ACRAttach] else []) + [K8S, Default]
  }

  predicate ShouldContinueOnError(e: Error) {
    !Cause(e).ImageIsNotFound? && !Cause(e).RegistryIsNotFound?
  }

  /** The answer of a chain and the authentications tried. */
  datatype Resolution = Resolution(digest: string, err: Err, trace: seq<Auth>)

  function Walk(config: RetryPolicyConfiguration, env: Env, ref: ImageReference, chain: seq<Auth>): Resolution
    requires chain != []
  {
    var auth := chain[0];
    var r := ClientDigest(config, env, ref, auth);
    if |chain| == 1 then
      if r.err.Some? then Resolution("", Wrap(r.err, "auth"), [auth])
      else if r.value == "" then Resolution("", Some(Plain("empty")), [auth])
      else Resolution(r.value, None, [auth])
    else if r.err.None? then Resolution(r.value, None, [auth])
    else if !ShouldContinueOnError(r.err.value) then Resolution("", Wrap(r.err, "auth"), [auth])
    else var rest := Walk(config, env, ref, chain[1..]); rest.(trace := [auth] + rest.trace)
  }

  function Resolved(config: RetryPolicyConfiguration, env: Env, ref: ImageReference): Resolution {
    if ref.Digest? then Resolution(ref.digest, None, []) else Walk(config, env, ref, Chain(ref))
  }

  /** One link of a chain: its success or a stopping cause ends the walk. */
  lemma WalkOn(config: RetryPolicyConfiguration, env: Env, ref: ImageReference, auth: Auth, tail: seq<Auth>)
    requires tail != []
    ensures var r, rest := ClientDigest(config, env, ref, auth), Walk(config, env, ref, tail);
      Walk(config, env, ref, [auth] + tail) ==
        if r.err.None? then Resolution(r.value, None, [auth])
        else if !ShouldContinueOnError(r.err.value) then Resolution("", Wrap(r.err, "auth"), [auth])
        else rest.(trace := [auth] + rest.trace)
  {
  }

  lemma ChainLinks(ref: ImageReference)
    ensures Chain(ref) == if IsAcr(ref.registry) then [ACRAttach] + ([K8S] + [Default]) else [K8S] + [Default]
  {
  }

  method GetDigest(config: RetryPolicyConfiguration, env: Env,
      ref: ImageReference) returns (digest: string, err: Err, trace: seq<Auth>)
    ensures Resolution(digest, err, trace) == Resolved(config, env, ref)
    ensures ref.Digest? ==> digest == ref.digest && err.None? && trace == []
    ensures ref.Tag? ==> trace != [] && trace <= if IsAcr(ref.registry) then [ACRAttach, K8S, Default] else [K8S, Default]
    ensures ref.Tag? && config.retryAttempts >= 1 ==>
      var auth := trace[|trace| - 1];
      var last := LastReply(config, env, ref, auth);
      && (err.None? <==> Keychain(env, auth).None? && last.err.None? && last.digest != "")
      && (err.None? ==> digest == last.digest)
  {
    digest, err, trace := WalkChain(config, env, ref);
    hide Resolved, LastReply, Keychain, IsAcr;
    ResolutionMeans(config, env, ref);
  }

  method WalkChain(config: RetryPolicyConfiguration, env: Env, ref: ImageReference)
    returns (digest: string, err: Err, trace: seq<Auth>)
    ensures Resolution(digest, err, trace) == Resolved(config, env, ref)
  {
    if ref.Digest? {
      return ref.digest, None, [];
    }
    hide ClientDigest, ShouldContinueOnError, IsAcr, Chain;
    ChainLinks(ref);
    WalkOn(config, env, ref, ACRAttach, [K8S] + [Default]);
    WalkOn(config, env, ref, K8S, [Default]);
    trace := [];
    if IsAcr(ref.registry) {
      var acr := ClientDigest(config, env, ref, ACRAttach);
      trace := [ACRAttach];
      if acr.err.Some? {
        if !ShouldContinueOnError(acr.err.value) {
          return "", Wrap(acr.err, "auth"), trace;
        }
      } else {
        return acr.value, None, trace;
      }
    }
    ghost var rest := Walk(config, env, ref, [K8S] + [Default]);
    assert [] + rest.trace == rest.trace;
    assert Resolved(config, env, ref) == rest.(trace := trace + rest.trace);
    var r := ClientDigest(config, env, ref, K8S);
    trace := trace + [K8S];
    if r.err.Some? {
      if !ShouldContinueOnError(r.err.value) {
        return "", Wrap(r.err, "auth"), trace;
      }
    } else {
      return r.value, None, trace;
    }
    ghost var before := trace[..|trace| - 1];
    assert trace + [Default] == before + ([K8S] + [Default]);
    r := ClientDigest(config, env, ref, Default);
    trace := trace + [Default];
    if r.err.Some? {
      return "", Wrap(r.err, "auth"), trace;
    }
    if r.value == "" {
      return "", Some(Plain("empty")), trace;
    }
    return r.value, None, trace;
  }

  /** The last authentication of a trace decides: its success is the answer, and a failure keeps the
      cause; an empty digest is refused by the default authentication only. */
  predicate Decides(r: Resolution, auth: Auth, last: Attempt<string>) {
    && (r.err.None? ==> last.err.None? && r.digest == last.value)
    && (r.err.Some? ==> r.digest == "")
    && (r.err.Some? && last.err.Some? ==> Cause(r.err.value) == Cause(last.err.value))
    && (r.err.Some? && last.err.None? ==> last.value == "" && auth == Default)
  }

  lemma WalkStops(config: RetryPolicyConfiguration, env: Env, ref: ImageReference, chain: seq<Auth>)
    requires chain != [] && chain[|chain| - 1] == Default
    requires |chain| == 1 || !Fails(config, env, ref, chain[0])
    ensures var r := Walk(config, env, ref, chain);
      r.trace == [chain[0]] && Decides(r, chain[0], ClientDigest(config, env, ref, chain[0]))
  {
    hide ClientDigest;
  }

  lemma WalkGoesOn(config: RetryPolicyConfiguration, env: Env, ref: ImageReference, chain: seq<Auth>)
    requires |chain| > 1 && Fails(config, env, ref, chain[0])
    ensures var r, rest := Walk(config, env, ref, chain), Walk(config, env, ref, chain[1..]);
      r.trace == [chain[0]] + rest.trace && forall auth, last :: Decides(rest, auth, last) ==> Decides(r, auth, last)
  {
    hide ClientDigest, ShouldContinueOnError;
  }

  /** The trace of authentications: a non-empty prefix of ACR (for an ACR registry), Kubernetes,
      default; every one but the last failed with a cause other than image or registry not found; and
      the last one succeeded, or met such a cause, or is the default. */
  lemma {:induction false} TraceMeans(config: RetryPolicyConfiguration, env: Env, ref: ImageReference, chain: seq<Auth>)
    requires chain != [] && chain[|chain| - 1] == Default
    ensures var r := Walk(config, env, ref, chain);
            var n := |r.trace| - 1;
      && n >= 0 && r.trace <= chain
      && (forall i :: 0 <= i < n ==> Fails(config, env, ref, r.trace[i]))
      && (n < |chain| - 1 ==> !Fails(config, env, ref, r.trace[n]))
      && Decides(r, r.trace[n], ClientDigest(config, env, ref, r.trace[n]))
  {
    hide Walk, ClientDigest, Fails, Decides;
    if |chain| == 1 || !Fails(config, env, ref, chain[0]) {
      WalkStops(config, env, ref, chain);
    } else {
      var r, rest := Walk(config, env, ref, chain), Walk(config, env, ref, chain[1..]);
      WalkGoesOn(config, env, ref, chain);
      TraceMeans(config, env, ref, chain[1..]);
      assert chain == [chain[0]] + chain[1..];
      forall i | 0 <= i < |r.trace| - 1 ensures Fails(config, env, ref, r.trace[i]) {
        assert i > 0 ==> r.trace[i] == rest.trace[i - 1];
      }
      assert r.trace[|r.trace| - 1] == rest.trace[|rest.trace| - 1];
    }
  }

  /** An authentication failed, and the chain goes on. */
  predicate Fails(config: RetryPolicyConfiguration, env: Env, ref: ImageReference, auth: Auth) {
    var r := ClientDigest(config, env, ref, auth);
    r.err.Some? && ShouldContinueOnError(r.err.value)
  }

  /** The chain goes on after an authentication, with an attempt configured, exactly when its keychain
      cannot be made for another reason than a missing registry, or the last answer of the registry holds
      no digest and is not "image not found". */
  lemma GoesOnIff(config: RetryPolicyConfiguration, env: Env, ref: ImageReference, auth: Auth)
    requires config.retryAttempts >= 1 && OutsideEnv(env)
    ensures var keychain, last := Keychain(env, auth), LastReply(config, env, ref, auth);
      Fails(config, env, ref, auth) <==>
        if keychain.Some? then !Cause(keychain.value).RegistryIsNotFound?
        else (last.err.Some? || last.digest == "") && !AnswersImageNotFound(last)
  {
    AuthenticationMeans(config, env, ref, auth);
    if ClientDigest(config, env, ref, auth).err.Some? {
      ClientReason(config, env, ref, auth);
      ReasonsDiffer();
    }
    hide LastReply, CraneDigest, OutsideEnv;
  }

  /** The keychain that an authentication needs. */
  function Keychain(env: Env, auth: Auth): Err {
    match auth
    case ACRAttach => env.acrKeychain
    case K8S => env.k8sKeychain
    case Default => None
  }

  /** With an attempt, an authentication finds a digest exactly when its keychain can be made and the last
      answer of the registry holds one, and it is that one. */
  lemma AuthenticationMeans(config: RetryPolicyConfiguration, env: Env, ref: ImageReference, auth: Auth)
    requires config.retryAttempts >= 1
    ensures var r, last := ClientDigest(config, env, ref, auth), LastReply(config, env, ref, auth);
      && (r.err.None? <==> Keychain(env, auth).None? && last.err.None? && last.digest != "")
      && (r.err.None? ==> r.value == last.digest)
  {
    var action := CraneAction(ref.original, Replies(env, auth));
    RetriedMeans(action, CRANE_RETRIES, config.retryAttempts, "");
    var k := Calls(action, CRANE_RETRIES, config.retryAttempts) - 1;
    assert action(k) == CraneAttempt(ref.original, Replies(env, auth)(k));
  }

  /** What a resolution is. A digest reference is its own digest, without a call. A tag is resolved by a
      non-empty beginning of ACR (for an ACR registry), Kubernetes, default; with an attempt configured it
      is found exactly when the last of them finds it, and it is the digest that the registry answered
      last. */
  lemma ResolutionMeans(config: RetryPolicyConfiguration, env: Env, ref: ImageReference)
    ensures var r := Resolved(config, env, ref);
      && (ref.Digest? ==> r.digest == ref.digest && r.err.None? && r.trace == [])
      && (ref.Tag? ==> r.trace != [] && r.trace <= if IsAcr(ref.registry) then [ACRAttach, K8S, Default] else [K8S, Default])
      && (ref.Tag? && config.retryAttempts >= 1 ==>
            var auth := r.trace[|r.trace| - 1];
            var last := LastReply(config, env, ref, auth);
            && (r.err.None? <==> Keychain(env, auth).None? && last.err.None? && last.digest != "")
            && (r.err.None? ==> r.digest == last.digest))
  {
    if ref.Tag? {
      TraceMeans(config, env, ref, Chain(ref));
      if config.retryAttempts >= 1 {
        var trace := Resolved(config, env, ref).trace;
        AuthenticationMeans(config, env, ref, trace[|trace| - 1]);
        EmptyClientDigestIff(config, env, ref, trace[|trace| - 1]);
      }
      hide ClientDigest, IsAcr, Walk, LastReply, Fails, Keychain;
    }
  }

  // Empty digests.

  /** An authentication succeeds with an empty digest exactly when no attempt is configured and the
      keychain was made. */
  lemma EmptyClientDigestIff(config: RetryPolicyConfiguration, env: Env, ref: ImageReference, auth: Auth)
    ensures ClientDigest(config, env, ref, auth) == Attempt("", None)
            <==> config.retryAttempts <= 0 && KeychainErr(env, auth).None?
  {
    var action := CraneAction(ref.original, Replies(env, auth));
    NoCallIff(action, CRANE_RETRIES, config.retryAttempts, "");
    if config.retryAttempts > 0 {
      RetriedMeans(action, CRANE_RETRIES, config.retryAttempts, "");
      var k := Calls(action, CRANE_RETRIES, config.retryAttempts) - 1;
      assert action(k) == CraneAttempt(ref.original, Replies(env, auth)(k));
    }
  }

  /** The chain reaches a keychain that can be made before the default one. */
  predicate EarlyKeychain(env: Env, ref: ImageReference) {
    || (IsAcr(ref.registry) && KeychainErr(env, ACRAttach).None?)
    || ((IsAcr(ref.registry) ==> ShouldContinueOnError(KeychainErr(env, ACRAttach).value)) && KeychainErr(env, K8S).None?)
  }

  /** With at least one attempt every digest resolved from a tag is non-empty. Without an attempt, the
      answer for a tag is the empty digest exactly when a keychain stood before the default one was
      reached; when only the default is left, it is an error. */
  lemma EmptyDigestIff(config: RetryPolicyConfiguration, env: Env, ref: ImageReference)
    requires ref.Tag?
    ensures var r := Resolved(config, env, ref);
      r.err.None? && r.digest == "" <==> config.retryAttempts <= 0 && EarlyKeychain(env, ref)
  {
    EmptyClientDigestIff(config, env, ref, ACRAttach);
    EmptyClientDigestIff(config, env, ref, K8S);
    EmptyClientDigestIff(config, env, ref, Default);
    if config.retryAttempts <= 0 {
      NoAttemptClient(config, env, ref, ACRAttach);
      NoAttemptClient(config, env, ref, K8S);
      SameCause(KeychainErr(env, ACRAttach), "keychain");
    }
    ChainLinks(ref);
    WalkOn(config, env, ref, ACRAttach, [K8S] + [Default]);
    WalkOn(config, env, ref, K8S, [Default]);
    hide ClientDigest, ShouldContinueOnError, IsAcr, Chain, KeychainErr;
  }

  lemma SameCause(err: Err, context: string)
    ensures err.Some? ==> ShouldContinueOnError(Wrap(err, context).value) == ShouldContinueOnError(err.value)
  {
  }

  lemma NoAttemptClient(config: RetryPolicyConfiguration, env: Env, ref: ImageReference, auth: Auth)
    requires config.retryAttempts <= 0
    ensures ClientDigest(config, env, ref, auth) == Attempt("", Wrap(KeychainErr(env, auth), "keychain"))
  {
  }

  // Unscanned reasons.

  /** `TryParseErrToUnscannedWithReason`: decided by the cause; `None` is an unknown error. */
  function UnscannedReason(e: Error): Option<string> {
    match Cause(e)
    case ImageIsNotFound(_, _) => Some(NO_IMAGE_REASON)
    case Unauthorized(_, _) => Some(UNAUTHORIZED_REASON)
    case RegistryIsNotFound(_, _) => Some(NO_REGISTRY_REASON)
    case _ => None
  }

  /** Errors from outside are never this program's own typed errors. The token exchange of the ACR
      keychain may say that the registry does not exist; nobody else does. */
  predicate Outside(e: Error) {
    var cause := Cause(e);
    !cause.ImageIsNotFound? && !cause.Unauthorized? && !cause.RegistryIsNotFound?
  }

  ghost predicate OutsideEnv(env: Env) {
    && (env.acrKeychain.Some? ==> Cause(env.acrKeychain.value).RegistryIsNotFound? || Outside(env.acrKeychain.value))
    && (env.k8sKeychain.Some? ==> Outside(env.k8sKeychain.value))
    && forall auth: Auth, k: nat :: Replies(env, auth)(k).err.Some? ==> Outside(Replies(env, auth)(k).err.value)
  }

  /** The last answer of the registry under an authentication. */
  function LastReply(config: RetryPolicyConfiguration, env: Env, ref: ImageReference, auth: Auth): CraneReply
    requires config.retryAttempts >= 1
  {
    var action := CraneAction(ref.original, Replies(env, auth));
    RetriedMeans(action, CRANE_RETRIES, config.retryAttempts, "");
    Replies(env, auth)(Calls(action, CRANE_RETRIES, config.retryAttempts) - 1)
  }

  predicate AnswersUnauthorized(r: CraneReply) {
    r.err.Some? && r.err.value.Transport? && UnauthorizedCode in r.err.value.codes
  }

  predicate AnswersImageNotFound(r: CraneReply) {
    && r.err.Some? && r.err.value.Transport? && UnauthorizedCode !in r.err.value.codes
    && (ManifestUnknown in r.err.value.codes || NameUnknown in r.err.value.codes || NameInvalid in r.err.value.codes)
  }

  /** How a failed authentication is classified, by its keychain and the registry's last answer,
      whatever the layers of wrapping in between. */
  lemma ClientReason(config: RetryPolicyConfiguration, env: Env, ref: ImageReference, auth: Auth)
    requires config.retryAttempts >= 1 && OutsideEnv(env)
    requires ClientDigest(config, env, ref, auth).err.Some?
    ensures var reason := UnscannedReason(ClientDigest(config, env, ref, auth).err.value);
            var keychain, last := KeychainErr(env, auth), LastReply(config, env, ref, auth);
      && (reason == Some(NO_REGISTRY_REASON) <==> keychain.Some? && Cause(keychain.value).RegistryIsNotFound?)
      && (reason == Some(UNAUTHORIZED_REASON) <==> keychain.None? && AnswersUnauthorized(last))
      && (reason == Some(NO_IMAGE_REASON) <==> keychain.None? && AnswersImageNotFound(last))
  {
    ReasonsDiffer();
    var action := CraneAction(ref.original, Replies(env, auth));
    RetriedMeans(action, CRANE_RETRIES, config.retryAttempts, "");
    var k := Calls(action, CRANE_RETRIES, config.retryAttempts) - 1;
    assert action(k) == CraneAttempt(ref.original, Replies(env, auth)(k));
    AttemptReason(ref.original, Replies(env, auth)(k));
    var e, keychain := ClientDigest(config, env, ref, auth).err.value, KeychainErr(env, auth);
    if keychain.Some? {
      assert Cause(e) == Cause(keychain.value);
      KeychainCause(env, auth);
    } else {
      var retried := Retried(action, CRANE_RETRIES, config.retryAttempts, "").err.value;
      assert Cause(e) == Cause(Wrapped("extract", retried)) == Cause(retried) == Cause(action(k).err.value);
    }
  }

  lemma KeychainCause(env: Env, auth: Auth)
    requires OutsideEnv(env) && KeychainErr(env, auth).Some?
    ensures var e := KeychainErr(env, auth).value;
      && (Cause(e).RegistryIsNotFound? <==> UnscannedReason(e) == Some(NO_REGISTRY_REASON))
      && UnscannedReason(e) != Some(UNAUTHORIZED_REASON) && UnscannedReason(e) != Some(NO_IMAGE_REASON)
  {
  }

  /** How one failed call is classified. */
  lemma AttemptReason(ref: string, r: CraneReply)
    requires r.err.Some? ==> Outside(r.err.value)
    ensures var e := CraneAttempt(ref, r).err;
      e.Some? ==>
      && (UnscannedReason(e.value) == Some(UNAUTHORIZED_REASON) <==> AnswersUnauthorized(r))
      && (UnscannedReason(e.value) == Some(NO_IMAGE_REASON) <==> AnswersImageNotFound(r))
      && UnscannedReason(e.value) != Some(NO_REGISTRY_REASON)
  {
  }

  lemma ReasonsDiffer()
    ensures NO_IMAGE_REASON != UNAUTHORIZED_REASON && NO_IMAGE_REASON != NO_REGISTRY_REASON && UNAUTHORIZED_REASON != NO_REGISTRY_REASON
  {
  }

  /** Cause preservation. The reason a tag could not be resolved is the root cause of the last
      authentication tried: "no registry" exactly when the token exchange of the ACR keychain said so
      and nothing else was tried; "no image" exactly when the last answer of the registry holds a
      not-found code and no unauthorized one; "unauthorized" exactly when the default authentication
      was reached and its last answer is unauthorized. Anything else is an error without a reason. */
  lemma ReasonMeans(config: RetryPolicyConfiguration, env: Env, ref: ImageReference)
    requires config.retryAttempts >= 1 && OutsideEnv(env) && ref.Tag?
    requires Resolved(config, env, ref).err.Some?
    ensures var r := Resolved(config, env, ref);
            var reason, auth := UnscannedReason(r.err.value), r.trace[|r.trace| - 1];
            var last := LastReply(config, env, ref, auth);
      && (reason == Some(NO_REGISTRY_REASON) <==>
            r.trace == [ACRAttach] && env.acrKeychain.Some? && Cause(env.acrKeychain.value).RegistryIsNotFound?)
      && (reason == Some(NO_IMAGE_REASON) <==> KeychainErr(env, auth).None? && AnswersImageNotFound(last))
      && (reason == Some(UNAUTHORIZED_REASON) <==> auth == Default && AnswersUnauthorized(last))
  {
    var r := Resolved(config, env, ref);
    TraceMeans(config, env, ref, Chain(ref));
    var n := |r.trace| - 1;
    var auth := r.trace[n];
    EmptyClientDigestIff(config, env, ref, auth);
    ClientReason(config, env, ref, auth);
    ReasonsDiffer();
    var e := ClientDigest(config, env, ref, auth).err.value;
    assert Cause(r.err.value) == Cause(e) && UnscannedReason(r.err.value) == UnscannedReason(e);
    TraceEnds(ref, r.trace);
    assert n < |Chain(ref)| - 1 ==> !ShouldContinueOnError(e);
  }

  /** Where a trace ends in the chain of a reference. */
  lemma TraceEnds(ref: ImageReference, trace: seq<Auth>)
    requires trace != [] && trace <= Chain(ref)
    ensures trace[|trace| - 1] == Default <==> |trace| == |Chain(ref)|
    ensures trace[|trace| - 1] == ACRAttach <==> trace == [ACRAttach]
  {
  }

  // The digest cache.

  /** The digest entries of a shared store: each is a digest that a resolution of the same reference has
      produced. Entries under keys of other shapes belong to others. */
  ghost predicate DigestsOk(store: Store, produced: set<(string, string)>) {
    forall key :: key in store && ImageKey(key) ==> store[key].value.Text? && (key, store[key].value.text) in produced
  }

  // The key of the digest cache is the reference alone, while the Kubernetes authentication goes by the
  // namespace, the pull secrets and the service account of the workload.

  /** The world as another workload meets it: only its Kubernetes authentication may differ. */
  function AsAnother(env: Env, keychain: Err, replies: nat -> CraneReply): Env {
    env.(k8sKeychain := keychain, k8sReplies := replies)
  }

  /** What was resolved for one workload is what another would have resolved itself. */
  predicate RightFor(config: RetryPolicyConfiguration, env: Env, ref: ImageReference, keychain: Err,
      replies: nat -> CraneReply)
  {
    var own, another := Resolved(config, env, ref), Resolved(config, AsAnother(env, keychain, replies), ref);
    another.err.None? && another.digest == own.digest
  }

  /** A digest found in the cache is right for every other workload, whatever it may pull and see, exactly
      when the reference holds it or the ACR authentication found it. */
  lemma SharedDigestIsRightIff(config: RetryPolicyConfiguration, env: Env, ref: ImageReference)
    requires Resolved(config, env, ref).err.None?
    ensures (forall keychain, replies :: RightFor(config, env, ref, keychain, replies)) <==>
            ref.Digest? || (IsAcr(ref.registry) && ClientDigest(config, env, ref, ACRAttach).err.None?)
  {
    if ref.Tag? {
      if IsAcr(ref.registry) && ClientDigest(config, env, ref, ACRAttach).err.None? {
        forall keychain, replies ensures RightFor(config, env, ref, keychain, replies) {
          OnlyK8SDiffers(config, env, ref, keychain, replies);
          ACRDecides(config, env, ref);
          ACRDecides(config, AsAnother(env, keychain, replies), ref);
        }
      } else {
        var keychain, replies := SomeoneElse(config, env, ref);
      }
    }
  }

  /** Where the ACR authentication has not found the digest, some other workload would have resolved
      another one, or, with no attempt configured, none. */
  lemma SomeoneElse(config: RetryPolicyConfiguration, env: Env, ref: ImageReference)
    returns (keychain: Err, replies: nat -> CraneReply)
    requires ref.Tag? && Resolved(config, env, ref).err.None?
    requires !IsAcr(ref.registry) || ClientDigest(config, env, ref, ACRAttach).err.Some?
    ensures !RightFor(config, env, ref, keychain, replies)
  {
    var other := Resolved(config, env, ref).digest + "x";
    replies := (k: nat) => CraneReply(other, None);
    keychain := if config.retryAttempts >= 1 then None else Some(Plain("denied"));
    var another := AsAnother(env, keychain, replies);
    ACRGoesOn(config, env, ref);
    OnlyK8SDiffers(config, env, ref, keychain, replies);
    if config.retryAttempts >= 1 {
      AnswersAtOnce(config, another, ref, other);
    } else {
      NoAttemptClient(config, another, ref, K8S);
      NoAttemptClient(config, another, ref, Default);
    }
    K8SDecides(config, another, ref);
    hide ClientDigest, Resolved;
  }

  lemma ACRGoesOn(config: RetryPolicyConfiguration, env: Env, ref: ImageReference)
    requires ref.Tag? && Resolved(config, env, ref).err.None?
    requires IsAcr(ref.registry) ==> ClientDigest(config, env, ref, ACRAttach).err.Some?
    ensures IsAcr(ref.registry) ==> Fails(config, env, ref, ACRAttach)
  {
    hide ClientDigest, IsAcr, ShouldContinueOnError, Chain;
    ChainLinks(ref);
    WalkOn(config, env, ref, ACRAttach, [K8S] + [Default]);
  }

  /** What the chain answers once it has come to the Kubernetes authentication. */
  lemma K8SDecides(config: RetryPolicyConfiguration, env: Env, ref: ImageReference)
    requires ref.Tag? && (IsAcr(ref.registry) ==> Fails(config, env, ref, ACRAttach))
    ensures var r, k8s, last := Resolved(config, env, ref), ClientDigest(config, env, ref, K8S), ClientDigest(config, env, ref, Default);
      && (k8s.err.None? ==> r.err.None? && r.digest == k8s.value)
      && (k8s.err.Some? && r.err.None? ==> last.err.None? && last.value != "" && r.digest == last.value)
  {
    hide ClientDigest, IsAcr, ShouldContinueOnError, Chain;
    ChainLinks(ref);
    WalkOn(config, env, ref, ACRAttach, [K8S] + [Default]);
    WalkOn(config, env, ref, K8S, [Default]);
  }

  lemma OnlyK8SDiffers(config: RetryPolicyConfiguration, env: Env, ref: ImageReference, keychain: Err,
      replies: nat -> CraneReply)
    ensures var another := AsAnother(env, keychain, replies);
      && ClientDigest(config, another, ref, ACRAttach) == ClientDigest(config, env, ref, ACRAttach)
      && ClientDigest(config, another, ref, Default) == ClientDigest(config, env, ref, Default)
  {
  }

  lemma AnswersAtOnce(config: RetryPolicyConfiguration, env: Env, ref: ImageReference, digest: string)
    requires digest != "" && env.k8sKeychain.None? && env.k8sReplies(0) == CraneReply(digest, None)
    ensures config.retryAttempts >= 1 ==> ClientDigest(config, env, ref, K8S) == Attempt(digest, None)
  {
    FailuresUnique(CraneAction(ref.original, Replies(env, K8S)), CRANE_RETRIES, Tries(config.retryAttempts), 0);
  }

  lemma ACRDecides(config: RetryPolicyConfiguration, env: Env, ref: ImageReference)
    requires ref.Tag? && IsAcr(ref.registry) && ClientDigest(config, env, ref, ACRAttach).err.None?
    ensures Resolved(config, env, ref) == Resolution(ClientDigest(config, env, ref, ACRAttach).value, None, [ACRAttach])
  {
    ChainLinks(ref);
    WalkOn(config, env, ref, ACRAttach, [K8S] + [Default]);
  }

  /** What `Resolve` answers and which authentications it tries. Whatever the cache client calls a hit is
      served; a missing key and a failed read lead to the chain alike. */
  function Served(client: CacheClient, config: RetryPolicyConfiguration, env: Env, ref: ImageReference, store: Store,
      now: nat, faults: nat -> Err): Resolution
  {
    var found, chained := client.Get(store, ref.original, now, faults), Resolved(config, env, ref);
    if found.err.None? then Resolution(if found.value.Text? then found.value.text else "", None, [])
    else if chained.err.Some? then Resolution("", Wrap(chained.err, "get digest"), chained.trace)
    else chained
  }

  /** When the answer for a reference is the empty digest: exactly when the cache client never asks its
      server, or serves an empty digest that was stored, or, where it serves nothing, the chain gives one.
      With an attempt configured for the registry only the first is possible. */
  lemma EmptyAnswerIff(client: CacheClient, config: RetryPolicyConfiguration, env: Env, ref: ImageReference, store: Store,
      produced: set<(string, string)>, now: nat, faults: nat -> Err)
    requires DigestsOk(store, produced) && ImageKey(ref.original) && (ref.Digest? ==> ref.digest != "")
    requires RealFaults(faults)
    ensures var r, found := Served(client, config, env, ref, store, now, faults), Read(store, ref.original, now);
            var hit := !client.Faulty(faults) && found.Some?;
      && (r.err.None? && r.digest == "" <==>
          || client.NeverAsks()
          || (hit && found.value == Text(""))
          || (!hit && ref.Tag? && config.retryAttempts <= 0 && EarlyKeychain(env, ref)))
      && (config.retryAttempts >= 1 && NoneEmpty(produced) ==> (r.err.None? && r.digest == "" <==> client.NeverAsks()))
  {
    HitsIff(client, store, ref.original, now, faults);
    if ref.Tag? {
      EmptyDigestIff(config, env, ref);
    }
    hide Resolved, EarlyKeychain;
  }

  /** So a cache client without attempts answers every reference with the empty digest, at once and
      without asking the registry, however often the registry would be asked. */
  lemma EmptyWithoutCacheAttempts(client: CacheClient, config: RetryPolicyConfiguration, env: Env, ref: ImageReference,
      store: Store, now: nat, faults: nat -> Err)
    ensures client.NeverAsks() ==> Served(client, config, env, ref, store, now, faults) == Resolution("", None, [])
  {
    if client.NeverAsks() {
      RedisGetWithoutAttempts(client.policy, store, ref.original, now, faults);
    }
  }

  predicate NoneEmpty(produced: set<(string, string)>) {
    forall p :: p in produced ==> p.1 != ""
  }

  class Tag2DigestResolver {
    const client: CacheClient
    const cacheMinutes: int
    const config: RetryPolicyConfiguration
    const shared: SharedCache
    // Digests that spawned goroutines have still to store, by image reference.
    var storing: seq<(string, string)>
    // Every (reference, digest) that a resolution has produced.
    ghost var produced: set<(string, string)>

    constructor (client: CacheClient, cacheMinutes: int, config: RetryPolicyConfiguration, shared: SharedCache)
      ensures this.client == client && this.cacheMinutes == cacheMinutes && this.config == config && this.shared == shared
      ensures storing == [] && produced == {}
    {
      this.client, this.cacheMinutes, this.config, this.shared := client, cacheMinutes, config, shared;
      storing, produced := [], {};
    }

    /** The cache and the pending stores hold only digests that a resolution of the same reference has
        produced and, with at least one attempt configured, no empty one. */
    ghost predicate Valid()
      reads this, shared
    {
      && DigestsOk(shared.store, produced)
      && (forall p :: p in storing ==> p in produced && ImageKey(p.0))
      && (config.retryAttempts >= 1 ==> NoneEmpty(produced))
    }

    /** Called for references of ACR registries, whose text starts with the host; a digest reference
        carries its digest. Unless the cache client never asks its server, every answer is a digest that a
        resolution of the same reference produced, from the cache or now. */
    method Resolve(reference: Option<ImageReference>, hasContext: bool, env: Env, now: nat, faults: nat -> Err)
      returns (digest: string, err: Err, trace: seq<Auth>)
      requires Valid()
      requires reference.Some? ==> ImageKey(reference.value.original)
      requires reference.Some? && reference.value.Digest? ==> reference.value.digest != ""
      requires RealFaults(faults)
      modifies this
      ensures Valid() && produced >= old(produced)
      ensures reference.None? || !hasContext ==> err.Some? && Cause(err.value) == NilArgument && digest == "" && trace == []
      ensures reference.Some? && hasContext ==>
        Resolution(digest, err, trace) == Served(client, config, env, reference.value, shared.store, now, faults)
      ensures reference.Some? && hasContext && !client.NeverAsks() ==>
        var ref := reference.value;
        var found := Read(shared.store, ref.original, now);
        if !client.Faulty(faults) && found.Some? then err.None? && Text(digest) == found.value && trace == []
        else if ref.Digest? then err.None? && digest == ref.digest && trace == []
        else
          && trace != [] && trace <= (if IsAcr(ref.registry) then [ACRAttach, K8S, Default] else [K8S, Default])
          && (config.retryAttempts >= 1 ==>
                var auth := trace[|trace| - 1];
                var last := LastReply(config, env, ref, auth);
                && (err.None? <==> Keychain(env, auth).None? && last.err.None? && last.digest != "")
                && (err.None? ==> digest == last.digest))
      ensures reference.Some? && hasContext && err.Some? ==>
        var chained := Resolved(config, env, reference.value);
        chained.err.Some? && Cause(err.value) == Cause(chained.err.value) && trace == chained.trace
      ensures err.None? && !client.NeverAsks() ==> (reference.value.original, digest) in produced
      ensures err.None? && config.retryAttempts >= 1 ==> (digest == "" <==> client.NeverAsks())
      ensures if err.None? && client.Get(shared.store, reference.value.original, now, faults).err.Some?
              then storing == old(storing) + [(reference.value.original, digest)] else storing == old(storing)
    {
      if reference.None? || !hasContext {
        return "", Some(Wrapped("Resolve", NilArgument)), [];
      }
      var ref := reference.value;
      var found := client.Get(shared.store, ref.original, now, faults);
      HitsIff(client, shared.store, ref.original, now, faults);
      if found.err.None? {
        return found.value.text, None, [];
      }
      digest, err, trace := GetDigest(config, env, ref);
      if err.Some? {
        return "", Wrap(err, "get digest"), trace;
      }
      if ref.Tag? {
        EmptyDigestIff(config, env, ref);
      }
      produced := produced + {(ref.original, digest)};
      storing := storing + [(ref.original, digest)];
    }

    /** One of the spawned goroutines stores its digest, under an image key of the shared cache. A client
        that never asks its server stores nothing and says that it did. */
    method StoreDigest(i: nat, now: nat, w: WriteOutcome) returns (err: Err)
      requires Valid() && i < |storing|
      modifies this, shared
      ensures Valid() && produced == old(produced) && storing == old(storing[..i] + storing[i + 1..])
      ensures ImageKey(old(storing)[i].0)
      ensures var (key, digest) := old(storing)[i];
              var ttl := Duration(cacheMinutes, MINUTE);
        && shared.store == (if w == Lost || ttl < 0 || client.NeverAsks() then old(shared.store)
                            else old(shared.store)[key := Entry(Text(digest), now,
                                   ExpiryAt(if client.OverRedis? then Redis else FreeCache, now, ttl))])
        && (err.None? <==> ttl >= 0 && (w == Applied || client.NeverAsks()))
    {
      var (key, digest) := storing[i];
      assert storing[i] in storing;
      storing := storing[..i] + storing[i + 1..];
      var ttl := Duration(cacheMinutes, MINUTE);
      if ttl < 0 {
        return Some(Wrapped("set digest", NegativeExpiration));
      }
      if client.NeverAsks() {
        return None;
      }
      if w != Lost {
        shared.store := shared.store[key := Entry(Text(digest), now, ExpiryAt(client.Behind(), now, ttl))];
      }
      err := if w == Applied then None else Some(Wrapped("set digest", Plain("cache failure")));
    }
  }
}
