/** Records and validators of the Bridge protocol (crates/protocol/src/types.rs). */
module BridgeProtocol {
  import opened Wrappers
  import opened ProtocolText
  import opened Scheduling

  const MAX_SCRIPT_BYTES := 1024 * 1024
  const MAX_EXECUTE_TIMEOUT_MS := 120_000
  const MAX_PAYLOAD_BYTES := 16 * 1024 * 1024
  const PERMIT_LIFETIME_MS: u64 := 20_000

  /** A session key, as an ideal AEAD key: only the key a payload was sealed with opens it. */
  type Key = string

  datatype Config = Config(
    bindingId: string,
    defaultTaskSpace: string,
    allowlistRevision: u64,
    learningDigest: Option<string>,
    maxParallel: nat,
    startupNonce: Option<string>)

  datatype BridgeError =
    | Unavailable | Revoked | LeaseExpired | LeaseRenewalRequired | Replayed | Concurrency
    | FrameTooLarge | ProtocolViolation | AuthenticationFailed | LedgerFailed

  datatype PermitRequest = PermitRequest(
    wellTyped: bool,
    startupNonce: Option<string>,
    scriptBytes: nat,
    timeoutMs: nat,
    cwdLabel: string,
    mode: Mode,
    taskSpaceScope: Option<string>,
    tabScope: Option<string>)

  datatype Permit = Permit(
    bindingId: string,
    generation: u64,
    requestId: string,
    sequence: u64,
    expiresAtMs: u64,
    maxPayloadBytes: nat,
    maxScriptBytes: nat,
    defaultTaskSpace: string,
    allowlistRevision: u64,
    learningDigest: Option<string>,
    mode: Mode,
    taskSpaceScope: Option<string>,
    tabScope: Option<string>)

  datatype InnerRequest = InnerRequest(
    wellTyped: bool,
    scriptBytes: nat,
    timeoutMs: nat,
    cwdLabel: string,
    defaultTaskSpace: string,
    mode: Mode,
    taskSpaceScope: Option<string>,
    tabScope: Option<string>,
    allowlistRevision: u64,
    learningDigest: Option<string>)

  datatype MessageType = Execute | ExecuteResult | Cancel | Other

  /** Key-wrap material: none, or complete and unwrapping to a session key if it is authentic. */
  datatype KeyWrap = NoWrap | Wrap(opens: Option<Key>)

  /**
    An outer envelope. `wellFormed` is the routing and encoding validator;
    `sealedKey` and `inner` are the ideal ciphertext: sealed under a key, holding
    a parsed request or not.
   */
  datatype Envelope = Envelope(
    wellFormed: bool,
    messageType: MessageType,
    isRequest: bool,
    bindingId: string,
    generation: u64,
    sequence: u64,
    requestId: string,
    payloadBytes: nat,
    keyWrap: KeyWrap,
    sealedKey: Key,
    inner: Option<InnerRequest>)

  predicate ContainsDots(s: string) {
    exists i :: 0 <= i && i + 1 < |s| && s[i] == '.' && s[i + 1] == '.'
  }

  predicate ScopeTextValid(scope: Option<string>) {
    ValidTextId(OrEmpty(scope), 256) && '*' !in OrEmpty(scope)
  }

  /** `InnerExecuteRequest::validate` against this Bridge's capability. */
  predicate InnerValid(r: InnerRequest, cfg: Config) {
    && r.wellTyped
    && 0 < r.scriptBytes <= MAX_SCRIPT_BYTES
    && 0 < r.timeoutMs <= MAX_EXECUTE_TIMEOUT_MS
    && ValidTextId(r.cwdLabel, 128) && !ContainsDots(r.cwdLabel)
    && IsDedicatedTaskSpace(r.defaultTaskSpace)
    && r.allowlistRevision == cfg.allowlistRevision
    && r.learningDigest == cfg.learningDigest
    && (r.mode != Binding ==> ScopeTextValid(r.taskSpaceScope) && OrEmpty(r.taskSpaceScope) == r.defaultTaskSpace)
    && (r.mode == TaskSpaceTab ==> ScopeTextValid(r.tabScope))
  }

  function ScopeOf(r: InnerRequest): RequestScope {
    Normalized(r.mode, r.taskSpaceScope, r.tabScope)
  }

  /** `RequestPermit::validate`. */
  predicate PermitValid(p: Permit, cfg: Config, nowMs: u64, scriptBytes: nat) {
    && ValidTextId(p.bindingId, 128) && ValidTextId(p.requestId, 128) && p.generation != 0 && p.sequence != 0
    && p.expiresAtMs > nowMs
    && 0 < p.maxPayloadBytes <= MAX_PAYLOAD_BYTES
    && 0 < p.maxScriptBytes <= MAX_SCRIPT_BYTES && scriptBytes <= p.maxScriptBytes
    && IsDedicatedTaskSpace(p.defaultTaskSpace)
    && p.allowlistRevision == cfg.allowlistRevision && p.learningDigest == cfg.learningDigest
    && Normalized(p.mode, p.taskSpaceScope, p.tabScope) == RequestScope(p.mode, p.taskSpaceScope, p.tabScope)
    && (p.mode != Binding ==> p.taskSpaceScope == Some(p.defaultTaskSpace))
  }

  /** Every request the validator lets through locks the whole binding or the one dedicated Task Space. */
  lemma AcceptedScopeIsConfined(r: InnerRequest, cfg: Config)
    requires InnerValid(r, cfg) && r.defaultTaskSpace == cfg.defaultTaskSpace
    ensures Within(ScopeOf(r), cfg.defaultTaskSpace)
  {
    DedicatedIsPlain(r.defaultTaskSpace);
  }

  /** A permit scope that names a Task Space names the dedicated one; the stored form normalizes to itself. */
  lemma NormalizedIsStable(mode: Mode, taskSpace: Option<string>, tab: Option<string>)
    ensures var scope := Normalized(mode, taskSpace, tab);
      Normalized(scope.mode, scope.taskSpace, scope.tab) == scope
  {
    if taskSpace.Some? { TrimIsIdempotent(taskSpace.value); }
    if tab.Some? { TrimIsIdempotent(tab.value); }
  }

  lemma TrimIsIdempotent(s: string)
    ensures Trim(Trim(s)) == Trim(s)
  {
    TrimStartEnds(s);
    TrimEndEnds(TrimStart(s));
  }

  lemma {:induction false} TrimStartEnds(s: string)
    ensures TrimStart(s) == "" || !IsWhitespace(TrimStart(s)[0])
  {
    if s != "" && IsWhitespace(s[0]) { TrimStartEnds(s[1..]); }
  }

  lemma {:induction false} TrimEndEnds(s: string)
    ensures var t := TrimEnd(s);
      t == "" || (!IsWhitespace(t[|t| - 1]) && t[0] == s[0] && s != "")
  {
    if s != "" && IsWhitespace(s[|s| - 1]) { TrimEndEnds(s[..|s| - 1]); }
  }
}
