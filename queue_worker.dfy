/**
 * `_verify_pubsub_jwt` and `handle_pubsub_push` (app/queue_worker.py:19-93): the
 * authentication and envelope guards of a Pub/Sub push, then `process_update`.
 * Token verification and the base64/UTF-8/JSON decoding are parameters.
 */
module QueueWorker {
  import opened Wrappers
  import opened Text
  import opened Models
  import opened AppConfig
  import opened Storage
  import opened MessageProcessor

  /** The push envelope's `message`; `messageId` and `publishTime` are only logged. */
  datatype PushMessage = PushMessage(data: Option<string>)

  datatype PushPayload = PushPayload(message: Option<PushMessage>)

  const MissingToken: Failure := ValueError("Missing Pub/Sub bearer token")
  const MissingAudience: Failure := ValueError("Missing Pub/Sub audience header")
  const MissingData: Failure := ValueError("Missing Pub/Sub message data")

  /** `headers.get("authorization", "")`. */
  function AuthHeader(headers: map<string, string>): string {
    if "authorization" in headers then headers["authorization"] else ""
  }

  /**
   * The bearer token: the header must start with `bearer ` in any letter case, and the
   * token is what follows the first space.
   */
  function BearerToken(headers: map<string, string>): (r: Result<string>)
    ensures var h := AuthHeader(headers);
            r.Ok? <==> |h| >= 7 && AsciiLowerString(h[..7]) == "bearer "
    ensures r.Err? ==> r == Err(MissingToken)
    ensures r.Ok? ==> var h := AuthHeader(headers); h == h[..6] + " " + r.value && ' ' !in h[..6]
  {
    var h := AuthHeader(headers);
    if |h| >= 7 && AsciiLowerString(h[..7]) == "bearer " then
      assert h[6] == ' ' by { assert AsciiLower(h[6]) == ' '; }
      assert ' ' !in h[..6] by {
        forall i | 0 <= i < 6 ensures h[i] != ' ' {
          assert AsciiLowerString(h[..7])[i] == AsciiLower(h[i]);
        }
      }
      assert h == h[..6] + " " + h[7..];
      Ok(h[7..])
    else Err(MissingToken)
  }

  /** `os.getenv("SKIP_PUBSUB_AUTH", "false").lower() == "true"`. */
  predicate SkipAuth(env: Env) {
    AsciiLowerString(EnvOr(env, "SKIP_PUBSUB_AUTH", "false")) == "true"
  }

  /** `config.pubsub_audience or ""`. */
  function Audience(cfg: Config): string {
    cfg.pubsubAudience.GetOr("")
  }

  /** The authentication step: skipped, or an audience, a bearer token and a token `verify` accepts. */
  function Authenticate(headers: map<string, string>, cfg: Config, env: Env, verify: (string, string) -> bool): (r: Result<()>)
    ensures SkipAuth(env) ==> r == Ok(())
    ensures !SkipAuth(env) && Audience(cfg) == "" ==> r == Err(MissingAudience)
    ensures r.Ok? <==> SkipAuth(env) || (Audience(cfg) != "" && BearerToken(headers).Ok? && verify(BearerToken(headers).value, Audience(cfg)))
  {
    if SkipAuth(env) then Ok(())
    else if Audience(cfg) == "" then Err(MissingAudience)
    else
      match BearerToken(headers)
      case Err(e) => Err(e)
      case Ok(token) => if verify(token, Audience(cfg)) then Ok(()) else Err(AuthError)
  }

  /** `message.get("data")` of the envelope. */
  function DataOf(payload: PushPayload): Option<string> {
    match payload.message
    case None => None
    case Some(m) => m.data
  }

  /** Everything before `process_update`: authentication, then the data, then its decoding. */
  function Admit(payload: PushPayload, headers: map<string, string>, cfg: Config, env: Env,
                 verify: (string, string) -> bool, decode: string -> Option<RawUpdate>): (r: Result<RawUpdate>)
    ensures Authenticate(headers, cfg, env, verify).Err? ==> r == Err(Authenticate(headers, cfg, env, verify).error)
    ensures Authenticate(headers, cfg, env, verify).Ok? && (DataOf(payload).None? || DataOf(payload).value == "") ==> r == Err(MissingData)
    ensures r.Ok? <==> Authenticate(headers, cfg, env, verify).Ok? && DataOf(payload).Some? && DataOf(payload).value != ""
                       && decode(DataOf(payload).value).Some?
    ensures r.Ok? ==> r.value == decode(DataOf(payload).value).value
  {
    match Authenticate(headers, cfg, env, verify)
    case Err(e) => Err(e)
    case Ok(_) =>
      var data := DataOf(payload);
      if data.None? || data.value == "" then Err(MissingData)
      else
        match decode(data.value)
        case None => Err(DecodeError)
        case Some(update) => Ok(update)
  }

  /** A missing audience is reported whatever the envelope holds. */
  lemma AudienceBeforePayload(p1: PushPayload, p2: PushPayload, headers: map<string, string>, cfg: Config, env: Env,
                              verify: (string, string) -> bool, decode: string -> Option<RawUpdate>)
    requires !SkipAuth(env) && Audience(cfg) == ""
    ensures Admit(p1, headers, cfg, env, verify, decode) == Admit(p2, headers, cfg, env, verify, decode) == Err(MissingAudience)
  {
  }

  /** `handle_pubsub_push` as a function of the store: refused envelopes change nothing; `process_update` errors are re-raised. */
  function Push(s: StoreState, payload: PushPayload, headers: map<string, string>, cfg: Config, env: Env,
                verify: (string, string) -> bool, decode: string -> Option<RawUpdate>, t: Tunables, w: World): (r: (StoreState, Result<()>))
    ensures Admit(payload, headers, cfg, env, verify, decode).Err? ==>
              r == (s, Err(Admit(payload, headers, cfg, env, verify, decode).error))
    ensures Admit(payload, headers, cfg, env, verify, decode).Ok? ==>
              var e := Pipeline(s, Admit(payload, headers, cfg, env, verify, decode).value, cfg, t, w);
              r.0 == e.state && (r.1.Err? <==> e.outcome.Error?) && (e.outcome.Error? ==> r.1.error == e.outcome.error)
  {
    match Admit(payload, headers, cfg, env, verify, decode)
    case Err(err) => (s, Err(err))
    case Ok(update) =>
      var e := Pipeline(s, update, cfg, t, w);
      (e.state, if e.outcome.Error? then Err(e.outcome.error) else Ok(()))
  }

  /** `handle_pubsub_push`: `process_update` runs at most once, and only on an admitted envelope. */
  method HandlePubsubPush(store: Store, payload: PushPayload, headers: map<string, string>, cfg: Config, env: Env,
                          verify: (string, string) -> bool, decode: string -> Option<RawUpdate>, t: Tunables, w: World)
    returns (r: Result<()>, ghost calls: nat, ghost sent: seq<Sent>)
    modifies store
    ensures (store.State(), r) == Push(old(store.State()), payload, headers, cfg, env, verify, decode, t, w)
    ensures calls == if Admit(payload, headers, cfg, env, verify, decode).Ok? then 1 else 0
    ensures calls == 0 ==> sent == [] && store.State() == old(store.State())
    ensures calls == 1 ==> sent == Pipeline(old(store.State()), Admit(payload, headers, cfg, env, verify, decode).value, cfg, t, w).sent
  {
    calls, sent := 0, [];
    var audience := Audience(cfg);
    if !SkipAuth(env) {
      if audience == "" {
        return Err(MissingAudience), calls, sent;
      }
      var token := BearerToken(headers);
      if token.Err? {
        return Err(token.error), calls, sent;
      }
      if !verify(token.value, audience) {
        return Err(AuthError), calls, sent;
      }
    }
    var data := DataOf(payload);
    if data.None? || data.value == "" {
      return Err(MissingData), calls, sent;
    }
    var update := decode(data.value);
    if update.None? {
      return Err(DecodeError), calls, sent;
    }
    var outcome;
    outcome, sent := ProcessUpdate(store, update.value, cfg, t, w);
    calls := 1;
    if outcome.Error? {
      return Err(outcome.error), calls, sent;
    }
    return Ok(()), calls, sent;
  }
}
