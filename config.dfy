/** Environment-driven configuration: app/config.py, with the environment as a map. */
module AppConfig {
  import opened Wrappers
  import opened Text

  datatype Config = Config(
    projectId: string,
    ingestChatId: int,
    replyChatId: int,
    pubsubTopic: string,
    pubsubAudience: Option<string>,
    telegramToken: string,
    openaiKey: string,
    webhookSecret: string,
    logLevel: string,
    firestoreProjectId: Option<string>,
    botUsername: Option<string>,
    botUserId: Option<int>,
    instagramAccessToken: Option<string>)

  /** The process environment: `os.getenv(name)` is `env[name]` when present. */
  type Env = map<string, string>

  function GetEnv(env: Env, name: string): (r: Option<string>)
    ensures r.Some? <==> name in env
  {
    if name in env then Some(env[name]) else None
  }

  /** `os.getenv(name, default)`. */
  function EnvOr(env: Env, name: string, default: string): (r: string)
    ensures name in env ==> r == env[name]
    ensures name !in env ==> r == default
  {
    GetEnv(env, name).GetOr(default)
  }

  /** Present and non-empty, i.e. truthy. */
  predicate Truthy(env: Env, name: string) {
    name in env && env[name] != ""
  }

  const RequiredVariables: seq<string> :=
    ["PROJECT_ID", "CHAT_ID", "PUBSUB_TOPIC", "TG_TOKEN", "OPENAI_KEY", "WEBHOOK_SECRET"]

  function MissingMessage(name: string): string {
    "Missing required environment variable: " + name
  }

  /** `_require`: the value of a truthy variable, else a RuntimeError that names it. */
  function Require(env: Env, name: string): (r: Result<string>)
    ensures r.Ok? <==> Truthy(env, name)
    ensures r.Ok? ==> r.value == env[name] && r.value != ""
    ensures r.Err? ==> r.error == RuntimeError(MissingMessage(name))
  {
    if Truthy(env, name) then Ok(env[name]) else Err(RuntimeError(MissingMessage(name)))
  }

  /** `_resolve_secret`: a `projects/...` resource name goes to the secret accessor. */
  function ResolveSecret(value: string, access: string -> string): (r: string)
    ensures !StartsWith(value, "projects/") ==> r == value
    ensures StartsWith(value, "projects/") ==> r == access(value)
  {
    if StartsWith(value, "projects/") then access(value) else value
  }

  /** Python's `int(s)` on a string: `parseInt` gives None where `int` raises ValueError. */
  function ParseInt(s: string, parseInt: string -> Option<int>): (r: Result<int>)
    ensures r.Ok? <==> parseInt(s).Some?
    ensures r.Ok? ==> r.value == parseInt(s).value
  {
    match parseInt(s)
    case Some(n) => Ok(n)
    case None => Err(ValueError("invalid literal for int()"))
  }

  /** `int(v) if v else default` for an optional variable. */
  function OptionalInt(env: Env, name: string, parseInt: string -> Option<int>): Result<Option<int>>
  {
    if Truthy(env, name) then
      var n :- ParseInt(env[name], parseInt);
      Ok(Some(n))
    else Ok(None)
  }

  /** Every required variable is truthy. */
  predicate RequiredPresent(env: Env) {
    Truthy(env, "PROJECT_ID") && Truthy(env, "CHAT_ID") && Truthy(env, "PUBSUB_TOPIC")
    && Truthy(env, "TG_TOKEN") && Truthy(env, "OPENAI_KEY") && Truthy(env, "WEBHOOK_SECRET")
  }

  /** The index of the first name of `names` that is not truthy: the one `get_config` reports. */
  function FirstMissing(env: Env, names: seq<string>): (r: Option<nat>)
    ensures r.None? <==> forall i :: 0 <= i < |names| ==> Truthy(env, names[i])
    ensures r.Some? ==> r.value < |names| && !Truthy(env, names[r.value])
    ensures r.Some? ==> forall j :: 0 <= j < r.value ==> Truthy(env, names[j])
  {
    if names == [] then None
    else if !Truthy(env, names[0]) then Some(0)
    else match FirstMissing(env, names[1..])
      case None => None
      case Some(k) => Some(k + 1)
  }

  /** `FirstMissing` on the required list, unfolded in the order `get_config` checks. */
  lemma FirstMissingRequired(env: Env)
    ensures FirstMissing(env, RequiredVariables) ==
              if !Truthy(env, "PROJECT_ID") then Some(0)
              else if !Truthy(env, "CHAT_ID") then Some(1)
              else if !Truthy(env, "PUBSUB_TOPIC") then Some(2)
              else if !Truthy(env, "TG_TOKEN") then Some(3)
              else if !Truthy(env, "OPENAI_KEY") then Some(4)
              else if !Truthy(env, "WEBHOOK_SECRET") then Some(5)
              else None
  {
    var names := RequiredVariables;
    var k := 6;
    while k > 0
      invariant 0 <= k <= 6
      invariant FirstMissing(env, names[k..]) ==
                  if k <= 0 && !Truthy(env, names[0]) then Some(0 - k)
                  else if k <= 1 && !Truthy(env, names[1]) then Some(1 - k)
                  else if k <= 2 && !Truthy(env, names[2]) then Some(2 - k)
                  else if k <= 3 && !Truthy(env, names[3]) then Some(3 - k)
                  else if k <= 4 && !Truthy(env, names[4]) then Some(4 - k)
                  else if k <= 5 && !Truthy(env, names[5]) then Some(5 - k)
                  else None
    {
      k := k - 1;
      assert names[k..][1..] == names[k + 1..];
    }
  }

  /** The list of required names and the predicate agree. */
  lemma RequiredListed(env: Env)
    ensures RequiredPresent(env) <==>
              (forall i :: 0 <= i < |RequiredVariables| ==> Truthy(env, RequiredVariables[i]))
  {
    if !RequiredPresent(env) {
      var k := if !Truthy(env, "PROJECT_ID") then 0 else if !Truthy(env, "CHAT_ID") then 1
               else if !Truthy(env, "PUBSUB_TOPIC") then 2 else if !Truthy(env, "TG_TOKEN") then 3
               else if !Truthy(env, "OPENAI_KEY") then 4 else 5;
      assert !Truthy(env, RequiredVariables[k]);
    }
  }

  /** True when every variable `int()` is applied to parses. */
  predicate IntsParse(env: Env, parseInt: string -> Option<int>) {
    (Truthy(env, "CHAT_ID") ==> parseInt(env["CHAT_ID"]).Some?)
    && (Truthy(env, "REPLY_CHAT_ID") ==> parseInt(env["REPLY_CHAT_ID"]).Some?)
    && (Truthy(env, "BOT_USER_ID") ==> parseInt(env["BOT_USER_ID"]).Some?)
  }

  /** `get_config`, evaluated in the source's order; the first failure is the result. */
  function GetConfig(env: Env, access: string -> string, parseInt: string -> Option<int>): (r: Result<Config>)
    ensures r.Ok? <==> RequiredPresent(env) && IntsParse(env, parseInt)
    ensures r.Err? && r.error.RuntimeError? ==>
              var k := FirstMissing(env, RequiredVariables);
              k.Some? && r.error == RuntimeError(MissingMessage(RequiredVariables[k.value]))
    ensures !Truthy(env, "PROJECT_ID") ==> r == Err(RuntimeError(MissingMessage("PROJECT_ID")))
    ensures r.Ok? ==>
              var c := r.value;
              && c.projectId == env["PROJECT_ID"]
              && c.ingestChatId == parseInt(env["CHAT_ID"]).value
              && c.replyChatId == (if Truthy(env, "REPLY_CHAT_ID") then parseInt(env["REPLY_CHAT_ID"]).value
                                   else c.ingestChatId)
              && c.pubsubTopic == env["PUBSUB_TOPIC"]
              && c.pubsubAudience == GetEnv(env, "PUBSUB_AUDIENCE")
              && c.telegramToken == ResolveSecret(env["TG_TOKEN"], access)
              && c.openaiKey == ResolveSecret(env["OPENAI_KEY"], access)
              && c.webhookSecret == ResolveSecret(env["WEBHOOK_SECRET"], access)
              && c.logLevel == (if "LOG_LEVEL" in env then env["LOG_LEVEL"] else "INFO")
              && c.firestoreProjectId == GetEnv(env, "FIRESTORE_PROJECT_ID")
              && c.botUsername == GetEnv(env, "BOT_USERNAME")
              && (c.botUserId.None? <==> !Truthy(env, "BOT_USER_ID"))
              && (c.botUserId.Some? ==> c.botUserId.value == parseInt(env["BOT_USER_ID"]).value)
              && (c.instagramAccessToken.None? <==> !Truthy(env, "INSTAGRAM_ACCESS_TOKEN"))
              && (c.instagramAccessToken.Some? ==>
                    c.instagramAccessToken.value == ResolveSecret(env["INSTAGRAM_ACCESS_TOKEN"], access))
  {
    FirstMissingRequired(env);
    var projectId :- Require(env, "PROJECT_ID");
    var chatIdText :- Require(env, "CHAT_ID");
    var ingestChatId :- ParseInt(chatIdText, parseInt);
    var replyOverride :- OptionalInt(env, "REPLY_CHAT_ID", parseInt);
    var replyChatId := replyOverride.GetOr(ingestChatId);
    var pubsubTopic :- Require(env, "PUBSUB_TOPIC");
    var pubsubAudience := GetEnv(env, "PUBSUB_AUDIENCE");
    var telegramToken :- Require(env, "TG_TOKEN");
    var openaiKey :- Require(env, "OPENAI_KEY");
    var webhookSecret :- Require(env, "WEBHOOK_SECRET");
    var logLevel := GetEnv(env, "LOG_LEVEL").GetOr("INFO");
    var botUserId :- OptionalInt(env, "BOT_USER_ID", parseInt);
    var instagram :=
      if Truthy(env, "INSTAGRAM_ACCESS_TOKEN")
      then Some(ResolveSecret(env["INSTAGRAM_ACCESS_TOKEN"], access)) else None;
    Ok(Config(
      projectId, ingestChatId, replyChatId, pubsubTopic, pubsubAudience,
      ResolveSecret(telegramToken, access), ResolveSecret(openaiKey, access),
      ResolveSecret(webhookSecret, access), logLevel,
      GetEnv(env, "FIRESTORE_PROJECT_ID"), GetEnv(env, "BOT_USERNAME"), botUserId, instagram))
  }

  /**
   * The error `get_config` raises: with every integer parsing, a missing variable is
   * reported by name, the first in check order; with every variable present, a bad
   * integer raises ValueError.
   */
  lemma GetConfigErrors(env: Env, access: string -> string, parseInt: string -> Option<int>)
    ensures !RequiredPresent(env) && IntsParse(env, parseInt) ==>
              var k := FirstMissing(env, RequiredVariables);
              k.Some? && GetConfig(env, access, parseInt) == Err(RuntimeError(MissingMessage(RequiredVariables[k.value])))
    ensures RequiredPresent(env) && !IntsParse(env, parseInt) ==>
              GetConfig(env, access, parseInt).Err? && GetConfig(env, access, parseInt).error.ValueError?
  {
    FirstMissingRequired(env);
    RequiredListed(env);
  }
}
