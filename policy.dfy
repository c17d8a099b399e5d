/**
 * `_should_reply` (app/message_processor.py:80-97). The last reply time is read from
 * the store by the caller and passed in; `now` is `datetime.now` in UTC seconds and
 * `draw` is `random.random()`.
 */
module ReplyPolicy {
  import opened Wrappers
  import opened Text
  import opened Models
  import opened AppConfig

  /** `config.bot_user_id and sender.id == config.bot_user_id`: a configured, non-zero bot id sent it. */
  predicate SentByBot(u: Update, cfg: Config) {
    cfg.botUserId.Some? && cfg.botUserId.value != 0 && u.message.sender.id == cfg.botUserId
  }

  /** `update.message.text or ""`. */
  function TextOf(u: Update): (t: string)
    ensures u.message.text.Some? ==> t == u.message.text.value
    ensures u.message.text.None? ==> t == ""
  {
    match u.message.text
    case Some(t) => t
    case None => ""
  }

  /** The text contains `@` followed by a configured, non-empty bot username. */
  predicate Mentioned(u: Update, cfg: Config) {
    cfg.botUsername.Some? && cfg.botUsername.value != "" && Contains(TextOf(u), "@" + cfg.botUsername.value)
  }

  /** The last reply is less than the cooldown ago. */
  predicate CoolingDown(lastReply: Option<int>, now: int, t: Tunables) {
    lastReply.Some? && now - lastReply.value < t.cooldownSeconds
  }

  function ShouldReply(u: Update, cfg: Config, lastReply: Option<int>, now: int, draw: real, t: Tunables): (r: bool)
    ensures SentByBot(u, cfg) ==> !r
    ensures !SentByBot(u, cfg) && (Mentioned(u, cfg) || '?' in TextOf(u)) ==> r
    ensures !SentByBot(u, cfg) && !Mentioned(u, cfg) && '?' !in TextOf(u) ==>
              (r <==> !CoolingDown(lastReply, now, t) && draw < t.replyChance)
  {
    var text := TextOf(u);
    ContainsChar(text, '?');
    if cfg.botUserId.Some? && cfg.botUserId.value != 0 && u.message.sender.id == cfg.botUserId then false
    else if cfg.botUsername.Some? && cfg.botUsername.value != "" && Contains(text, "@" + cfg.botUsername.value) then true
    else if Contains(text, "?") then true
    else if lastReply.Some? && now - lastReply.value < t.cooldownSeconds then false
    else draw < t.replyChance
  }
}
