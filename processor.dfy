/**
 * `_parse_update` and `process_update` (app/message_processor.py:32-55, 107-176):
 * a pure specification `Pipeline` of one update's effect on the store, and the
 * method `ProcessUpdate` that performs the same steps on a `Store` in order.
 */
module MessageProcessor {
  import opened Wrappers
  import opened Text
  import opened Models
  import opened AppConfig
  import opened Ranking
  import opened Storage
  import opened StyleProfiles
  import opened ReplyPolicy
  import opened AiAdapter

  /** `_parse_update`; a missing `message`, `date` or `update_id` raises, in that order. */
  function ParseUpdate(raw: RawUpdate): (r: Result<Update>)
    ensures r.Ok? <==> raw.message.Some? && raw.message.value.date.Some? && raw.updateId.Some?
    ensures raw.message.None? ==> r == Err(KeyError("message"))
    ensures raw.message.Some? && raw.message.value.date.None? ==> r == Err(TypeError("date"))
    ensures raw.message.Some? && raw.message.value.date.Some? && raw.updateId.None? ==> r == Err(KeyError("update_id"))
    ensures r.Ok? ==> r.value.updateId == raw.updateId.value
                      && r.value.message.messageId == raw.message.value.messageId
                      && r.value.message.text == raw.message.value.text
                      && r.value.message.date == raw.message.value.date.value
                      && !r.value.message.sender.isBot
                      && |r.value.message.entities| == |raw.message.value.entities.GetOr([])|
    ensures r.Ok? ==> var f := raw.message.value.from.GetOr(RawUser(None, None, None));
                      r.value.message.sender == User(f.id, f.username, f.firstName, false)
    ensures r.Ok? ==> var raws := raw.message.value.entities.GetOr([]);
                      forall i :: 0 <= i < |raws| ==>
                        r.value.message.entities[i] == MessageEntity(raws[i].kind, raws[i].offset, raws[i].length)
  {
    if raw.message.None? then Err(KeyError("message"))
    else
      var m := raw.message.value;
      var from := m.from.GetOr(RawUser(None, None, None));
      var user := User(from.id, from.username, from.firstName, false);
      var raws := m.entities.GetOr([]);
      var entities := seq(|raws|, i requires 0 <= i < |raws| => MessageEntity(raws[i].kind, raws[i].offset, raws[i].length));
      if m.date.None? then Err(TypeError("date"))
      else if raw.updateId.None? then Err(KeyError("update_id"))
      else Ok(Update(raw.updateId.value, Message(m.messageId, user, m.text, m.date.value, entities)))
  }

  /** The `save_message` payload. */
  function StoredOf(u: Update): StoredMessage {
    StoredMessage(u.message.messageId, u.message.text, u.message.date, u.message.sender.id, u.message.sender.username)
  }

  /** Python's `xs[:k]` for any integer `k`. */
  function Take<T>(xs: seq<T>, k: int): (r: seq<T>)
    ensures |r| <= |xs| && r == xs[..|r|]
    ensures k >= 0 ==> |r| == Min(k, |xs|)
    ensures k < 0 ==> |r| == if |xs| + k > 0 then |xs| + k else 0
  {
    if k >= 0 then xs[..Min(k, |xs|)]
    else if |xs| + k > 0 then xs[..|xs| + k]
    else []
  }

  function Reverse<T>(xs: seq<T>): (r: seq<T>)
    ensures |r| == |xs|
    ensures forall i :: 0 <= i < |xs| ==> r[i] == xs[|xs| - 1 - i]
  {
    if xs == [] then [] else Reverse(xs[1..]) + [xs[0]]
  }

  /** The `Message` rebuilt from a stored record for the prompt. */
  function MessageOf(m: StoredMessage): Message {
    Message(m.messageId, User(m.userId, m.username, None, false), m.text, m.date, [])
  }

  /** The AI context: the first `contextMessages` of the newest-first history, oldest first. */
  function ContextOf(history: seq<StoredMessage>, cfg: Config, t: Tunables,
                     isWord: char -> bool, lower: string -> string): (ctx: AIContext)
    ensures ctx.chatId == cfg.ingestChatId
    ensures ctx.styleProfile == BuildStyleProfile(history, isWord, lower)
    ensures var recent := Take(history, t.contextMessages);
            |ctx.recentMessages| == |recent|
            && forall i :: 0 <= i < |recent| ==> ctx.recentMessages[i] == MessageOf(recent[|recent| - 1 - i])
  {
    var recent := Take(history, t.contextMessages);
    var msgs := seq(|recent|, i requires 0 <= i < |recent| => MessageOf(recent[i]));
    AIContext(cfg.ingestChatId, Reverse(msgs), BuildStyleProfile(history, isWord, lower))
  }

  /** Taken from the newest-first history, the context's messages run oldest first. */
  lemma ContextChronological(s: StoreState, cfg: Config, t: Tunables, isWord: char -> bool, lower: string -> string)
    ensures var ctx := ContextOf(Latest(s, cfg.ingestChatId, t.historyLimit), cfg, t, isWord, lower);
            forall i, j :: 0 <= i < j < |ctx.recentMessages| ==> ctx.recentMessages[i].date <= ctx.recentMessages[j].date
  {
    var history := Latest(s, cfg.ingestChatId, t.historyLimit);
    var recent := Take(history, t.contextMessages);
    var ctx := ContextOf(history, cfg, t, isWord, lower);
    forall i, j | 0 <= i < j < |ctx.recentMessages|
      ensures ctx.recentMessages[i].date <= ctx.recentMessages[j].date
    {
      var n := |recent|;
      assert recent[n - 1 - j] == history[n - 1 - j] && recent[n - 1 - i] == history[n - 1 - i];
    }
  }

  /**
   * What the outside world answers during one update: the clock, `random.random()`,
   * the text helpers, `generate_reply` (its model is `AiAdapter.ReplyOf`) and the
   * Telegram POST.
   */
  datatype World = World(
    now: int,
    draw: real,
    isWord: char -> bool,
    lower: string -> string,
    generate: AIContext -> Result<string>,
    telegramError: Option<Failure>)

  /** How `process_update` ends: it returns early, returns at the end, or raises. */
  datatype Outcome = Duplicate | NoReply | ReplyEmpty | Replied | Error(error: Failure)

  /** A Telegram `sendMessage` that went out. */
  datatype Sent = Sent(chatId: int, text: string)

  datatype Effect = Effect(state: StoreState, outcome: Outcome, sent: seq<Sent>)

  /** Building `{**context, ...}` at line 171 from an `AIContext`. */
  const NotAMapping: Failure := TypeError("AIContext is not a mapping")

  /** The history and context `process_update` builds after deciding to reply. */
  function ReplyContext(s1: StoreState, cfg: Config, t: Tunables, w: World): AIContext {
    ContextOf(Latest(s1, cfg.ingestChatId, t.historyLimit), cfg, t, w.isWord, w.lower)
  }

  /** The store after `save_message`, and the decision taken on it. */
  function Decide(s: StoreState, u: Update, cfg: Config, t: Tunables, w: World): (StoreState, bool) {
    var s1 := MessageSaved(s, cfg.ingestChatId, StoredOf(u));
    (s1, ShouldReply(u, cfg, LastReplyAt(s1, cfg.replyChatId), w.now, w.draw, t))
  }

  /** `process_update` as written. */
  function Pipeline(s: StoreState, raw: RawUpdate, cfg: Config, t: Tunables, w: World): (e: Effect)
    ensures ParseUpdate(raw).Err? ==> e == Effect(s, Error(ParseUpdate(raw).error), [])
    ensures e.outcome == Duplicate <==> ParseUpdate(raw).Ok? && Processed(s, ParseUpdate(raw).value.updateId)
    ensures e.outcome == Duplicate ==> e.state == s && e.sent == []
    ensures e.outcome != Replied
    ensures |e.sent| <= 1
    ensures e.sent != [] ==> e.sent[0].chatId == cfg.replyChatId && e.sent[0].text != ""
  {
    match ParseUpdate(raw)
    case Err(err) => Effect(s, Error(err), [])
    case Ok(u) =>
      if Processed(s, u.updateId) then Effect(s, Duplicate, [])
      else
        var (s1, should) := Decide(s, u, cfg, t, w);
        if !should then Effect(Marked(s1, u.updateId, w.now), NoReply, [])
        else Respond(s1, u, cfg, t, w)
  }

  /** Lines 143-176 of `process_update`, once the message is saved and a reply is wanted. */
  function Respond(s1: StoreState, u: Update, cfg: Config, t: Tunables, w: World): (e: Effect)
    ensures e.outcome != Duplicate && e.outcome != NoReply && e.outcome != Replied
    ensures e.outcome == ReplyEmpty <==> w.generate(ReplyContext(s1, cfg, t, w)) == Ok("")
    ensures e.outcome == ReplyEmpty ==> e.state == Marked(s1, u.updateId, w.now) && e.sent == []
    ensures |e.sent| <= 1
    ensures e.sent != [] ==> e.sent[0].chatId == cfg.replyChatId && e.sent[0].text != ""
    ensures var g := w.generate(ReplyContext(s1, cfg, t, w));
            g.Err? ==> e == Effect(s1, Error(g.error), [])
    ensures var g := w.generate(ReplyContext(s1, cfg, t, w));
            g.Ok? && g.value != "" && w.telegramError.Some? ==> e == Effect(s1, Error(w.telegramError.value), [])
    ensures var g := w.generate(ReplyContext(s1, cfg, t, w));
            g.Ok? && g.value != "" && w.telegramError.None? ==>
              e == Effect(ReplySaved(s1, cfg.replyChatId, u.message.messageId, g.value, w.now),
                          Error(NotAMapping), [Sent(cfg.replyChatId, g.value)])
  {
    var ctx := ReplyContext(s1, cfg, t, w);
    match w.generate(ctx)
    case Err(err) => Effect(s1, Error(err), [])
    case Ok(reply) =>
      if reply == "" then Effect(Marked(s1, u.updateId, w.now), ReplyEmpty, [])
      else if w.telegramError.Some? then Effect(s1, Error(w.telegramError.value), [])
      else
        var s2 := ReplySaved(s1, cfg.replyChatId, u.message.messageId, reply, w.now);
        Effect(s2, Error(NotAMapping), [Sent(cfg.replyChatId, reply)])
  }

  /** Every update that gets past de-duplication is saved under the ingest chat before anything else happens. */
  lemma SavedUnlessDuplicate(s: StoreState, raw: RawUpdate, cfg: Config, t: Tunables, w: World)
    requires ParseUpdate(raw).Ok?
    ensures var e := Pipeline(s, raw, cfg, t, w);
            e.outcome != Duplicate ==> StoredOf(ParseUpdate(raw).value) in Messages(e.state, cfg.ingestChatId)
  {
    var u := ParseUpdate(raw).value;
    if !Processed(s, u.updateId) {
      var (s1, should) := Decide(s, u, cfg, t, w);
      assert StoredOf(u) in Messages(s1, cfg.ingestChatId);
      if should {
        var ctx := ReplyContext(s1, cfg, t, w);
        match w.generate(ctx)
        case Err(_) =>
        case Ok(reply) =>
          if reply != "" && w.telegramError.None? {
            var s2 := ReplySaved(s1, cfg.replyChatId, u.message.messageId, reply, w.now);
            assert Messages(s2, cfg.ingestChatId) == Messages(s1, cfg.ingestChatId);
          }
      }
    }
  }

  /** A declined update is marked processed and nothing is sent. */
  lemma DeclinedMarked(s: StoreState, raw: RawUpdate, cfg: Config, t: Tunables, w: World)
    requires ParseUpdate(raw).Ok? && !Processed(s, ParseUpdate(raw).value.updateId)
    ensures var u := ParseUpdate(raw).value;
            var (s1, should) := Decide(s, u, cfg, t, w);
            var e := Pipeline(s, raw, cfg, t, w);
            (e.outcome == NoReply <==> !should)
            && (!should ==> e.state == Marked(s1, u.updateId, w.now) && e.sent == [] && Processed(e.state, u.updateId))
  {
  }

  /** An empty reply is neither sent nor stored, and the update is marked processed. */
  lemma EmptyReplyMarked(s: StoreState, raw: RawUpdate, cfg: Config, t: Tunables, w: World)
    requires ParseUpdate(raw).Ok? && !Processed(s, ParseUpdate(raw).value.updateId)
    ensures var u := ParseUpdate(raw).value;
            var (s1, should) := Decide(s, u, cfg, t, w);
            var e := Pipeline(s, raw, cfg, t, w);
            (e.outcome == ReplyEmpty <==> should && w.generate(ReplyContext(s1, cfg, t, w)) == Ok(""))
            && (e.outcome == ReplyEmpty ==>
                  e.state == Marked(s1, u.updateId, w.now) && e.sent == []
                  && Replies(e.state, cfg.replyChatId) == Replies(s1, cfg.replyChatId))
  {
    var u := ParseUpdate(raw).value;
    var (s1, should) := Decide(s, u, cfg, t, w);
    if should {
      assert Pipeline(s, raw, cfg, t, w) == Respond(s1, u, cfg, t, w);
    }
  }

  /**
   * A reply that went out was generated for the update, is stored under the reply
   * chat, and the update is left unmarked: building the log record at line 171
   * raises before line 175.
   */
  lemma SentReplyUnmarked(s: StoreState, raw: RawUpdate, cfg: Config, t: Tunables, w: World)
    requires ParseUpdate(raw).Ok?
    requires Pipeline(s, raw, cfg, t, w).sent != []
    ensures var u := ParseUpdate(raw).value;
            var (s1, should) := Decide(s, u, cfg, t, w);
            var e := Pipeline(s, raw, cfg, t, w);
            !Processed(s, u.updateId) && should && e.outcome == Error(NotAMapping)
            && w.generate(ReplyContext(s1, cfg, t, w)) == Ok(e.sent[0].text)
            && e.state == ReplySaved(s1, cfg.replyChatId, u.message.messageId, e.sent[0].text, w.now)
            && !Processed(e.state, u.updateId)
  {
    var u := ParseUpdate(raw).value;
    var (s1, should) := Decide(s, u, cfg, t, w);
    assert !Processed(s, u.updateId) && should;
    assert Pipeline(s, raw, cfg, t, w) == Respond(s1, u, cfg, t, w);
    var ctx := ReplyContext(s1, cfg, t, w);
    var reply := w.generate(ctx);
    assert reply.Ok? && reply.value != "" && w.telegramError.None?;
    var s2 := ReplySaved(s1, cfg.replyChatId, u.message.messageId, reply.value, w.now);
    assert Pipeline(s, raw, cfg, t, w) == Effect(s2, Error(NotAMapping), [Sent(cfg.replyChatId, reply.value)]);
    assert s2.processed == s1.processed;
  }

  /** A redelivery of an update whose reply went out is processed again, not recognised as a duplicate. */
  lemma RedeliveryNotDuplicate(s: StoreState, raw: RawUpdate, cfg: Config, t: Tunables, w: World, w2: World)
    requires ParseUpdate(raw).Ok? && Pipeline(s, raw, cfg, t, w).sent != []
    ensures Pipeline(Pipeline(s, raw, cfg, t, w).state, raw, cfg, t, w2).outcome != Duplicate
  {
    SentReplyUnmarked(s, raw, cfg, t, w);
  }

  /** A redelivered question gets a second reply when generation answers again. */
  lemma RedeliveryResends(s: StoreState, raw: RawUpdate, cfg: Config, t: Tunables, w: World)
    requires ParseUpdate(raw).Ok? && Pipeline(s, raw, cfg, t, w).sent != []
    requires !SentByBot(ParseUpdate(raw).value, cfg) && '?' in TextOf(ParseUpdate(raw).value)
    requires forall ctx :: w.generate(ctx) == Ok("Sure.")
    ensures Pipeline(Pipeline(s, raw, cfg, t, w).state, raw, cfg, t, w).sent == [Sent(cfg.replyChatId, "Sure.")]
  {
    var u := ParseUpdate(raw).value;
    var e := Pipeline(s, raw, cfg, t, w);
    SentReplyUnmarked(s, raw, cfg, t, w);
    var (s1, should) := Decide(e.state, u, cfg, t, w);
    assert should;
    assert w.generate(ReplyContext(s1, cfg, t, w)) == Ok("Sure.");
  }

  /** `process_update` as evidently intended: a sent reply is followed by marking the update processed. */
  function IntendedPipeline(s: StoreState, raw: RawUpdate, cfg: Config, t: Tunables, w: World): (e: Effect)
    ensures e.sent == Pipeline(s, raw, cfg, t, w).sent
    ensures e.sent == [] ==> e == Pipeline(s, raw, cfg, t, w)
  {
    var e := Pipeline(s, raw, cfg, t, w);
    if e.sent != [] then Effect(Marked(e.state, ParseUpdate(raw).value.updateId, w.now), Replied, e.sent)
    else e
  }

  /** With the correction a reply goes out at most once per update: any redelivery is a duplicate and sends nothing. */
  lemma IntendedAtMostOnce(s: StoreState, raw: RawUpdate, cfg: Config, t: Tunables, w: World, w2: World)
    requires IntendedPipeline(s, raw, cfg, t, w).sent != []
    ensures var again := IntendedPipeline(IntendedPipeline(s, raw, cfg, t, w).state, raw, cfg, t, w2);
            again.outcome == Duplicate && again.sent == []
  {
    assert ParseUpdate(raw).Ok?;
    var e := IntendedPipeline(s, raw, cfg, t, w);
    assert Processed(e.state, ParseUpdate(raw).value.updateId);
  }

  // ---- the imperative pipeline ----

  /** `_send_telegram_reply`: the POST either fails with `telegramError` or is logged as sent. */
  method SendTelegramReply(chatId: int, text: string, w: World) returns (r: Result<()>, ghost sent: seq<Sent>)
    ensures w.telegramError.Some? ==> r == Err(w.telegramError.value) && sent == []
    ensures w.telegramError.None? ==> r == Ok(()) && sent == [Sent(chatId, text)]
  {
    if w.telegramError.Some? {
      return Err(w.telegramError.value), [];
    }
    return Ok(()), [Sent(chatId, text)];
  }

  /** `_build_style_profile` and the context, read back from the store. */
  method BuildContext(store: Store, cfg: Config, t: Tunables, w: World) returns (ctx: AIContext)
    ensures ctx == ReplyContext(store.State(), cfg, t, w)
  {
    var history := store.GetLatestMessages(cfg.ingestChatId, t.historyLimit);
    ctx := ContextOf(history, cfg, t, w.isWord, w.lower);
  }

  /** `process_update` on the store, step by step. */
  method ProcessUpdate(store: Store, raw: RawUpdate, cfg: Config, t: Tunables, w: World)
    returns (outcome: Outcome, ghost sent: seq<Sent>)
    modifies store
    ensures Effect(store.State(), outcome, sent) == Pipeline(old(store.State()), raw, cfg, t, w)
  {
    sent := [];
    var parsed := ParseUpdate(raw);
    if parsed.Err? {
      return Error(parsed.error), sent;
    }
    var u := parsed.value;
    var dup := store.IsUpdateProcessed(u.updateId);
    if dup {
      return Duplicate, sent;
    }
    store.SaveMessage(cfg.ingestChatId, StoredOf(u));
    var last := store.GetLastReplyTime(cfg.replyChatId);
    var should := ShouldReply(u, cfg, last, w.now, w.draw, t);
    if !should {
      store.MarkUpdateProcessed(u.updateId, w.now);
      return NoReply, sent;
    }
    var ctx := BuildContext(store, cfg, t, w);
    var reply := w.generate(ctx);
    if reply.Err? {
      return Error(reply.error), sent;
    }
    if reply.value != "" {
      var delivered;
      delivered, sent := SendTelegramReply(cfg.replyChatId, reply.value, w);
      if delivered.Err? {
        return Error(delivered.error), sent;
      }
      store.SaveReply(cfg.replyChatId, u.message.messageId, reply.value, w.now);
      return Error(NotAMapping), sent;
    }
    store.MarkUpdateProcessed(u.updateId, w.now);
    return ReplyEmpty, sent;
  }
}
