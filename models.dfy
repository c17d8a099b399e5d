/**
 * The record types of app/models.py, and the shape of the Telegram update JSON
 * that app/message_processor.py and app/webhook_handler.py read. A JSON key that
 * may be absent is an `Option` (`None` = absent); `dict.get` returns `None` then.
 */
module Models {
  import opened Wrappers

  /** `User`; `isBot` is `False` unless given (app/models.py:13), and no caller gives it. */
  datatype User = User(id: Option<int>, username: Option<string>, firstName: Option<string>, isBot: bool)

  datatype MessageEntity = MessageEntity(kind: Option<string>, offset: Option<int>, length: Option<int>)

  /** `Message`; `date` is UTC epoch seconds. */
  datatype Message = Message(
    messageId: Option<int>,
    sender: User,
    text: Option<string>,
    date: int,
    entities: seq<MessageEntity>)

  datatype Update = Update(updateId: int, message: Message)

  /**
   * `StyleProfile`, kept as the integers it is computed from:
   * `average_length = totalLength / nTexts` (0 when `nTexts == 0`) and
   * `emoji_ratio = emojiCount / max(totalLength, 1)`.
   */
  datatype StyleProfile = StyleProfile(
    totalLength: nat,
    nTexts: nat,
    emojiCount: nat,
    commonWords: seq<string>,
    topics: seq<string>)

  /** `AIContext`; `metadata` is never set by the core and is left out. */
  datatype AIContext = AIContext(chatId: int, recentMessages: seq<Message>, styleProfile: StyleProfile)

  /**
   * The `DEFAULT_*` values imported from app.constants, which is not part of this model.
   * They are parameters of every operation that reads them.
   */
  datatype Tunables = Tunables(
    contextMessages: int,
    cooldownSeconds: int,
    historyLimit: nat,
    replyChance: real,
    maxReplySentences: int,
    maxTokens: int,
    openaiMaxRetries: int,
    openaiBackoffSeconds: int)

  // ---- incoming JSON ----

  datatype RawUser = RawUser(id: Option<int>, username: Option<string>, firstName: Option<string>)

  datatype RawEntity = RawEntity(kind: Option<string>, offset: Option<int>, length: Option<int>)

  datatype RawChat = RawChat(id: Option<int>)

  /**
   * A `message` object. `from` and `chat` are `None` when absent; `otherKeys` are the
   * keys the core never reads (a photo, a caption, ...), so that an empty object is
   * exactly the one with every field absent.
   */
  datatype RawMessage = RawMessage(
    messageId: Option<int>,
    from: Option<RawUser>,
    text: Option<string>,
    date: Option<int>,
    chat: Option<RawChat>,
    entities: Option<seq<RawEntity>>,
    otherKeys: set<string>)

  /** A Telegram update object. */
  datatype RawUpdate = RawUpdate(updateId: Option<int>, message: Option<RawMessage>)

  /** Python truthiness of a `message` value: present and not the empty object. */
  predicate MessageTruthy(m: Option<RawMessage>) {
    m.Some? && m.value != RawMessage(None, None, None, None, None, None, {})
  }
}
