/**
 * `handle_update` (app/webhook_handler.py:9-19): admit an update from the ingest chat
 * and publish it. The Pub/Sub topic is a ghost queue of published updates.
 */
module WebhookHandler {
  import opened Wrappers
  import opened Models
  import opened AppConfig

  /** `message.get("chat", {}).get("id")`. */
  function ChatIdOf(m: RawMessage): Option<int> {
    match m.chat
    case None => None
    case Some(c) => c.id
  }

  const Unsupported: Failure := ValueError("Unsupported update type")
  const NotAllowed: Failure := ValueError("Chat ID not allowed")

  /** The guards of `handle_update`, in order. */
  function Admission(update: RawUpdate, cfg: Config): (r: Result<()>)
    ensures !MessageTruthy(update.message) ==> r == Err(Unsupported)
    ensures MessageTruthy(update.message) && ChatIdOf(update.message.value) != Some(cfg.ingestChatId) ==> r == Err(NotAllowed)
    ensures r.Ok? <==> MessageTruthy(update.message) && ChatIdOf(update.message.value) == Some(cfg.ingestChatId)
  {
    if !MessageTruthy(update.message) then Err(Unsupported)
    else if ChatIdOf(update.message.value) != Some(cfg.ingestChatId) then Err(NotAllowed)
    else Ok(())
  }

  /** Any message from the ingest chat is admitted, whoever sent it: there is no sender or bot filter. */
  lemma AnySenderAdmitted(update: RawUpdate, cfg: Config)
    requires update.message.Some? && ChatIdOf(update.message.value) == Some(cfg.ingestChatId)
    ensures Admission(update, cfg) == Ok(())
  {
  }

  /** The Pub/Sub topic, as the sequence of updates published to it. */
  class Topic {
    ghost var published: seq<RawUpdate>

    constructor ()
      ensures published == []
    {
      published := [];
    }

    /** `publish_update`. */
    method Publish(update: RawUpdate)
      modifies this
      ensures published == old(published) + [update]
    {
      published := published + [update];
    }
  }

  /** `handle_update`: an admitted update is published once and unchanged; a refused one is not published. */
  method HandleUpdate(topic: Topic, update: RawUpdate, cfg: Config) returns (r: Result<()>)
    modifies topic
    ensures r == Admission(update, cfg)
    ensures r.Ok? ==> topic.published == old(topic.published) + [update]
    ensures r.Err? ==> topic.published == old(topic.published)
  {
    var message := update.message;
    if !MessageTruthy(message) {
      return Err(Unsupported);
    }
    var chatId := ChatIdOf(message.value);
    if chatId != Some(cfg.ingestChatId) {
      return Err(NotAllowed);
    }
    topic.Publish(update);
    return Ok(());
  }
}
