/**
 * The Firestore collections of app/storage.py with in-memory semantics:
 * `processed_updates/{update_id}`, `chats/{chat}/messages/{message_id}` and
 * `chats/{chat}/replies/{message_id}`. A `set` on a document id overwrites the
 * document; `order_by("date", DESCENDING).limit(n)` is `Ranking.TopBy` on the date.
 * Document ids are `str(...)` of the id, which is injective, so ids are kept as
 * values (`None` for a message without `message_id`, whose document id is "None").
 * Firestore breaks ties in a query's last `order_by` by the document name, in the
 * same direction, so equal dates come in descending document-id order (`ById`).
 */
module Storage {
  import opened Wrappers
  import opened Ranking
  import opened Text

  /** The payload `process_update` writes with `save_message`; `date` is UTC epoch seconds. */
  datatype StoredMessage = StoredMessage(
    messageId: Option<int>,
    text: Option<string>,
    date: int,
    userId: Option<int>,
    username: Option<string>)

  /** The payload of `save_reply`: `{reply_text, date}`, kept with its document id. */
  datatype StoredReply = StoredReply(messageId: Option<int>, replyText: string, date: int)

  /** The whole database as a value: processed markers (id to `processed_at`) and per-chat collections. */
  datatype StoreState = StoreState(
    processed: map<int, int>,
    messages: map<int, seq<StoredMessage>>,
    replies: map<int, seq<StoredReply>>)

  function MessageKey(m: StoredMessage): Option<int> { m.messageId }
  function ReplyKey(r: StoredReply): Option<int> { r.messageId }
  function MessageDate(m: StoredMessage): int { m.date }
  function ReplyDate(r: StoredReply): int { r.date }

  /** No two documents of a collection share an id. */
  predicate UniqueIds<T>(docs: seq<T>, id: T -> Option<int>) {
    forall i, j :: 0 <= i < j < |docs| ==> id(docs[i]) != id(docs[j])
  }

  /** The collection without the documents whose id is `key`, order kept. */
  function Without<T>(docs: seq<T>, id: T -> Option<int>, key: Option<int>): (r: seq<T>)
    ensures forall i :: 0 <= i < |r| ==> r[i] in docs && id(r[i]) != key
    ensures forall d :: d in docs && id(d) != key ==> d in r
  {
    if docs == [] then []
    else
      var rest := Without(docs[1..], id, key);
      assert forall d :: d in docs[1..] ==> d in docs;
      if id(docs[0]) == key then rest else [docs[0]] + rest
  }

  lemma {:induction false} WithoutUnique<T>(docs: seq<T>, id: T -> Option<int>, key: Option<int>)
    requires UniqueIds(docs, id)
    ensures UniqueIds(Without(docs, id, key), id)
  {
    if docs != [] {
      var tail := docs[1..];
      assert UniqueIds(tail, id) by {
        forall i, j | 0 <= i < j < |tail| ensures id(tail[i]) != id(tail[j]) {
          assert tail[i] == docs[i + 1] && tail[j] == docs[j + 1];
        }
      }
      WithoutUnique(tail, id, key);
      var rest := Without(tail, id, key);
      if id(docs[0]) != key {
        var r := [docs[0]] + rest;
        forall i, j | 0 <= i < j < |r| ensures id(r[i]) != id(r[j]) {
          assert r[j] == rest[j - 1];
          if i == 0 {
            var k :| 0 <= k < |tail| && tail[k] == r[j];
            assert docs[k + 1] == r[j];
          } else {
            assert r[i] == rest[i - 1];
          }
        }
      }
    }
  }

  /**
   * Document `set`: the documents with another id, then `doc`. (A collection has no order
   * of its own: queries order by date and then by document id.)
   */
  function Upsert<T>(docs: seq<T>, id: T -> Option<int>, doc: T): (r: seq<T>)
    ensures |r| > 0 && r[|r| - 1] == doc
    ensures forall i :: 0 <= i < |r| - 1 ==> r[i] in docs && id(r[i]) != id(doc)
    ensures forall d :: d in docs && id(d) != id(doc) ==> d in r
  {
    Without(docs, id, id(doc)) + [doc]
  }

  lemma UpsertUnique<T>(docs: seq<T>, id: T -> Option<int>, doc: T)
    requires UniqueIds(docs, id)
    ensures UniqueIds(Upsert(docs, id, doc), id)
  {
    WithoutUnique(docs, id, id(doc));
    var w := Without(docs, id, id(doc));
    var r := w + [doc];
    forall i, j | 0 <= i < j < |r| ensures id(r[i]) != id(r[j]) {
      if j < |w| { assert r[i] == w[i] && r[j] == w[j]; }
      else { assert r[i] == w[i]; }
    }
  }

  function Messages(s: StoreState, chat: int): seq<StoredMessage> {
    if chat in s.messages then s.messages[chat] else []
  }

  function Replies(s: StoreState, chat: int): seq<StoredReply> {
    if chat in s.replies then s.replies[chat] else []
  }

  /** Every collection keeps unique document ids. */
  ghost predicate Valid(s: StoreState) {
    (forall c :: c in s.messages ==> UniqueIds(s.messages[c], MessageKey))
    && (forall c :: c in s.replies ==> UniqueIds(s.replies[c], ReplyKey))
  }

  const Empty: StoreState := StoreState(map[], map[], map[])

  /** `is_update_processed`: the marker document exists. */
  predicate Processed(s: StoreState, updateId: int) {
    updateId in s.processed
  }

  /** `mark_update_processed`: set the marker with `processed_at = now`. */
  function Marked(s: StoreState, updateId: int, now: int): (r: StoreState)
    ensures Processed(r, updateId)
    ensures forall u :: u != updateId ==> (Processed(r, u) <==> Processed(s, u))
    ensures r.messages == s.messages && r.replies == s.replies
    ensures Valid(s) ==> Valid(r)
  {
    s.(processed := s.processed[updateId := now])
  }

  /** `save_message`: `set` the document `doc.messageId` of the chat's messages. */
  function MessageSaved(s: StoreState, chat: int, doc: StoredMessage): (r: StoreState)
    ensures doc in Messages(r, chat)
    ensures forall m :: m in Messages(s, chat) && m.messageId != doc.messageId ==> m in Messages(r, chat)
    ensures Valid(s) ==> Valid(r)
    ensures forall m :: m in Messages(r, chat) ==>
              m == doc || (m in Messages(s, chat) && m.messageId != doc.messageId)
    ensures forall c :: c != chat ==> Messages(r, c) == Messages(s, c)
    ensures r.processed == s.processed && r.replies == s.replies
  {
    var docs := Upsert(Messages(s, chat), MessageKey, doc);
    assert forall m :: m in docs ==> m == doc || (m in Messages(s, chat) && m.messageId != doc.messageId) by {
      forall m | m in docs ensures m == doc || (m in Messages(s, chat) && m.messageId != doc.messageId) {
        var k :| 0 <= k < |docs| && docs[k] == m;
      }
    }
    assert Valid(s) ==> UniqueIds(docs, MessageKey) by {
      if Valid(s) { UpsertUnique(Messages(s, chat), MessageKey, doc); }
    }
    s.(messages := s.messages[chat := docs])
  }

  /** `save_reply`: `set` `{reply_text, date: now}` under the message id in the chat's replies. */
  function ReplySaved(s: StoreState, chat: int, messageId: Option<int>, text: string, now: int): (r: StoreState)
    ensures StoredReply(messageId, text, now) in Replies(r, chat)
    ensures Valid(s) ==> Valid(r)
    ensures forall d :: d in Replies(r, chat) ==>
              d == StoredReply(messageId, text, now) || (d in Replies(s, chat) && d.messageId != messageId)
    ensures forall c :: c != chat ==> Replies(r, c) == Replies(s, c)
    ensures r.processed == s.processed && r.messages == s.messages
  {
    var doc := StoredReply(messageId, text, now);
    var docs := Upsert(Replies(s, chat), ReplyKey, doc);
    assert forall d :: d in docs ==> d == doc || (d in Replies(s, chat) && d.messageId != messageId) by {
      forall d | d in docs ensures d == doc || (d in Replies(s, chat) && d.messageId != messageId) {
        var k :| 0 <= k < |docs| && docs[k] == d;
      }
    }
    assert Valid(s) ==> UniqueIds(docs, ReplyKey) by {
      if Valid(s) { UpsertUnique(Replies(s, chat), ReplyKey, doc); }
    }
    s.(replies := s.replies[chat := docs])
  }

  /** Documents with distinct ids are distinct documents. */
  lemma UniqueDistinct<T>(docs: seq<T>, id: T -> Option<int>)
    requires UniqueIds(docs, id)
    ensures Distinct(docs)
  {
    forall i, j | 0 <= i < j < |docs| ensures docs[i] != docs[j] {
      assert id(docs[i]) != id(docs[j]);
    }
  }

  /** The document id of a message: `str(message_id)`. */
  function DocumentId(m: StoredMessage): string {
    if m.messageId.Some? then IntToString(m.messageId.value) else "None"
  }

  /** `a`'s document id is not below `b`'s: `a` may come first in descending id order. */
  predicate IdNotBelow(a: StoredMessage, b: StoredMessage) {
    !StringLess(DocumentId(a), DocumentId(b))
  }

  /** Descending document-id order is a total preorder. */
  lemma IdOrderTotal()
    ensures TotalPreorder(IdNotBelow)
  {
    forall a: StoredMessage, b: StoredMessage ensures IdNotBelow(a, b) || IdNotBelow(b, a) {
      if StringLess(DocumentId(a), DocumentId(b)) {
        StringLessAsymmetric(DocumentId(a), DocumentId(b));
      }
    }
    forall a: StoredMessage, b: StoredMessage, c: StoredMessage | IdNotBelow(a, b) && IdNotBelow(b, c)
      ensures IdNotBelow(a, c)
    {
      StringAtLeastTransitive(DocumentId(a), DocumentId(b), DocumentId(c));
    }
  }

  /** The messages in descending document-id order, as Firestore breaks ties. */
  function ById(docs: seq<StoredMessage>): (r: seq<StoredMessage>)
    ensures multiset(r) == multiset(docs)
    ensures forall i, j :: 0 <= i < j < |r| ==> IdNotBelow(r[i], r[j])
  {
    IdOrderTotal();
    SortBy(docs, IdNotBelow)
  }

  /**
   * `get_latest_messages`: at most `limit` messages of the chat, newest first and, among
   * equal dates, in descending document-id order.
   */
  function Latest(s: StoreState, chat: int, limit: nat): (r: seq<StoredMessage>)
    ensures |r| == Min(limit, |Messages(s, chat)|)
    ensures forall i :: 0 <= i < |r| ==> r[i] in Messages(s, chat)
    ensures forall i, j :: 0 <= i < j < |r| ==> r[i].date >= r[j].date
    ensures r != [] ==> forall m :: m in Messages(s, chat) && m !in r ==> m.date <= r[|r| - 1].date
    ensures multiset(r) <= multiset(Messages(s, chat))
    ensures forall i, j :: 0 <= i < j < |r| && r[i].date == r[j].date ==>
              !StringLess(DocumentId(r[i]), DocumentId(r[j]))
    ensures r != [] ==> forall m :: m in Messages(s, chat) && m !in r && m.date == r[|r| - 1].date ==>
              !StringLess(DocumentId(r[|r| - 1]), DocumentId(m))
  {
    var docs := Messages(s, chat);
    var r := TopBy(ById(docs), MessageDate, limit);
    NewestFacts(docs, limit, r);
    r
  }

  /** The facts about the newest `limit` documents, stated on their dates and ids. */
  lemma NewestFacts(docs: seq<StoredMessage>, limit: nat, r: seq<StoredMessage>)
    requires r == TopBy(ById(docs), MessageDate, limit)
    ensures |r| == Min(limit, |docs|)
    ensures forall i :: 0 <= i < |r| ==> r[i] in docs
    ensures forall i, j :: 0 <= i < j < |r| ==> r[i].date >= r[j].date
    ensures r != [] ==> forall m :: m in docs && m !in r ==> m.date <= r[|r| - 1].date
    ensures multiset(r) <= multiset(docs)
    ensures forall i, j :: 0 <= i < j < |r| && r[i].date == r[j].date ==>
              !StringLess(DocumentId(r[i]), DocumentId(r[j]))
    ensures r != [] ==> forall m :: m in docs && m !in r && m.date == r[|r| - 1].date ==>
              !StringLess(DocumentId(r[|r| - 1]), DocumentId(m))
  {
    var xs := ById(docs);
    assert TiesOrdered(xs, MessageDate, IdNotBelow);
    TopByReordered(docs, xs, MessageDate, IdNotBelow, limit, r);
    forall i, j | 0 <= i < j < |r| ensures r[i].date >= r[j].date
      ensures r[i].date == r[j].date ==> IdNotBelow(r[i], r[j])
    {
      assert MessageDate(r[i]) >= MessageDate(r[j]);
    }
    forall m | m in docs && m !in r && r != []
      ensures m.date <= r[|r| - 1].date
      ensures m.date == r[|r| - 1].date ==> IdNotBelow(r[|r| - 1], m)
    {
      assert MessageDate(m) <= MessageDate(r[|r| - 1]);
    }
  }

  /** Two messages stored as 10 then 9 with the same date come back as "9" then "10". */
  lemma LatestTieByDocumentId(m10: StoredMessage, m9: StoredMessage)
    requires m10.messageId == Some(10) && m9.messageId == Some(9) && m10.date == m9.date
    ensures Latest(StoreState(map[], map[1 := [m10, m9]], map[]), 1, 2) == [m9, m10]
  {
    assert DocumentId(m10) == "10" && DocumentId(m9) == "9";
    assert StringLess("10", "9");
  }

  /** In a valid store the latest messages are distinct documents, as a query returns them. */
  lemma LatestDistinct(s: StoreState, chat: int, limit: nat)
    requires Valid(s)
    ensures Distinct(Latest(s, chat, limit))
  {
    var docs := Messages(s, chat);
    UniqueDistinct(docs, MessageKey);
    PermutationDistinct(docs, ById(docs));
    TopByFacts(ById(docs), MessageDate, limit, Latest(s, chat, limit));
  }

  /** `get_last_reply_time`: the date of the newest reply of the chat, if any. */
  function LastReplyAt(s: StoreState, chat: int): (r: Option<int>)
    ensures r.None? <==> Replies(s, chat) == []
    ensures r.Some? ==> exists d :: d in Replies(s, chat) && d.date == r.value
    ensures r.Some? ==> forall d :: d in Replies(s, chat) ==> d.date <= r.value
  {
    var docs := Replies(s, chat);
    var top := TopBy(docs, ReplyDate, 1);
    if top == [] then None
    else
      TopByOmitted(docs, ReplyDate, 1);
      TopByMembers(docs, ReplyDate, 1);
      assert top[0] in docs;
      Some(top[0].date)
  }

  /** Marking twice is the same as marking once, as far as `is_update_processed` can tell. */
  lemma RemarkUnobservable(s: StoreState, updateId: int, t1: int, t2: int, u: int)
    ensures Processed(Marked(Marked(s, updateId, t1), updateId, t2), u) == Processed(Marked(s, updateId, t1), u)
  {
  }

  /** Re-saving a message never duplicates it: the chat holds exactly one document with its id. */
  lemma {:induction false} ResaveNoDuplicate(s: StoreState, chat: int, doc: StoredMessage, doc2: StoredMessage)
    requires Valid(s) && doc2.messageId == doc.messageId
    ensures var r := MessageSaved(MessageSaved(s, chat, doc), chat, doc2);
            Valid(r) && doc2 in Messages(r, chat) && (doc != doc2 ==> doc !in Messages(r, chat))
  {
  }

  /** In-memory Firestore client: the three collections are fields the operations update in place. */
  class Store {
    var processed: map<int, int>
    var messages: map<int, seq<StoredMessage>>
    var replies: map<int, seq<StoredReply>>

    function State(): StoreState
      reads this
    {
      StoreState(processed, messages, replies)
    }

    constructor ()
      ensures State() == Empty
    {
      processed, messages, replies := map[], map[], map[];
    }

    method IsUpdateProcessed(updateId: int) returns (b: bool)
      ensures b == Processed(State(), updateId)
    {
      b := updateId in processed;
    }

    method MarkUpdateProcessed(updateId: int, now: int)
      modifies this
      ensures State() == Marked(old(State()), updateId, now)
    {
      processed := processed[updateId := now];
    }

    method SaveMessage(chat: int, doc: StoredMessage)
      modifies this
      ensures State() == MessageSaved(old(State()), chat, doc)
    {
      var docs := if chat in messages then messages[chat] else [];
      messages := messages[chat := Upsert(docs, MessageKey, doc)];
    }

    method GetLatestMessages(chat: int, limit: nat) returns (docs: seq<StoredMessage>)
      ensures docs == Latest(State(), chat, limit)
    {
      var all := if chat in messages then messages[chat] else [];
      docs := TopBy(ById(all), MessageDate, limit);
    }

    method SaveReply(chat: int, messageId: Option<int>, text: string, now: int)
      modifies this
      ensures State() == ReplySaved(old(State()), chat, messageId, text, now)
    {
      var docs := if chat in replies then replies[chat] else [];
      replies := replies[chat := Upsert(docs, ReplyKey, StoredReply(messageId, text, now))];
    }

    method GetLastReplyTime(chat: int) returns (t: Option<int>)
      ensures t == LastReplyAt(State(), chat)
    {
      var docs := if chat in replies then replies[chat] else [];
      var top := TopBy(docs, ReplyDate, 1);
      t := if top == [] then None else Some(top[0].date);
    }
  }
}
