# Telegram group-chat reply bot, modelled in Dafny

The service receives Telegram updates at a webhook. It admits only messages from the configured ingest chat and publishes them to a Pub/Sub topic. A push worker authenticates each delivery and decodes it.

It then hands the update to `process_update`. That function:
- drops redeliveries that are already marked processed;
- stores the message in Firestore;
- decides whether to answer (never its own messages; always on a mention or a `?`; otherwise a cooldown and a random draw);
- builds a prompt from the newest stored messages and a style profile of the chat;
- asks OpenAI for a reply, with retries on 429 and transport errors;
- trims the reply to a sentence limit, sends it to Telegram and stores it.

A separate path downloads Instagram Reel videos under a size cap, samples frames every two seconds and asks OpenAI to describe them and comment on them.

The model is split into modules that follow the source files:

| module | source | form |
|---|---|---|
| `Wrappers` | — | `Option`, `Result` and the Python exceptions, as values |
| `Text` | — | Python's `strip`, `in`, `split(sep, 1)`, `join`, ASCII `lower` and `str(int)` |
| `Ranking` | — | selecting the `n` highest-ranked elements, used for `order_by(...).limit(n)` and `sorted(..., reverse=True)[:5]` |
| `Trace` | app/trace.py | functions |
| `AppConfig` | app/config.py | functions over an environment map |
| `Storage` | app/storage.py | a `Store` class whose methods update three map fields in place, each specified by a pure function on `StoreState` |
| `Models` | app/models.py | datatypes; the raw JSON update as a record of optional fields |
| `StyleProfiles` | app/message_processor.py:58-77 | functions and lemmas |
| `ReplyPolicy` | app/message_processor.py:80-97 | a predicate with its precedence stated as lemmas in its contract |
| `AiAdapter` | app/ai_adapter.py | functions for the prompts and trimming; methods with `while` loops for the message list, the retry loop and the vision parts |
| `MessageProcessor` | app/message_processor.py:32-55, 100-176 | the pure `Pipeline` and the imperative `ProcessUpdate` over a `Store` |
| `WebhookHandler` | app/webhook_handler.py | a function and a method that appends to a topic's ghost log |
| `QueueWorker` | app/queue_worker.py | functions and a method over the `Store` |
| `VideoProcessor` | app/video_processor.py | functions and methods with the download and sampling loops |

Conventions of the model:
- The outside world is passed in as parameters. This covers HTTP answers, the Telegram POST, the clock, `random.random()`, the JWT verifier, base64/JSON decoding and the OpenCV capture.
- The Python exceptions are `Err` values of `Result`.
- Effects that leave no trace in the store are ghost logs: Telegram sends, Pub/Sub publishes and backoff sleeps.
- The `DEFAULT_*` constants of `app.constants` are fields of a `Tunables` record. That module is not part of this model, so their values are not fixed here.

## Model

| member | source | states |
|---|---|---|
| `Text.ContainsChar` | app/message_processor.py:88 | `"?" in text` is plain character membership |
| `Text.Leading` | app/ai_adapter.py:69 | the number of leading whitespace characters: all of them are whitespace and the next one is not |
| `Text.Trailing` | app/ai_adapter.py:69 | the number of trailing whitespace characters, symmetrically |
| `Text.StripLeft` | app/ai_adapter.py:69 | leading whitespace removed: the result is a suffix that does not start with a space, and everything dropped is space |
| `Text.StripRight` | app/ai_adapter.py:69 | trailing whitespace removed, symmetrically |
| `Text.Strip` | app/trace.py:13 | the result is the slice of the input left after dropping whitespace on both sides and nothing else: it neither starts nor ends with whitespace, and everything before and after it is whitespace |
| `Text.StripBounds` | app/trace.py:13 | proof helper: stripping the left, then the right, leaves the slice between the two whitespace runs |
| `Text.StripChars` | app/trace.py:13 | every character of the stripped string occurs in the original |
| `Text.StripFixed` | app/ai_adapter.py:73 | a string without surrounding whitespace is its own strip |
| `Text.StripIdempotent` | app/ai_adapter.py:69-73 | stripping twice is stripping once |
| `Text.Before` | app/trace.py:13 | `split(sep, 1)[0]` is a prefix free of `sep`, and it is followed by `sep` when shorter than the input |
| `Text.AsciiLower` | app/queue_worker.py:21 | only `A`-`Z` change, each by 32 code points |
| `Text.AsciiLowerString` | app/queue_worker.py:31 | lower-casing acts character by character and keeps the length |
| `Text.StringLessIrreflexive` | app/storage.py:47 | no document id is below itself in string order |
| `Text.StringLessTransitive` | app/storage.py:47 | string order is transitive |
| `Text.StringLessTotal` | app/storage.py:47 | two different strings are ordered one way or the other |
| `Text.StringAtLeastTransitive` | app/storage.py:47 | proof helper: "not below" (`>=`) is transitive |
| `Text.StringLessAsymmetric` | app/storage.py:47 | proof helper: no two strings are each below the other |
| `Trace.ExtractTraceId` | app/trace.py:9-14 | None when neither header is truthy; otherwise the stripped text before the first `/`, with None for an empty result; a present id is non-empty, slash-free and has no surrounding space |
| `Trace.StripNoSlash` | app/trace.py:13 | stripping a slash-free string leaves it slash-free |
| `Trace.LowercaseKeyFirst` | app/trace.py:10 | a non-empty lower-case header wins over the title-case one |
| `Trace.BuildTraceContext` | app/trace.py:17-23 | empty exactly for a falsy id; otherwise exactly the two keys `trace_id` and `trace` with the documented values |
| `AppConfig.GetEnv` | app/config.py:33 | `os.getenv` answers exactly for names in the environment |
| `AppConfig.EnvOr` | app/config.py:65 | `os.getenv(name, default)`: the value when set, the default otherwise |
| `AppConfig.Require` | app/config.py:32-36 | Ok exactly for a truthy variable, with its value; otherwise the RuntimeError that names it |
| `AppConfig.ResolveSecret` | app/config.py:46-49 | a `projects/` value goes to the secret accessor; any other value is kept |
| `AppConfig.ParseInt` | app/config.py:55 | `int()` succeeds exactly when the parser accepts the text, with its value |
| `AppConfig.FirstMissing` | app/config.py:54-63 | the index of the first non-truthy name, with every earlier name truthy; None exactly when all are truthy |
| `AppConfig.FirstMissingRequired` | app/config.py:54-63 | the required names are checked in the order PROJECT_ID, CHAT_ID, PUBSUB_TOPIC, TG_TOKEN, OPENAI_KEY, WEBHOOK_SECRET |
| `AppConfig.RequiredListed` | app/config.py:54-63 | the list of required names and the all-present predicate agree |
| `AppConfig.GetConfig` | app/config.py:53-89 | Ok exactly when every required variable is truthy and every `int()` parses; REPLY_CHAT_ID defaults to CHAT_ID, LOG_LEVEL to INFO, and the optional fields are None when unset |
| `AppConfig.GetConfigErrors` | app/config.py:54-63 | with every integer parsing, a missing variable raises the RuntimeError naming the first missing one in check order; with every variable present, a bad integer raises ValueError |
| `Ranking.ArgMax` | app/storage.py:47 | the index of the first element with the greatest key |
| `Ranking.RemoveAt` | app/storage.py:47-48 | removing one element shifts the rest left |
| `Ranking.TopBy` | app/storage.py:47-48 | `min(n, len)` elements |
| `Ranking.TopByMembers` | app/storage.py:47-48 | every selected element is drawn from the input |
| `Ranking.TopBySubMultiset` | app/storage.py:47-48 | the selection takes each element at most as often as the input holds it |
| `Ranking.RemovedSubMultiset` | app/storage.py:47-48 | proof helper: the recursive step of `TopBySubMultiset` |
| `Ranking.SubMultisetStep` | app/storage.py:47-48 | proof helper: prepending an element removed from the input keeps a sub-multiset |
| `Ranking.RemoveAtMultiset` | app/storage.py:47-48 | removing one element removes exactly one occurrence of it |
| `Ranking.TopByFacts` | app/storage.py:47-48 | proof helper: the size, membership, order, omission and multiplicity facts of a selection, together |
| `Ranking.TopBySorted` | app/storage.py:47 | the selection is in non-increasing key order |
| `Ranking.SortedStep` | app/storage.py:47 | the best element in front of a sorted selection stays sorted |
| `Ranking.TopByOmitted` | app/storage.py:47-48 | no element left out ranks above the last one taken |
| `Ranking.OmittedAt` | app/storage.py:47-48 | one given element left out ranks no higher than the last one taken |
| `Ranking.TopByAll` | app/storage.py:48 | with room for everything, everything is taken |
| `Ranking.RemoveAtDistinct` | app/message_processor.py:69 | removing one element from distinct elements keeps them distinct and drops it |
| `Ranking.TopByDistinct` | app/message_processor.py:69 | distinct candidates give a distinct selection |
| `Ranking.ConsDistinct` | app/message_processor.py:69 | proof helper: prepending an element absent from the source keeps a selection distinct |
| `Ranking.RemoveAtTies` | app/storage.py:47 | proof helper: removing an element keeps the order among equal keys |
| `Ranking.TopByTies` | app/storage.py:47 | the selection is stable: ties come out in the order they have in the input |
| `Ranking.OmittedTieAt` | app/storage.py:47-48 | one element left out with the last key comes after the last element taken |
| `Ranking.TopByTieOmitted` | app/storage.py:47-48 | no element left out with the last key comes before the last element taken |
| `Ranking.InsertBy` | app/storage.py:47 | inserting into a sequence ordered by a total preorder adds that one element and keeps the order |
| `Ranking.SortBy` | app/storage.py:47 | insertion sort: a reordering of the input, ordered by the total preorder |
| `Ranking.DistinctOnce` | app/storage.py:41-51 | proof helper: an element of a distinct sequence occurs at most once |
| `Ranking.RepeatedTwice` | app/storage.py:41-51 | proof helper: an element at two places occurs at least twice |
| `Ranking.PermutationDistinct` | app/storage.py:41-51 | a reordering of distinct elements is distinct |
| `Ranking.TopByReordered` | app/storage.py:47-48 | a selection from a reordering whose ties are ordered: its size, membership, key order, tie order, omission and multiplicity facts, stated on the original sequence |
| `Storage.Without` | app/storage.py:36-38 | the documents with another id, and every such document kept |
| `Storage.WithoutUnique` | app/storage.py:36-38 | removing an id keeps ids unique |
| `Storage.Upsert` | app/storage.py:36-38 | `document(id).set(doc)`: the new document is present; every other document has a different id and was already there; no document with another id is lost |
| `Storage.UpsertUnique` | app/storage.py:36-38 | an upsert keeps ids unique |
| `Storage.Marked` | app/storage.py:27-31 | the id becomes processed; no other marker and no collection changes; validity is kept |
| `Storage.MessageSaved` | app/storage.py:34-38 | the document is in the chat, keeps every other id, adds nothing else, and leaves other chats, markers and replies alone |
| `Storage.ReplySaved` | app/storage.py:54-58 | `{reply_text, date: now}` is stored under the message id, with the same framing as `MessageSaved` |
| `Storage.Latest` | app/storage.py:41-51 | `min(limit, count)` messages of the chat, newest first, each taken no more often than stored, and none left out is newer than the last returned; among equal dates, descending document id (`str(message_id)` in string order, Firestore's implicit order on the document name), and a message left out with the last date has a document id no greater than the last one returned |
| `Storage.NewestFacts` | app/storage.py:47-48 | proof helper: the facts of `Latest`, stated on dates and document ids |
| `Storage.IdOrderTotal` | app/storage.py:47 | descending document-id order is a total preorder |
| `Storage.ById` | app/storage.py:47 | the chat's messages reordered by descending document id, the order Firestore uses among equal dates |
| `Storage.LatestTieByDocumentId` | app/storage.py:41-51 | messages 10 and 9 with the same date, stored in that order, come back as 9 then 10, because "9" > "10" as strings |
| `Storage.UniqueDistinct` | app/storage.py:36-38 | documents with distinct ids are distinct |
| `Storage.LatestDistinct` | app/storage.py:41-51 | in a valid store the latest messages are distinct documents |
| `Storage.LastReplyAt` | app/storage.py:61-79 | None exactly when the chat has no reply; otherwise the date of a stored reply, and no reply is newer |
| `Storage.RemarkUnobservable` | app/storage.py:21-31 | marking an update a second time is invisible to `is_update_processed` |
| `Storage.ResaveNoDuplicate` | app/storage.py:34-38 | saving a message with the same id again keeps the store valid and leaves one document with that id, the newer |
| `Storage.Store.constructor` | app/storage.py:14-18 | a new store is empty |
| `Storage.Store.IsUpdateProcessed` | app/storage.py:21-24 | true exactly when the marker exists |
| `Storage.Store.MarkUpdateProcessed` | app/storage.py:27-31 | the new state is `Marked` of the old one |
| `Storage.Store.SaveMessage` | app/storage.py:34-38 | the new state is `MessageSaved` of the old one |
| `Storage.Store.GetLatestMessages` | app/storage.py:41-51 | answers `Latest` of the current state |
| `Storage.Store.SaveReply` | app/storage.py:54-58 | the new state is `ReplySaved` of the old one |
| `Storage.Store.GetLastReplyTime` | app/storage.py:61-79 | answers `LastReplyAt` of the current state |
| `StyleProfiles.Texts` | app/message_processor.py:59 | only truthy texts are kept, none longer than the history, and a history without one gives none |
| `StyleProfiles.TextsMembers` | app/message_processor.py:59 | a text is kept exactly when some message has it as a truthy text |
| `StyleProfiles.TextsAppend` | app/message_processor.py:59 | the texts of two histories are the texts of each, in order |
| `StyleProfiles.TextsSingle` | app/message_processor.py:59 | one message gives its text when truthy and nothing otherwise |
| `StyleProfiles.EmojiCount` | app/message_processor.py:65 | the emoji count of a text is at most its length |
| `StyleProfiles.EmojiTotal` | app/message_processor.py:65 | the emoji total is at most the total length |
| `StyleProfiles.RunEnd` | app/message_processor.py:68 | the end of a maximal run of word characters |
| `StyleProfiles.WordsFrom` | app/message_processor.py:68 | every word found from a boundary is a `\b\w+\b` match of the text |
| `StyleProfiles.Words` | app/message_processor.py:68 | every word found is a `\b\w+\b` match of the text |
| `StyleProfiles.RunEndAt` | app/message_processor.py:68 | proof helper: the end of a word-character run is where the run stops |
| `StyleProfiles.TokenAtRun` | app/message_processor.py:68 | a match starting at a position is the whole run of word characters there |
| `StyleProfiles.RunTokenAt` | app/message_processor.py:68 | a run of word characters after a boundary is a match |
| `StyleProfiles.NoTokenInsideRun` | app/message_processor.py:68 | no match starts inside a run |
| `StyleProfiles.CountCons` | app/message_processor.py:69 | proof helper: counting unfolds one word at a time |
| `StyleProfiles.StartsSkip` | app/message_processor.py:68 | proof helper: a non-word character starts no match |
| `StyleProfiles.StartsRun` | app/message_processor.py:68 | proof helper: a run starts exactly one match, itself |
| `StyleProfiles.WordsFromCount` | app/message_processor.py:68 | from a boundary, each word is found as often as it matches in the text |
| `StyleProfiles.WordsCount` | app/message_processor.py:68 | `re.findall(r"\b\w+\b", text)` holds each word exactly as often as it matches |
| `StyleProfiles.CountPositive` | app/message_processor.py:69 | a word is counted at least once exactly when it occurs |
| `StyleProfiles.WordsComplete` | app/message_processor.py:68 | a word is found exactly when it is a match of the text |
| `StyleProfiles.Dedup` | app/message_processor.py:69 | `set(words)`: distinct, and holding exactly the words |
| `StyleProfiles.CommonWords` | app/message_processor.py:69 | `min(5, distinct)` words, all from the input |
| `StyleProfiles.CommonWordsRanked` | app/message_processor.py:69 | distinct, in non-increasing count order, and no left-out word is more frequent than the last kept |
| `StyleProfiles.CommonWordsAll` | app/message_processor.py:69 | with at most five distinct words, all are kept |
| `StyleProfiles.BuildStyleProfile` | app/message_processor.py:58-77 | the zero profile when no text is truthy; otherwise length and emoji totals and the text count of the truthy texts, the common words of the lower-cased joined text, and no topics |
| `StyleProfiles.AverageLength` | app/message_processor.py:64 | the total length divided by the text count, and 0 for no texts |
| `StyleProfiles.EmojiRatio` | app/message_processor.py:66 | the emoji count divided by `max(total_length, 1)` |
| `StyleProfiles.CommonWordsAreTokens` | app/message_processor.py:68-69 | each common word is a token of the lower-cased joined texts |
| `StyleProfiles.UnitQuotient` | app/message_processor.py:66 | proof helper: a count divided by a positive bound it does not exceed lies in [0, 1] |
| `StyleProfiles.EmojiRatioUnit` | app/message_processor.py:65-66 | the emoji ratio of a built profile lies in [0, 1] |
| `StyleProfiles.SingleTextAverage` | app/message_processor.py:63-64 | one text of length `n` gives average length `n` |
| `ReplyPolicy.TextOf` | app/message_processor.py:84 | `text or ""` |
| `ReplyPolicy.ShouldReply` | app/message_processor.py:80-97 | never for the bot's own message; always on a mention or a `?`; otherwise exactly when not in cooldown and the draw is below the reply chance |
| `AiAdapter.LengthThresholdsExact` | app/ai_adapter.py:32-35 | the integer forms of the length thresholds agree with `average_length <= 40` and `>= 120` |
| `AiAdapter.EmojiThresholdsExact` | app/ai_adapter.py:37-40 | the integer forms of the emoji thresholds agree with `emoji_ratio >= 0.02` and `<= 0.005` |
| `AiAdapter.QuotientCompare` | app/ai_adapter.py:32-40 | proof helper: comparing a quotient with a constant is comparing the numerator with the scaled constant |
| `AiAdapter.ScaleCompare` | app/ai_adapter.py:32-40 | proof helper: multiplying by a positive number keeps comparisons |
| `AiAdapter.HintInitials` | app/ai_adapter.py:30-40 | proof helper: the five hint texts start with different letters |
| `AiAdapter.WordsPart` | app/ai_adapter.py:29-30 | the word hint, present exactly when there are common words |
| `AiAdapter.LengthPart` | app/ai_adapter.py:32-35 | at most one length hint: short exactly for a short average, long exactly otherwise for a long one |
| `AiAdapter.EmojiPart` | app/ai_adapter.py:37-40 | at most one emoji hint: "use" exactly for a rich ratio, "avoid" exactly otherwise for a poor one |
| `AiAdapter.Hints` | app/ai_adapter.py:25-41 | one hint per branch taken: the word hint exactly when there are common words, the short or long hint exactly by the `if`/`elif` on the average length, the emoji hints exactly by the `if`/`elif` on the ratio |
| `AiAdapter.HintsShape` | app/ai_adapter.py:25-41 | each hint is the word hint (and then first) or one of the four fixed texts; no hint repeats; a length hint comes before an emoji hint |
| `AiAdapter.StyleGuidance` | app/ai_adapter.py:42-44 | empty exactly when there are no hints; otherwise `"Style notes: "` and the hints joined by spaces |
| `AiAdapter.GuidanceEmpty` | app/ai_adapter.py:29-44 | guidance is empty exactly for a profile with no words, a middling length and a middling emoji ratio |
| `AiAdapter.EmptyProfileGuidance` | app/ai_adapter.py:32-40 | the zero profile asks for short replies and no emojis |
| `AiAdapter.WithStyle` | app/ai_adapter.py:55-56 | the prompt grows by a space and the guidance only when the guidance is non-empty |
| `AiAdapter.UserTurns` | app/ai_adapter.py:59-62 | user turns only, each non-empty, at most one per message |
| `AiAdapter.UserTurnsCount` | app/ai_adapter.py:59-62 | one user turn per truthy text |
| `AiAdapter.UserTurnsSkip` | app/ai_adapter.py:60-61 | a message without text adds no turn |
| `AiAdapter.BuildMessages` | app/ai_adapter.py:47-64 | the system prompt followed by the user turns, so `1 + number of truthy texts` messages |
| `AiAdapter.AppendTurns` | app/ai_adapter.py:59-62 | the loop appends exactly the user turns of the recent messages |
| `AiAdapter.FirstBreak` | app/ai_adapter.py:70 | the first sentence break at or after a position: `.`, `!` or `?` followed by whitespace |
| `AiAdapter.SpaceEnd` | app/ai_adapter.py:70 | the end of a whitespace run |
| `AiAdapter.Split` | app/ai_adapter.py:70 | `re.split(r"(?<=[.!?])\s+", s)` always yields at least one part |
| `AiAdapter.SplitEmpty` | app/ai_adapter.py:70 | the empty text splits into one empty part |
| `AiAdapter.SplitSegments` | app/ai_adapter.py:70 | splitting a stripped non-empty text gives non-empty parts without surrounding space, each but the last ending in `.`, `!` or `?` |
| `AiAdapter.FirstSentence` | app/ai_adapter.py:70 | proof helper: the part before the first break is a sentence ending in `.`, `!` or `?`, and the rest starts and ends without space |
| `AiAdapter.SegmentsCons` | app/ai_adapter.py:70 | proof helper: a terminated sentence in front of sentences gives sentences |
| `AiAdapter.SegmentsTail` | app/ai_adapter.py:70 | proof helper: the tail of sentences is sentences |
| `AiAdapter.JoinCons` | app/ai_adapter.py:73 | `" ".join` unfolds one part at a time |
| `AiAdapter.JoinEnds` | app/ai_adapter.py:73 | joined segments start and end with the first and last segment's characters |
| `AiAdapter.NoBreakInHead` | app/ai_adapter.py:70 | proof helper: no break lies inside a leading sentence |
| `AiAdapter.SplitCons` | app/ai_adapter.py:70-73 | a terminated sentence, a space and a text split into the sentence and the split of the text |
| `AiAdapter.SplitJoin` | app/ai_adapter.py:70-73 | splitting the space-join of segments gives back the segments |
| `AiAdapter.TrimReply` | app/ai_adapter.py:67-73 | no limit, or few enough sentences: the stripped text; otherwise the join of the first `max` parts |
| `AiAdapter.TrimReplyStripped` | app/ai_adapter.py:103-104 | stripping before `_trim_reply` changes nothing, since `_trim_reply` strips first |
| `AiAdapter.TrimReplyKeepsFirst` | app/ai_adapter.py:70-73 | a trimmed reply splits into exactly the first `max` sentences of the original |
| `AiAdapter.TrimReplyBound` | app/ai_adapter.py:67-73 | a trimmed reply has at most `max` sentences |
| `AiAdapter.Backoffs` | app/ai_adapter.py:113-114 | `n` sleeps, the `i`-th of `backoff * (i + 1)` |
| `AiAdapter.RetryFrom` | app/ai_adapter.py:91-115 | the attempts loop: a completion or a re-raised error names an attempt within `1..maxRetries` whose POST gave exactly that outcome, and a re-raised status is never 429 |
| `AiAdapter.RetryAnswered` | app/ai_adapter.py:91-109 | the loop returns a completion at attempt `k` exactly when `k` is within the limit, completes, and every earlier attempt was retried |
| `AiAdapter.RetryRaised` | app/ai_adapter.py:105-109 | the loop re-raises at `k` exactly when `k` is the first non-retried attempt and failed with a status other than 429 |
| `AiAdapter.RetryExhausted` | app/ai_adapter.py:91-118 | the loop falls through to `""` exactly when every attempt was retried |
| `AiAdapter.RetryPosts` | app/ai_adapter.py:91 | at most `maxRetries` POSTs are made |
| `AiAdapter.PostWithRetries` | app/ai_adapter.py:90-115 | the loop's result is `RetryFrom(..., 1)` and its sleeps are one backoff after each attempt but the last |
| `AiAdapter.Conclude` | app/ai_adapter.py:104-118 | `""` on exhaustion, the HTTP error re-raised, or the finished content |
| `AiAdapter.TrimmedAnswer` | app/ai_adapter.py:90-118 | for any chat request, the error raised is an HTTP status other than 429, and a returned text has at most the sentence limit |
| `AiAdapter.GenerateReply` | app/ai_adapter.py:76-118 | returns `ReplyOf` (the chat request with `OPENAI_MODEL` defaulting to `gpt-4o-mini`, posted with retries, stripped and trimmed) and sleeps `SleepsOf` |
| `AiAdapter.ReplyRequestOf` | app/ai_adapter.py:80-89 | the request posted is the model, the built messages and the token limit |
| `AiAdapter.TrimmedConclusion` | app/ai_adapter.py:103-104 | a reply that comes back has at most the configured number of sentences |
| `AiAdapter.ReplyOf` | app/ai_adapter.py:76-118 | `generate_reply` raises only a non-429 HTTP error, and a reply it returns has at most the configured number of sentences |
| `AiAdapter.VisionParts` | app/ai_adapter.py:140-161 | the instruction text (with the caption when truthy) first, then, for the first `min(len, 10)` frames in order, a JPEG data URL of the frame with `detail: "low"` |
| `AiAdapter.BuildVisionParts` | app/ai_adapter.py:150-161 | the loop builds `VisionParts` |
| `AiAdapter.AnalysisOf` | app/ai_adapter.py:121-212 | `analyze_video_frames` raises only a non-429 HTTP error, and an analysis it returns has no surrounding whitespace |
| `AiAdapter.AnalyzeVideoFrames` | app/ai_adapter.py:121-212 | returns `AnalysisOf` (the vision request with `OPENAI_VISION_MODEL` defaulting to `gpt-4o` and 500 tokens, posted with retries, stripped but not trimmed) and sleeps `SleepsOf` |
| `AiAdapter.CommentRequest` | app/ai_adapter.py:229-249 | a chat request of exactly two messages; the model is `OPENAI_MODEL` or `gpt-4o-mini`, at 200 tokens |
| `AiAdapter.CommentUserTurn` | app/ai_adapter.py:238 | a user message starting `"Video content: "` and the analysis |
| `AiAdapter.CommentRequestTurns` | app/ai_adapter.py:240-245 | the system message carries the comment prompt and the user message starts `"Video content: "` and the analysis |
| `AiAdapter.CommentOf` | app/ai_adapter.py:215-284 | `generate_video_comment` raises only a non-429 HTTP error, and a comment it returns has at most the configured number of sentences |
| `AiAdapter.GenerateVideoComment` | app/ai_adapter.py:215-284 | returns `CommentOf` (the comment request posted with retries, stripped and trimmed) and sleeps `SleepsOf` |
| `MessageProcessor.ParseUpdate` | app/message_processor.py:32-55 | missing `message` is KeyError, missing `date` is TypeError, missing `update_id` is KeyError, in that order; Ok exactly when all three are present, with the ids, text and date carried over, the sender built from `from` (with `is_bot` false) and each entity copied field by field |
| `MessageProcessor.Take` | app/message_processor.py:158 | Python's `xs[:k]`, including a negative `k` |
| `MessageProcessor.Reverse` | app/message_processor.py:163 | `reversed`: same length, element `i` from position `len - 1 - i` |
| `MessageProcessor.ContextOf` | app/message_processor.py:143-165 | the ingest chat id, the style profile of the whole history, and the first `contextMessages` records rebuilt as messages in reverse order |
| `MessageProcessor.ContextChronological` | app/message_processor.py:143-165 | the prompt's recent messages are oldest first |
| `MessageProcessor.Pipeline` | app/message_processor.py:107-176 | a parse error changes nothing; a duplicate exactly when the marker exists, which changes and sends nothing; never a clean completion after a send; at most one send, to the reply chat, of a non-empty text |
| `MessageProcessor.SavedUnlessDuplicate` | app/message_processor.py:118-133 | every non-duplicate update ends stored in the ingest chat |
| `MessageProcessor.DeclinedMarked` | app/message_processor.py:136-141 | the outcome is "no reply" exactly when the decision is negative, and then the update is marked and nothing is sent |
| `MessageProcessor.Respond` | app/message_processor.py:143-176 | a generation error is re-raised with the store as it was; an empty reply only marks the update; a failed Telegram POST is re-raised with nothing sent or stored; a sent reply is stored under the reply chat and ends in TypeError; at most one message goes out, to the reply chat, with non-empty text |
| `MessageProcessor.EmptyReplyMarked` | app/message_processor.py:167-175 | the outcome is "empty reply" exactly when the decision is positive and generation returns `""`; then the update is marked, nothing is sent and no reply is stored |
| `MessageProcessor.SentReplyUnmarked` | app/message_processor.py:167-171 | a sent reply was generated for the update and stored under the reply chat; the update ends in TypeError and is not marked |
| `MessageProcessor.RedeliveryNotDuplicate` | app/message_processor.py:118-175 | a redelivery after a sent reply is not treated as a duplicate |
| `MessageProcessor.RedeliveryResends` | app/message_processor.py:118-175 | a redelivered question is answered a second time |
| `MessageProcessor.IntendedPipeline` | app/message_processor.py:168-175 | the corrected pipeline sends the same as the original and differs only by marking after a send |
| `MessageProcessor.IntendedAtMostOnce` | app/message_processor.py:118-120 | with the correction, any redelivery after a send is a duplicate and sends nothing |
| `MessageProcessor.SendTelegramReply` | app/message_processor.py:100-104 | either the POST fails with the given error and nothing is sent, or one message goes to the chat |
| `MessageProcessor.BuildContext` | app/message_processor.py:143-165 | the context built over the store is `ReplyContext` of its state |
| `MessageProcessor.ProcessUpdate` | app/message_processor.py:107-176 | the store's new state, the outcome and the sends are exactly `Pipeline` of the old state |
| `WebhookHandler.Admission` | app/webhook_handler.py:9-19 | a falsy message is "Unsupported update type"; a chat id other than the ingest chat is "Chat ID not allowed"; Ok exactly for a truthy message from the ingest chat |
| `WebhookHandler.AnySenderAdmitted` | app/webhook_handler.py:9-19 | any truthy message from the ingest chat is admitted, whoever sent it |
| `WebhookHandler.Topic.constructor` | app/queue_publisher.py:11 | a new topic has published nothing |
| `WebhookHandler.Topic.Publish` | app/webhook_handler.py:19 | the update is appended to the topic |
| `WebhookHandler.HandleUpdate` | app/webhook_handler.py:9-19 | the result is `Admission`; an admitted update is published once and unchanged; a refused one publishes nothing |
| `QueueWorker.BearerToken` | app/queue_worker.py:20-24 | Ok exactly when the `authorization` header, lower-cased, starts with `bearer `; the token is what follows the first space |
| `QueueWorker.Authenticate` | app/queue_worker.py:30-38 | skipping auth admits; otherwise a missing audience is refused before the header is read, and Ok needs a bearer token that verifies for the audience |
| `QueueWorker.Admit` | app/queue_worker.py:30-55 | an auth error comes first, then falsy `data`; Ok exactly with auth and truthy data, carrying the decoded update |
| `QueueWorker.AudienceBeforePayload` | app/queue_worker.py:32-34 | without an audience the payload is never looked at |
| `QueueWorker.Push` | app/queue_worker.py:29-93 | a refused push leaves the store unchanged; an admitted one is `Pipeline` on the decoded update, with its error re-raised |
| `QueueWorker.HandlePubsubPush` | app/queue_worker.py:29-93 | the store and the result are `Push`; `process_update` runs exactly once when admitted and not at all otherwise, when nothing is sent and the store is unchanged |
| `VideoProcessor.Downloaded` | app/video_processor.py:29-80 | a raising HEAD or GET, a missing or oversized declared length, a broken chunk or a body past 100 MiB gives None; otherwise the GET's chunks concatenated |
| `VideoProcessor.ConcatAppend` | app/video_processor.py:61-71 | appending a chunk appends its bytes, and an empty chunk adds nothing |
| `VideoProcessor.ConcatPrefix` | app/video_processor.py:64-70 | the bytes of a prefix of the chunks are no more than the bytes of all of them |
| `VideoProcessor.DownloadVideo` | app/video_processor.py:29-80 | the download loop returns `Downloaded` |
| `VideoProcessor.IntervalOf` | app/video_processor.py:109-113 | `int(fps * 2)`, with a non-positive fps taken as 30, so 60 |
| `VideoProcessor.Frames` | app/video_processor.py:117-120 | the frames read before the first read that is not a frame |
| `VideoProcessor.Sampled` | app/video_processor.py:124 | the frames at multiples of the interval, no more than there are frames |
| `VideoProcessor.SampledPrefix` | app/video_processor.py:117-143 | sampling a prefix gives a prefix of the samples |
| `VideoProcessor.DivUnique` | app/video_processor.py:124 | proof helper: Euclidean division is unique |
| `VideoProcessor.MulAtLeast` | app/video_processor.py:124 | proof helper: a positive multiple is at least the factor |
| `VideoProcessor.CountStep` | app/video_processor.py:124 | frame `n` adds a sample exactly when `n % k == 0` |
| `VideoProcessor.SampledIndices` | app/video_processor.py:117-143 | `ceil(frames / k)` samples, the `j`-th being frame `j * k` |
| `VideoProcessor.Extracted` | app/video_processor.py:82-177 | at most 10 frames; none for an unopened capture or a zero interval |
| `VideoProcessor.ExtractFrames` | app/video_processor.py:117-143 | the sampling loop returns `Extracted` |
| `VideoProcessor.ExtractedIndices` | app/video_processor.py:117-143 | with a positive interval, `min(10, ceil(frames / k))` frames, the `j`-th being frame `j * k` |
| `VideoProcessor.ProcessVideoUrl` | app/video_processor.py:210-225 | None for a failed or empty download or no frames; otherwise exactly the frames extracted from the downloaded bytes, 1 to 10 of them |
| `VideoProcessor.ProcessMediaId` | app/video_processor.py:227-254 | frames only for a non-empty media record of type `VIDEO` with a truthy `media_url`, and then exactly those of that URL |

## Left out

- All I/O is a parameter or a value: HTTP (`requests`), Firestore, Secret Manager, Pub/Sub publishing, Google's JWT verification, OpenCV, PIL, temporary files and `time.sleep`. The publish call itself is assumed to succeed.
- Logging, including app/logging_config.py, is a no-op. The exception is the argument evaluation of `{**context, ...}` at app/message_processor.py:171, which is modelled as the TypeError it raises.
- `MessageProcessor.Pipeline`: app/message_processor.py:173 passes an `AIContext` as `extra`. When INFO logging is enabled, which is LOG_LEVEL's default, building that record raises before line 175. The model treats that call as a no-op, so an empty reply ends marked.
- The model also treats logging and JSON timestamps as taking no time: one update reads the clock once (`World.now`), for `processed_at`, the cooldown and the reply date.
- Dates are integer epoch seconds. ISO-8601 formatting and parsing, time zones and `fromtimestamp` overflow are left out, and so is the `Z` replacement at app/storage.py:75.
- `StyleProfiles.BuildStyleProfile`: floating point is not modelled. The profile keeps the exact totals, and `average_length` and `emoji_ratio` are exact real quotients of them. The 40/120 and 0.02/0.005 thresholds are compared exactly, so rounding near a threshold is not captured.
- `StyleProfiles.Words`: the contract states how often each word is found, not the order of the matches. Its only use ranks `set(words)` by `words.count`, and neither depends on that order.
- `StyleProfiles.Words`: `\w` is the parameter `isWord` and `.lower()` is the parameter `lower`, because Unicode categories and case mapping are not modelled. `\s` and `strip` use the concrete Python whitespace set.
- Text is `string` (Unicode scalar values), not a sequence of code points. Lone surrogates are not modelled.
- `Ranking.TopBy`: among equal keys it takes the element that comes first in its input. `Storage.Latest` gives it the messages in descending document-id order, which reproduces Firestore's implicit order on the document name among equal dates. For `StyleProfiles.CommonWords` the input is `set(words)`, whose iteration order is CPython's hash order, so the model fixes one choice: first occurrence.
- The temperature fields of the OpenAI payloads, the HTTP headers and timeouts, and the base64 encoding of frames (`encode_frame_to_base64`) are left out. A frame is an opaque image value.
- The HTTP completion is assumed well-formed. A response without `choices[0].message.content` (a `KeyError` that is not retried) is not modelled.
- `get_media_info` (app/video_processor.py:179-208) is the parameter `lookup`. Its answer is a string map, so non-string JSON values are not modelled.
- `VideoProcessor.ExtractFrames`: the per-frame conversion (colour, resize, JPEG) is assumed not to raise, as is `cap.release()`. NaN or infinite fps are not modelled.
- `VideoProcessor.Downloaded`: `int(content-length)` is the parameter `parseInt`.
- JSON `null` and an absent key are both `None`. A `null` where the source calls `.get` on it (for example `"chat": null` at app/webhook_handler.py:14) would raise `AttributeError`; the model does not capture that.
- For `MessageProcessor.ParseUpdate`, the model treats a non-integer `date` as absent.
- `AIContext.metadata` is never set by the modelled code and is left out.
- Concurrency is not modelled: two deliveries of the same update run one after the other in the model.
- The callers and tests disagree with the code they call. The model follows the code:
  - tests/test_message_processor.py builds an `AIContext` with a `chat_id=` keyword;
  - tests/test_webhook_handler.py expects "published"/"ignored" return values;
  - app/main.py:33 passes `trace_id=`.

## Findings

| source | as written | input that shows it | evidently intended | confidence | as-written member | corrected member |
|---|---|---|---|---|---|---|
| app/message_processor.py:171 | after the reply is sent and saved, `{**context, "reply_chat_id": ...}` spreads an `AIContext` dataclass, which raises TypeError; `mark_update_processed` at line 175 is never reached, so Pub/Sub redelivers and the reply goes out again | a non-bot update whose text contains `?`, with generation answering `"Sure."` and the Telegram POST succeeding: a redelivery sends `"Sure."` a second time | mark the update processed after a sent reply, so each update is answered at most once | not executed | `MessageProcessor.RedeliveryResends` | `MessageProcessor.IntendedAtMostOnce` |
