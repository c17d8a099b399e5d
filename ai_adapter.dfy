/**
 * Prompt shaping and the OpenAI calls of app/ai_adapter.py. An HTTP exchange is
 * the parameter `send`, which gives the outcome of each numbered attempt; sleeps
 * are recorded, not performed.
 */
module AiAdapter {
  import opened Wrappers
  import opened Text
  import opened Models
  import opened AppConfig
  import opened StyleProfiles

  // ---- `_style_guidance` ----

  const ShortHint: string := "Keep replies short and punchy."
  const LongHint: string := "Longer, more detailed " + "replies are acceptable."
  const EmojiHint: string := "Use emojis occasionally if it feels natural."
  const NoEmojiHint: string := "Avoid emojis unless " + "the user uses them first."

  /** `average_length <= 40`, without division. */
  predicate ShortTexts(p: StyleProfile) {
    p.nTexts == 0 || p.totalLength <= 40 * p.nTexts
  }

  /** `average_length >= 120`, without division. */
  predicate LongTexts(p: StyleProfile) {
    p.nTexts > 0 && p.totalLength >= 120 * p.nTexts
  }

  function RatioBase(p: StyleProfile): nat {
    if p.totalLength > 0 then p.totalLength else 1
  }

  /** `emoji_ratio >= 0.02`, without division. */
  predicate EmojiRich(p: StyleProfile) {
    50 * p.emojiCount >= RatioBase(p)
  }

  /** `emoji_ratio <= 0.005`, without division. */
  predicate EmojiPoor(p: StyleProfile) {
    200 * p.emojiCount <= RatioBase(p)
  }

  /** The integer length tests are the source's comparisons of the exact average. */
  lemma LengthThresholdsExact(p: StyleProfile)
    ensures ShortTexts(p) <==> AverageLength(p) <= 40.0
    ensures LongTexts(p) <==> AverageLength(p) >= 120.0
  {
    if p.nTexts > 0 {
      var n := p.nTexts as real;
      var t := p.totalLength as real;
      assert AverageLength(p) == t / n;
      assert (40 * p.nTexts) as real == 40.0 * n;
      assert (120 * p.nTexts) as real == 120.0 * n;
      QuotientCompare(t, n, 40.0);
      QuotientCompare(t, n, 120.0);
    }
  }

  /** The integer emoji tests are the source's comparisons of the exact ratio. */
  lemma EmojiThresholdsExact(p: StyleProfile)
    ensures EmojiRich(p) <==> EmojiRatio(p) >= 0.02
    ensures EmojiPoor(p) <==> EmojiRatio(p) <= 0.005
  {
    var d := RatioBase(p) as real;
    var c := p.emojiCount as real;
    assert EmojiRatio(p) == c / d;
    assert (50 * p.emojiCount) as real == 50.0 * c;
    assert (200 * p.emojiCount) as real == 200.0 * c;
    QuotientCompare(c, d, 0.02);
    QuotientCompare(c, d, 0.005);
    assert 0.02 * d * 50.0 == d;
    assert 0.005 * d * 200.0 == d;
  }

  lemma QuotientCompare(t: real, n: real, c: real)
    requires n > 0.0
    ensures t / n <= c <==> t <= c * n
    ensures t / n >= c <==> t >= c * n
  {
    var q := t / n;
    assert q * n == t;
    ScaleCompare(q, n, c);
  }

  lemma ScaleCompare(x: real, d: real, c: real)
    requires d > 0.0
    ensures x <= c <==> x * d <= c * d
    ensures x >= c <==> x * d >= c * d
  {
  }

  function WordsHint(p: StyleProfile): string {
    "Common slang/words: " + Join(p.commonWords, ", ")
  }

  predicate LengthHint(x: string) { x == ShortHint || x == LongHint }

  predicate EmojiHintOf(x: string) { x == EmojiHint || x == NoEmojiHint }

  /** The first characters tell the five kinds of hint apart. */
  lemma HintInitials(p: StyleProfile)
    ensures WordsHint(p)[0] == 'C'
    ensures ShortHint[0] == 'K' && LongHint[0] == 'L' && EmojiHint[0] == 'U' && NoEmojiHint[0] == 'A'
  {
  }

  /** The common-words hint, present exactly when there are common words. */
  function WordsPart(p: StyleProfile): (r: seq<string>)
    ensures r != [] <==> p.commonWords != []
    ensures forall i :: 0 <= i < |r| ==> i == 0 && r[i] == WordsHint(p)
  {
    if p.commonWords != [] then [WordsHint(p)] else []
  }

  /** The length hint: short when the average is at most 40, otherwise long when it is at least 120. */
  function LengthPart(p: StyleProfile): (r: seq<string>)
    ensures |r| == if ShortTexts(p) || LongTexts(p) then 1 else 0
    ensures forall i :: 0 <= i < |r| ==> LengthHint(r[i])
    ensures ShortHint in r <==> ShortTexts(p)
    ensures LongHint in r <==> !ShortTexts(p) && LongTexts(p)
  {
    HintInitials(p);
    if ShortTexts(p) then [ShortHint] else if LongTexts(p) then [LongHint] else []
  }

  /** The emoji hint: encouraging at a ratio of at least 0.02, otherwise discouraging at most 0.005. */
  function EmojiPart(p: StyleProfile): (r: seq<string>)
    ensures |r| == if EmojiRich(p) || EmojiPoor(p) then 1 else 0
    ensures forall i :: 0 <= i < |r| ==> EmojiHintOf(r[i])
    ensures EmojiHint in r <==> EmojiRich(p)
    ensures NoEmojiHint in r <==> !EmojiRich(p) && EmojiPoor(p)
  {
    HintInitials(p);
    if EmojiRich(p) then [EmojiHint] else if EmojiPoor(p) then [NoEmojiHint] else []
  }

  /** The hints, in the order words, length, emoji. */
  function Hints(p: StyleProfile): (h: seq<string>)
    ensures |h| == (if p.commonWords != [] then 1 else 0)
                 + (if ShortTexts(p) || LongTexts(p) then 1 else 0)
                 + (if EmojiRich(p) || EmojiPoor(p) then 1 else 0)
    ensures (p.commonWords != []) <==> (h != [] && h[0] == WordsHint(p))
    ensures ShortHint in h <==> ShortTexts(p)
    ensures LongHint in h <==> !ShortTexts(p) && LongTexts(p)
    ensures EmojiHint in h <==> EmojiRich(p)
    ensures NoEmojiHint in h <==> !EmojiRich(p) && EmojiPoor(p)
  {
    var words := WordsPart(p);
    var length := LengthPart(p);
    var emoji := EmojiPart(p);
    HintInitials(p);
    assert words != [] ==> words[0][0] == 'C';
    assert length != [] ==> length[0][0] == 'K' || length[0][0] == 'L';
    assert emoji != [] ==> emoji[0][0] == 'U' || emoji[0][0] == 'A';
    words + length + emoji
  }

  /** Each hint is the words hint, first, or one of the four fixed hints; none repeats, and the length hint precedes the emoji hint. */
  lemma HintsShape(p: StyleProfile)
    ensures var h := Hints(p);
            forall i :: 0 <= i < |h| ==> (i == 0 && h[i] == WordsHint(p)) || LengthHint(h[i]) || EmojiHintOf(h[i])
    ensures var h := Hints(p);
            forall i, j :: 0 <= i < j < |h| ==> h[i] != h[j]
    ensures var h := Hints(p);
            forall i, j :: 0 <= i < |h| && 0 <= j < |h| && LengthHint(h[i]) && EmojiHintOf(h[j]) ==> i < j
  {
    var h := Hints(p);
    var words := WordsPart(p);
    var length := LengthPart(p);
    var emoji := EmojiPart(p);
    assert h == words + length + emoji;
    var a := |words|;
    var b := |words| + |length|;
    HintInitials(p);
    forall i | 0 <= i < |h|
      ensures h[i] != [] && Group(h[i]) == (if i < a then 0 else if i < b then 1 else 2)
      ensures i < a ==> i == 0 && h[i] == WordsHint(p)
      ensures a <= i < b ==> i == a && LengthHint(h[i])
      ensures b <= i ==> i == b && EmojiHintOf(h[i])
    {
      if i < a {
        assert h[i] == words[i];
      } else if i < b {
        assert h[i] == length[i - a];
      } else {
        assert h[i] == emoji[i - b];
      }
    }
  }

  /** Which of the three kinds of hint a string is, read from its first character. */
  function Group(x: string): nat
    requires x != []
  {
    if x[0] == 'C' then 0 else if x[0] == 'K' || x[0] == 'L' then 1 else 2
  }

  function StyleGuidance(ctx: AIContext): (r: string)
    ensures r == "" <==> Hints(ctx.styleProfile) == []
    ensures r != "" ==> r == "Style notes: " + Join(Hints(ctx.styleProfile), " ")
  {
    var hints := Hints(ctx.styleProfile);
    if hints == [] then "" else "Style notes: " + Join(hints, " ")
  }

  /** There is nothing to say exactly when there are no common words and both averages are in the middle band. */
  lemma GuidanceEmpty(ctx: AIContext)
    ensures var p := ctx.styleProfile;
            StyleGuidance(ctx) == "" <==>
              p.commonWords == [] && !ShortTexts(p) && !LongTexts(p) && !EmojiRich(p) && !EmojiPoor(p)
  {
    var h := Hints(ctx.styleProfile);
    if h != [] {
      assert h[0] in h;
    }
  }

  /** A profile without texts always advises short replies and no emojis. */
  lemma EmptyProfileGuidance(ctx: AIContext)
    requires ctx.styleProfile == StyleProfile(0, 0, 0, [], [])
    ensures StyleGuidance(ctx) == "Style notes: " + ShortHint + " " + NoEmojiHint
  {
    assert Hints(ctx.styleProfile) == [ShortHint, NoEmojiHint];
    assert Join([ShortHint, NoEmojiHint], " ") == ShortHint + " " + Join([NoEmojiHint], " ");
  }

  // ---- `_build_messages` ----

  datatype ChatMessage = ChatMessage(role: string, content: string)

  /** `prompt` extended with the style notes, when there are any. */
  function WithStyle(prompt: string, ctx: AIContext): (r: string)
    ensures StyleGuidance(ctx) == "" ==> r == prompt
    ensures StyleGuidance(ctx) != "" ==> r == prompt + " " + StyleGuidance(ctx)
  {
    var hint := StyleGuidance(ctx);
    if hint != "" then prompt + " " + hint else prompt
  }

  const ReplyOpening: string :=
    "You are a friendly participant in a Telegram group chat. "
    + "Mimic the group tone and slang. "
    + "Keep replies to "

  const ReplyClosing: string :=
    " sentences or fewer. "
    + "Do not mention being an AI or a bot."

  function ReplySystemPrompt(ctx: AIContext, t: Tunables): string {
    WithStyle(ReplyOpening + IntToString(t.maxReplySentences) + ReplyClosing, ctx)
  }

  /** One user turn per recent message with a non-empty text, in order. */
  function UserTurns(recent: seq<Message>): (r: seq<ChatMessage>)
    ensures |r| <= |recent|
    ensures forall i :: 0 <= i < |r| ==> r[i].role == "user" && r[i].content != ""
  {
    if recent == [] then []
    else
      var m := recent[|recent| - 1];
      var init := UserTurns(recent[..|recent| - 1]);
      if m.text.Some? && m.text.value != "" then init + [ChatMessage("user", m.text.value)] else init
  }

  /** The number of recent messages with a non-empty text. */
  function TextCount(recent: seq<Message>): nat {
    if recent == [] then 0
    else
      var m := recent[|recent| - 1];
      TextCount(recent[..|recent| - 1]) + if m.text.Some? && m.text.value != "" then 1 else 0
  }

  lemma {:induction false} UserTurnsCount(recent: seq<Message>)
    ensures |UserTurns(recent)| == TextCount(recent)
  {
    if recent != [] {
      UserTurnsCount(recent[..|recent| - 1]);
    }
  }

  /** A skipped message (no text, or an empty one) adds no turn. */
  lemma UserTurnsSkip(recent: seq<Message>, m: Message)
    requires m.text.None? || m.text.value == ""
    ensures UserTurns(recent + [m]) == UserTurns(recent)
  {
    assert (recent + [m])[..|recent|] == recent;
  }

  /** `_build_messages`: the system turn, then the user turns. */
  method BuildMessages(ctx: AIContext, t: Tunables) returns (messages: seq<ChatMessage>)
    ensures messages == [ChatMessage("system", ReplySystemPrompt(ctx, t))] + UserTurns(ctx.recentMessages)
    ensures |messages| == 1 + TextCount(ctx.recentMessages)
  {
    messages := AppendTurns([ChatMessage("system", ReplySystemPrompt(ctx, t))], ctx.recentMessages);
    UserTurnsCount(ctx.recentMessages);
  }

  /** The loop of `_build_messages`: one user turn appended per recent message with a non-empty text. */
  method AppendTurns(head: seq<ChatMessage>, recent: seq<Message>) returns (messages: seq<ChatMessage>)
    ensures messages == head + UserTurns(recent)
  {
    messages := head;
    var i := 0;
    while i < |recent|
      invariant 0 <= i <= |recent|
      invariant messages == head + UserTurns(recent[..i])
    {
      assert recent[..i + 1][..i] == recent[..i];
      var m := recent[i];
      if m.text.Some? && m.text.value != "" {
        messages := messages + [ChatMessage("user", m.text.value)];
      }
      i := i + 1;
    }
    assert recent[..i] == recent;
  }

  // ---- `_trim_reply` ----

  predicate Terminal(c: char) {
    c == '.' || c == '!' || c == '?'
  }

  /** `(?<=[.!?])\s+` can start matching at `i`. */
  predicate Break(s: string, i: int) {
    0 < i < |s| && Terminal(s[i - 1]) && IsSpace(s[i])
  }

  /** The first break at or after `k`, or `|s|` when there is none. */
  function FirstBreak(s: string, k: nat): (i: nat)
    requires k <= |s|
    ensures k <= i <= |s|
    ensures i < |s| ==> Break(s, i)
    ensures forall m :: k <= m < i ==> !Break(s, m)
    decreases |s| - k
  {
    if k == |s| || Break(s, k) then k else FirstBreak(s, k + 1)
  }

  /** The end of the run of whitespace starting at `i`. */
  function SpaceEnd(s: string, i: nat): (j: nat)
    requires i <= |s|
    ensures i <= j <= |s|
    ensures forall m :: i <= m < j ==> IsSpace(s[m])
    ensures j == |s| || !IsSpace(s[j])
    decreases |s| - i
  {
    if i == |s| || !IsSpace(s[i]) then i else SpaceEnd(s, i + 1)
  }

  /** The empty string splits into one empty part. */
  lemma SplitEmpty()
    ensures Split("") == [""]
  {
    assert FirstBreak("", 0) == 0;
  }

  /** `re.split(r"(?<=[.!?])\s+", s)`. */
  function Split(s: string): (parts: seq<string>)
    ensures |parts| >= 1
    decreases |s|
  {
    var i := FirstBreak(s, 0);
    if i == |s| then [s]
    else
      var j := SpaceEnd(s, i);
      [s[..i]] + Split(s[j..])
  }

  /** A segment as `Split` produces it from stripped text: no break inside and no surrounding space. */
  predicate Segment(p: string) {
    p != [] && !IsSpace(p[0]) && !IsSpace(p[|p| - 1]) && forall m :: 0 < m < |p| ==> !Break(p, m)
  }

  /** Every segment but the last ends a sentence. */
  predicate Segments(parts: seq<string>) {
    (forall i :: 0 <= i < |parts| ==> Segment(parts[i]))
    && (forall i :: 0 <= i < |parts| - 1 ==> Terminal(parts[i][|parts[i]| - 1]))
  }

  lemma {:induction false} SplitSegments(s: string)
    requires s != [] && !IsSpace(s[0]) && !IsSpace(s[|s| - 1])
    ensures Segments(Split(s))
    decreases |s|
  {
    var i := FirstBreak(s, 0);
    if i == |s| {
      assert forall m :: 0 < m < |s| ==> !Break(s, m);
    } else {
      var j := SpaceEnd(s, i);
      FirstSentence(s);
      SplitSegments(s[j..]);
      SegmentsCons(s[..i], Split(s[j..]));
      assert Split(s) == [s[..i]] + Split(s[j..]);
    }
  }

  /** Before the first break of stripped text is a sentence, and after the spaces more stripped text. */
  lemma FirstSentence(s: string)
    requires s != [] && !IsSpace(s[0]) && !IsSpace(s[|s| - 1])
    requires FirstBreak(s, 0) < |s|
    ensures var i := FirstBreak(s, 0);
            var j := SpaceEnd(s, i);
            Segment(s[..i]) && Terminal(s[..i][i - 1])
            && j < |s| && s[j..] != [] && !IsSpace(s[j..][0]) && !IsSpace(s[j..][|s[j..]| - 1])
  {
    var i := FirstBreak(s, 0);
    var j := SpaceEnd(s, i);
    var head := s[..i];
    assert j < |s|;
    assert forall m :: 0 < m < |head| ==> !Break(head, m) by {
      forall m | 0 < m < |head| ensures !Break(head, m) {
        assert head[m] == s[m] && head[m - 1] == s[m - 1];
        assert !Break(s, m);
      }
    }
    assert head[i - 1] == s[i - 1];
  }

  /** A sentence in front of segments keeps them segments. */
  lemma SegmentsCons(head: string, rest: seq<string>)
    requires Segment(head) && Terminal(head[|head| - 1]) && Segments(rest)
    ensures Segments([head] + rest)
  {
    var parts := [head] + rest;
    forall k | 0 <= k < |parts| ensures Segment(parts[k]) {
      if k > 0 { assert parts[k] == rest[k - 1]; }
    }
    forall k | 0 <= k < |parts| - 1 ensures Terminal(parts[k][|parts[k]| - 1]) {
      if k > 0 { assert parts[k] == rest[k - 1]; }
    }
  }

  lemma JoinCons(parts: seq<string>, sep: string)
    requires |parts| >= 2
    ensures Join(parts, sep) == parts[0] + sep + Join(parts[1..], sep)
  {
  }

  lemma JoinEnds(parts: seq<string>)
    requires |parts| >= 1 && Segments(parts)
    ensures var s := Join(parts, " "); s != [] && s[0] == parts[0][0]
    ensures var s := Join(parts, " "); s[|s| - 1] == parts[|parts| - 1][|parts[|parts| - 1]| - 1]
  {
    if |parts| >= 2 {
      JoinCons(parts, " ");
      var rest := parts[1..];
      SegmentsTail(parts);
      JoinEnds(rest);
    }
  }

  /** No break falls inside a segment placed at the front of a string. */
  lemma NoBreakInHead(p: string, s: string)
    requires Segment(p) && |p| <= |s| && s[..|p|] == p
    ensures forall m :: 0 <= m < |p| ==> !Break(s, m)
  {
    forall m | 0 <= m < |p| ensures !Break(s, m) {
      if 0 < m {
        assert s[m] == p[m] && s[m - 1] == p[m - 1];
        assert !Break(p, m);
      }
    }
  }

  /** A sentence, a single space and more text split into the sentence and the split of the rest. */
  lemma SplitCons(p: string, tail: string)
    requires Segment(p) && Terminal(p[|p| - 1])
    requires tail != [] && !IsSpace(tail[0])
    ensures Split(p + " " + tail) == [p] + Split(tail)
  {
    var s := p + " " + tail;
    assert s[..|p|] == p;
    NoBreakInHead(p, s);
    assert s[|p|] == ' ' && s[|p| - 1] == p[|p| - 1];
    assert Break(s, |p|);
    assert FirstBreak(s, 0) == |p|;
    assert s[|p| + 1] == tail[0];
    assert SpaceEnd(s, |p| + 1) == |p| + 1;
    assert SpaceEnd(s, |p|) == |p| + 1;
    assert s[|p| + 1..] == tail;
  }

  /** After the first of several segments, the rest are segments too. */
  lemma SegmentsTail(parts: seq<string>)
    requires |parts| >= 1 && Segments(parts)
    ensures Segments(parts[1..])
  {
    var rest := parts[1..];
    forall k | 0 <= k < |rest| ensures Segment(rest[k]) { assert rest[k] == parts[k + 1]; }
    forall k | 0 <= k < |rest| - 1 ensures Terminal(rest[k][|rest[k]| - 1]) { assert rest[k] == parts[k + 1]; }
  }

  /** Joining segments with single spaces and splitting again gives them back. */
  lemma {:induction false} SplitJoin(parts: seq<string>)
    requires |parts| >= 1 && Segments(parts)
    ensures Split(Join(parts, " ")) == parts
    decreases |parts|
  {
    if |parts| == 1 {
      var s := parts[0];
      assert FirstBreak(s, 0) == |s|;
    } else {
      JoinCons(parts, " ");
      var rest := parts[1..];
      SegmentsTail(parts);
      JoinEnds(rest);
      assert Segment(parts[0]) && Terminal(parts[0][|parts[0]| - 1]);
      SplitCons(parts[0], Join(rest, " "));
      SplitJoin(rest);
      assert [parts[0]] + rest == parts;
    }
  }

  /** `_trim_reply`: at most `maxSentences` sentences of the stripped text. */
  function TrimReply(text: string, maxSentences: int): (r: string)
    ensures maxSentences <= 0 || |Split(Strip(text))| <= maxSentences ==> r == Strip(text)
    ensures maxSentences > 0 && |Split(Strip(text))| > maxSentences ==>
              r == Join(Split(Strip(text))[..maxSentences], " ")
  {
    if maxSentences <= 0 then Strip(text)
    else
      var parts := Split(Strip(text));
      if |parts| <= maxSentences then Strip(text)
      else
        var s := Strip(text);
        SplitSegments(s);
        var kept := parts[..maxSentences];
        assert Segments(kept);
        JoinEnds(kept);
        StripFixed(Join(kept, " "));
        Strip(Join(kept, " "))
  }

  /** Past the limit, the trimmed reply consists of exactly the first `maxSentences` sentences. */
  lemma TrimReplyKeepsFirst(text: string, maxSentences: int)
    requires maxSentences > 0 && |Split(Strip(text))| > maxSentences
    ensures Split(TrimReply(text, maxSentences)) == Split(Strip(text))[..maxSentences]
  {
    var s := Strip(text);
    SplitSegments(s);
    var kept := Split(s)[..maxSentences];
    assert Segments(kept);
    SplitJoin(kept);
  }

  /** Stripping the content before `_trim_reply` changes nothing: `_trim_reply` strips first, and `strip` is idempotent. */
  lemma TrimReplyStripped(text: string, maxSentences: int)
    ensures TrimReply(Strip(text), maxSentences) == TrimReply(text, maxSentences)
  {
    StripIdempotent(text);
  }

  /** The trimmed reply never has more than `maxSentences` sentences. */
  lemma TrimReplyBound(text: string, maxSentences: int)
    requires maxSentences > 0
    ensures |Split(TrimReply(text, maxSentences))| <= maxSentences
  {
    if |Split(Strip(text))| > maxSentences {
      TrimReplyKeepsFirst(text, maxSentences);
    }
  }

  // ---- the retry loops of `generate_reply`, `analyze_video_frames`, `generate_video_comment` ----

  /** What one POST ends in: a completion, a 429, a `RequestException`, or `raise_for_status` failing with `code`. */
  datatype HttpOutcome = Completed(content: string) | Status429 | NetErr | HttpErr(code: int)

  /** A 429, however it is reported, and a transport error are retried; any other HTTP error is not. */
  predicate Retryable(o: HttpOutcome) {
    o.Status429? || o.NetErr? || (o.HttpErr? && o.code == 429)
  }

  /** How the attempts ended: a completion or a re-raised error at attempt `attempt`, or every attempt retried. */
  datatype Attempts = Answered(content: string, attempt: nat) | Raised(status: int, attempt: nat) | Exhausted

  /** The outcome of attempts `attempt..maxRetries`. */
  function RetryFrom<Q>(send: (Q, nat) -> HttpOutcome, req: Q, maxRetries: int, attempt: nat): (r: Attempts)
    ensures r.Answered? ==> attempt <= r.attempt <= maxRetries && send(req, r.attempt) == Completed(r.content)
    ensures r.Raised? ==> attempt <= r.attempt <= maxRetries && r.status != 429 && send(req, r.attempt) == HttpErr(r.status)
    decreases if attempt <= maxRetries then maxRetries - attempt + 1 else 0
  {
    if attempt > maxRetries then Exhausted
    else
      match send(req, attempt)
      case Completed(c) => Answered(c, attempt)
      case HttpErr(code) =>
        if code != 429 then Raised(code, attempt) else RetryFrom(send, req, maxRetries, attempt + 1)
      case _ => RetryFrom(send, req, maxRetries, attempt + 1)
  }

  /** The number of POSTs made. */
  function Posts(a: Attempts, maxRetries: int): nat {
    match a
    case Answered(_, k) => k
    case Raised(_, k) => k
    case Exhausted => if maxRetries > 0 then maxRetries else 0
  }

  /** `backoff * 1, ..., backoff * n`: the sleeps between `n + 1` attempts. */
  function Backoffs(backoff: int, n: int): (r: seq<int>)
    ensures |r| == if n > 0 then n else 0
    ensures forall i :: 0 <= i < |r| ==> r[i] == backoff * (i + 1)
    decreases n
  {
    if n <= 0 then [] else Backoffs(backoff, n - 1) + [backoff * n]
  }

  /** The sleeps the loop performs on `req`: one after each attempt but the last. */
  function SleepsOf<Q>(send: (Q, nat) -> HttpOutcome, req: Q, maxRetries: int, backoff: int): seq<int> {
    Backoffs(backoff, Posts(RetryFrom(send, req, maxRetries, 1), maxRetries) - 1)
  }

  /** The attempts end with a completion at `k` exactly when `k` is the first attempt that is not retried and it completed. */
  lemma {:induction false} RetryAnswered<Q>(send: (Q, nat) -> HttpOutcome, req: Q, maxRetries: int, attempt: nat, c: string, k: nat)
    ensures RetryFrom(send, req, maxRetries, attempt) == Answered(c, k) <==>
              attempt <= k <= maxRetries && send(req, k) == Completed(c)
              && forall j :: attempt <= j < k ==> Retryable(send(req, j))
    decreases if attempt <= maxRetries then maxRetries - attempt + 1 else 0
  {
    if attempt <= maxRetries && Retryable(send(req, attempt)) {
      RetryAnswered(send, req, maxRetries, attempt + 1, c, k);
    }
  }

  /** The attempts end by re-raising at `k` exactly when `k` is the first attempt not retried and it failed with a status other than 429. */
  lemma {:induction false} RetryRaised<Q>(send: (Q, nat) -> HttpOutcome, req: Q, maxRetries: int, attempt: nat, code: int, k: nat)
    ensures RetryFrom(send, req, maxRetries, attempt) == Raised(code, k) <==>
              attempt <= k <= maxRetries && send(req, k) == HttpErr(code) && code != 429
              && forall j :: attempt <= j < k ==> Retryable(send(req, j))
    decreases if attempt <= maxRetries then maxRetries - attempt + 1 else 0
  {
    if attempt <= maxRetries && Retryable(send(req, attempt)) {
      RetryRaised(send, req, maxRetries, attempt + 1, code, k);
    }
  }

  /** The attempts are exhausted exactly when every one of them is retried. */
  lemma {:induction false} RetryExhausted<Q>(send: (Q, nat) -> HttpOutcome, req: Q, maxRetries: int, attempt: nat)
    ensures RetryFrom(send, req, maxRetries, attempt) == Exhausted <==>
              forall j :: attempt <= j <= maxRetries ==> Retryable(send(req, j))
    decreases if attempt <= maxRetries then maxRetries - attempt + 1 else 0
  {
    if attempt <= maxRetries && Retryable(send(req, attempt)) {
      RetryExhausted(send, req, maxRetries, attempt + 1);
    }
  }

  /** At most `maxRetries` POSTs are made, and at least one when `maxRetries >= 1`. */
  lemma {:induction false} RetryPosts<Q>(send: (Q, nat) -> HttpOutcome, req: Q, maxRetries: int, attempt: nat)
    requires attempt >= 1
    ensures var a := RetryFrom(send, req, maxRetries, attempt);
            Posts(a, maxRetries) <= (if maxRetries > 0 then maxRetries else 0)
            && (a.Answered? || a.Raised? ==> attempt <= Posts(a, maxRetries))
    decreases if attempt <= maxRetries then maxRetries - attempt + 1 else 0
  {
    if attempt <= maxRetries && Retryable(send(req, attempt)) {
      RetryPosts(send, req, maxRetries, attempt + 1);
    }
  }

  /**
   * The `for attempt in range(1, maxRetries + 1)` loop: POST, return on a completion,
   * re-raise a non-429 HTTP error, and otherwise sleep `backoff * attempt` unless it was the last attempt.
   */
  method PostWithRetries<Q>(send: (Q, nat) -> HttpOutcome, req: Q, maxRetries: int, backoff: int)
    returns (a: Attempts, ghost sleeps: seq<int>)
    ensures a == RetryFrom(send, req, maxRetries, 1)
    ensures sleeps == SleepsOf(send, req, maxRetries, backoff)
  {
    sleeps := [];
    var attempt: nat := 1;
    while attempt <= maxRetries
      invariant 1 <= attempt
      invariant maxRetries >= 1 ==> attempt <= maxRetries + 1
      invariant RetryFrom(send, req, maxRetries, 1) == RetryFrom(send, req, maxRetries, attempt)
      invariant sleeps == Backoffs(backoff, (if attempt <= maxRetries then attempt else maxRetries) - 1)
      decreases maxRetries - attempt + 1
    {
      var o := send(req, attempt);
      if o.Completed? {
        return Answered(o.content, attempt), sleeps;
      }
      if o.HttpErr? && o.code != 429 {
        return Raised(o.code, attempt), sleeps;
      }
      if attempt < maxRetries {
        sleeps := sleeps + [backoff * attempt];
      }
      attempt := attempt + 1;
    }
    a := Exhausted;
  }

  /** How a generator turns the attempts into its result: `""` on exhaustion, the re-raised error, or `finish(content)`. */
  function Conclude(a: Attempts, finish: string -> string): (r: Result<string>)
    ensures a.Exhausted? ==> r == Ok("")
    ensures a.Raised? ==> r == Err(HttpError(a.status))
    ensures a.Answered? ==> r == Ok(finish(a.content))
  {
    match a
    case Exhausted => Ok("")
    case Raised(code, _) => Err(HttpError(code))
    case Answered(c, _) => Ok(finish(c))
  }

  // ---- the three generators ----

  /** One part of a vision message. */
  datatype Part = TextPart(text: string) | ImagePart(url: string, detail: string)

  /** The request bodies; the sampling temperature is left out. */
  datatype Request =
    | ChatRequest(model: string, messages: seq<ChatMessage>, maxTokens: int)
    | VisionRequest(model: string, parts: seq<Part>, maxTokens: int)

  function ReplyRequest(ctx: AIContext, t: Tunables, env: Env): Request {
    ChatRequest(EnvOr(env, "OPENAI_MODEL", "gpt-4o-mini"),
      [ChatMessage("system", ReplySystemPrompt(ctx, t))] + UserTurns(ctx.recentMessages), t.maxTokens)
  }

  /**
   * `_trim_reply(content.strip(), ...)`: the completion trimmed to the sentence limit.
   * `_trim_reply` strips its text before anything else, so the outer strip is absorbed
   * (`TrimReplyStripped`).
   */
  function TrimmedReply(t: Tunables): string -> string {
    (c: string) => TrimReply(c, t.maxReplySentences)
  }

  /** What `generate_reply` returns, or the error it raises. */
  function ReplyOf(ctx: AIContext, t: Tunables, env: Env, send: (Request, nat) -> HttpOutcome): (r: Result<string>)
    ensures r.Err? ==> r.error.HttpError? && r.error.status != 429
    ensures t.maxReplySentences > 0 && r.Ok? ==> |Split(r.value)| <= t.maxReplySentences
  {
    TrimmedAnswer(send, ReplyRequest(ctx, t, env), t)
  }

  /** The chat request posted with retries, its answer trimmed: a non-429 HTTP error, or at most the sentence limit. */
  function TrimmedAnswer(send: (Request, nat) -> HttpOutcome, req: Request, t: Tunables): (r: Result<string>)
    ensures r.Err? ==> r.error.HttpError? && r.error.status != 429
    ensures t.maxReplySentences > 0 && r.Ok? ==> |Split(r.value)| <= t.maxReplySentences
  {
    var a := RetryFrom(send, req, t.openaiMaxRetries, 1);
    assert t.maxReplySentences > 0 && Conclude(a, TrimmedReply(t)).Ok? ==>
             |Split(Conclude(a, TrimmedReply(t)).value)| <= t.maxReplySentences by {
      if t.maxReplySentences > 0 && Conclude(a, TrimmedReply(t)).Ok? { TrimmedConclusion(a, t); }
    }
    Conclude(a, TrimmedReply(t))
  }


  /** `generate_reply`. */
  method GenerateReply(ctx: AIContext, t: Tunables, env: Env, send: (Request, nat) -> HttpOutcome)
    returns (r: Result<string>, ghost sleeps: seq<int>)
    ensures r == ReplyOf(ctx, t, env, send)
    ensures sleeps == SleepsOf(send, ReplyRequest(ctx, t, env), t.openaiMaxRetries, t.openaiBackoffSeconds)
  {
    var messages := BuildMessages(ctx, t);
    var req := ChatRequest(EnvOr(env, "OPENAI_MODEL", "gpt-4o-mini"), messages, t.maxTokens);
    ReplyRequestOf(ctx, t, env, messages);
    var a;
    a, sleeps := PostWithRetries(send, req, t.openaiMaxRetries, t.openaiBackoffSeconds);
    r := Conclude(a, TrimmedReply(t));
  }

  /** The request `generate_reply` posts is the one built from its messages. */
  lemma ReplyRequestOf(ctx: AIContext, t: Tunables, env: Env, messages: seq<ChatMessage>)
    requires messages == [ChatMessage("system", ReplySystemPrompt(ctx, t))] + UserTurns(ctx.recentMessages)
    ensures ChatRequest(EnvOr(env, "OPENAI_MODEL", "gpt-4o-mini"), messages, t.maxTokens) == ReplyRequest(ctx, t, env)
  {
  }

  /** A reply or comment that comes back has at most the configured number of sentences. */
  lemma TrimmedConclusion(a: Attempts, t: Tunables)
    requires t.maxReplySentences > 0
    requires Conclude(a, TrimmedReply(t)).Ok?
    ensures |Split(Conclude(a, TrimmedReply(t)).value)| <= t.maxReplySentences
  {
    if a.Answered? {
      TrimReplyBound(a.content, t.maxReplySentences);
    } else {
      SplitEmpty();
    }
  }

  const VisionInstruction: string :=
    "Analyze these video frames extracted at 2-second intervals. "
    + "Describe what's happening in the video, the main subjects, actions, "
    + "setting, and overall theme. Be concise but comprehensive."

  function VisionText(caption: Option<string>): string {
    if caption.Some? && caption.value != "" then VisionInstruction + "\n\nVideo caption: " + caption.value
    else VisionInstruction
  }

  function ImageOf(frame: string): Part {
    ImagePart("data:image/jpeg;base64," + frame, "low")
  }

  /** The instruction, then one image part per frame among the first ten, in order. */
  function VisionParts(frames: seq<string>, caption: Option<string>): (parts: seq<Part>)
    ensures |parts| == 1 + (if |frames| < 10 then |frames| else 10)
    ensures parts[0] == TextPart(VisionText(caption))
    ensures forall i :: 0 <= i < |parts| - 1 ==>
              parts[i + 1] == ImagePart("data:image/jpeg;base64," + frames[i], "low")
  {
    var n := if |frames| < 10 then |frames| else 10;
    [TextPart(VisionText(caption))] + seq(n, i requires 0 <= i < n => ImageOf(frames[i]))
  }

  /** Builds the content list with the source's loop over `frames[:max_frames]`. */
  method BuildVisionParts(frames: seq<string>, caption: Option<string>) returns (parts: seq<Part>)
    ensures parts == VisionParts(frames, caption)
  {
    parts := [TextPart(VisionText(caption))];
    var n := if |frames| < 10 then |frames| else 10;
    var i := 0;
    while i < n
      invariant 0 <= i <= n
      invariant |parts| == 1 + i
      invariant parts[0] == TextPart(VisionText(caption))
      invariant forall j :: 0 <= j < i ==> parts[j + 1] == ImageOf(frames[j])
    {
      parts := parts + [ImageOf(frames[i])];
      i := i + 1;
    }
  }

  function VisionRequestOf(frames: seq<string>, caption: Option<string>, env: Env): Request {
    VisionRequest(EnvOr(env, "OPENAI_VISION_MODEL", "gpt-4o"), VisionParts(frames, caption), 500)
  }

  /** What `analyze_video_frames` returns: the stripped analysis, not trimmed. */
  function AnalysisOf(frames: seq<string>, caption: Option<string>, t: Tunables, env: Env,
                      send: (Request, nat) -> HttpOutcome): (r: Result<string>)
    ensures r.Err? ==> r.error.HttpError? && r.error.status != 429
    ensures r.Ok? && r.value != [] ==> !IsSpace(r.value[0]) && !IsSpace(r.value[|r.value| - 1])
  {
    Conclude(RetryFrom(send, VisionRequestOf(frames, caption, env), t.openaiMaxRetries, 1), Strip)
  }

  /** `analyze_video_frames`. */
  method AnalyzeVideoFrames(frames: seq<string>, caption: Option<string>, t: Tunables, env: Env,
                            send: (Request, nat) -> HttpOutcome)
    returns (r: Result<string>, ghost sleeps: seq<int>)
    ensures r == AnalysisOf(frames, caption, t, env, send)
    ensures sleeps == SleepsOf(send, VisionRequestOf(frames, caption, env), t.openaiMaxRetries, t.openaiBackoffSeconds)
  {
    var parts := BuildVisionParts(frames, caption);
    var req := VisionRequest(EnvOr(env, "OPENAI_VISION_MODEL", "gpt-4o"), parts, 500);
    var a;
    a, sleeps := PostWithRetries(send, req, t.openaiMaxRetries, t.openaiBackoffSeconds);
    r := Conclude(a, Strip);
  }

  const CommentOpening: string :=
    "You are commenting on an Instagram Reel video. "
    + "Write an engaging, natural comment that responds to the video content. "
    + "Keep it brief ("

  const CommentClosing: string :=
    " sentences or fewer). "
    + "Be authentic and conversational, like a real person commenting."

  function CommentSystemPrompt(ctx: AIContext, t: Tunables): string {
    WithStyle(CommentOpening + IntToString(t.maxReplySentences) + CommentClosing, ctx)
  }

  /** Exactly the system turn and one user turn carrying the analysis. */
  function CommentRequest(analysis: string, ctx: AIContext, t: Tunables, env: Env): (req: Request)
    ensures req.ChatRequest? && |req.messages| == 2
    ensures req.model == EnvOr(env, "OPENAI_MODEL", "gpt-4o-mini") && req.maxTokens == 200
  {
    ChatRequest(EnvOr(env, "OPENAI_MODEL", "gpt-4o-mini"),
      [ChatMessage("system", CommentSystemPrompt(ctx, t)), CommentUserTurn(analysis)], 200)
  }

  /** The user turn of the comment request: the analysis, then the instruction. */
  function CommentUserTurn(analysis: string): (m: ChatMessage)
    ensures m.role == "user"
    ensures StartsWith(m.content, "Video content: " + analysis)
  {
    var prefix := "Video content: " + analysis;
    var user := prefix + "\n\nWrite a natural comment about this video.";
    assert user[..|prefix|] == prefix;
    ChatMessage("user", user)
  }

  /** The comment request opens with the styled system prompt and then carries the analysis. */
  lemma CommentRequestTurns(analysis: string, ctx: AIContext, t: Tunables, env: Env)
    ensures var req := CommentRequest(analysis, ctx, t, env);
            req.messages[0] == ChatMessage("system", CommentSystemPrompt(ctx, t))
            && req.messages[1].role == "user"
            && StartsWith(req.messages[1].content, "Video content: " + analysis)
  {
  }

  /** What `generate_video_comment` returns, or the error it raises. */
  function CommentOf(analysis: string, ctx: AIContext, t: Tunables, env: Env,
                     send: (Request, nat) -> HttpOutcome): (r: Result<string>)
    ensures r.Err? ==> r.error.HttpError? && r.error.status != 429
    ensures t.maxReplySentences > 0 && r.Ok? ==> |Split(r.value)| <= t.maxReplySentences
  {
    TrimmedAnswer(send, CommentRequest(analysis, ctx, t, env), t)
  }


  /** `generate_video_comment`. */
  method GenerateVideoComment(analysis: string, ctx: AIContext, t: Tunables, env: Env,
                              send: (Request, nat) -> HttpOutcome)
    returns (r: Result<string>, ghost sleeps: seq<int>)
    ensures r == CommentOf(analysis, ctx, t, env, send)
    ensures sleeps == SleepsOf(send, CommentRequest(analysis, ctx, t, env), t.openaiMaxRetries, t.openaiBackoffSeconds)
  {
    var req := CommentRequest(analysis, ctx, t, env);
    var a;
    a, sleeps := PostWithRetries(send, req, t.openaiMaxRetries, t.openaiBackoffSeconds);
    r := Conclude(a, TrimmedReply(t));
  }
}
