/**
 * `_build_style_profile` (app/message_processor.py:58-77): length, emoji and
 * vocabulary statistics of the stored history. `\w` is the parameter `isWord`
 * and `str.lower` the parameter `lower`.
 */
module StyleProfiles {
  import opened Wrappers
  import opened Text
  import opened Models
  import opened Ranking
  import opened Storage

  /** `m.text` is truthy. */
  predicate HasText(m: StoredMessage) {
    m.text.Some? && m.text.value != ""
  }

  /** The truthy texts of the history, in order. */
  function Texts(messages: seq<StoredMessage>): (r: seq<string>)
    ensures |r| <= |messages|
    ensures forall i :: 0 <= i < |r| ==> r[i] != ""
    ensures (forall m :: m in messages ==> !HasText(m)) ==> r == []
  {
    if messages == [] then []
    else
      var rest := Texts(messages[1..]);
      assert forall m :: m in messages[1..] ==> m in messages;
      assert messages[0] in messages;
      match messages[0].text
      case Some(t) => if t != "" then [t] + rest else rest
      case None => rest
  }

  /** Every kept text is a message's text, and every truthy text is kept. */
  lemma {:induction false} TextsMembers(messages: seq<StoredMessage>)
    ensures forall t :: t in Texts(messages) <==> exists m :: m in messages && HasText(m) && m.text.value == t
  {
    if messages != [] {
      var rest := messages[1..];
      TextsMembers(rest);
      assert forall m :: m in messages <==> m == messages[0] || m in rest;
      var head := if HasText(messages[0]) then [messages[0].text.value] else [];
      assert Texts(messages) == head + Texts(rest);
    }
  }

  /** The texts of a concatenation are the texts of each part, in order. */
  lemma {:induction false} TextsAppend(a: seq<StoredMessage>, b: seq<StoredMessage>)
    ensures Texts(a + b) == Texts(a) + Texts(b)
  {
    if a != [] {
      var ab := a + b;
      assert ab[0] == a[0] && ab[1..] == a[1..] + b;
      TextsAppend(a[1..], b);
      var head := if HasText(a[0]) then [a[0].text.value] else [];
      assert Texts(a) == head + Texts(a[1..]);
      assert Texts(ab) == head + Texts(ab[1..]);
      assert Texts(ab[1..]) == Texts(a[1..]) + Texts(b);
      assert head + (Texts(a[1..]) + Texts(b)) == (head + Texts(a[1..])) + Texts(b);
    } else {
      assert a + b == b;
    }
  }

  /** One message contributes its text exactly when the text is truthy. */
  lemma TextsSingle(m: StoredMessage)
    ensures Texts([m]) == if HasText(m) then [m.text.value] else []
  {
  }

  /** `sum(len(t) for t in texts)`. */
  function TotalLength(texts: seq<string>): nat {
    if texts == [] then 0 else |texts[0]| + TotalLength(texts[1..])
  }

  /** Matches `[\U0001F300-\U0001FAFF]`. */
  predicate IsEmoji(c: char) {
    '\U{1F300}' <= c <= '\U{1FAFF}'
  }

  function EmojiCount(s: string): (r: nat)
    ensures r <= |s|
  {
    if s == [] then 0 else (if IsEmoji(s[0]) then 1 else 0) + EmojiCount(s[1..])
  }

  function EmojiTotal(texts: seq<string>): (r: nat)
    ensures r <= TotalLength(texts)
  {
    if texts == [] then 0 else EmojiCount(texts[0]) + EmojiTotal(texts[1..])
  }

  // ---- `re.findall(r"\b\w+\b", s)` ----

  /** `w` is matched by `\b\w+\b` at position `p` of `s`. */
  ghost predicate TokenAt(s: string, isWord: char -> bool, p: int, w: string) {
    0 <= p && p + |w| <= |s| && s[p..p + |w|] == w && w != []
    && (forall j :: 0 <= j < |w| ==> isWord(w[j]))
    && (p == 0 || !isWord(s[p - 1]))
    && (p + |w| == |s| || !isWord(s[p + |w|]))
  }

  /** `w` is one of the matches of `\b\w+\b` in `s`. */
  ghost predicate IsToken(s: string, isWord: char -> bool, w: string) {
    exists p :: TokenAt(s, isWord, p, w)
  }

  /** The end of the run of word characters starting at `k`. */
  function RunEnd(s: string, isWord: char -> bool, k: nat): (e: nat)
    requires k <= |s|
    ensures k <= e <= |s|
    ensures forall j :: k <= j < e ==> isWord(s[j])
    ensures e == |s| || !isWord(s[e])
    decreases |s| - k
  {
    if k == |s| || !isWord(s[k]) then k else RunEnd(s, isWord, k + 1)
  }

  /** A word may start at `k`: it is an end of `s` or next to a non-word character. */
  predicate Boundary(s: string, isWord: char -> bool, k: nat)
    requires k <= |s|
  {
    k == 0 || k == |s| || !isWord(s[k - 1]) || !isWord(s[k])
  }

  /** The maximal runs of word characters of `s[k..]`, left to right. */
  function WordsFrom(s: string, isWord: char -> bool, k: nat): (r: seq<string>)
    requires k <= |s|
    ensures Boundary(s, isWord, k) ==> forall i :: 0 <= i < |r| ==> IsToken(s, isWord, r[i])
    decreases |s| - k
  {
    if k == |s| then []
    else if !isWord(s[k]) then
      assert Boundary(s, isWord, k + 1);
      WordsFrom(s, isWord, k + 1)
    else
      var e := RunEnd(s, isWord, k);
      assert Boundary(s, isWord, e);
      var rest := WordsFrom(s, isWord, e);
      var r := [s[k..e]] + rest;
      assert Boundary(s, isWord, k) ==> forall i :: 0 <= i < |r| ==> IsToken(s, isWord, r[i]) by {
        if Boundary(s, isWord, k) {
          assert TokenAt(s, isWord, k, s[k..e]);
          forall i | 0 <= i < |r| ensures IsToken(s, isWord, r[i]) {
            if i > 0 { assert r[i] == rest[i - 1]; }
          }
        }
      }
      r
  }

  function Words(s: string, isWord: char -> bool): (r: seq<string>)
    ensures forall i :: 0 <= i < |r| ==> IsToken(s, isWord, r[i])
  {
    WordsFrom(s, isWord, 0)
  }

  /** The positions at or after `k` where `\b\w+\b` matches exactly `w`. */
  ghost function TokenStarts(s: string, isWord: char -> bool, w: string, k: nat): set<int> {
    set p | k <= p < |s| && TokenAt(s, isWord, p, w)
  }

  /** A run of word characters that stops at `m` ends at `m`. */
  lemma {:induction false} RunEndAt(s: string, isWord: char -> bool, k: nat, m: nat)
    requires k <= m <= |s|
    requires forall j :: k <= j < m ==> isWord(s[j])
    requires m == |s| || !isWord(s[m])
    ensures RunEnd(s, isWord, k) == m
    decreases m - k
  {
    if k < m {
      RunEndAt(s, isWord, k + 1, m);
    }
  }

  /** A match starting at the start of a run is that whole run. */
  lemma TokenAtRun(s: string, isWord: char -> bool, k: nat, w: string)
    requires k < |s| && TokenAt(s, isWord, k, w)
    ensures w == s[k..RunEnd(s, isWord, k)]
  {
    assert forall j :: k <= j < k + |w| ==> isWord(s[j]) by {
      forall j | k <= j < k + |w| ensures isWord(s[j]) {
        assert s[j] == w[j - k];
      }
    }
    RunEndAt(s, isWord, k, k + |w|);
  }

  /** A run of word characters starting at a boundary is a match there. */
  lemma RunTokenAt(s: string, isWord: char -> bool, k: nat)
    requires k < |s| && isWord(s[k]) && Boundary(s, isWord, k)
    ensures TokenAt(s, isWord, k, s[k..RunEnd(s, isWord, k)])
  {
  }

  /** No match starts inside a run of word characters. */
  lemma NoTokenInsideRun(s: string, isWord: char -> bool, k: nat, p: int, w: string)
    requires k < |s| && k < p < RunEnd(s, isWord, k)
    ensures !TokenAt(s, isWord, p, w)
  {
    assert isWord(s[p - 1]);
  }

  lemma CountCons(x: string, rest: seq<string>, w: string)
    ensures Count([x] + rest, w) == (if x == w then 1 else 0) + Count(rest, w)
  {
    assert ([x] + rest)[1..] == rest;
  }

  /** No match starts at a non-word character. */
  lemma StartsSkip(s: string, isWord: char -> bool, w: string, k: nat)
    requires k < |s| && !isWord(s[k])
    ensures TokenStarts(s, isWord, w, k) == TokenStarts(s, isWord, w, k + 1)
  {
    assert !TokenAt(s, isWord, k, w);
  }

  /** The matches from the start of a run: the run itself, if it is `w`, then those after the run. */
  lemma StartsRun(s: string, isWord: char -> bool, w: string, k: nat)
    requires k < |s| && isWord(s[k]) && Boundary(s, isWord, k)
    ensures var e := RunEnd(s, isWord, k);
            k !in TokenStarts(s, isWord, w, e)
            && TokenStarts(s, isWord, w, k)
               == (if s[k..e] == w then {k} else {}) + TokenStarts(s, isWord, w, e)
  {
    var e := RunEnd(s, isWord, k);
    var here: set<int> := if s[k..e] == w then {k} else {};
    forall p | p in TokenStarts(s, isWord, w, k)
      ensures p in here + TokenStarts(s, isWord, w, e)
    {
      if p == k {
        TokenAtRun(s, isWord, k, w);
      } else if p < e {
        NoTokenInsideRun(s, isWord, k, p, w);
      }
    }
    if s[k..e] == w {
      RunTokenAt(s, isWord, k);
    }
  }

  /** `WordsFrom` lists `w` once for every position from `k` on where it matches. */
  lemma {:induction false} WordsFromCount(s: string, isWord: char -> bool, k: nat, w: string)
    requires k <= |s| && Boundary(s, isWord, k)
    ensures Count(WordsFrom(s, isWord, k), w) == |TokenStarts(s, isWord, w, k)|
    decreases |s| - k
  {
    if k == |s| {
      assert TokenStarts(s, isWord, w, k) == {};
    } else if !isWord(s[k]) {
      WordsFromCount(s, isWord, k + 1, w);
      StartsSkip(s, isWord, w, k);
    } else {
      var e := RunEnd(s, isWord, k);
      var rest := WordsFrom(s, isWord, e);
      WordsFromCount(s, isWord, e, w);
      CountCons(s[k..e], rest, w);
      assert WordsFrom(s, isWord, k) == [s[k..e]] + rest;
      StartsRun(s, isWord, w, k);
    }
  }

  /** `words.count(w)` is the number of places where `\b\w+\b` matches exactly `w`. */
  lemma WordsCount(s: string, isWord: char -> bool, w: string)
    ensures Count(Words(s, isWord), w) == |TokenStarts(s, isWord, w, 0)|
  {
    WordsFromCount(s, isWord, 0, w);
  }

  /** A word occurs in a list exactly when it is counted there. */
  lemma {:induction false} CountPositive(words: seq<string>, w: string)
    ensures Count(words, w) > 0 <==> w in words
  {
    if words != [] {
      CountPositive(words[1..], w);
      assert w in words <==> words[0] == w || w in words[1..];
    }
  }

  /** Every match of `\b\w+\b` is found, so the words found are exactly the matches. */
  lemma WordsComplete(s: string, isWord: char -> bool, w: string)
    ensures w in Words(s, isWord) <==> IsToken(s, isWord, w)
  {
    WordsCount(s, isWord, w);
    CountPositive(Words(s, isWord), w);
    if IsToken(s, isWord, w) {
      var p :| TokenAt(s, isWord, p, w);
      assert p in TokenStarts(s, isWord, w, 0);
    }
    if w in Words(s, isWord) {
      var i :| 0 <= i < |Words(s, isWord)| && Words(s, isWord)[i] == w;
    }
  }

  // ---- the vocabulary ----

  /** `words.count(w)`. */
  function Count(words: seq<string>, w: string): nat {
    if words == [] then 0 else (if words[0] == w then 1 else 0) + Count(words[1..], w)
  }

  /** `set(words)` as a sequence of first occurrences. */
  function Dedup(words: seq<string>): (r: seq<string>)
    ensures Distinct(r)
    ensures forall w :: w in r <==> w in words
  {
    if words == [] then []
    else
      var rest := Dedup(words[1..]);
      assert forall i :: 0 <= i < |rest| ==> rest[i] in words by {
        forall i | 0 <= i < |rest| ensures rest[i] in words {
          assert rest[i] in words[1..];
        }
      }
      assert forall w :: w in words ==> w == words[0] || w in words[1..];
      if words[0] in rest then rest
      else
        var r := [words[0]] + rest;
        assert forall i, j :: 0 <= i < j < |r| ==> r[i] != r[j] by {
          forall i, j | 0 <= i < j < |r| ensures r[i] != r[j] {
            assert r[j] == rest[j - 1];
            if i > 0 { assert r[i] == rest[i - 1]; }
          }
        }
        r
  }

  /** The lower-cased tokens of `" ".join(texts).lower()`. */
  function TokensOf(texts: seq<string>, isWord: char -> bool, lower: string -> string): seq<string> {
    Words(lower(Join(texts, " ")), isWord)
  }

  /** The ranking key `words.count`. */
  function CountKey(words: seq<string>): string -> int {
    (w: string) => Count(words, w)
  }

  /** `sorted(set(words), key=words.count, reverse=True)[:5]`. */
  function CommonWords(words: seq<string>): (r: seq<string>)
    ensures |r| == Min(5, |Dedup(words)|)
    ensures forall i :: 0 <= i < |r| ==> r[i] in words
  {
    var cands := Dedup(words);
    var r := TopBy(cands, CountKey(words), 5);
    TopByMembers(cands, CountKey(words), 5);
    r
  }

  /**
   * The common words are distinct, in non-increasing order of count, and no token
   * left out occurs more often than the last one kept.
   */
  lemma CommonWordsRanked(words: seq<string>)
    ensures var r := CommonWords(words);
            Distinct(r) && SortedBy(r, CountKey(words))
            && (r != [] ==> forall w :: w in words && w !in r ==> Count(words, w) <= Count(words, r[|r| - 1]))
  {
    var cands := Dedup(words);
    TopBySorted(cands, CountKey(words), 5);
    TopByOmitted(cands, CountKey(words), 5);
    TopByDistinct(cands, CountKey(words), 5);
  }

  /** With at most five distinct tokens, every one of them is kept. */
  lemma CommonWordsAll(words: seq<string>)
    requires |Dedup(words)| <= 5
    ensures forall w :: w in words ==> w in CommonWords(words)
  {
    TopByAll(Dedup(words), CountKey(words), 5);
  }

  function BuildStyleProfile(messages: seq<StoredMessage>, isWord: char -> bool, lower: string -> string): (p: StyleProfile)
    ensures p.topics == []
    ensures Texts(messages) == [] ==> p == StyleProfile(0, 0, 0, [], [])
    ensures p.nTexts == |Texts(messages)|
    ensures p.totalLength == TotalLength(Texts(messages))
    ensures p.emojiCount == EmojiTotal(Texts(messages))
    ensures p.emojiCount <= p.totalLength
    ensures Texts(messages) != [] ==> p.commonWords == CommonWords(TokensOf(Texts(messages), isWord, lower))
  {
    var texts := Texts(messages);
    if texts == [] then StyleProfile(0, 0, 0, [], [])
    else
      StyleProfile(TotalLength(texts), |texts|, EmojiTotal(texts), CommonWords(TokensOf(texts, isWord, lower)), [])
  }

  /** `average_length` as an exact quotient. */
  function AverageLength(p: StyleProfile): (a: real)
    ensures p.nTexts > 0 ==> a * p.nTexts as real == p.totalLength as real
    ensures p.nTexts == 0 ==> a == 0.0
    ensures a >= 0.0
  {
    if p.nTexts == 0 then 0.0 else p.totalLength as real / p.nTexts as real
  }

  /** `emoji_ratio` as an exact quotient. */
  function EmojiRatio(p: StyleProfile): (e: real)
    ensures e * (if p.totalLength > 0 then p.totalLength else 1) as real == p.emojiCount as real
  {
    p.emojiCount as real / (if p.totalLength > 0 then p.totalLength else 1) as real
  }

  /** Each common word is a lower-cased `\w+` token of the joined texts. */
  lemma CommonWordsAreTokens(messages: seq<StoredMessage>, isWord: char -> bool, lower: string -> string)
    ensures var p := BuildStyleProfile(messages, isWord, lower);
            forall i :: 0 <= i < |p.commonWords| ==>
              IsToken(lower(Join(Texts(messages), " ")), isWord, p.commonWords[i])
  {
    var p := BuildStyleProfile(messages, isWord, lower);
    var texts := Texts(messages);
    if texts != [] {
      var joined := lower(Join(texts, " "));
      var toks := Words(joined, isWord);
      assert toks == TokensOf(texts, isWord, lower);
      var common := CommonWords(toks);
      assert p.commonWords == common;
      forall i | 0 <= i < |common|
        ensures IsToken(joined, isWord, common[i])
      {
        var k :| 0 <= k < |toks| && toks[k] == common[i];
      }
    }
  }

  /** A quotient of a non-negative number by a number at least as large lies between 0 and 1. */
  lemma UnitQuotient(c: real, d: real)
    requires 0.0 <= c <= d && d > 0.0
    ensures 0.0 <= c / d <= 1.0
  {
  }

  /** The emoji ratio of any profile lies between 0 and 1. */
  lemma EmojiRatioUnit(messages: seq<StoredMessage>, isWord: char -> bool, lower: string -> string)
    ensures var e := EmojiRatio(BuildStyleProfile(messages, isWord, lower)); 0.0 <= e <= 1.0
  {
    var p := BuildStyleProfile(messages, isWord, lower);
    var n := if p.totalLength > 0 then p.totalLength else 1;
    assert p.emojiCount <= n;
    UnitQuotient(p.emojiCount as real, n as real);
  }

  /** One stored text of length `n` gives average length `n`. */
  lemma SingleTextAverage(m: StoredMessage, isWord: char -> bool, lower: string -> string)
    requires m.text.Some? && m.text.value != ""
    ensures AverageLength(BuildStyleProfile([m], isWord, lower)) == |m.text.value| as real
  {
    var texts := Texts([m]);
    assert texts == [m.text.value];
    assert TotalLength(texts) == |m.text.value| + TotalLength([]);
    var p := BuildStyleProfile([m], isWord, lower);
    assert p.nTexts == 1 && p.totalLength == |m.text.value|;
  }
}
