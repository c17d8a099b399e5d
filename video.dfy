/**
 * `VideoProcessor` (app/video_processor.py): the size-capped download, the frame
 * sampling loop, and the two gating functions. HTTP responses and the OpenCV capture
 * are inputs; a decoded frame is an opaque value of type `F`.
 */
module VideoProcessor {
  import opened Wrappers
  import opened Ranking

  newtype byte = x: int | 0 <= x < 256

  const MaxVideoSize: int := 100 * 1024 * 1024
  const MaxFrames: nat := 10
  /** Seconds between sampled frames. */
  const FrameInterval: int := 2

  // ---- `download_video` ----

  /** One item of `iter_content`: a chunk of bytes, or the stream failing. */
  datatype Chunk = Data(bytes: seq<byte>) | Broken

  /** The HEAD request: it raised, or it answered with an optional `content-length` header. */
  datatype Head = HeadRaised | HeadOk(contentLength: Option<string>)

  /** The streaming GET: it raised (including `raise_for_status`), or it yields chunks. */
  datatype Get = GetRaised | GetOk(chunks: seq<Chunk>)

  /** The bytes of the chunks, in order. */
  function Concat(chunks: seq<Chunk>): seq<byte> {
    if chunks == [] then []
    else (if chunks[0].Data? then chunks[0].bytes else []) + Concat(chunks[1..])
  }

  predicate AnyBroken(chunks: seq<Chunk>) {
    exists i :: 0 <= i < |chunks| && chunks[i].Broken?
  }

  /** `int(headers.get('content-length', 0))`; `None` when `int` raises. */
  function ContentLength(header: Option<string>, parseInt: string -> Option<int>): Option<int> {
    match header
    case None => Some(0)
    case Some(text) => parseInt(text)
  }

  /** What `download_video` returns. */
  function Downloaded(head: Head, get: Get, parseInt: string -> Option<int>): (r: Option<seq<byte>>)
    ensures r.Some? ==> |r.value| <= MaxVideoSize && get.GetOk? && r.value == Concat(get.chunks) && !AnyBroken(get.chunks)
    ensures head.HeadRaised? || get.GetRaised? ==> r.None?
    ensures (head.HeadOk? && ContentLength(head.contentLength, parseInt).Some?
             && ContentLength(head.contentLength, parseInt).value > MaxVideoSize) ==> r.None?
    ensures head.HeadOk? && ContentLength(head.contentLength, parseInt).None? ==> r.None?
    ensures (head.HeadOk? && ContentLength(head.contentLength, parseInt).Some?
             && ContentLength(head.contentLength, parseInt).value <= MaxVideoSize
             && get.GetOk? && !AnyBroken(get.chunks) && |Concat(get.chunks)| <= MaxVideoSize)
            ==> r == Some(Concat(get.chunks))
  {
    match head
    case HeadRaised => None
    case HeadOk(header) =>
      var n := ContentLength(header, parseInt);
      if n.None? || n.value > MaxVideoSize then None
      else
        match get
        case GetRaised => None
        case GetOk(chunks) => if AnyBroken(chunks) || |Concat(chunks)| > MaxVideoSize then None else Some(Concat(chunks))
  }

  lemma ConcatAppend(chunks: seq<Chunk>, c: Chunk)
    ensures Concat(chunks + [c]) == Concat(chunks) + (if c.Data? then c.bytes else [])
  {
    if chunks != [] {
      assert (chunks + [c])[1..] == chunks[1..] + [c];
      ConcatAppend(chunks[1..], c);
    } else {
      assert Concat([c]) == (if c.Data? then c.bytes else []) + Concat([]);
    }
  }

  lemma {:induction false} ConcatPrefix(chunks: seq<Chunk>, i: nat)
    requires i <= |chunks|
    ensures |Concat(chunks[..i])| <= |Concat(chunks)|
    decreases |chunks| - i
  {
    if i < |chunks| {
      ConcatPrefix(chunks, i + 1);
      assert chunks[..i + 1] == chunks[..i] + [chunks[i]];
      ConcatAppend(chunks[..i], chunks[i]);
    } else {
      assert chunks[..i] == chunks;
    }
  }

  /** The download loop: skip empty chunks, give up past the cap, otherwise append. */
  method DownloadVideo(head: Head, get: Get, parseInt: string -> Option<int>) returns (r: Option<seq<byte>>)
    ensures r == Downloaded(head, get, parseInt)
  {
    if head.HeadRaised? {
      return None;
    }
    var contentLength := ContentLength(head.contentLength, parseInt);
    if contentLength.None? || contentLength.value > MaxVideoSize {
      return None;
    }
    if get.GetRaised? {
      return None;
    }
    var chunks := get.chunks;
    var content: seq<byte> := [];
    var downloaded := 0;
    var i := 0;
    while i < |chunks|
      invariant 0 <= i <= |chunks|
      invariant content == Concat(chunks[..i]) && downloaded == |content|
      invariant downloaded <= MaxVideoSize
      invariant forall j :: 0 <= j < i ==> chunks[j].Data?
    {
      assert chunks[..i + 1] == chunks[..i] + [chunks[i]];
      ConcatAppend(chunks[..i], chunks[i]);
      match chunks[i]
      case Broken =>
        return None;
      case Data(bytes) =>
        if bytes != [] {
          downloaded := downloaded + |bytes|;
          if downloaded > MaxVideoSize {
            ConcatPrefix(chunks, i + 1);
            return None;
          }
          content := content + bytes;
        }
      i := i + 1;
    }
    assert chunks[..i] == chunks;
    return Some(content);
  }

  // ---- `extract_frames` ----

  /** One `cap.read()`: a frame, the end of the video, or an exception. */
  datatype Read<F> = Got(frame: F) | Ended | Raised

  /** The OpenCV capture: it failed to open, or it reports `fps` and yields its reads. */
  datatype Capture<F> = Unopened | Opened(fps: real, results: seq<Read<F>>)

  /** `int(fps * frame_interval)`, with a non-positive `fps` taken as 30. */
  function IntervalOf(fps: real): (k: int)
    ensures k >= 0
    ensures fps <= 0.0 ==> k == 60
  {
    var f := if fps <= 0.0 then 30.0 else fps;
    (f * FrameInterval as real).Floor
  }

  /** The frames read before the first read that is not a frame. */
  function Frames<F>(results: seq<Read<F>>): (r: seq<F>)
    ensures |r| <= |results|
    ensures forall i :: 0 <= i < |r| ==> results[i] == Got(r[i])
    ensures |r| < |results| ==> !results[|r|].Got?
  {
    if results == [] || !results[0].Got? then []
    else [results[0].frame] + Frames(results[1..])
  }

  /** The frames whose index is a multiple of `k`, in order. */
  function Sampled<F>(frames: seq<F>, k: int): (r: seq<F>)
    requires k > 0
    ensures |r| <= |frames|
  {
    if frames == [] then []
    else
      var n := |frames| - 1;
      Sampled(frames[..n], k) + (if n % k == 0 then [frames[n]] else [])
  }

  /** `Sampled` of a prefix is a prefix. */
  lemma {:induction false} SampledPrefix<F>(frames: seq<F>, i: nat, k: int)
    requires k > 0 && i <= |frames|
    ensures var p := Sampled(frames[..i], k); var q := Sampled(frames, k); |p| <= |q| && q[..|p|] == p
    decreases |frames| - i
  {
    if i < |frames| {
      SampledPrefix(frames, i + 1, k);
      assert frames[..i + 1][..i] == frames[..i];
    } else {
      assert frames[..i] == frames;
    }
  }

  /** Euclidean division is unique. */
  lemma DivUnique(a: int, k: int, q: int, m: int)
    requires k > 0 && 0 <= m < k && a == q * k + m
    ensures a / k == q
  {
    var q0, m0 := a / k, a % k;
    assert a == q0 * k + m0;
    if q0 < q {
      assert (q - q0) * k == m0 - m;
      MulAtLeast(q - q0, k);
    } else if q0 > q {
      assert (q0 - q) * k == m - m0;
      MulAtLeast(q0 - q, k);
    }
  }

  lemma MulAtLeast(d: int, k: int)
    requires d >= 1 && k > 0
    ensures d * k >= k
  {
    assert (d - 1) * k >= 0;
  }

  /** Appending frame `n` adds one sample exactly when `n` is a multiple of `k`. */
  lemma CountStep(n: nat, k: int)
    requires k > 0
    ensures (n + k) / k == (n + k - 1) / k + (if n % k == 0 then 1 else 0)
    ensures n % k == 0 ==> (n + k - 1) / k * k == n
  {
    var q, m := n / k, n % k;
    assert (q + 1) * k == q * k + k;
    if m == 0 {
      DivUnique(n + k - 1, k, q, k - 1);
      DivUnique(n + k, k, q + 1, 0);
    } else {
      DivUnique(n + k - 1, k, q + 1, m - 1);
      DivUnique(n + k, k, q + 1, m);
    }
  }

  /** Sampling keeps one frame per `k`, rounding up, and the `j`-th kept frame is frame `j * k`. */
  lemma {:induction false} SampledIndices<F>(frames: seq<F>, k: int)
    requires k > 0
    ensures |Sampled(frames, k)| == (|frames| + k - 1) / k
    ensures forall j :: 0 <= j < |Sampled(frames, k)| ==>
              0 <= j * k < |frames| && Sampled(frames, k)[j] == frames[j * k]
  {
    if frames == [] {
      assert (k - 1) / k == 0 by { DivUnique(k - 1, k, 0, k - 1); }
    } else {
      var n := |frames| - 1;
      var front := frames[..n];
      SampledIndices(front, k);
      CountStep(n, k);
      var p := Sampled(front, k);
      var r := Sampled(frames, k);
      assert r == p + (if n % k == 0 then [frames[n]] else []);
      forall j | 0 <= j < |r|
        ensures 0 <= j * k < |frames| && r[j] == frames[j * k]
      {
        if j < |p| {
          assert r[j] == p[j] == front[j * k];
        } else {
          assert j == |p| && n % k == 0;
        }
      }
    }
  }

  /** What `extract_frames` returns. */
  function Extracted<F>(capture: Capture<F>): (r: seq<F>)
    ensures |r| <= MaxFrames
    ensures capture.Unopened? ==> r == []
    ensures capture.Opened? && IntervalOf(capture.fps) == 0 ==> r == []
  {
    match capture
    case Unopened => []
    case Opened(fps, results) =>
      var k := IntervalOf(fps);
      if k == 0 then [] else var s := Sampled(Frames(results), k); s[..Min(MaxFrames, |s|)]
  }

  /**
   * The sampling loop: read until a read is not a frame or ten frames are kept,
   * keeping frame `frame_count` when it is a multiple of the interval. A zero
   * interval raises `ZeroDivisionError` on the first frame, which is caught.
   */
  method ExtractFrames<F>(capture: Capture<F>) returns (frames: seq<F>)
    ensures frames == Extracted(capture)
  {
    frames := [];
    if capture.Unopened? {
      return;
    }
    var results := capture.results;
    var k := IntervalOf(capture.fps);
    ghost var good := Frames(results);
    var frameCount := 0;
    var extracted := 0;
    while extracted < MaxFrames
      invariant 0 <= frameCount <= |good|
      invariant k > 0 ==> frames == Sampled(good[..frameCount], k)
      invariant k == 0 ==> frames == []
      invariant extracted == |frames| <= MaxFrames
      decreases |results| - frameCount
    {
      if frameCount >= |results| || !results[frameCount].Got? {
        break;
      }
      assert frameCount < |good|;
      var frame := results[frameCount].frame;
      if k == 0 {
        return;
      }
      assert good[..frameCount + 1] == good[..frameCount] + [frame];
      assert good[..frameCount + 1][..frameCount] == good[..frameCount];
      if frameCount % k == 0 {
        frames := frames + [frame];
        extracted := extracted + 1;
      }
      frameCount := frameCount + 1;
    }
    if k > 0 {
      SampledPrefix(good, frameCount, k);
      if extracted < MaxFrames {
        assert frameCount == |good|;
        assert good[..frameCount] == good;
      }
    }
  }

  /** Sampling with a positive interval keeps the frames at multiples of it, at most ten, in order. */
  lemma ExtractedIndices<F>(capture: Capture<F>)
    requires capture.Opened? && IntervalOf(capture.fps) > 0
    ensures |Extracted(capture)|
            == Min(MaxFrames, (|Frames(capture.results)| + IntervalOf(capture.fps) - 1) / IntervalOf(capture.fps))
    ensures forall j :: 0 <= j < |Extracted(capture)| ==>
              0 <= j * IntervalOf(capture.fps) < |Frames(capture.results)|
              && Extracted(capture)[j] == Frames(capture.results)[j * IntervalOf(capture.fps)]
  {
    var k := IntervalOf(capture.fps);
    var good := Frames(capture.results);
    SampledIndices(good, k);
    var s := Sampled(good, k);
    var r := Extracted(capture);
    assert r == s[..Min(MaxFrames, |s|)];
    forall j | 0 <= j < |r|
      ensures 0 <= j * k < |good| && r[j] == good[j * k]
    {
      assert r[j] == s[j];
    }
  }

  // ---- gating ----

  /** `process_video_url`: download, then sample; `None` for an empty download or no frames. */
  function ProcessVideoUrl<F>(url: string, fetch: string -> (Head, Get), parseInt: string -> Option<int>,
                              open: seq<byte> -> Capture<F>): (r: Option<seq<F>>)
    ensures r.Some? ==> 1 <= |r.value| <= MaxFrames
    ensures r.Some? ==> var content := Downloaded(fetch(url).0, fetch(url).1, parseInt);
                        content.Some? && content.value != [] && r.value == Extracted(open(content.value))
    ensures Downloaded(fetch(url).0, fetch(url).1, parseInt).None? ==> r.None?
    ensures var content := Downloaded(fetch(url).0, fetch(url).1, parseInt);
            (content.Some? && content.value != [] && Extracted(open(content.value)) != [])
            ==> r == Some(Extracted(open(content.value)))
  {
    var (head, get) := fetch(url);
    var content := Downloaded(head, get, parseInt);
    if content.None? || content.value == [] then None
    else
      var frames := Extracted(open(content.value));
      if frames == [] then None else Some(frames)
  }

  /** The fields of `get_media_info`'s answer that the gate reads. */
  type MediaInfo = map<string, string>

  /** `process_media_id`: only a VIDEO with a non-empty `media_url` is processed. */
  function ProcessMediaId<F>(mediaId: string, lookup: string -> Option<MediaInfo>, fetch: string -> (Head, Get),
                             parseInt: string -> Option<int>, open: seq<byte> -> Capture<F>): (r: Option<seq<F>>)
    ensures r.Some? ==> var info := lookup(mediaId);
                        info.Some? && info.value != map[]
                        && "media_type" in info.value && info.value["media_type"] == "VIDEO"
                        && "media_url" in info.value && info.value["media_url"] != ""
                        && r == ProcessVideoUrl(info.value["media_url"], fetch, parseInt, open)
    ensures var info := lookup(mediaId);
            info.Some? && "media_type" in info.value && info.value["media_type"] == "VIDEO"
            && "media_url" in info.value && info.value["media_url"] != ""
            ==> r == ProcessVideoUrl(info.value["media_url"], fetch, parseInt, open)
  {
    var info := lookup(mediaId);
    if info.None? || info.value == map[] then None
    else if "media_type" !in info.value || info.value["media_type"] != "VIDEO" then None
    else if "media_url" !in info.value || info.value["media_url"] == "" then None
    else ProcessVideoUrl(info.value["media_url"], fetch, parseInt, open)
  }
}
