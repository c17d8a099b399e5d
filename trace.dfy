/** Correlation id handling: app/trace.py. */
module Trace {
  import opened Wrappers
  import opened Text

  const TraceHeader: string := "x-cloud-trace-context"
  /** `TRACE_HEADER.title()`. */
  const TraceHeaderTitle: string := "X-Cloud-Trace-Context"

  /** `headers.get(k1) or headers.get(k2)`: the first of the two values that is present and non-empty. */
  function TraceHeaderValue(headers: map<string, string>): Option<string>
  {
    if TraceHeader in headers && headers[TraceHeader] != "" then Some(headers[TraceHeader])
    else if TraceHeaderTitle in headers && headers[TraceHeaderTitle] != "" then Some(headers[TraceHeaderTitle])
    else None
  }

  /** `extract_trace_id`: the stripped text before the first '/', or None. */
  function ExtractTraceId(headers: map<string, string>): (r: Option<string>)
    ensures TraceHeaderValue(headers).None? ==> r.None?
    ensures TraceHeaderValue(headers).Some? ==>
              r == (var t := Strip(Before(TraceHeaderValue(headers).value, '/'));
                    if t == "" then None else Some(t))
    ensures r.Some? ==> r.value != "" && '/' !in r.value
    ensures r.Some? ==> !IsSpace(r.value[0]) && !IsSpace(r.value[|r.value| - 1])
  {
    match TraceHeaderValue(headers)
    case None => None
    case Some(header) =>
      var traceId := Strip(Before(header, '/'));
      StripNoSlash(Before(header, '/'));
      if traceId == "" then None else Some(traceId)
  }

  /** Stripping never introduces a character. */
  lemma StripNoSlash(s: string)
    requires '/' !in s
    ensures '/' !in Strip(s)
  {
    StripChars(s);
  }

  /** The lower-case key wins over the title-case key when both are non-empty. */
  lemma LowercaseKeyFirst(headers: map<string, string>, v: string, w: string)
    requires TraceHeader in headers && headers[TraceHeader] == v && v != ""
    requires TraceHeaderTitle in headers && headers[TraceHeaderTitle] == w
    ensures ExtractTraceId(headers) == ExtractTraceId(map[TraceHeader := v])
  {
  }

  /** `build_trace_context`: nothing for a falsy id, otherwise exactly two keys. */
  function BuildTraceContext(traceId: Option<string>, projectId: string): (r: map<string, string>)
    ensures (traceId.None? || traceId.value == "") <==> r == map[]
    ensures traceId.Some? && traceId.value != "" ==>
              r.Keys == {"trace_id", "trace"}
              && r["trace_id"] == traceId.value
              && r["trace"] == "projects/" + projectId + "/traces/" + traceId.value
  {
    if traceId.None? || traceId.value == "" then map[]
    else
      var r := map["trace_id" := traceId.value, "trace" := "projects/" + projectId + "/traces/" + traceId.value];
      assert "trace_id" in r;
      r
  }
}
