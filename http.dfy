/** Request headers as the middleware sees them: a map from lower-case
    header name to the raw bytes of its (first) value. */
module Http {
  import opened Wrappers
  import opened Text

  type HeaderMap = map<string, seq<byte>>

  /** The bytes `HeaderValue::to_str` accepts: visible ASCII and tab. */
  predicate IsVisibleAscii(b: byte) {
    (32 <= b < 127) || b == 9
  }

  /** `HeaderValue::to_str`: the value as text when every byte is visible
      ASCII (or a tab), an error otherwise. */
  function HeaderToStr(value: seq<byte>): (r: Option<string>)
    ensures r.Some? <==> forall i :: 0 <= i < |value| ==> IsVisibleAscii(value[i])
    ensures r.Some? ==> |r.value| == |value| && forall i :: 0 <= i < |value| ==> r.value[i] as int == value[i] as int
  {
    if forall i :: 0 <= i < |value| ==> IsVisibleAscii(value[i]) then Some(BytesAsChars(value)) else None
  }

  /** `headers.get(name).and_then(|v| v.to_str().ok())`. */
  function HeaderStr(headers: HeaderMap, name: string): Option<string> {
    if name in headers then HeaderToStr(headers[name]) else None
  }

  /** `is_json_content_type` (and the same test in the auth middleware): a
      readable content type that starts with `application/json`, so that
      parameters such as `; charset=utf-8` are allowed. */
  function IsJsonContentType(contentType: Option<seq<byte>>): (r: bool)
    ensures r <==> contentType.Some? && HeaderToStr(contentType.value).Some?
                   && StartsWith(HeaderToStr(contentType.value).value, "application/json")
  {
    match contentType
    case None => false
    case Some(v) =>
      match HeaderToStr(v)
      case None => false
      case Some(s) => StartsWith(s, "application/json")
  }
}
