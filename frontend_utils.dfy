/** The captured-traffic decoder of the log viewer (frontend/src/lib/utils.ts):
    rendering a logged body as readable text, escaping it for HTML, and
    recovering the assistant's reply from a whole JSON document or from the
    `data:` lines of an event stream. */
module FrontendUtils {
  import opened Wrappers
  import opened Text
  import opened Json

  /** `new TextDecoder().decode(bytes)`; None where decoding throws. */
  type TextDecoder = seq<byte> -> Option<string>

  /** The number a string of decimal digits denotes, read left to right. */
  function DecimalValue(s: string): int
    requires forall i :: 0 <= i < |s| ==> '0' <= s[i] <= '9'
  {
    if |s| == 0 then 0 else DecimalValue(s[..|s| - 1]) * 10 + (s[|s| - 1] as int - '0' as int)
  }

  /** Decimal digits of a natural number, as JavaScript prints `body.length`:
      the shortest digit string denoting `n`. */
  function NatToString(n: nat): (s: string)
    ensures |s| >= 1
    ensures forall i :: 0 <= i < |s| ==> '0' <= s[i] <= '9'
    ensures DecimalValue(s) == n
    ensures n > 0 ==> s[0] != '0'
    ensures |s| > 1 ==> s[0] != '0'
  {
    if n < 10 then [('0' as int + n) as char]
    else
      var prefix := NatToString(n / 10);
      var s := prefix + [('0' as int + n % 10) as char];
      assert s[..|s| - 1] == prefix;
      s
  }

  // ---------------------------------------------------------------------
  // decodeBody

  /** Whether one line of an event stream is a `data:` frame whose payload is
      JSON (and not the `[DONE]` marker); such a line is the only kind the
      decoder rewrites. */
  function DataFramePayload(codec: Codec, line: string): Option<Json> {
    var trimmed := JsTrim(line);
    if StartsWith(trimmed, "data:") then
      var content := JsTrim(trimmed[5..]);
      if content == "[DONE]" then None else codec.parseText(content)
    else None
  }

  /** The rewrite of one line inside `lines.map(...)`. */
  function RewriteLine(codec: Codec, line: string): (r: string)
    ensures DataFramePayload(codec, line).None? ==> r == line
    ensures DataFramePayload(codec, line).Some? ==> r == "data: " + codec.pretty(DataFramePayload(codec, line).value)
  {
    var trimmed := JsTrim(line);
    if StartsWith(trimmed, "data:") then
      var content := JsTrim(trimmed[5..]);
      if content == "[DONE]" then line
      else
        match codec.parseText(content)
        case Some(parsed) => "data: " + codec.pretty(parsed)
        case None => line
    else line
  }

  /** The decoding of text that the decoder could read: the whole document
      pretty-printed when it is JSON; otherwise, when it mentions `data:`,
      every line rewritten on its own; otherwise the text itself. */
  function DecodeText(codec: Codec, text: string): string {
    match codec.parseText(text)
    case Some(parsed) => codec.pretty(parsed)
    case None =>
      if Contains(text, "data:") then
        var lines := Split(text, '\n');
        Join(seq(|lines|, i requires 0 <= i < |lines| => RewriteLine(codec, lines[i])), '\n')
      else text
  }

  /** `decodeBody`: "Empty" without a body, a byte count when the bytes cannot
      be decoded, the decoded rendering otherwise. */
  function DecodeBody(codec: Codec, decode: TextDecoder, body: Option<seq<byte>>): string {
    match body
    case None => "Empty"
    case Some(bytes) =>
      match decode(bytes)
      case None => "[Binary Data: " + NatToString(|bytes|) + " bytes]"
      case Some(text) => DecodeText(codec, text)
  }

  /** A missing body renders as "Empty"; an empty one does not: it decodes to
      the empty text, which is neither JSON nor an event stream. */
  lemma DecodeBodyOfNothing(codec: Codec, decode: TextDecoder)
    requires decode([]) == Some("")
    requires codec.parseText("") == None
    ensures DecodeBody(codec, decode, None) == "Empty"
    ensures DecodeBody(codec, decode, Some([])) == ""
  {
    assert !Contains("", "data:");
  }

  /** A whole JSON document renders as its pretty print, with no line
      processing, and rendering that output again changes nothing when the
      pretty printer's output parses back to the same value. */
  lemma DecodeJsonDocument(codec: Codec, text: string, v: Json)
    requires codec.parseText(text) == Some(v)
    requires codec.parseText(codec.pretty(v)) == Some(v)
    ensures DecodeText(codec, text) == codec.pretty(v)
    ensures DecodeText(codec, DecodeText(codec, text)) == DecodeText(codec, text)
  {
  }

  /** The event-stream rewrite keeps the number and the order of the lines:
      the output is the join, on `\n`, of one line per input line, in input
      order, where a JSON `data:` frame becomes `data: ` plus the pretty print
      of its payload and every other line (not a `data:` line, `[DONE]`, or
      a payload that does not parse) stays as it is. */
  lemma DecodeEventStream(codec: Codec, text: string)
    requires codec.parseText(text).None? && Contains(text, "data:")
    ensures var lines := Split(text, '\n');
            DecodeText(codec, text)
            == Join(seq(|lines|, i requires 0 <= i < |lines| =>
                          match DataFramePayload(codec, lines[i])
                          case Some(v) => "data: " + codec.pretty(v)
                          case None => lines[i]), '\n')
  {
    var lines := Split(text, '\n');
    var out := seq(|lines|, i requires 0 <= i < |lines| => RewriteLine(codec, lines[i]));
    var expected := seq(|lines|, i requires 0 <= i < |lines| =>
                          match DataFramePayload(codec, lines[i])
                          case Some(v) => "data: " + codec.pretty(v)
                          case None => lines[i]);
    assert out == expected;
  }

  /** Text in which no line is a JSON `data:` frame comes back unchanged,
      whether or not it mentions `data:`, as long as it is not one JSON
      document. */
  lemma DecodeUnchangedText(codec: Codec, text: string)
    requires codec.parseText(text).None?
    requires forall i :: 0 <= i < |Split(text, '\n')| ==>
               DataFramePayload(codec, Split(text, '\n')[i]).None?
    ensures DecodeText(codec, text) == text
  {
    if Contains(text, "data:") {
      var lines := Split(text, '\n');
      var out := seq(|lines|, i requires 0 <= i < |lines| => RewriteLine(codec, lines[i]));
      assert out == lines;
      JoinSplit(text, '\n');
    }
  }

  // ---------------------------------------------------------------------
  // getHighlightedHtml: the escaping fallback

  /** `s.replace(/c/g, rep)`. */
  function ReplaceAll(s: string, c: char, rep: string): string {
    if |s| == 0 then "" else (if s[0] == c then rep else [s[0]]) + ReplaceAll(s[1..], c, rep)
  }

  /** The replace chain of `getHighlightedHtml`, ampersand first. */
  function EscapeHtml(text: string): string {
    ReplaceAll(ReplaceAll(ReplaceAll(ReplaceAll(ReplaceAll(text,
      '&', "&amp;"), '<', "&lt;"), '>', "&gt;"), '"', "&quot;"), '\'', "&#039;")
  }

  /** The escape of a single character. */
  function EscapeChar(c: char): string {
    match c
    case '&' => "&amp;"
    case '<' => "&lt;"
    case '>' => "&gt;"
    case '"' => "&quot;"
    case '\'' => "&#039;"
    case _ => [c]
  }

  /** Every character replaced by its escape, left to right. */
  function EscapeEach(s: string): string {
    if |s| == 0 then "" else EscapeChar(s[0]) + EscapeEach(s[1..])
  }

  lemma {:induction false} ReplaceAllAppend(a: string, b: string, c: char, rep: string)
    ensures ReplaceAll(a + b, c, rep) == ReplaceAll(a, c, rep) + ReplaceAll(b, c, rep)
  {
    if |a| > 0 {
      assert (a + b)[0] == a[0];
      assert (a + b)[1..] == a[1..] + b;
      ReplaceAllAppend(a[1..], b, c, rep);
    } else {
      assert a + b == b;
    }
  }

  lemma {:induction false} ReplaceAllAbsent(s: string, c: char, rep: string)
    requires c !in s
    ensures ReplaceAll(s, c, rep) == s
  {
    if |s| > 0 {
      assert c !in s[1..];
      ReplaceAllAbsent(s[1..], c, rep);
    }
  }

  lemma ReplaceAllOfChar(c: char, d: char, rep: string)
    ensures ReplaceAll([c], d, rep) == if c == d then rep else [c]
  {
    assert [c][1..] == "";
  }

  /** The replacements after `&` leave an entity alone: it holds none of
      the characters they replace. */
  lemma EntityKept(e: string)
    requires forall k :: 0 <= k < |e| ==> e[k] != '<' && e[k] != '>' && e[k] != '"' && e[k] != '\''
    ensures ReplaceAll(e, '<', "&lt;") == e && ReplaceAll(e, '>', "&gt;") == e
    ensures ReplaceAll(e, '"', "&quot;") == e
    ensures ReplaceAll(e, '\'', "&#039;") == e
  {
    ReplaceAllAbsent(e, '<', "&lt;");
    ReplaceAllAbsent(e, '>', "&gt;");
    ReplaceAllAbsent(e, '"', "&quot;");
    ReplaceAllAbsent(e, '\'', "&#039;");
  }

  lemma EscapeHtmlOfChar(c: char)
    ensures EscapeHtml([c]) == EscapeChar(c)
  {
    ReplaceAllOfChar(c, '&', "&amp;");
    if c == '&' {
      EntityKept("&amp;");
    } else {
      ReplaceAllOfChar(c, '<', "&lt;");
      if c == '<' {
        EntityKept("&lt;");
      } else {
        ReplaceAllOfChar(c, '>', "&gt;");
        if c == '>' {
          EntityKept("&gt;");
        } else {
          ReplaceAllOfChar(c, '"', "&quot;");
          if c == '"' {
            EntityKept("&quot;");
          } else {
            ReplaceAllOfChar(c, '\'', "&#039;");
          }
        }
      }
    }
  }

  lemma EscapeHtmlAppend(a: string, b: string)
    ensures EscapeHtml(a + b) == EscapeHtml(a) + EscapeHtml(b)
  {
    var a1, b1 := ReplaceAll(a, '&', "&amp;"), ReplaceAll(b, '&', "&amp;");
    ReplaceAllAppend(a, b, '&', "&amp;");
    var a2, b2 := ReplaceAll(a1, '<', "&lt;"), ReplaceAll(b1, '<', "&lt;");
    ReplaceAllAppend(a1, b1, '<', "&lt;");
    var a3, b3 := ReplaceAll(a2, '>', "&gt;"), ReplaceAll(b2, '>', "&gt;");
    ReplaceAllAppend(a2, b2, '>', "&gt;");
    var a4, b4 := ReplaceAll(a3, '"', "&quot;"), ReplaceAll(b3, '"', "&quot;");
    ReplaceAllAppend(a3, b3, '"', "&quot;");
    ReplaceAllAppend(a4, b4, '\'', "&#039;");
  }

  /** Because `&` is replaced first, no later replacement re-escapes the
      ampersands the chain itself introduces: the chain escapes each input
      character exactly once. */
  lemma {:induction false} EscapeHtmlIsPerCharacter(s: string)
    ensures EscapeHtml(s) == EscapeEach(s)
  {
    if |s| > 0 {
      assert s == [s[0]] + s[1..];
      EscapeHtmlAppend([s[0]], s[1..]);
      EscapeHtmlOfChar(s[0]);
      EscapeHtmlIsPerCharacter(s[1..]);
    }
  }

  /** An `&` at position i is the start of one of the five entities. */
  predicate StartsEntity(r: string, i: nat)
    requires i < |r|
  {
    var rest := r[i..];
    StartsWith(rest, "&amp;") || StartsWith(rest, "&lt;") || StartsWith(rest, "&gt;")
    || StartsWith(rest, "&quot;") || StartsWith(rest, "&#039;")
  }

  /** Markup-safe text: no raw `<`, `>`, `"` or `'`, and every `&` begins an entity. */
  predicate MarkupSafe(r: string) {
    && (forall i :: 0 <= i < |r| ==> r[i] != '<' && r[i] != '>' && r[i] != '"' && r[i] != '\'')
    && (forall i :: 0 <= i < |r| && r[i] == '&' ==> StartsEntity(r, i))
  }

  lemma MarkupSafeAppend(a: string, b: string)
    requires MarkupSafe(a) && MarkupSafe(b)
    ensures MarkupSafe(a + b)
  {
    var r := a + b;
    forall i | 0 <= i < |r| && r[i] == '&' ensures StartsEntity(r, i) {
      if i < |a| {
        assert StartsEntity(a, i);
        assert r[i..] == a[i..] + b;
      } else {
        assert r[i] == b[i - |a|];
        assert StartsEntity(b, i - |a|);
        assert r[i..] == b[i - |a|..];
      }
    }
  }

  lemma {:induction false} EscapeEachIsMarkupSafe(s: string)
    ensures MarkupSafe(EscapeEach(s))
  {
    if |s| > 0 {
      EscapeEachIsMarkupSafe(s[1..]);
      var e := EscapeChar(s[0]);
      assert MarkupSafe(e) by {
        if s[0] == '&' || s[0] == '<' || s[0] == '>' || s[0] == '"' || s[0] == '\'' {
          assert e[0] == '&' && StartsEntity(e, 0);
          assert forall i :: 0 < i < |e| ==> e[i] != '&';
        }
      }
      MarkupSafeAppend(e, EscapeEach(s[1..]));
    }
  }

  /** One step of reading entities back: the character that the front of a
      non-empty `r` stands for, and how many characters it takes up. */
  function UnescapeStep(r: string): (step: (char, nat))
    requires |r| > 0
    ensures 1 <= step.1 <= |r|
  {
    if StartsWith(r, "&amp;") then ('&', 5)
    else if StartsWith(r, "&lt;") then ('<', 4)
    else if StartsWith(r, "&gt;") then ('>', 4)
    else if StartsWith(r, "&quot;") then ('"', 6)
    else if StartsWith(r, "&#039;") then ('\'', 6)
    else (r[0], 1)
  }

  /** Reading the five entities back as the characters they stand for. */
  function Unescape(r: string): string
    decreases |r|
  {
    if |r| == 0 then ""
    else
      var step := UnescapeStep(r);
      [step.0] + Unescape(r[step.1..])
  }

  /** The front of an escaped character reads back as that character. */
  lemma UnescapeStepOfEscape(c: char, rest: string)
    ensures UnescapeStep(EscapeChar(c) + rest) == (c, |EscapeChar(c)|)
  {
    var e := EscapeChar(c);
    var r := e + rest;
    assert r[..|e|] == e;
    assert r[0] == e[0];
    if |e| > 1 {
      assert r[1] == e[1];
    }
  }

  lemma UnescapeAfterEscapeChar(c: char, rest: string)
    ensures Unescape(EscapeChar(c) + rest) == [c] + Unescape(rest)
  {
    var r := EscapeChar(c) + rest;
    UnescapeStepOfEscape(c, rest);
    assert r[|EscapeChar(c)|..] == rest;
  }

  lemma {:induction false} UnescapeEscapeEach(s: string)
    ensures Unescape(EscapeEach(s)) == s
  {
    if |s| > 0 {
      UnescapeEscapeEach(s[1..]);
      UnescapeAfterEscapeChar(s[0], EscapeEach(s[1..]));
      assert s == [s[0]] + s[1..];
    }
  }

  /** The escaping fallback of `getHighlightedHtml`: its output is markup-safe
      and reading the entities back gives exactly the input. */
  lemma EscapeHtmlSafeAndReversible(text: string)
    ensures MarkupSafe(EscapeHtml(text))
    ensures Unescape(EscapeHtml(text)) == text
  {
    EscapeHtmlIsPerCharacter(text);
    EscapeEachIsMarkupSafe(text);
    UnescapeEscapeEach(text);
  }

  /** `getHighlightedHtml`: text that looks like JSON goes to the highlighter
      (None where Prism throws); everything else, and a failed highlight, is
      escaped. */
  function HighlightedHtml(codec: Codec, decode: TextDecoder, highlight: string -> Option<string>,
                           body: Option<seq<byte>>): (r: string)
    ensures var text := DecodeBody(codec, decode, body);
            var trimmed := JsTrim(text);
            (StartsWith(trimmed, "{") || StartsWith(trimmed, "[")) && highlight(text).Some? ==>
              r == highlight(text).value
    ensures var text := DecodeBody(codec, decode, body);
            var trimmed := JsTrim(text);
            !((StartsWith(trimmed, "{") || StartsWith(trimmed, "[")) && highlight(text).Some?) ==>
              r == EscapeHtml(text) && MarkupSafe(r) && Unescape(r) == text
  {
    var text := DecodeBody(codec, decode, body);
    var trimmed := JsTrim(text);
    EscapeHtmlSafeAndReversible(text);
    if StartsWith(trimmed, "{") || StartsWith(trimmed, "[") then
      match highlight(text)
      case Some(html) => html
      case None => EscapeHtml(text)
    else EscapeHtml(text)
  }

  // ---------------------------------------------------------------------
  // extractAiContent

  /** Which extraction rules an `apiType` string selects. */
  datatype Family = OpenAiFamily | AnthropicFamily | NoRule

  function FamilyOf(apiType: string): Family {
    if apiType == "openai_chat_completions" || apiType == "openai_responses" then OpenAiFamily
    else if apiType == "anthropic_messages" then AnthropicFamily
    else NoRule
  }

  /** The `text` of an Anthropic block, or '' (`block.text || ''`). A non-string
      `text` is read as '' (see README). */
  function BlockText(block: Json): string {
    match JsTruthyString(JsProp(block, "text"))
    case Some(t) => t
    case None => ""
  }

  predicate IsTextBlock(block: Json) {
    JsProp(block, "type") == Some(JString("text"))
  }

  /** `content.filter(b => b.type === 'text').map(b => b.text || '').join('')`. */
  function TextBlocks(blocks: seq<Json>): string {
    if |blocks| == 0 then ""
    else (if IsTextBlock(blocks[0]) then BlockText(blocks[0]) else "") + TextBlocks(blocks[1..])
  }

  /** The non-streaming path: `choices[0].message.content` for the OpenAI
      types when it is a non-empty string; for Anthropic, the joined text
      blocks of a `content` array. A `null` block makes `block.type` throw,
      which abandons this path. */
  function WholeDocContent(json: Json, family: Family): (r: Option<string>)
    ensures family.NoRule? ==> r.None?
    ensures family.OpenAiFamily? && r.Some? ==> r.value != ""
  {
    match family
    case OpenAiFamily =>
      JsTruthyString(OptProp(OptProp(OptIndex0(JsProp(json, "choices")), "message"), "content"))
    case AnthropicFamily =>
      var content := JsProp(json, "content");
      if content.Some? && content.value.JArray? && JNull !in content.value.items
      then Some(TextBlocks(content.value.items))
      else None
    case NoRule => None
  }

  /** What one event-stream line adds to the reply: `choices[0].delta.content`
      (OpenAI) or the `delta.text` of a `content_block_delta` frame
      (Anthropic), when non-empty. `[DONE]`, unparseable frames and lines
      that are not `data:` lines add nothing. */
  function FrameDelta(codec: Codec, line: string, family: Family): (r: Option<string>)
    ensures DataFramePayload(codec, line).None? ==> r.None?
    ensures r.Some? ==> r.value != ""
  {
    match DataFramePayload(codec, line)
    case None => None
    case Some(json) => PayloadDelta(json, family)
  }

  /** The delta a parsed frame payload carries for a family. */
  function PayloadDelta(json: Json, family: Family): (r: Option<string>)
    ensures family.NoRule? ==> r.None?
    ensures r.Some? ==> r.value != ""
  {
    match family
    case OpenAiFamily =>
      JsTruthyString(OptProp(OptProp(OptIndex0(JsProp(json, "choices")), "delta"), "content"))
    case AnthropicFamily =>
      if JsProp(json, "type") == Some(JString("content_block_delta"))
      then JsTruthyString(OptProp(JsProp(json, "delta"), "text"))
      else None
    case NoRule => None
  }

  /** The text one line adds to the reply ("" when it adds nothing). */
  function DeltaText(codec: Codec, line: string, family: Family): string {
    match FrameDelta(codec, line, family)
    case Some(d) => d
    case None => ""
  }

  /** The concatenation of `f` over the lines, first line first. */
  function ConcatMap(lines: seq<string>, f: string -> string): string {
    if |lines| == 0 then ""
    else ConcatMap(lines[..|lines| - 1], f) + f(lines[|lines| - 1])
  }

  lemma {:induction false} ConcatMapAppend(a: seq<string>, b: seq<string>, f: string -> string)
    ensures ConcatMap(a + b, f) == ConcatMap(a, f) + ConcatMap(b, f)
    decreases |b|
  {
    if |b| == 0 {
      assert a + b == a;
    } else {
      var init := b[..|b| - 1];
      assert (a + b)[..|a + b| - 1] == a + init;
      assert (a + b)[|a + b| - 1] == b[|b| - 1];
      ConcatMapAppend(a, init, f);
    }
  }

  lemma ConcatMapStep(lines: seq<string>, i: nat, f: string -> string)
    requires i < |lines|
    ensures ConcatMap(lines[..i + 1], f) == ConcatMap(lines[..i], f) + f(lines[i])
  {
    assert lines[..i + 1][..i] == lines[..i];
  }

  lemma ConcatMapInOrder(a: seq<string>, line: string, b: seq<string>, f: string -> string)
    ensures ConcatMap(a + [line] + b, f) == ConcatMap(a, f) + f(line) + ConcatMap(b, f)
    ensures ConcatMap(a + b, f) == ConcatMap(a, f) + ConcatMap(b, f)
  {
    ConcatMapAppend(a + [line], b, f);
    ConcatMapAppend(a, [line], f);
    ConcatMapAppend(a, b, f);
    assert [line][..0] == [];
  }

  /** `DeltaText` as a function of the line alone. */
  function DeltaOf(codec: Codec, family: Family): string -> string {
    line => DeltaText(codec, line, family)
  }

  /** The reply accumulated over the lines, in order. */
  function StreamContent(codec: Codec, lines: seq<string>, family: Family): string {
    ConcatMap(lines, DeltaOf(codec, family))
  }

  /** The reply `extractAiContent` recovers, as a specification. */
  function AiContent(codec: Codec, decode: TextDecoder, body: Option<seq<byte>>,
                     apiType: Option<string>): Option<string> {
    if body.None? || apiType.None? || apiType.value == "" then None
    else
      match decode(body.value)
      case None => None
      case Some(text) =>
        var family := FamilyOf(apiType.value);
        var whole := match codec.parseText(text)
                     case Some(json) => WholeDocContent(json, family)
                     case None => None;
        if whole.Some? then whole
        else if Contains(text, "data:") then
          var content := StreamContent(codec, Split(text, '\n'), family);
          if content == "" then None else Some(content)
        else None
  }

  /** The loop of `extractAiContent` over the event-stream lines: each
      line's delta is appended, in order. */
  method AccumulateStream(codec: Codec, lines: seq<string>, family: Family) returns (content: string)
    ensures content == StreamContent(codec, lines, family)
  {
    content := "";
    var i := 0;
    while i < |lines|
      invariant 0 <= i <= |lines|
      invariant content == ConcatMap(lines[..i], DeltaOf(codec, family))
    {
      ConcatMapStep(lines, i, DeltaOf(codec, family));
      var delta := FrameDelta(codec, lines[i], family);
      if delta.Some? {
        content := content + delta.value;
      }
      DeltaOfLine(codec, lines[i], family);
      i := i + 1;
    }
    assert lines[..|lines|] == lines;
  }

  /** `extractAiContent`. */
  method ExtractAiContent(codec: Codec, decode: TextDecoder, body: Option<seq<byte>>,
                          apiType: Option<string>) returns (r: Option<string>)
    ensures r == AiContent(codec, decode, body, apiType)
    ensures body.None? || apiType.None? || apiType == Some("") ==> r.None?
    ensures r == Some("") ==> apiType == Some("anthropic_messages")
  {
    if body.None? || apiType.None? || apiType.value == "" {
      return None;
    }
    var decoded := decode(body.value);
    if decoded.None? {
      return None;
    }
    var text := decoded.value;
    var family := FamilyOf(apiType.value);
    var parsed := codec.parseText(text);
    if parsed.Some? {
      var whole := WholeDocContent(parsed.value, family);
      if whole.Some? {
        assert whole.value == "" ==> family == AnthropicFamily;
        return whole;
      }
    }
    if Contains(text, "data:") {
      var content := AccumulateStream(codec, Split(text, '\n'), family);
      if content == "" {
        return None;
      }
      return Some(content);
    }
    return None;
  }

  /** The streamed reply is the concatenation of the frames' deltas in frame
      order: the reply of a stream is the reply of its first part, then the
      delta of the next frame, then the reply of the rest. */
  lemma StreamContentInOrder(codec: Codec, a: seq<string>, line: string, b: seq<string>, family: Family)
    ensures StreamContent(codec, a + [line] + b, family)
            == StreamContent(codec, a, family)
               + DeltaText(codec, line, family)
               + StreamContent(codec, b, family)
  {
    var f := DeltaOf(codec, family);
    ConcatMapInOrder(a, line, b, f);
    DeltaOfLine(codec, line, family);
  }

  /** A frame that contributes nothing (`[DONE]`, unparseable, or without a
      delta) can be removed without changing the reply. */
  lemma StreamContentSkipsEmptyFrame(codec: Codec, a: seq<string>, line: string, b: seq<string>, family: Family)
    requires FrameDelta(codec, line, family).None?
    ensures StreamContent(codec, a + [line] + b, family) == StreamContent(codec, a + b, family)
  {
    var f := DeltaOf(codec, family);
    ConcatMapInOrder(a, line, b, f);
    DeltaOfLine(codec, line, family);
  }

  lemma DeltaOfLine(codec: Codec, line: string, family: Family)
    ensures DeltaOf(codec, family)(line) == DeltaText(codec, line, family)
    ensures FrameDelta(codec, line, family).None? ==> DeltaOf(codec, family)(line) == ""
  {
  }

  lemma {:induction false} StreamContentNoRule(codec: Codec, lines: seq<string>)
    ensures StreamContent(codec, lines, NoRule) == ""
  {
    if |lines| > 0 {
      StreamContentNoRule(codec, lines[..|lines| - 1]);
    }
  }

  /** An `apiType` with no extraction rule (an unknown string, or
      "openai_models") never yields a reply. */
  lemma UnknownApiTypeExtractsNothing(codec: Codec, decode: TextDecoder, body: Option<seq<byte>>,
                                      apiType: string)
    requires FamilyOf(apiType) == NoRule
    ensures AiContent(codec, decode, body, Some(apiType)) == None
  {
    if body.Some? && apiType != "" && decode(body.value).Some? {
      StreamContentNoRule(codec, Split(decode(body.value).value, '\n'));
    }
  }

  /** The whole-document path returns a truthy `choices[0].message.content`
      directly for the OpenAI types, and for Anthropic the in-order join of the
      text blocks of a `content` array without `null` blocks, even when that
      join is empty. */
  lemma WholeDocumentPath(codec: Codec, decode: TextDecoder, bytes: seq<byte>, apiType: string,
                          text: string, json: Json)
    requires apiType != "" && decode(bytes) == Some(text) && codec.parseText(text) == Some(json)
    ensures FamilyOf(apiType) == OpenAiFamily && json.JObject? && "choices" in json.fields
            && json.fields["choices"].JArray? && |json.fields["choices"].items| > 0
            && JsProp(json.fields["choices"].items[0], "message").Some?
            && JsTruthyString(JsProp(JsProp(json.fields["choices"].items[0], "message").value, "content")).Some?
            ==> AiContent(codec, decode, Some(bytes), Some(apiType))
                == JsTruthyString(JsProp(JsProp(json.fields["choices"].items[0], "message").value, "content"))
    ensures FamilyOf(apiType) == AnthropicFamily && json.JObject? && "content" in json.fields
            && json.fields["content"].JArray? && JNull !in json.fields["content"].items
            ==> AiContent(codec, decode, Some(bytes), Some(apiType))
                == Some(TextBlocks(json.fields["content"].items))
  {
  }

  /** Field paths are protocol-specific: a document without `choices` gives
      the OpenAI types nothing on the whole-document path, one without
      `content` gives Anthropic nothing, and a frame without `type` or
      `choices` gives nothing to the family that needs that member. */
  lemma ApiTypeIsolation(codec: Codec, json: Json, line: string)
    ensures Get(json, "choices").None? ==> WholeDocContent(json, OpenAiFamily).None?
    ensures Get(json, "content").None? ==> WholeDocContent(json, AnthropicFamily).None?
    ensures (DataFramePayload(codec, line).Some? ==> Get(DataFramePayload(codec, line).value, "choices").None?)
            ==> FrameDelta(codec, line, OpenAiFamily).None?
    ensures (DataFramePayload(codec, line).Some? ==> Get(DataFramePayload(codec, line).value, "type").None?)
            ==> FrameDelta(codec, line, AnthropicFamily).None?
  {
  }
}

/** The `data:` frames the log viewer renders say what the captured frames
    said (frontend/src/lib/utils.ts, `decodeBody`). */
module FrontendFrames {
  import opened Wrappers
  import opened Text
  import opened Json
  import opened FrontendUtils

  /** A string that JavaScript's `trim` leaves alone has no space at either
      end. */
  lemma JsTrimmedEnds(p: string)
    requires JsTrim(p) == p && |p| > 0
    ensures !IsJsSpace(p[0]) && !IsJsSpace(p[|p| - 1])
  {
    var start := TrimStart(p, IsJsSpace);
    assert |TrimEnd(start, IsJsSpace)| <= |start| <= |p|;
    assert start == p;
  }

  /** `DataFramePayload` read off its pieces: the trimmed line starts with
      `data:`, and the trimmed rest is `content`, which is not `[DONE]`. */
  lemma DataFramePayloadOfContent(codec: Codec, line: string, content: string)
    requires StartsWith(JsTrim(line), "data:") && JsTrim(JsTrim(line)[5..]) == content && content != "[DONE]"
    ensures DataFramePayload(codec, line) == codec.parseText(content)
  {
  }

  /** Trimming `data: ` + `p` for trimmed, non-empty `p` changes nothing. */
  lemma JsTrimOfFrame(p: string)
    requires JsTrim(p) == p && |p| > 0
    ensures JsTrim("data: " + p) == "data: " + p
  {
    JsTrimmedEnds(p);
    assert ("data: " + p)[0] == 'd';
    assert ("data: " + p)[|"data: " + p| - 1] == p[|p| - 1];
    TrimOfTrimmed("data: " + p, IsJsSpace);
  }

  /** Trimming a space followed by trimmed text gives the text. */
  lemma JsTrimOfSpaced(p: string)
    requires JsTrim(p) == p
    ensures JsTrim([' '] + p) == p
  {
    TrimStartCases(' ', p, IsJsSpace);
  }

  /** The frame `data: ` + `p` carries `v` when `p` is non-empty trimmed
      text that parses to `v` and `[DONE]` is not JSON. */
  lemma RenderedFramePayload(codec: Codec, p: string, v: Json)
    requires codec.parseText(p) == Some(v) && JsTrim(p) == p && |p| > 0
    requires codec.parseText("[DONE]").None?
    ensures DataFramePayload(codec, "data: " + p) == Some(v)
  {
    JsTrimOfFrame(p);
    JsTrimOfSpaced(p);
    assert ("data: " + p)[5..] == [' '] + p;
    DataFramePayloadOfContent(codec, "data: " + p, p);
  }

  /** Trimming `data: ` drops its space. */
  lemma JsTrimOfEmptyFrame()
    ensures JsTrim("data: ") == "data:"
  {
    TrimStartCases('d', "ata: ", IsJsSpace);
    TrimEndKeeps("data:", IsJsSpace);
    assert "data: "[..5] == "data:";
  }

  /** The frame `data: ` alone (an empty pretty print) carries what the
      empty text parses to. */
  lemma RenderedEmptyFramePayload(codec: Codec, v: Json)
    requires codec.parseText("") == Some(v)
    ensures DataFramePayload(codec, "data: ") == Some(v)
  {
    JsTrimOfEmptyFrame();
    assert "data:"[5..] == "";
    DataFramePayloadOfContent(codec, "data: ", "");
  }

  /** Re-rendering never changes what a line says: when the pretty printer's
      output parses back to the same value, has no space at either end, and
      the marker `[DONE]` is not JSON, the rewritten line carries exactly the
      frame (or non-frame) the original line carried. */
  lemma RewriteLineKeepsFrame(codec: Codec, line: string)
    requires forall v :: codec.parseText(codec.pretty(v)) == Some(v)
    requires forall v :: JsTrim(codec.pretty(v)) == codec.pretty(v)
    requires codec.parseText("[DONE]").None?
    ensures DataFramePayload(codec, RewriteLine(codec, line)) == DataFramePayload(codec, line)
  {
    if DataFramePayload(codec, line).Some? {
      var v := DataFramePayload(codec, line).value;
      var p := codec.pretty(v);
      assert RewriteLine(codec, line) == "data: " + p;
      assert codec.parseText(p) == Some(v) && JsTrim(p) == p;
      if |p| > 0 {
        RenderedFramePayload(codec, p, v);
      } else {
        assert "data: " + p == "data: ";
        RenderedEmptyFramePayload(codec, v);
      }
    }
  }
}
