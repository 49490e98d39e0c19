/** The HTML view of the conversation state in the chat interface
    (`format_state_display`) and the reply the chat shows (`chat_fn`).
    Rendering a dictionary as indented JSON (`json.dumps`) is a parameter. */
module StateDisplay {
  import opened Wrappers
  import opened Text
  import opened Json

  const PLACEHOLDER: string := "<div><strong>State Information</strong><br><br>No state data available.</div>"
  const OPEN: string := "<div style=\"display: flex; flex-direction: column; gap: 12px;\">"
  const HEADING: string := "<h3 style=\"margin: 0 0 10px 0;\">State Information</h3>"
  const CLOSE: string := "</div>"
  const KEY_STYLE: string := "font-weight: bold; color: #2563eb; margin-bottom: 4px;"
  const CONTAINER_STYLE: string := "max-height: 200px; overflow-y: auto; overflow-x: hidden; padding: 8px; background: #f3f4f6; border-radius: 4px; border: 1px solid #d1d5db; margin-bottom: 8px;"
  const VALUE_STYLE: string := "font-family: monospace; font-size: 0.9em; word-break: break-word; white-space: pre-wrap;"
  const PRE_STYLE: string := VALUE_STYLE + " margin: 0;"

  /** The entity that stands for a character in HTML text. */
  function Entity(c: char): (r: string)
    ensures '<' !in r && '>' !in r
    ensures c != '&' && c != '<' && c != '>' ==> r == [c]
  {
    if c == '&' then "&amp;" else if c == '<' then "&lt;" else if c == '>' then "&gt;" else [c]
  }

  /** HTML escaping, one character at a time. */
  function EscapeText(s: string): (r: string)
    ensures '<' !in r && '>' !in r
  {
    if s == [] then [] else Entity(s[0]) + EscapeText(s[1..])
  }

  /** The escaping as written: `&` first, then `<`, then `>`. */
  function Escape(s: string): string {
    ReplaceAll(ReplaceAll(ReplaceAll(s, "&", "&amp;"), "<", "&lt;"), ">", "&gt;")
  }

  /** Because `&` is replaced first, the three replacements together escape
      each character on its own: no entity is escaped twice. */
  lemma {:induction false} EscapeIsCharwise(s: string)
    ensures Escape(s) == EscapeText(s)
  {
    ReplaceOneChar(s, '&', "&amp;");
    ReplaceOneChar(MapChar(s, '&', "&amp;"), '<', "&lt;");
    ReplaceOneChar(MapChar(MapChar(s, '&', "&amp;"), '<', "&lt;"), '>', "&gt;");
    MapChainCharwise(s);
  }

  lemma {:induction false} MapChainCharwise(s: string)
    ensures MapChar(MapChar(MapChar(s, '&', "&amp;"), '<', "&lt;"), '>', "&gt;") == EscapeText(s)
  {
    if s != [] {
      var c := s[0];
      var a := if c == '&' then "&amp;" else [c];
      var rest := s[1..];
      assert MapChar(s, '&', "&amp;") == a + MapChar(rest, '&', "&amp;");
      MapCharAppend(a, MapChar(rest, '&', "&amp;"), '<', "&lt;");
      var b := MapChar(a, '<', "&lt;");
      assert b == if c == '<' then "&lt;" else a;
      MapCharAppend(b, MapChar(MapChar(rest, '&', "&amp;"), '<', "&lt;"), '>', "&gt;");
      assert MapChar(b, '>', "&gt;") == Entity(c);
      MapChainCharwise(rest);
    }
  }

  /** Reading entities back: `&amp;`, `&lt;` and `&gt;` become the characters
      they stand for; everything else is kept. */
  function Unescape(t: string): string
    decreases |t|
  {
    if t == [] then []
    else if |t| >= 5 && t[..5] == "&amp;" then "&" + Unescape(t[5..])
    else if |t| >= 4 && t[..4] == "&lt;" then "<" + Unescape(t[4..])
    else if |t| >= 4 && t[..4] == "&gt;" then ">" + Unescape(t[4..])
    else [t[0]] + Unescape(t[1..])
  }

  /** Escaping loses nothing: unescaping gives the text back. */
  lemma {:induction false} UnescapeEscape(s: string)
    ensures Unescape(Escape(s)) == s
  {
    EscapeIsCharwise(s);
    UnescapeCharwise(s);
  }

  lemma {:induction false} UnescapeCharwise(s: string)
    ensures Unescape(EscapeText(s)) == s
  {
    if s != [] {
      assert EscapeText(s) == Entity(s[0]) + EscapeText(s[1..]);
      UnescapeEntity(s[0], EscapeText(s[1..]));
      UnescapeCharwise(s[1..]);
      assert s == [s[0]] + s[1..];
    }
  }

  /** Unescaping reads one escaped character back. */
  lemma UnescapeEntity(c: char, rest: string)
    ensures Unescape(Entity(c) + rest) == [c] + Unescape(rest)
  {
    var t := Entity(c) + rest;
    if c == '&' {
      assert t[..5] == "&amp;" && t[5..] == rest;
    } else if c == '<' {
      assert |t| >= 5 ==> t[..5] != "&amp;" by { assert t[1] == 'l'; }
      assert t[..4] == "&lt;" && t[4..] == rest;
    } else if c == '>' {
      assert |t| >= 5 ==> t[..5] != "&amp;" by { assert t[1] == 'g'; }
      assert t[..4] != "&lt;" by { assert t[1] == 'g'; }
      assert t[..4] == "&gt;" && t[4..] == rest;
    } else {
      assert t[0] == c && t[1..] == rest;
      assert |t| >= 5 ==> t[..5] != "&amp;" by { assert t[0] != '&'; }
      assert |t| >= 4 ==> t[..4] != "&lt;" && t[..4] != "&gt;" by { assert t[0] != '&'; }
    }
  }

  /** A key and its content in the block markup of one entry. */
  function Block(key: string, content: string): string {
    "<div><div style=\"" + KEY_STYLE + "\">" + key + "</div><div style=\"" + CONTAINER_STYLE + "\">" + content + "</div></div>"
  }

  function Span(text: string): string {
    "<span style=\"" + VALUE_STYLE + "\">" + text + "</span>"
  }

  /** What shows the value of an entry: `None` for a null, the JSON rendering
      of an object, unescaped, and otherwise the escaped text of the value. */
  function Content(value: Json, dumps: Json -> string): (r: string)
    ensures value.JNull? ==> r == Span("None")
    ensures value.JObj? ==> r == "<pre style=\"" + PRE_STYLE + "\">" + dumps(value) + "</pre>"
    ensures !value.JNull? && !value.JObj? ==> r == Span(Escape(Show(value))) && Unescape(Escape(Show(value))) == Show(value)
  {
    if value.JNull? then Span("None")
    else if value.JObj? then "<pre style=\"" + PRE_STYLE + "\">" + dumps(value) + "</pre>"
    else
      UnescapeEscape(Show(value));
      Span(Escape(Show(value)))
  }

  /** The text shown for a scalar holds no markup of its own. */
  lemma ScalarHasNoMarkup(value: Json)
    ensures '<' !in Escape(Show(value)) && '>' !in Escape(Show(value))
  {
    EscapeIsCharwise(Show(value));
  }

  /** One block per entry, in the state's order; keys are not escaped. */
  function Blocks(fields: seq<(string, Json)>, dumps: Json -> string): (r: seq<string>)
    ensures |r| == |fields|
    ensures forall i :: 0 <= i < |fields| ==> r[i] == Block(fields[i].0, Content(fields[i].1, dumps))
  {
    if fields == [] then [] else [Block(fields[0].0, Content(fields[0].1, dumps))] + Blocks(fields[1..], dumps)
  }

  /** `format_state_display(state)`: a placeholder for a missing or empty
      state, otherwise the blocks inside one outer container. */
  function FormatStateDisplay(state: Json, dumps: Json -> string): (r: string)
    requires state.JNull? || state.JObj?
    ensures !Truthy(state) ==> r == PLACEHOLDER
    ensures Truthy(state) ==> r == OPEN + HEADING + Concat(Blocks(state.fields, dumps)) + CLOSE
  {
    if !Truthy(state) then PLACEHOLDER
    else OPEN + HEADING + Concat(Blocks(state.fields, dumps)) + CLOSE
  }

  /** `chat_fn`: the reply is the run's `output`, or "" when that is absent or
      false; the state view renders the whole result. */
  function ChatReply(result: Json, dumps: Json -> string): (r: (Json, string))
    requires result.JObj?
    ensures Truthy(Get(result, "output")) ==> r.0 == Get(result, "output")
    ensures !Truthy(Get(result, "output")) ==> r.0 == JStr("")
    ensures r.1 == FormatStateDisplay(result, dumps)
  {
    var output := Get(result, "output");
    (if Truthy(output) then output else JStr(""), FormatStateDisplay(result, dumps))
  }
}
