/** Clean-up of language-model output before it is parsed as JSON. The same
    idiom appears wherever the assistant reads a model reply: strip the reply;
    if it contains a Markdown code fence, keep the text after the first fence
    (up to the next one), delete every "json" in it and strip again. */
module Fence {
  import opened Wrappers
  import opened Text
  import opened Json

  const FENCE: string := "```"
  const TAG: string := "json"

  /** The text between the first fence of `s` and the next one (or the end). */
  function AfterFirstFence(s: string): (seg: string)
    requires Contains(s, FENCE)
  {
    var i := IndexOf(s, FENCE).value;
    var rest := s[i + 3..];
    match IndexOf(rest, FENCE)
    case None => rest
    case Some(j) => rest[..j]
  }

  /** `resp.strip()`, then `resp.split("```")[1].replace("json", "").strip()`
      when a fence is present. */
  function StripFence(raw: string): string {
    var s := Strip(raw);
    if Contains(s, FENCE) then Strip(ReplaceAll(AfterFirstFence(s), TAG, "")) else s
  }

  /** A text with a fence splits into a fence-free head, the first fence,
      the fence-free segment `AfterFirstFence` keeps, and a tail that is empty
      or starts with the next fence. */
  lemma FenceSegment(s: string) returns (pre: string, post: string)
    requires Contains(s, FENCE)
    ensures s == pre + FENCE + AfterFirstFence(s) + post
    ensures !Contains(pre, FENCE) && !Contains(AfterFirstFence(s), FENCE)
    ensures post == [] || (|post| >= 3 && post[..3] == FENCE)
  {
    var i := IndexOf(s, FENCE).value;
    var rest := s[i + 3..];
    var seg := AfterFirstFence(s);
    pre := s[..i];
    post := rest[|seg|..];
    NoFenceBefore(s, i);
    SegmentShape(rest);
    Reassemble(s, i, seg, post);
  }

  lemma Reassemble(s: string, i: nat, seg: string, post: string)
    requires i + 3 <= |s| && s[i..i + 3] == FENCE
    requires s[i + 3..] == seg + post
    ensures s == s[..i] + FENCE + seg + post
  {
    assert s == s[..i] + s[i..i + 3] + s[i + 3..];
  }

  /** No fence lies in the text before the first one. */
  lemma NoFenceBefore(s: string, i: nat)
    requires i <= |s|
    requires forall k :: 0 <= k < i ==> !OccursAt(s, FENCE, k)
    ensures !Contains(s[..i], FENCE)
  {
    if Contains(s[..i], FENCE) {
      var k := IndexOf(s[..i], FENCE).value;
      assert s[k..k + 3] == s[..i][k..k + 3];
      assert OccursAt(s, FENCE, k);
    }
  }

  lemma SegmentShape(rest: string)
    ensures var seg := match IndexOf(rest, FENCE) case None => rest case Some(j) => rest[..j];
      && |seg| <= |rest| && rest == seg + rest[|seg|..]
      && !Contains(seg, FENCE)
      && (rest[|seg|..] == [] || (|rest[|seg|..]| >= 3 && rest[|seg|..][..3] == FENCE))
  {
    match IndexOf(rest, FENCE)
    case None =>
    case Some(j) =>
      NoFenceBefore(rest, j);
      assert rest[j..][..3] == rest[j..j + 3];
  }

  /** What the assistant does with a model reply: a failed call or text that
      does not decode gives `None`; otherwise the decoded value. */
  function Interpret(reply: Reply, decode: Decoder): Option<Json> {
    match reply
    case Unavailable => None
    case Answered(text) => decode(StripFence(text))
  }

  /** The reply, decoded, when it is a JSON object: the callers use `.get` on
      the decoded value, so any other value fails like a parse error does. */
  function InterpretObject(reply: Reply, decode: Decoder): (r: Option<Json>)
    ensures r.Some? ==> r.value.JObj? && Interpret(reply, decode) == r
    ensures r.None? ==> Interpret(reply, decode).None? || !Interpret(reply, decode).value.JObj?
  {
    match Interpret(reply, decode)
    case Some(v) => if v.JObj? then Some(v) else None
    case None => None
  }

  /** The usual fenced reply: "```json", a newline, the payload, a newline and
      a closing fence. */
  function Fenced(body: string): string {
    FENCE + TAG + "\n" + body + "\n" + FENCE
  }

  lemma StripNoSpaceEnds(s: string)
    requires s != [] && !IsSpace(s[0]) && !IsSpace(s[|s| - 1])
    ensures Strip(s) == s
  {
  }

  lemma NoTagAround(body: string)
    requires !Contains(body, TAG)
    ensures !Contains("\n" + body + "\n", TAG)
  {
    var t := "\n" + body + "\n";
    if Contains(t, TAG) {
      var i := IndexOf(t, TAG).value;
      OccursAtChars(t, TAG, i);
      assert t[0] == '\n' && t[|t| - 1] == '\n';
      assert TAG[0] == 'j' && TAG[3] == 'n';
      assert t[i] == 'j' && t[i + 3] == 'n';
      assert 1 <= i && i + 4 <= |t| - 1;
      TagInBody(body, i - 1);
    }
  }

  /** A "json" inside the padded text lies inside the body. */
  lemma TagInBody(body: string, k: nat)
    requires k + 4 <= |body|
    requires ("\n" + body + "\n")[k + 1..k + 5] == TAG
    ensures Contains(body, TAG)
  {
    assert ("\n" + body + "\n")[k + 1..k + 5] == body[k..k + 4];
    IndexOfAtMost(body, TAG, k);
  }

  /** In a fenced payload without backticks, the first fence opens the text
      and the next one is the closing fence. */
  lemma FencedPositions(body: string)
    requires '`' !in body
    ensures IndexOf(Fenced(body), FENCE) == Some(0)
    ensures var rest := Fenced(body)[3..];
      IndexOf(rest, FENCE) == Some(|rest| - 3)
  {
    var raw := Fenced(body);
    assert raw[..3] == FENCE;
    IndexOfAtMost(raw, FENCE, 0);
    ClosingFence(body);
    assert raw[3..] == TAG + "\n" + body + "\n" + FENCE;
  }

  lemma ClosingFence(body: string)
    requires '`' !in body
    ensures var rest := TAG + "\n" + body + "\n" + FENCE;
      IndexOf(rest, FENCE) == Some(|rest| - 3)
  {
    var head := TAG + "\n" + body + "\n";
    assert '`' !in head;
    FirstOccurrenceAfter(head, FENCE);
  }

  lemma FirstCharAt(s: string, pattern: string, k: nat)
    requires pattern != [] && OccursAt(s, pattern, k)
    ensures k < |s| && s[k] == pattern[0]
  {
    assert s[k..k + |pattern|][0] == s[k];
  }

  /** A pattern starting with a character absent from `head` is first found
      right after `head`. */
  lemma FirstOccurrenceAfter(head: string, pattern: string)
    requires pattern != [] && pattern[0] !in head
    ensures IndexOf(head + pattern, pattern) == Some(|head|)
  {
    var s := head + pattern;
    assert OccursAt(s, pattern, |head|) by {
      assert s[|head|..|head| + |pattern|] == pattern;
    }
    IndexOfAtMost(s, pattern, |head|);
    var k := IndexOf(s, pattern).value;
    FirstCharAt(s, pattern, k);
    HeadLacksFirst(head, pattern);
  }

  lemma HeadLacksFirst(head: string, pattern: string)
    requires pattern != [] && pattern[0] !in head
    ensures forall i :: 0 <= i < |head| ==> (head + pattern)[i] != pattern[0]
  {
    forall i | 0 <= i < |head| ensures (head + pattern)[i] != pattern[0] {
      assert (head + pattern)[i] == head[i];
    }
  }

  lemma FencedSegmentText(body: string)
    requires '`' !in body
    ensures Contains(Fenced(body), FENCE)
    ensures AfterFirstFence(Fenced(body)) == TAG + ("\n" + body + "\n")
  {
    var raw := Fenced(body);
    var seg := TAG + ("\n" + body + "\n");
    assert raw == FENCE + (seg + FENCE);
    assert raw[3..] == seg + FENCE;
    FencedPositions(body);
    assert (seg + FENCE)[..|seg|] == seg;
  }

  /** Removing the tag that opens the segment. */
  lemma DropLeadingTag(tail: string)
    requires !Contains(tail, TAG)
    ensures ReplaceAll(TAG + tail, TAG, "") == tail
  {
    var seg := TAG + tail;
    assert seg[..4] == TAG && seg[4..] == tail;
  }

  /** A payload wrapped in the usual fence comes back exactly, provided it
      has no backtick, no "json" inside and no surrounding whitespace. */
  lemma {:induction false} FencedRoundTrip(body: string)
    requires '`' !in body
    requires !Contains(body, TAG)
    requires body != [] ==> !IsSpace(body[0]) && !IsSpace(body[|body| - 1])
    ensures StripFence(Fenced(body)) == body
  {
    var tail := "\n" + body + "\n";
    FencedStripFence(body);
    NoTagAround(body);
    DropLeadingTag(tail);
    StripOfPadded(body);
  }

  /** On a fenced payload, `StripFence` deletes the tags from the tag line and
      the payload and strips the result. */
  lemma FencedStripFence(body: string)
    requires '`' !in body
    ensures StripFence(Fenced(body)) == Strip(ReplaceAll(TAG + ("\n" + body + "\n"), TAG, ""))
  {
    var raw := Fenced(body);
    assert Contains(raw, FENCE) && StripFence(raw) == Strip(ReplaceAll(AfterFirstFence(raw), TAG, "")) by {
      assert raw[0] == '`' && raw[|raw| - 1] == '`';
      StripNoSpaceEnds(raw);
      FencedSegmentText(body);
    }
    FencedSegmentText(body);
  }

  lemma StripOfPadded(body: string)
    requires body != [] ==> !IsSpace(body[0]) && !IsSpace(body[|body| - 1])
    ensures Strip("\n" + body + "\n") == body
  {
    StripPadded("\n", body, "\n");
  }

  /** The tag is removed from the payload too: a fenced reply whose payload
      is the word "json" comes back empty. */
  lemma TagRemovedFromPayload()
    ensures StripFence(Fenced(TAG)) == ""
  {
    FencedStripFence(TAG);
    TagLineRemoved();
    BlankLinesStripped();
  }

  lemma BlankLinesStripped()
    ensures Strip("\n\n") == ""
  {
    StripPadded("\n\n", "", "");
    assert "\n\n" + "" + "" == "\n\n";
  }

  lemma TagLineRemoved()
    ensures ReplaceAll(TAG + ("\n" + TAG + "\n"), TAG, "") == "\n\n"
  {
    var tail := "\n" + TAG + "\n";
    assert ReplaceAll("\n", TAG, "") == "\n";
    assert ReplaceAll(TAG + "\n", TAG, "") == "\n" by {
      assert (TAG + "\n")[..4] == TAG;
      assert (TAG + "\n")[4..] == "\n";
    }
    assert ReplaceAll(tail, TAG, "") == "\n\n" by {
      assert tail[1..] == TAG + "\n";
    }
    var seg := TAG + tail;
    assert seg[..4] == TAG && seg[4..] == tail;
  }
}
