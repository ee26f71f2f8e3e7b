/**
 * The chat page (pages/ChatPage.tsx): splitting a model reply on
 * `[Source: ...]` markers for display, and the send handler that gates,
 * charges, streams and reports failure.
 */
module ChatPage {
  import opened Types
  import opened Strings
  import opened GeminiService
  import opened AppContext

  // --------------------------------------------------------- segmentation

  const SourceOpen: string := "[Source: "

  /**
   * A whole match of `/\[Source: [^\]]+\]/`: the opening `[Source: `, one or
   * more units other than `]`, and the closing `]`.
   */
  predicate IsMarker(t: string)
  {
    && |t| >= |SourceOpen| + 2
    && t[..|SourceOpen|] == SourceOpen
    && t[|t| - 1] == ']'
    && forall k :: |SourceOpen| <= k < |t| - 1 ==> t[k] != ']'
  }

  /** What stands between `[Source: ` and `]` in a marker. */
  function Payload(t: string): (p: string)
    requires IsMarker(t)
    ensures t == SourceOpen + p + "]"
    ensures |p| > 0 && forall k :: 0 <= k < |p| ==> p[k] != ']'
  {
    assert t == t[..|SourceOpen|] + t[|SourceOpen|..|t| - 1] + [t[|t| - 1]];
    t[|SourceOpen|..|t| - 1]
  }

  /** `]` occurs at k exactly when the unit at k is `]`. */
  lemma BracketAt(s: string, k: nat)
    requires k < |s|
    ensures OccursAt(s, "]", k) <==> s[k] == ']'
  {
    assert s[k..k + 1] == [s[k]];
  }

  /**
   * The regex tried at exactly position q: after the opening, the greedy
   * `[^\]]+` runs to the first `]`, which must not come straight after the opening.
   */
  function MarkerEnd(s: string, q: nat): (r: Option<nat>)
    ensures r.Some? ==> q < r.value <= |s| && IsMarker(s[q..r.value])
  {
    if OccursAt(s, SourceOpen, q) then
      match IndexOfFrom(s, "]", q + |SourceOpen|)
      case Some(j) =>
        if j > q + |SourceOpen| then
          BracketAt(s, j);
          forall k | q + |SourceOpen| <= k < j ensures s[k] != ']' {
            BracketAt(s, k);
          }
          Some(j + 1)
        else None
      case None => None
    else None
  }

  /** Every marker starting at q is the one MarkerEnd finds: matches end at the first `]`. */
  lemma MarkerEndExact(s: string, q: nat, e: nat)
    requires q <= e <= |s| && IsMarker(s[q..e])
    ensures MarkerEnd(s, q) == Some(e)
  {
    var t := s[q..e];
    assert s[q..q + |SourceOpen|] == t[..|SourceOpen|];
    assert OccursAt(s, SourceOpen, q);
    var from := q + |SourceOpen|;
    BracketAt(s, e - 1);
    var r := IndexOfFrom(s, "]", from);
    assert r.Some?;
    var j := r.value;
    if j < e - 1 {
      assert t[j - q] == s[j];
      BracketAt(s, j);
      assert false;
    }
    assert j == e - 1;
  }

  /** A span of the text: `[start, end)`. */
  datatype Span = Span(start: nat, end: nat)

  /** The regex matches at no position in `[a, b)`. */
  predicate NoMatchIn(s: string, a: nat, b: nat)
  {
    forall k :: a <= k < b ==> MarkerEnd(s, k).None?
  }

  /** The leftmost marker at or after `from`. */
  function FindMarker(s: string, from: nat): (r: Option<Span>)
    requires from <= |s|
    ensures r.Some? ==> from <= r.value.start < r.value.end <= |s|
    ensures r.Some? ==> MarkerEnd(s, r.value.start) == Some(r.value.end)
    ensures r.Some? ==> NoMatchIn(s, from, r.value.start)
    ensures r.None? ==> NoMatchIn(s, from, |s| + 1)
    decreases |s| - from
  {
    match MarkerEnd(s, from)
    case Some(e) => Some(Span(from, e))
    case None => if from == |s| then None else FindMarker(s, from + 1)
  }

  lemma SplitStep(s: string, p: nat, a: nat, b: nat, rest: seq<string>)
    requires p <= a <= b <= |s|
    requires Concat(rest) == s[b..]
    ensures Concat([s[p..a], s[a..b]] + rest) == s[p..]
  {
    ConcatPair(s[p..a], s[a..b], rest);
    assert s[p..] == s[p..a] + s[a..b] + s[b..];
  }

  /**
   * `text.split(/(\[Source: [^\]]+\])/g)` from position p: the text before the
   * leftmost marker, the marker itself (the captured group), then the rest split
   * the same way; the text after the last marker closes the list, even when empty.
   */
  function SplitFrom(s: string, p: nat): (parts: seq<string>)
    requires p <= |s|
    ensures Concat(parts) == s[p..]
    decreases |s| - p
  {
    match FindMarker(s, p)
    case None =>
      assert Concat([s[p..]]) == s[p..] + Concat([]);
      [s[p..]]
    case Some(m) =>
      var rest := SplitFrom(s, m.end);
      SplitStep(s, p, m.start, m.end, rest);
      [s[p..m.start], s[m.start..m.end]] + rest
  }

  function SplitOnSources(text: string): seq<string>
  {
    SplitFrom(text, 0)
  }

  /** No marker anywhere inside t. */
  predicate MarkerFree(t: string)
  {
    forall q, e :: 0 <= q <= e <= |t| ==> !IsMarker(t[q..e])
  }

  /** A stretch where the regex matches at no position holds no marker. */
  lemma NoMatchNoMarker(s: string, a: nat, b: nat)
    requires a <= b <= |s|
    requires NoMatchIn(s, a, b)
    ensures MarkerFree(s[a..b])
  {
    forall q, e | 0 <= q <= e <= b - a
      ensures !IsMarker(s[a..b][q..e])
    {
      var t := s[a..b];
      if IsMarker(t[q..e]) {
        assert forall i :: 0 <= i < e - q ==> t[q..e][i] == s[a + q..a + e][i];
        assert t[q..e] == s[a + q..a + e];
        MarkerEndExact(s, a + q, a + e);
        assert false;
      }
    }
  }

  /** Odd parts are markers and even parts are marker-free. */
  predicate Alternates(parts: seq<string>)
  {
    forall i :: 0 <= i < |parts| ==> if i % 2 == 1 then IsMarker(parts[i]) else MarkerFree(parts[i])
  }

  lemma AlternatesCons(x: string, y: string, rest: seq<string>)
    requires MarkerFree(x) && IsMarker(y) && Alternates(rest)
    ensures Alternates([x, y] + rest)
  {
    var parts := [x, y] + rest;
    forall i | 2 <= i < |parts| ensures parts[i] == rest[i - 2] && (i % 2 == (i - 2) % 2) {
    }
  }

  lemma {:induction false} SplitFromOdd(s: string, p: nat)
    requires p <= |s|
    ensures |SplitFrom(s, p)| % 2 == 1
    decreases |s| - p
  {
    match FindMarker(s, p)
    case None =>
      assert |SplitFrom(s, p)| == 1;
    case Some(m) =>
      var rest := SplitFrom(s, m.end);
      assert SplitFrom(s, p) == [s[p..m.start], s[m.start..m.end]] + rest;
      SplitFromOdd(s, m.end);
      assert (|rest| + 2) % 2 == 1;
  }

  lemma {:induction false} SplitFromShape(s: string, p: nat)
    requires p <= |s|
    ensures Alternates(SplitFrom(s, p))
    decreases |s| - p
  {
    match FindMarker(s, p)
    case None =>
      NoMatchNoMarker(s, p, |s|);
      assert s[p..|s|] == s[p..];
      assert SplitFrom(s, p) == [s[p..]];
    case Some(m) =>
      NoMatchNoMarker(s, p, m.start);
      SplitFromShape(s, m.end);
      AlternatesCons(s[p..m.start], s[m.start..m.end], SplitFrom(s, m.end));
  }

  /**
   * No match starts inside a plain part: with the parts of `s[p..]` laid out from
   * offset p, the regex matches at no position of an even-indexed part.
   */
  predicate PlainPartsUnmatched(s: string, p: nat, parts: seq<string>)
  {
    forall i :: 0 <= i < |parts| && i % 2 == 0 ==>
      NoMatchIn(s, p + |Concat(parts[..i])|, p + |Concat(parts[..i])| + |parts[i]|)
  }

  /** Each marker the split takes is the leftmost one after the previous match. */
  lemma {:induction false} SplitFromLeftmost(s: string, p: nat)
    requires p <= |s|
    ensures PlainPartsUnmatched(s, p, SplitFrom(s, p))
    decreases |s| - p
  {
    var parts := SplitFrom(s, p);
    match FindMarker(s, p)
    case None =>
      assert parts == [s[p..]];
      assert parts[..0] == [];
    case Some(m) =>
      var x, y, rest := s[p..m.start], s[m.start..m.end], SplitFrom(s, m.end);
      assert parts == [x, y] + rest;
      SplitFromLeftmost(s, m.end);
      forall i | 0 <= i < |parts| && i % 2 == 0
        ensures NoMatchIn(s, p + |Concat(parts[..i])|, p + |Concat(parts[..i])| + |parts[i]|)
      {
        if i == 0 {
          assert parts[..0] == [];
        } else {
          assert parts[..i] == [x, y] + rest[..i - 2];
          ConcatPair(x, y, rest[..i - 2]);
          assert parts[i] == rest[i - 2];
          assert (i - 2) % 2 == 0;
        }
      }
  }

  /**
   * The split is lossless, alternates plain text and markers (odd positions are
   * exactly the matches), no plain part contains a marker, and no match starts
   * inside a plain part (each marker taken is the leftmost remaining one).
   */
  lemma SplitShape(text: string)
    ensures Concat(SplitOnSources(text)) == text
    ensures |SplitOnSources(text)| % 2 == 1
    ensures forall i :: 0 <= i < |SplitOnSources(text)| && i % 2 == 1 ==> IsMarker(SplitOnSources(text)[i])
    ensures forall i :: 0 <= i < |SplitOnSources(text)| && i % 2 == 0 ==> MarkerFree(SplitOnSources(text)[i])
    ensures PlainPartsUnmatched(text, 0, SplitOnSources(text))
  {
    SplitFromLeftmost(text, 0);
    SplitFromShape(text, 0);
    SplitFromOdd(text, 0);
    var parts := SplitOnSources(text);
    forall i | 0 <= i < |parts| && i % 2 == 1 ensures IsMarker(parts[i]) {
    }
    forall i | 0 <= i < |parts| && i % 2 == 0 ensures MarkerFree(parts[i]) {
    }
  }

  /** A part is shown as a citation chip when it starts with `[Source:` and ends with `]`. */
  predicate IsCitationPart(part: string)
  {
    StartsWith(part, "[Source:") && EndsWith(part, "]")
  }

  /** The chip's label: the first `[Source: ` and then the first `]` removed. */
  function CitationLabel(part: string): string
  {
    ReplaceFirst(ReplaceFirst(part, "[Source: ", ""), "]", "")
  }

  /** What one part renders as. */
  datatype Piece = Citation(caption: string) | Markdown(source: string) | Paragraph(text: string)

  function RenderPart(part: string): Piece
  {
    if IsCitationPart(part) then Citation(CitationLabel(part)) else Markdown(part)
  }

  /** `renderContent`: one piece per part of the split, in order. */
  function RenderContent(text: string): seq<Piece>
  {
    var parts := SplitOnSources(text);
    seq(|parts|, i requires 0 <= i < |parts| => RenderPart(parts[i]))
  }

  /** User messages are shown verbatim; model messages go through `renderContent`. */
  function RenderMessage(m: Message): (r: seq<Piece>)
    ensures |r| > 0
    ensures m.role == User ==> r == [Paragraph(m.text)]
    ensures m.role == Model ==> forall i :: 0 <= i < |r| ==> !r[i].Paragraph?
    ensures m.role == Model ==> r == RenderContent(m.text)
  {
    SplitFromOdd(m.text, 0);
    if m.role == User then [Paragraph(m.text)] else RenderContent(m.text)
  }

  /** Every marker is classified as a citation, and its label is exactly its payload. */
  lemma MarkerLabel(t: string)
    requires IsMarker(t)
    ensures IsCitationPart(t)
    ensures CitationLabel(t) == Payload(t)
  {
    var p := Payload(t);
    assert t[..8] == "[Source:";
    assert OccursAt(t, "[Source: ", 0);
    ReplaceFirstAt(t, "[Source: ", "", 0);
    var u := ReplaceFirst(t, "[Source: ", "");
    assert t[..0] + "" + t[9..] == t[9..];
    assert u == p + "]";
    forall k | 0 <= k < |p| ensures !OccursAt(u, "]", k) {
      BracketAt(u, k);
    }
    BracketAt(u, |p|);
    ReplaceFirstAt(u, "]", "", |p|);
    assert u[..|p|] + "" + u[|p| + 1..] == p;
  }

  /** The rendered citations are the markers' payloads, at the odd positions of the split. */
  lemma RenderedCitations(text: string)
    ensures |RenderContent(text)| == |SplitOnSources(text)|
    ensures forall i :: 0 <= i < |SplitOnSources(text)| && i % 2 == 1 ==>
      IsMarker(SplitOnSources(text)[i]) && RenderContent(text)[i] == Citation(Payload(SplitOnSources(text)[i]))
    ensures forall i :: 0 <= i < |SplitOnSources(text)| && !IsCitationPart(SplitOnSources(text)[i]) ==>
      RenderContent(text)[i] == Markdown(SplitOnSources(text)[i])
    ensures forall i :: 0 <= i < |SplitOnSources(text)| && IsCitationPart(SplitOnSources(text)[i]) ==>
      RenderContent(text)[i] == Citation(CitationLabel(SplitOnSources(text)[i]))
  {
    var parts := SplitOnSources(text);
    SplitShape(text);
    forall i | 0 <= i < |parts| && i % 2 == 1
      ensures RenderContent(text)[i] == Citation(Payload(parts[i]))
    {
      MarkerLabel(parts[i]);
    }
  }

  /** A text without any `[Source: ` opening is one plain part. */
  lemma NoOpeningOnePart(text: string)
    requires forall k :: 0 <= k <= |text| ==> !OccursAt(text, SourceOpen, k)
    ensures SplitOnSources(text) == [text]
  {
    assert FindMarker(text, 0).None?;
    assert text[0..] == text;
  }

  /**
   * Classification does not look at the regex: `[Source:x]` (no space) is not a
   * match, yet it is shown as a chip labelled `[Source:x`.
   */
  lemma LookalikeShownAsCitation()
    ensures RenderContent("[Source:x]") == [Citation("[Source:x")]
  {
    var t := "[Source:x]";
    forall k | 0 <= k <= |t| ensures !OccursAt(t, SourceOpen, k) {
      if k <= 1 {
        assert t[k + 8] != SourceOpen[8];
      }
    }
    NoOpeningOnePart(t);
    assert IndexOf(t, "[Source: ").None?;
    forall k | 0 <= k < 9 ensures !OccursAt(t, "]", k) {
      BracketAt(t, k);
    }
    BracketAt(t, 9);
    assert IndexOf(t, "]") == Some(9);
    assert CitationLabel(t) == "[Source:x";
    assert t[..8] == "[Source:";
  }

  // ------------------------------------------------------------ sending

  const ErrorReply: string :=
    "I encountered an error processing your request. Please check your API key or try again."

  /** What an accepted send captured: the prompt and the pre-send messages and documents. */
  datatype PendingSend = PendingSend(userText: string, history: seq<Message>, documents: seq<Document>)

  /** How the gate at the top of `handleSend` decided. */
  datatype SendGate = Ignored | OverBudget | Accepted(pending: PendingSend)

  function FeedFor(p: PendingSend, model: ModelRequest -> ModelFeed): ModelFeed
  {
    model(BuildRequest(p.history, p.userText, p.documents))
  }

  /** The placeholder's final text: the streamed total, or the error reply when the call threw. */
  function ReplyText(feed: ModelFeed): string
  {
    if feed.fails then ErrorReply else Concat(Delivered(feed.chunkTexts))
  }

  /** Usage after a completed stream: the pre-send snapshot's last message is charged again. */
  function AfterResponse(u: UsageStats, history: seq<Message>): (r: UsageStats)
    ensures r.budget == u.budget
    ensures var cost := if |history| > 0 then EstimateTokens(history[|history| - 1].text) else 0;
      r.daily == u.daily + cost && r.monthly == u.monthly + cost && r.yearly == u.yearly + cost
  {
    if |history| > 0 then Charge(u, EstimateTokens(history[|history| - 1].text)) else u
  }

  /** Appending after a model placeholder and then overwriting it only changes the placeholder. */
  lemma OverwritePlaceholder(msgs: seq<Message>, m: Message, text: string)
    requires m.role == Model
    ensures WithLastText(msgs + [m], text) == msgs + [m.(text := text, isStreaming := Some(true))]
  {
    assert (msgs + [m])[..|msgs|] == msgs;
  }

  /** The chat page's own state, over the shared store. */
  class ChatView {
    const store: AppStore
    var input: string
    var isGenerating: bool

    constructor (store: AppStore)
      ensures this.store == store && input == "" && !isGenerating
    {
      this.store := store;
      input := "";
      isGenerating := false;
    }

    /**
     * `handleSend` up to the streaming call: a blank input or a request in
     * flight is a no-op; a spent budget is rejected with nothing changed;
     * otherwise the input is consumed, the user message and an empty model
     * placeholder are appended, the request cost is charged and the page is
     * marked busy.
     */
    method BeginSend(userId: string, modelId: string, userTime: int, modelTime: int) returns (gate: SendGate)
      modifies this, store`messages, store`usage
      ensures old(IsBlank(input) || isGenerating) ==> gate == Ignored
      ensures !old(IsBlank(input) || isGenerating) && old(IsOverBudget(store.usage)) ==> gate == OverBudget
      ensures !gate.Accepted? ==>
        input == old(input) && isGenerating == old(isGenerating) &&
        store.messages == old(store.messages) && store.usage == old(store.usage)
      ensures !old(IsBlank(input) || isGenerating || IsOverBudget(store.usage)) ==>
        && gate == Accepted(PendingSend(old(input), old(store.messages), old(store.documents)))
        && input == "" && isGenerating
        && store.messages == old(store.messages) +
             [NewMessage(userId, User, old(input), userTime), NewMessage(modelId, Model, "", modelTime)]
        && store.usage == Charge(old(store.usage), EstimateTokens(old(input)))
    {
      if IsBlank(input) || isGenerating {
        return Ignored;
      }
      if IsOverBudget(store.usage) {
        return OverBudget;
      }
      var userText := input;
      gate := Accepted(PendingSend(userText, store.messages, store.documents));
      input := "";
      store.AddMessage(userText, User, userId, userTime);
      store.AddMessage("", Model, modelId, modelTime);
      isGenerating := true;
      var requestTokens := EstimateTokens(userText);
      store.UpdateUsage(requestTokens);
    }

    /** The `onChunk` callbacks in order: each running total overwrites the last model message. */
    method ShowRunningTotals(emitted: seq<string>)
      modifies store`messages
      ensures store.messages == if emitted == [] then old(store.messages) else WithLastText(old(store.messages), emitted[|emitted| - 1])
      ensures store.usage == old(store.usage)
    {
      var j := 0;
      while j < |emitted|
        invariant 0 <= j <= |emitted|
        invariant store.messages == if j == 0 then old(store.messages) else WithLastText(old(store.messages), emitted[j - 1])
        invariant store.usage == old(store.usage)
      {
        store.UpdateLastMessage(emitted[j]);
        if j > 0 {
          OverwriteTwice(old(store.messages), emitted[j - 1], emitted[j]);
        }
        j := j + 1;
      }
    }

    /**
     * `handleSend` from the streaming call on: every running total overwrites
     * the last model message; on success the stale snapshot's last message is
     * charged, on failure the last model message shows the error reply and the
     * request charge stays. The page is idle afterwards in both cases.
     */
    method FinishSend(pending: PendingSend, model: ModelRequest -> ModelFeed)
      modifies this, store`messages, store`usage
      ensures !isGenerating && input == old(input)
      ensures var feed := FeedFor(pending, model);
        var texts := Delivered(feed.chunkTexts);
        if feed.fails then
          store.messages == WithLastText(old(store.messages), ErrorReply) && store.usage == old(store.usage)
        else
          && store.messages == (if texts == [] then old(store.messages) else WithLastText(old(store.messages), Concat(texts)))
          && store.usage == AfterResponse(old(store.usage), pending.history)
    {
      ghost var feed := FeedFor(pending, model);
      ghost var texts := Delivered(feed.chunkTexts);
      var emitted, outcome := StreamGeminiResponse(pending.history, pending.userText, pending.documents, model);
      ShowRunningTotals(emitted);
      if |emitted| > 0 {
        LastEmissionIsFullText(texts);
      }
      match outcome {
        case Completed(_) =>
          if |pending.history| > 0 {
            var lastMsg := pending.history[|pending.history| - 1];
            store.UpdateUsage(EstimateTokens(lastMsg.text));
          }
        case Failed =>
          store.UpdateLastMessage(ErrorReply);
          if |emitted| > 0 {
            OverwriteTwice(old(store.messages), emitted[|emitted| - 1], ErrorReply);
          }
      }
      isGenerating := false;
    }

    /**
     * The whole `handleSend`, with no other handler between its steps. An
     * accepted send ends with the two new messages, the placeholder holding the
     * reply text (still flagged streaming), and the charges described above.
     */
    method HandleSend(userId: string, modelId: string, userTime: int, modelTime: int, model: ModelRequest -> ModelFeed)
      returns (gate: SendGate)
      modifies this, store`messages, store`usage
      ensures !gate.Accepted? ==>
        input == old(input) && isGenerating == old(isGenerating) &&
        store.messages == old(store.messages) && store.usage == old(store.usage)
      ensures gate.Accepted? <==> !old(IsBlank(input) || isGenerating || IsOverBudget(store.usage))
      ensures gate.Accepted? ==>
        var feed := model(BuildRequest(old(store.messages), old(input), old(store.documents)));
        var charged := Charge(old(store.usage), EstimateTokens(old(input)));
        && input == "" && !isGenerating
        && store.messages == old(store.messages) +
             [NewMessage(userId, User, old(input), userTime),
              Message(modelId, Model, ReplyText(feed), modelTime, Some(true))]
        && store.usage == (if feed.fails then charged else AfterResponse(charged, old(store.messages)))
    {
      ghost var m0 := store.messages;
      gate := BeginSend(userId, modelId, userTime, modelTime);
      if gate.Accepted? {
        ghost var m1 := store.messages;
        ghost var placeholder := NewMessage(modelId, Model, "", modelTime);
        assert m1 == (m0 + [NewMessage(userId, User, gate.pending.userText, userTime)]) + [placeholder];
        ghost var feed := FeedFor(gate.pending, model);
        FinishSend(gate.pending, model);
        OverwritePlaceholder(m0 + [NewMessage(userId, User, gate.pending.userText, userTime)], placeholder, ReplyText(feed));
        if !feed.fails && Delivered(feed.chunkTexts) == [] {
          assert placeholder.(text := ReplyText(feed), isStreaming := Some(true)) == placeholder;
        }
      }
    }
  }
}
