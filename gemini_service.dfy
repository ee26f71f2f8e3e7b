/**
 * Prompt construction and response streaming (services/geminiService.ts):
 * the token estimate, the fixed-size pager, the document context string
 * and the loop that accumulates streamed text.
 */
module GeminiService {
  import opened Types
  import opened Strings
  import opened Collections

  /** Page size shared by the prompt context and the on-screen document view. */
  const CharsPerPage: nat := 2000

  /** Rough token cost of a text: one token per four characters, rounded up. */
  function EstimateTokens(text: string): (r: nat)
    ensures |text| <= 4 * r < |text| + 4
  {
    (|text| + 3) / 4
  }

  lemma EstimateTokensEmpty()
    ensures EstimateTokens("") == 0
  {
  }

  /** A longer text never costs fewer tokens. */
  lemma EstimateTokensMonotone(a: string, b: string)
    requires |a| <= |b|
    ensures EstimateTokens(a) <= EstimateTokens(b)
  {
  }

  // ---------------------------------------------------------------- pages

  /** Number of pages of a text of the given length: `ceil(length / CharsPerPage)`. */
  function PageCount(length: nat): (n: nat)
    ensures (n - 1) * CharsPerPage < length <= n * CharsPerPage
  {
    (length + CharsPerPage - 1) / CharsPerPage
  }

  /**
   * The page chunks of a content: consecutive pieces of CharsPerPage characters,
   * the last one possibly shorter. No pages for an empty content.
   */
  function Paginate(content: string): (pages: seq<string>)
    ensures |pages| == PageCount(|content|)
    decreases |content|
  {
    if |content| == 0 then []
    else if |content| <= CharsPerPage then [content]
    else [content[..CharsPerPage]] + Paginate(content[CharsPerPage..])
  }

  /** Every page holds at least one and at most CharsPerPage characters. */
  lemma {:induction false} PageSizes(content: string)
    ensures forall k :: 0 <= k < |Paginate(content)| ==> 0 < |Paginate(content)[k]| <= CharsPerPage
    decreases |content|
  {
    if |content| > CharsPerPage {
      var rest := content[CharsPerPage..];
      PageSizes(rest);
      assert forall k :: 1 <= k < |Paginate(content)| ==> Paginate(content)[k] == Paginate(rest)[k - 1];
    }
  }

  /** Pagination is lossless: the pages laid end to end give back the content. */
  lemma {:induction false} PaginateLossless(content: string)
    ensures Concat(Paginate(content)) == content
    decreases |content|
  {
    if 0 < |content| <= CharsPerPage {
      assert Concat([content]) == content + Concat([]);
    } else if |content| > CharsPerPage {
      var rest := content[CharsPerPage..];
      PaginateLossless(rest);
      assert ([content[..CharsPerPage]] + Paginate(rest))[1..] == Paginate(rest);
      assert content == content[..CharsPerPage] + rest;
    }
  }

  /** Where page k (0-based) ends: a full page later, or at the end of the content. */
  function PageEnd(k: nat, length: nat): nat
  {
    if (k + 1) * CharsPerPage < length then (k + 1) * CharsPerPage else length
  }

  /** Page k (0-based here, page k+1 on screen) is the slice starting at k * CharsPerPage. */
  lemma {:induction false} PaginateAt(content: string, k: nat)
    requires k < |Paginate(content)|
    ensures k * CharsPerPage < |content|
    ensures Paginate(content)[k] == content[k * CharsPerPage .. PageEnd(k, |content|)]
  {
    if |content| > CharsPerPage && k > 0 {
      var rest := content[CharsPerPage..];
      assert Paginate(content) == [content[..CharsPerPage]] + Paginate(rest);
      PaginateAt(rest, k - 1);
      var a, b := (k - 1) * CharsPerPage, PageEnd(k - 1, |rest|);
      assert rest[a..b] == content[CharsPerPage + a .. CharsPerPage + b];
    }
  }

  /** The label and text of one page in the prompt: `[Page n]` on its own line, then the chunk. */
  function PageText(pageNumber: nat, chunk: string): string
  {
    "[Page " + DecimalString(pageNumber) + "]\n" + chunk
  }

  /** In a page text the first `]` after `[Page ` closes the page number. */
  lemma LabelBracket(a: string, x: string)
    requires forall i :: 0 <= i < |a| ==> IsDigit(a[i])
    ensures IndexOfFrom("[Page " + a + "]\n" + x, "]", 6) == Some(6 + |a|)
  {
    var t := "[Page " + a + "]\n" + x;
    forall k | 6 <= k < 6 + |a| ensures !OccursAt(t, "]", k) {
      assert t[k] == a[k - 6];
      assert t[k..k + 1] == [t[k]];
    }
    assert t[6 + |a|..7 + |a|] == "]";
    assert OccursAt(t, "]", 6 + |a|);
    var r := IndexOfFrom(t, "]", 6);
    assert r.Some? && 6 + |a| <= r.value <= 6 + |a|;
  }

  /** Different page numbers give different page texts, whatever the chunks. */
  lemma PageTextsDistinct(m: nat, n: nat, x: string, y: string)
    requires m != n
    ensures PageText(m, x) != PageText(n, y)
  {
    var a, b := DecimalString(m), DecimalString(n);
    if PageText(m, x) == PageText(n, y) {
      var t := PageText(m, x);
      LabelBracket(a, x);
      LabelBracket(b, y);
      assert t == "[Page " + a + "]\n" + x && t == "[Page " + b + "]\n" + y;
      assert a == t[6..6 + |a|] && b == t[6..6 + |b|];
      DecimalStringInjective(m, n);
      assert false;
    }
  }

  /** The labelled pages of a content, numbered from 1. */
  function PageStrings(content: string): seq<string>
  {
    var chunks := Paginate(content);
    seq(|chunks|, k requires 0 <= k < |chunks| => PageText(k + 1, chunks[k]))
  }

  /** No two pages of one document have the same text. */
  lemma PageStringsDistinct(content: string)
    ensures forall j, k :: 0 <= j < k < |PageStrings(content)| ==> PageStrings(content)[j] != PageStrings(content)[k]
  {
    var pages, chunks := PageStrings(content), Paginate(content);
    forall j, k | 0 <= j < k < |pages| ensures pages[j] != pages[k] {
      PageTextsDistinct(j + 1, k + 1, chunks[j], chunks[k]);
    }
  }

  /**
   * The page loop: steps through the content CharsPerPage units at a time,
   * numbering each page `i / CharsPerPage + 1`, and collects the labelled pages.
   */
  method BuildPages(content: string) returns (pages: seq<string>)
    ensures |pages| == PageCount(|content|)
    ensures forall k :: 0 <= k < |pages| ==>
      pages[k] == PageText(k + 1, content[k * CharsPerPage .. PageEnd(k, |content|)])
    ensures pages == PageStrings(content)
  {
    pages := [];
    var i := 0;
    while i < |content|
      invariant i == |pages| * CharsPerPage
      invariant |pages| <= PageCount(|content|)
      invariant forall k :: 0 <= k < |pages| ==> pages[k] == PageText(k + 1, content[k * CharsPerPage .. PageEnd(k, |content|)])
      decreases |content| - i
    {
      var pageNum := i / CharsPerPage + 1;
      var chunk := Substring(content, i, i + CharsPerPage);
      assert pageNum == |pages| + 1;
      assert chunk == content[i .. PageEnd(|pages|, |content|)];
      pages := pages + [PageText(pageNum, chunk)];
      i := i + CharsPerPage;
    }
    forall k | 0 <= k < |pages|
      ensures pages[k] == PageStrings(content)[k]
    {
      PaginateAt(content, k);
    }
  }

  // -------------------------------------------------------------- context

  predicate IsReady(d: Document)
  {
    d.status == Ready
  }

  function DocumentHeader(name: string): string
  {
    "--- DOCUMENT START: " + name + " ---\n"
  }

  function DocumentFooter(name: string): string
  {
    "\n--- DOCUMENT END: " + name + " ---"
  }

  /** One document's block in the prompt: its labelled pages between start and end delimiters. */
  function DocumentBlock(d: Document): (r: string)
    ensures |DocumentHeader(d.name)| + |DocumentFooter(d.name)| <= |r|
    ensures StartsWith(r, DocumentHeader(d.name)) && EndsWith(r, DocumentFooter(d.name))
    ensures r[|DocumentHeader(d.name)|..|r| - |DocumentFooter(d.name)|] == Join(PageStrings(d.content), "\n\n")
  {
    DocumentHeader(d.name) + Join(PageStrings(d.content), "\n\n") + DocumentFooter(d.name)
  }

  function Blocks(docs: seq<Document>): seq<string>
  {
    seq(|docs|, i requires 0 <= i < |docs| => DocumentBlock(docs[i]))
  }

  /** The documents section of the prompt: one block per ready document, in store order. */
  function ContextString(documents: seq<Document>): (r: string)
    ensures r == "" <==> forall i :: 0 <= i < |documents| ==> !IsReady(documents[i])
  {
    var ready := Filter(documents, IsReady);
    if ready != [] then
      assert |DocumentBlock(ready[0])| > 0;
      Join(Blocks(ready), "\n\n")
    else
      Join(Blocks(ready), "\n\n")
  }

  /** A document that is not ready adds nothing to the context. */
  lemma ContextIgnoresUnready(documents: seq<Document>, d: Document)
    requires !IsReady(d)
    ensures ContextString(documents + [d]) == ContextString(documents)
  {
    FilterAppend(documents, [d], IsReady);
    assert Filter([d], IsReady) == [];
    assert Filter(documents + [d], IsReady) == Filter(documents, IsReady);
  }

  lemma BlocksSnoc(docs: seq<Document>, d: Document)
    ensures Blocks(docs + [d]) == Blocks(docs) + [DocumentBlock(d)]
  {
  }

  /** A ready document adds its block after the blocks of the documents before it. */
  lemma ContextAppendReady(documents: seq<Document>, d: Document)
    requires IsReady(d)
    ensures Filter(documents, IsReady) == [] ==> ContextString(documents + [d]) == DocumentBlock(d)
    ensures Filter(documents, IsReady) != [] ==>
      ContextString(documents + [d]) == ContextString(documents) + "\n\n" + DocumentBlock(d)
  {
    var before := Filter(documents, IsReady);
    FilterAppend(documents, [d], IsReady);
    assert Filter([d], IsReady) == [d];
    assert Filter(documents + [d], IsReady) == before + [d];
    BlocksSnoc(before, d);
    if before != [] {
      JoinSnoc(Blocks(before), DocumentBlock(d), "\n\n");
    } else {
      assert Blocks(before + [d]) == [DocumentBlock(d)];
    }
  }

  /** With no ready document the context is empty. */
  lemma ContextEmptyWithoutReady(documents: seq<Document>)
    requires forall i :: 0 <= i < |documents| ==> !IsReady(documents[i])
    ensures ContextString(documents) == ""
  {
    FilterDropsAll(documents, IsReady);
  }

  /** An empty document still contributes its delimiters, with nothing between them. */
  lemma EmptyDocumentBlock(d: Document)
    requires d.content == ""
    ensures DocumentBlock(d) == DocumentHeader(d.name) + DocumentFooter(d.name)
  {
    assert Paginate(d.content) == [];
    assert PageStrings(d.content) == [];
  }

  /** A document of at most one page is that page, labelled `[Page 1]`. */
  lemma SinglePageBlock(d: Document)
    requires 0 < |d.content| <= CharsPerPage
    ensures DocumentBlock(d) == DocumentHeader(d.name) + "[Page 1]\n" + d.content + DocumentFooter(d.name)
  {
    assert Paginate(d.content) == [d.content];
    assert PageStrings(d.content) == [PageText(1, d.content)];
    assert DecimalString(1) == "1";
  }

  // ------------------------------------------------------------ streaming

  /** One message of the conversation history as sent to the model. */
  datatype Turn = Turn(role: Role, text: string)

  /** What is sent to the hosted model. */
  datatype ModelRequest = ModelRequest(systemInstruction: string, history: seq<Turn>, prompt: string)

  /**
   * The hosted model's answer to a request: the `text` of each chunk it streams
   * (None when a chunk has no text), and whether the call then throws.
   */
  datatype ModelFeed = ModelFeed(chunkTexts: seq<Option<string>>, fails: bool)

  /** Result of a streaming call: the full text, or the exception it rethrows. */
  datatype StreamOutcome = Completed(fullText: string) | Failed

  const InstructionPreamble: string :=
    "You are an intelligent RAG (Retrieval Augmented Generation) assistant.\n" +
    "  You have access to a set of documents provided below.\n" +
    "  \n" +
    "  INSTRUCTIONS:\n" +
    "  1. Answer the user's question based PRIMARILY on the provided documents.\n" +
    "  2. If the answer is found in the documents, cite the source using the strict format: [Source: filename.ext, Page: X]. \n" +
    "     - If it spans multiple pages, use [Source: filename.ext, Page: X-Y].\n" +
    "     - If page number is uncertain, use [Source: filename.ext].\n" +
    "  3. If the answer is not in the documents, you may use your general knowledge but clearly state that it's not from the uploaded files.\n" +
    "  4. Be concise, professional, and helpful.\n" +
    "  5. Format your response in Markdown.\n" +
    "\n" +
    "  DOCUMENTS:\n" +
    "  "

  const InstructionTrailer: string := "\n  "

  /** The system instruction: the fixed preamble, then the context string, then the closing indent. */
  function SystemInstruction(documents: seq<Document>): string
  {
    InstructionPreamble + ContextString(documents) + InstructionTrailer
  }

  /** The context string sits between the preamble and the closing indent, and nothing else does. */
  lemma InstructionFrame(documents: seq<Document>)
    ensures |InstructionPreamble| + |InstructionTrailer| <= |SystemInstruction(documents)|
    ensures StartsWith(SystemInstruction(documents), InstructionPreamble)
    ensures EndsWith(SystemInstruction(documents), InstructionTrailer)
    ensures SystemInstruction(documents)[|InstructionPreamble|..|SystemInstruction(documents)| - |InstructionTrailer|]
      == ContextString(documents)
  {
    var r := SystemInstruction(documents);
    assert r[..|InstructionPreamble|] == InstructionPreamble;
  }

  function HistoryTurns(history: seq<Message>): seq<Turn>
  {
    seq(|history|, i requires 0 <= i < |history| => Turn(history[i].role, history[i].text))
  }

  function BuildRequest(history: seq<Message>, prompt: string, documents: seq<Document>): ModelRequest
  {
    ModelRequest(SystemInstruction(documents), HistoryTurns(history), prompt)
  }

  /** The chunk texts that count (`if (chunk.text)`): present and non-empty, in arrival order. */
  function Delivered(chunkTexts: seq<Option<string>>): (r: seq<string>)
    ensures forall i :: 0 <= i < |r| ==> r[i] != "" && Some(r[i]) in chunkTexts
    ensures forall i :: 0 <= i < |chunkTexts| && chunkTexts[i].Some? && chunkTexts[i].value != "" ==>
      chunkTexts[i].value in r
  {
    if chunkTexts == [] then []
    else
      var init, last := chunkTexts[..|chunkTexts| - 1], chunkTexts[|chunkTexts| - 1];
      assert forall i :: 0 <= i < |init| ==> init[i] == chunkTexts[i];
      Delivered(init) + (if last.Some? && last.value != "" then [last.value] else [])
  }

  lemma DeliveredSnoc(chunkTexts: seq<Option<string>>, i: nat)
    requires i < |chunkTexts|
    ensures Delivered(chunkTexts[..i + 1]) == Delivered(chunkTexts[..i]) +
      (if chunkTexts[i].Some? && chunkTexts[i].value != "" then [chunkTexts[i].value] else [])
  {
    assert chunkTexts[..i + 1][..i] == chunkTexts[..i];
  }

  /** One turn of the stream loop, on the specification side. */
  lemma StreamStep(chunks: seq<Option<string>>, i: nat)
    requires i < |chunks|
    ensures var before, after := Delivered(chunks[..i]), Delivered(chunks[..i + 1]);
      if chunks[i].Some? && chunks[i].value != "" then
        && Concat(after) == Concat(before) + chunks[i].value
        && Emissions(after) == Emissions(before) + [Concat(before) + chunks[i].value]
      else after == before
  {
    var before := Delivered(chunks[..i]);
    DeliveredSnoc(chunks, i);
    if chunks[i].Some? && chunks[i].value != "" {
      var x := chunks[i].value;
      ConcatAppend(before, [x]);
      assert Concat([x]) == x;
      EmissionsSnoc(before, x);
    }
  }

  /** The running totals handed to `onChunk`, one per delivered chunk. */
  function Emissions(texts: seq<string>): seq<string>
  {
    seq(|texts|, i requires 0 <= i < |texts| => Concat(texts[..i + 1]))
  }

  lemma EmissionsSnoc(texts: seq<string>, x: string)
    ensures Emissions(texts + [x]) == Emissions(texts) + [Concat(texts + [x])]
  {
    var l, r := Emissions(texts + [x]), Emissions(texts) + [Concat(texts + [x])];
    forall j | 0 <= j < |l| ensures l[j] == r[j] {
      if j < |texts| {
        assert (texts + [x])[..j + 1] == texts[..j + 1];
      } else {
        assert (texts + [x])[..j + 1] == texts + [x];
      }
    }
  }

  /** Every running total extends the one before it, strictly. */
  lemma {:induction false} EmissionsGrow(texts: seq<string>, i: nat, j: nat)
    requires forall k :: 0 <= k < |texts| ==> texts[k] != ""
    requires i < j < |texts|
    ensures |Emissions(texts)[i]| < |Emissions(texts)[j]|
    ensures Emissions(texts)[j][..|Emissions(texts)[i]|] == Emissions(texts)[i]
  {
    assert texts[..j + 1] == texts[..i + 1] + texts[i + 1..j + 1];
    ConcatAppend(texts[..i + 1], texts[i + 1..j + 1]);
    assert texts[i + 1..j + 1][0] == texts[i + 1];
  }

  /** The last running total is the whole streamed text. */
  lemma LastEmissionIsFullText(texts: seq<string>)
    requires |texts| > 0
    ensures Emissions(texts)[|texts| - 1] == Concat(texts)
  {
    var n := |texts|;
    assert texts[..n - 1 + 1] == texts;
    assert Emissions(texts)[n - 1] == Concat(texts[..n - 1 + 1]);
  }

  /**
   * The `for await` loop: every chunk with text is appended to `fullText` and
   * the running total is reported; `emitted` lists the reports in order.
   */
  method ConsumeStream(chunks: seq<Option<string>>) returns (emitted: seq<string>, fullText: string)
    ensures emitted == Emissions(Delivered(chunks))
    ensures fullText == Concat(Delivered(chunks))
  {
    fullText := "";
    emitted := [];
    var i := 0;
    while i < |chunks|
      invariant 0 <= i <= |chunks|
      invariant fullText == Concat(Delivered(chunks[..i]))
      invariant emitted == Emissions(Delivered(chunks[..i]))
    {
      var text := chunks[i];
      StreamStep(chunks, i);
      if text.Some? && text.value != "" {
        fullText := fullText + text.value;
        emitted := emitted + [fullText];
      }
      i := i + 1;
    }
    assert chunks[..i] == chunks;
  }

  /**
   * The streaming call: builds the request, consumes the model's stream, and
   * returns the full text, or rethrows when the model call fails.
   */
  method StreamGeminiResponse(history: seq<Message>, currentPrompt: string, documents: seq<Document>,
                              model: ModelRequest -> ModelFeed)
    returns (emitted: seq<string>, outcome: StreamOutcome)
    ensures var feed := model(BuildRequest(history, currentPrompt, documents));
      && emitted == Emissions(Delivered(feed.chunkTexts))
      && outcome == if feed.fails then Failed else Completed(Concat(Delivered(feed.chunkTexts)))
  {
    var request := BuildRequest(history, currentPrompt, documents);
    var feed := model(request);
    var fullText;
    emitted, fullText := ConsumeStream(feed.chunkTexts);
    outcome := if feed.fails then Failed else Completed(fullText);
  }
}
