/**
 * The application store (contexts/AppContext.tsx): documents, the message
 * log, the usage ledger and the user profile, and the handlers that update
 * them. Each handler is one atomic step and changes only its own field.
 */
module AppContext {
  import opened Types
  import opened Collections

  const InitialUsage: UsageStats := UsageStats(1250, 45000, 540000, 1000000)

  const InitialUser: UserProfile :=
    UserProfile("Alex Doe", "alex.doe@example.com", "https://picsum.photos/200", Light)

  const WelcomeText: string :=
    "Hello! I'm your RAG assistant. Upload documents to the Knowledge Base or ask me anything."

  // ---------------------------------------------------------------- usage

  /** Records a usage event: the same delta on all three windows, the budget untouched. */
  function Charge(u: UsageStats, tokens: int): (r: UsageStats)
    ensures r.budget == u.budget
    ensures r.daily - u.daily == r.monthly - u.monthly == r.yearly - u.yearly == tokens
  {
    UsageStats(u.daily + tokens, u.monthly + tokens, u.yearly + tokens, u.budget)
  }

  /** Replaces the ceiling; the counters are untouched and nothing is checked against them. */
  function WithBudget(u: UsageStats, limit: int): (r: UsageStats)
    ensures r.daily == u.daily && r.monthly == u.monthly && r.yearly == u.yearly
    ensures r.budget == limit
  {
    u.(budget := limit)
  }

  /** The pre-flight gate: the month's counter has reached the ceiling. */
  predicate IsOverBudget(u: UsageStats)
  {
    u.monthly >= u.budget
  }

  /** The gate is closed exactly when the budget is at or below the month's usage. */
  lemma GateTracksBudget(u: UsageStats, limit: int)
    ensures IsOverBudget(WithBudget(u, limit)) <==> limit <= u.monthly
  {
  }

  /** Once closed, the gate stays closed while only tokens are charged. */
  lemma ChargeKeepsGateClosed(u: UsageStats, tokens: nat)
    requires IsOverBudget(u)
    ensures IsOverBudget(Charge(u, tokens))
  {
  }

  /** Charging never changes how far apart the three counters are. */
  lemma ChargeKeepsGaps(u: UsageStats, tokens: int)
    ensures Charge(u, tokens).monthly - Charge(u, tokens).daily == u.monthly - u.daily
    ensures Charge(u, tokens).yearly - Charge(u, tokens).monthly == u.yearly - u.monthly
  {
  }

  /** Two charges are one charge of their sum. */
  lemma ChargeTwice(u: UsageStats, a: int, b: int)
    ensures Charge(Charge(u, a), b) == Charge(u, a + b)
  {
  }

  /** A budget below the current usage trips the gate at once. */
  lemma LowBudgetTripsGate(u: UsageStats, limit: int)
    requires limit <= u.monthly
    ensures IsOverBudget(WithBudget(u, limit))
  {
  }

  // ------------------------------------------------------------ documents

  /** Result of reading an uploaded file's text. */
  datatype ReadOutcome = ReadOk(text: string) | ReadFailed

  /** The optimistic entry created for an upload: processing, no content yet. */
  function NewDocument(id: string, name: string, mimeType: string, size: int, uploadDate: string): (d: Document)
    ensures d.status == Processing && d.content == ""
  {
    Document(id, name, mimeType, "", size, uploadDate, Processing)
  }

  /** A document after its read: ready with the text, or marked as an error with its content kept. */
  function Settle(d: Document, outcome: ReadOutcome): (r: Document)
    ensures r.id == d.id && r.name == d.name && r.mimeType == d.mimeType
    ensures r.size == d.size && r.uploadDate == d.uploadDate
    ensures outcome.ReadOk? ==> r.status == Ready && r.content == outcome.text
    ensures outcome.ReadFailed? ==> r.status == Error && r.content == d.content
  {
    match outcome
    case ReadOk(text) => d.(status := Ready, content := text)
    case ReadFailed => d.(status := Error)
  }

  /** `prev.map(d => d.id === id ? settled : d)`. */
  function MarkRead(docs: seq<Document>, id: string, outcome: ReadOutcome): (r: seq<Document>)
    ensures |r| == |docs|
    ensures forall i :: 0 <= i < |docs| && docs[i].id == id ==> r[i] == Settle(docs[i], outcome)
    ensures forall i :: 0 <= i < |docs| && docs[i].id != id ==> r[i] == docs[i]
    ensures forall i :: 0 <= i < |r| && r[i].id == id ==> r[i].status != Processing
  {
    seq(|docs|, i requires 0 <= i < |docs| => if docs[i].id == id then Settle(docs[i], outcome) else docs[i])
  }

  /** `prev.filter(d => d.id !== id)`. */
  function WithoutId(docs: seq<Document>, id: string): (r: seq<Document>)
    ensures |r| < |docs| <==> exists i :: 0 <= i < |docs| && docs[i].id == id
  {
    FilterShrinks(docs, (d: Document) => d.id != id);
    Filter(docs, (d: Document) => d.id != id)
  }

  predicate HasId(docs: seq<Document>, id: string)
  {
    exists i :: 0 <= i < |docs| && docs[i].id == id
  }

  /**
   * The upload lifecycle: when the new id is not already in use, the two steps
   * leave the earlier documents alone and settle only the new entry.
   */
  lemma UploadLifecycle(docs: seq<Document>, d: Document, outcome: ReadOutcome)
    requires !HasId(docs, d.id)
    ensures MarkRead(docs + [d], d.id, outcome) == docs + [Settle(d, outcome)]
  {
    var l, r := MarkRead(docs + [d], d.id, outcome), docs + [Settle(d, outcome)];
    assert |l| == |r|;
    forall i | 0 <= i < |l| ensures l[i] == r[i] {
      if i < |docs| {
        assert docs[i].id != d.id;
      }
    }
  }

  /** A read that finishes after its document was deleted changes nothing. */
  lemma MarkReadAbsent(docs: seq<Document>, id: string, outcome: ReadOutcome)
    requires !HasId(docs, id)
    ensures MarkRead(docs, id, outcome) == docs
  {
    var l := MarkRead(docs, id, outcome);
    forall i | 0 <= i < |docs| ensures l[i] == docs[i] {
      assert docs[i].id != id;
    }
  }

  /** Marking keeps every document in place, with its id and name. */
  lemma MarkReadKeepsOrder(docs: seq<Document>, id: string, outcome: ReadOutcome)
    ensures |MarkRead(docs, id, outcome)| == |docs|
    ensures forall i :: 0 <= i < |docs| ==>
      MarkRead(docs, id, outcome)[i].id == docs[i].id && MarkRead(docs, id, outcome)[i].name == docs[i].name
    ensures forall i :: 0 <= i < |docs| && docs[i].id != id ==> MarkRead(docs, id, outcome)[i] == docs[i]
  {
  }

  /** After deletion no document carries the id; every other document survives. */
  lemma DeleteRemovesOnlyId(docs: seq<Document>, id: string)
    ensures !HasId(WithoutId(docs, id), id)
    ensures forall i :: 0 <= i < |docs| && docs[i].id != id ==> docs[i] in WithoutId(docs, id)
    ensures forall i :: 0 <= i < |WithoutId(docs, id)| ==> WithoutId(docs, id)[i] in docs
  {
  }

  /** Deletion keeps the relative order of what remains. */
  lemma DeleteKeepsOrder(a: seq<Document>, b: seq<Document>, id: string)
    ensures WithoutId(a + b, id) == WithoutId(a, id) + WithoutId(b, id)
  {
    FilterAppend(a, b, (d: Document) => d.id != id);
  }

  /** Deleting an id that is not there, or deleting twice, changes nothing. */
  lemma DeleteAbsent(docs: seq<Document>, id: string)
    requires !HasId(docs, id)
    ensures WithoutId(docs, id) == docs
  {
    FilterKeepsAll(docs, (d: Document) => d.id != id);
  }

  lemma DeleteIdempotent(docs: seq<Document>, id: string)
    ensures WithoutId(WithoutId(docs, id), id) == WithoutId(docs, id)
  {
    DeleteRemovesOnlyId(docs, id);
    DeleteAbsent(WithoutId(docs, id), id);
  }

  // ------------------------------------------------------------- messages

  /** The message a new `addMessage` appends: streaming exactly when it is a model message. */
  function NewMessage(id: string, role: Role, text: string, timestamp: int): (m: Message)
    ensures m.role == role && m.text == text
    ensures m.isStreaming == Some(role == Model)
  {
    Message(id, role, text, timestamp, Some(role == Model))
  }

  /**
   * `updateLastMessage`: if the log ends with a model message, its text is
   * replaced (not extended) and it is marked streaming; otherwise nothing changes.
   */
  function WithLastText(msgs: seq<Message>, text: string): (r: seq<Message>)
    ensures |r| == |msgs|
    ensures forall i :: 0 <= i < |msgs| - 1 ==> r[i] == msgs[i]
    ensures |msgs| > 0 && msgs[|msgs| - 1].role == Model ==>
      r[|msgs| - 1] == msgs[|msgs| - 1].(text := text, isStreaming := Some(true))
    ensures !(|msgs| > 0 && msgs[|msgs| - 1].role == Model) ==> r == msgs
  {
    if |msgs| > 0 && msgs[|msgs| - 1].role == Model then
      msgs[..|msgs| - 1] + [msgs[|msgs| - 1].(text := text, isStreaming := Some(true))]
    else msgs
  }

  /** Overwriting twice is overwriting once with the later text. */
  lemma OverwriteTwice(msgs: seq<Message>, a: string, b: string)
    ensures WithLastText(WithLastText(msgs, a), b) == WithLastText(msgs, b)
  {
    var m1 := WithLastText(msgs, a);
    if |msgs| > 0 && msgs[|msgs| - 1].role == Model {
      assert m1[..|m1| - 1] == msgs[..|msgs| - 1];
    }
  }

  /** The profile after `{ ...prev, ...patch }`: the fields present in the patch win. */
  function MergeProfile(u: UserProfile, p: ProfilePatch): (r: UserProfile)
    ensures p.name.Some? ==> r.name == p.name.value
    ensures p.name.None? ==> r.name == u.name
    ensures p.email.Some? ==> r.email == p.email.value
    ensures p.email.None? ==> r.email == u.email
    ensures p.avatarUrl.Some? ==> r.avatarUrl == p.avatarUrl.value
    ensures p.avatarUrl.None? ==> r.avatarUrl == u.avatarUrl
    ensures p.theme.Some? ==> r.theme == p.theme.value
    ensures p.theme.None? ==> r.theme == u.theme
  {
    UserProfile(
      if p.name.Some? then p.name.value else u.name,
      if p.email.Some? then p.email.value else u.email,
      if p.avatarUrl.Some? then p.avatarUrl.value else u.avatarUrl,
      if p.theme.Some? then p.theme.value else u.theme)
  }

  /** Applying the same patch again changes nothing more. */
  lemma MergeIdempotent(u: UserProfile, p: ProfilePatch)
    ensures MergeProfile(MergeProfile(u, p), p) == MergeProfile(u, p)
  {
  }

  /** The empty patch leaves the profile as it is. */
  lemma MergeEmpty(u: UserProfile)
    ensures MergeProfile(u, ProfilePatch(None, None, None, None)) == u
  {
  }

  class AppStore {
    var documents: seq<Document>
    var messages: seq<Message>
    var usage: UsageStats
    var user: UserProfile

    /** The provider's initial state: no documents, the welcome message, the seed usage and profile. */
    constructor (now: int)
      ensures documents == []
      ensures messages == [Message("welcome", Model, WelcomeText, now, None)]
      ensures usage == InitialUsage && user == InitialUser
    {
      documents := [];
      messages := [Message("welcome", Model, WelcomeText, now, None)];
      usage := InitialUsage;
      user := InitialUser;
    }

    /** First step of `addDocument`: append the optimistic processing entry. */
    method BeginAddDocument(id: string, name: string, mimeType: string, size: int, uploadDate: string)
      modifies this`documents
      ensures documents == old(documents) + [NewDocument(id, name, mimeType, size, uploadDate)]
      ensures messages == old(messages) && usage == old(usage) && user == old(user)
    {
      documents := documents + [NewDocument(id, name, mimeType, size, uploadDate)];
    }

    /** Second step of `addDocument`: settle every document with that id after the read. */
    method FinishAddDocument(id: string, outcome: ReadOutcome)
      modifies this`documents
      ensures documents == MarkRead(old(documents), id, outcome)
      ensures messages == old(messages) && usage == old(usage) && user == old(user)
    {
      documents := MarkRead(documents, id, outcome);
    }

    /**
     * `addDocument` with no other handler running between its two steps. When
     * the generated id is new, only the appended entry is settled.
     */
    method AddDocument(id: string, name: string, mimeType: string, size: int, uploadDate: string, outcome: ReadOutcome)
      modifies this`documents
      ensures documents == MarkRead(old(documents) + [NewDocument(id, name, mimeType, size, uploadDate)], id, outcome)
      ensures !HasId(old(documents), id) ==>
        documents == old(documents) + [Settle(NewDocument(id, name, mimeType, size, uploadDate), outcome)]
      ensures messages == old(messages) && usage == old(usage) && user == old(user)
    {
      ghost var before := documents;
      BeginAddDocument(id, name, mimeType, size, uploadDate);
      FinishAddDocument(id, outcome);
      if !HasId(before, id) {
        UploadLifecycle(before, NewDocument(id, name, mimeType, size, uploadDate), outcome);
      }
    }

    method DeleteDocument(id: string)
      modifies this`documents
      ensures documents == WithoutId(old(documents), id)
      ensures messages == old(messages) && usage == old(usage) && user == old(user)
    {
      documents := WithoutId(documents, id);
    }

    method AddMessage(text: string, role: Role, id: string, timestamp: int)
      modifies this`messages
      ensures messages == old(messages) + [NewMessage(id, role, text, timestamp)]
      ensures documents == old(documents) && usage == old(usage) && user == old(user)
    {
      messages := messages + [NewMessage(id, role, text, timestamp)];
    }

    method UpdateLastMessage(text: string)
      modifies this`messages
      ensures messages == WithLastText(old(messages), text)
      ensures documents == old(documents) && usage == old(usage) && user == old(user)
    {
      messages := WithLastText(messages, text);
    }

    method ClearChat()
      modifies this`messages
      ensures messages == []
      ensures documents == old(documents) && usage == old(usage) && user == old(user)
    {
      messages := [];
    }

    method UpdateUsage(tokens: int)
      modifies this`usage
      ensures usage == Charge(old(usage), tokens)
      ensures documents == old(documents) && messages == old(messages) && user == old(user)
    {
      usage := Charge(usage, tokens);
    }

    method SetBudget(limit: int)
      modifies this`usage
      ensures usage == WithBudget(old(usage), limit)
      ensures documents == old(documents) && messages == old(messages) && user == old(user)
    {
      usage := WithBudget(usage, limit);
    }

    method UpdateUserProfile(patch: ProfilePatch)
      modifies this`user
      ensures user == MergeProfile(old(user), patch)
      ensures documents == old(documents) && messages == old(messages) && usage == old(usage)
    {
      user := MergeProfile(user, patch);
    }
  }
}
