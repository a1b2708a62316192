/**
 * The conversational question-answering orchestrator. It keeps one chat
 * history per user in a dictionary, composes a retrieval-augmented prompt,
 * records the user turn, asks the completion service, and records the
 * assistant turn. Summarising a document and extracting its key points are
 * one-shot exchanges that never touch the per-user histories.
 *
 * The search store and the completion service are outside the model: the
 * chunks a search returned and the document list are parameters, and the
 * completion service is a function from the history it is shown to its
 * outcome.
 */
module SemanticKernel {
  import opened Text
  import opened Models
  import opened VectorStore

  datatype AuthorRole = System | User | Assistant

  datatype ChatMessage = ChatMessage(role: AuthorRole, content: string)

  /** What one GetChatMessageContentAsync call gives: a reply, a null
      response or null content, or an exception. */
  datatype Completion = Reply(content: string) | NoContent | Failed

  const SYSTEM_INSTRUCTION := "You are a helpful AI assistant specialized in answering questions about documents and general knowledge. When context is provided, use it. If no context is available, still answer based on your knowledge."
  /** The history a new user's conversation starts from. */
  const SEED := [ChatMessage(System, SYSTEM_INSTRUCTION)]

  const USER_ID_EMPTY := "UserId cannot be empty."
  const QUESTION_EMPTY := "Question cannot be empty."
  const NO_RESPONSE := "I'm sorry, I couldn't generate a response."
  const ASK_FAILED := "An unexpected error occurred. Please try again later."
  const DOCUMENT_ID_EMPTY := "DocumentId cannot be empty."
  const DOCUMENT_NOT_FOUND := "Document not found."

  const CONTEXT_SEPARATOR := "\n\n"
  const CONTEXT_HEAD := "Context:\n"
  const QUESTION_HEAD := "Question: "
  const NO_CONTEXT_INSTRUCTION := "\n\nAnswer the question clearly and concisely."
  const CONTEXT_INSTRUCTION := "\n\nIf the context is relevant, answer based on it. If the context is insufficient, also use your own knowledge to provide the best possible answer."

  // ---------------------------------------------------------------------
  // Prompt composition
  // ---------------------------------------------------------------------

  /** The retrieved chunks joined with blank lines; a null result counts as
      no chunks. The context is blank exactly when every chunk is. */
  function ContextOf(chunks: Option<seq<string>>): (context: string)
    ensures IsBlank(context) <==> forall k :: 0 <= k < |chunks.GetOr([])| ==> IsBlank(chunks.GetOr([])[k])
    ensures chunks.GetOr([]) == [] ==> context == ""
  {
    assert IsWhiteSpace(CONTEXT_SEPARATOR[0]) && IsWhiteSpace(CONTEXT_SEPARATOR[1]);
    JoinBlank(CONTEXT_SEPARATOR, chunks.GetOr([]));
    Join(CONTEXT_SEPARATOR, chunks.GetOr([]))
  }

  /** The user turn sent for a question. A blank context selects the
      question-only template, any other context the template that quotes it;
      the question and the context appear verbatim. */
  function ComposePrompt(question: string, context: string): (prompt: string)
    ensures StartsWith(prompt, CONTEXT_HEAD) <==> !IsBlank(context)
    ensures !IsBlank(context) ==>
              |CONTEXT_HEAD| + |context| <= |prompt| && prompt[|CONTEXT_HEAD|..|CONTEXT_HEAD| + |context|] == context
    ensures var instruction := if IsBlank(context) then NO_CONTEXT_INSTRUCTION else CONTEXT_INSTRUCTION;
            && |QUESTION_HEAD| + |question| + |instruction| <= |prompt|
            && prompt[|prompt| - |instruction| - |question| - |QUESTION_HEAD|..] == QUESTION_HEAD + question + instruction
  {
    var instruction := if IsBlank(context) then NO_CONTEXT_INSTRUCTION else CONTEXT_INSTRUCTION;
    var questionPart := QUESTION_HEAD + question + instruction;
    if IsBlank(context) then
      assert questionPart[0] != CONTEXT_HEAD[0];
      questionPart
    else
      PromptParts(CONTEXT_HEAD, context, CONTEXT_SEPARATOR, questionPart);
      CONTEXT_HEAD + context + CONTEXT_SEPARATOR + questionPart
  }

  /** Where the parts of a prompt that quotes a context sit in it. */
  lemma PromptParts(head: string, context: string, separator: string, tail: string)
    ensures var prompt := head + context + separator + tail;
            && |head| + |context| + |separator| + |tail| == |prompt|
            && prompt[..|head|] == head
            && prompt[|head|..|head| + |context|] == context
            && prompt[|prompt| - |tail|..] == tail
  {
  }

  /** The answer recorded and returned for a reply: the reply trimmed, or
      the apology when that is null or blank. Never blank. */
  function AnswerOf(reply: Completion): (answer: string)
    requires !reply.Failed?
    ensures !IsBlank(answer)
    ensures reply.Reply? && !IsBlank(reply.content) ==> answer == Trim(reply.content)
    ensures reply.NoContent? || IsBlank(reply.content) ==> answer == NO_RESPONSE
  {
    NoResponseIsNotBlank();
    if reply.NoContent? || IsBlank(Trim(reply.content)) then NO_RESPONSE else Trim(reply.content)
  }

  lemma NoResponseIsNotBlank()
    ensures !IsBlank(NO_RESPONSE)
  {
    assert !IsWhiteSpace(NO_RESPONSE[0]);
  }

  // ---------------------------------------------------------------------
  // The conversation store
  // ---------------------------------------------------------------------

  /** A history as the service keeps it: the seed system turn first and no
      other system turn; every assistant turn a non-blank answer right after
      a user turn. */
  ghost predicate WellFormed(history: seq<ChatMessage>) {
    && |history| >= 1
    && history[0] == SEED[0]
    && (forall i :: 1 <= i < |history| ==> history[i].role != System)
    && (forall i :: 1 <= i < |history| && history[i].role == Assistant ==>
          history[i - 1].role == User && !IsBlank(history[i].content))
  }

  /** Every key is a usable user id and every history is well formed. */
  ghost predicate ValidStore(conversations: map<string, seq<ChatMessage>>) {
    forall id :: id in conversations ==> !IsBlank(id) && WellFormed(conversations[id])
  }

  /** The number of turns with the given role. */
  function CountRole(history: seq<ChatMessage>, role: AuthorRole): nat {
    if history == [] then 0
    else CountRole(history[..|history| - 1], role) + (if history[|history| - 1].role == role then 1 else 0)
  }

  lemma {:induction false} CountRoleAppend(history: seq<ChatMessage>, more: seq<ChatMessage>, role: AuthorRole)
    requires forall i :: 0 <= i < |more| ==> more[i].role != role
    ensures CountRole(history + more, role) == CountRole(history, role)
    decreases |more|
  {
    if more != [] {
      var all := history + more;
      assert all[..|all| - 1] == history + more[..|more| - 1];
      assert all[|all| - 1] == more[|more| - 1];
      CountRoleAppend(history, more[..|more| - 1], role);
    } else {
      assert history + more == history;
    }
  }

  /** A well-formed history holds exactly one system turn. */
  lemma {:induction false} OneSystemTurn(history: seq<ChatMessage>)
    requires WellFormed(history)
    ensures CountRole(history, System) == 1
  {
    assert history == SEED + history[1..];
    assert CountRole(SEED, System) == 1 by {
      assert SEED[..0] == [];
    }
    CountRoleAppend(SEED, history[1..], System);
  }

  /** The history a question from `id` continues: the stored one, or a new
      one holding only the system turn. */
  function HistoryFor(conversations: map<string, seq<ChatMessage>>, id: string): seq<ChatMessage> {
    if id in conversations then conversations[id] else SEED
  }

  /** ClearConversation: removes the user's history, and nothing else; a
      blank or unknown id changes nothing. */
  function ClearOne(conversations: map<string, seq<ChatMessage>>, userId: Option<string>): (cleared: map<string, seq<ChatMessage>>)
    ensures IsNullOrWhiteSpace(userId) ==> cleared == conversations
    ensures !IsNullOrWhiteSpace(userId) ==> cleared.Keys == conversations.Keys - {userId.value}
    ensures forall id :: id in cleared ==> id in conversations && cleared[id] == conversations[id]
  {
    if !IsNullOrWhiteSpace(userId) && userId.value in conversations then conversations - {userId.value}
    else conversations
  }

  // ---------------------------------------------------------------------
  // Asking a question
  // ---------------------------------------------------------------------

  /** What the completion service is shown for a question: the user's
      history followed by the composed prompt as a user turn. */
  function RequestFor(conversations: map<string, seq<ChatMessage>>, id: string, question: string,
                      chunks: Option<seq<string>>): seq<ChatMessage>
  {
    HistoryFor(conversations, id) + [ChatMessage(User, ComposePrompt(question, ContextOf(chunks)))]
  }

  datatype AskOutcome = AskOutcome(conversations: map<string, seq<ChatMessage>>, response: ChatResponse)

  /**
   * AskQuestionAsync, as a transition of the conversation store. A blank
   * user id or question is refused and changes nothing. Otherwise the
   * user's history (created with the system turn if new) gets the prompt as
   * a user turn; the completion service is shown that history; on failure
   * the user turn stays and a generic error is returned, on success the
   * answer is appended as an assistant turn and returned with the raw
   * chunks as sources. No other user's history changes.
   */
  function Ask(conversations: map<string, seq<ChatMessage>>, userId: Option<string>, question: Option<string>,
               chunks: Option<seq<string>>, complete: seq<ChatMessage> -> Completion): (outcome: AskOutcome)
    ensures IsNullOrWhiteSpace(userId) ==>
              outcome == AskOutcome(conversations, CreateError(USER_ID_EMPTY))
    ensures !IsNullOrWhiteSpace(userId) && IsNullOrWhiteSpace(question) ==>
              outcome == AskOutcome(conversations, CreateError(QUESTION_EMPTY))
    ensures !IsNullOrWhiteSpace(userId) && !IsNullOrWhiteSpace(question) ==>
              var id := userId.value;
              var request := RequestFor(conversations, id, question.value, chunks);
              && id in outcome.conversations
              && outcome.conversations == conversations[id := outcome.conversations[id]]
              && (outcome.response.success <==> !complete(request).Failed?)
              && (!outcome.response.success ==>
                    outcome.conversations[id] == request && outcome.response == CreateError(ASK_FAILED))
              && (outcome.response.success ==>
                    && outcome.response == CreateSuccess(AnswerOf(complete(request)), chunks)
                    && !IsBlank(outcome.response.response)
                    && outcome.response.sources == chunks.GetOr([])
                    && outcome.conversations[id] == request + [ChatMessage(Assistant, outcome.response.response)])
  {
    if IsNullOrWhiteSpace(userId) then AskOutcome(conversations, CreateError(USER_ID_EMPTY))
    else if IsNullOrWhiteSpace(question) then AskOutcome(conversations, CreateError(QUESTION_EMPTY))
    else
      var id := userId.value;
      var request := RequestFor(conversations, id, question.value, chunks);
      var reply := complete(request);
      if reply.Failed? then AskOutcome(conversations[id := request], CreateError(ASK_FAILED))
      else
        var answer := AnswerOf(reply);
        AskOutcome(conversations[id := request + [ChatMessage(Assistant, answer)]], CreateSuccess(answer, chunks))
  }

  /** A turn that is not a system turn, and is a non-blank answer to a
      user turn when it is an assistant turn, keeps a history well formed. */
  lemma ExtendWellFormed(history: seq<ChatMessage>, turn: ChatMessage)
    requires WellFormed(history) && turn.role != System
    requires turn.role == Assistant ==> history[|history| - 1].role == User && !IsBlank(turn.content)
    ensures WellFormed(history + [turn])
  {
    var after := history + [turn];
    forall i | 1 <= i < |after| && after[i].role == Assistant
      ensures after[i - 1].role == User && !IsBlank(after[i].content)
    {
      if i < |history| {
        assert after[i] == history[i] && after[i - 1] == history[i - 1];
      }
    }
  }

  /** In a valid store, the history a question continues is well formed and
      holds exactly one system turn, its first: a stored history is reused
      as it is, and a new one is created holding the system turn alone. */
  lemma HistoryWellFormed(conversations: map<string, seq<ChatMessage>>, id: string)
    requires ValidStore(conversations)
    ensures WellFormed(HistoryFor(conversations, id))
    ensures CountRole(HistoryFor(conversations, id), System) == 1
    ensures id !in conversations ==> HistoryFor(conversations, id) == SEED
  {
    OneSystemTurn(HistoryFor(conversations, id));
  }

  /** Storing a well-formed history under a usable id keeps the store valid. */
  lemma StoreWellFormed(conversations: map<string, seq<ChatMessage>>, id: string, history: seq<ChatMessage>)
    requires ValidStore(conversations) && !IsBlank(id) && WellFormed(history)
    ensures ValidStore(conversations[id := history])
  {
  }

  /** Asking keeps every history well formed. */
  lemma AskKeepsStoreValid(conversations: map<string, seq<ChatMessage>>, userId: Option<string>, question: Option<string>,
                           chunks: Option<seq<string>>, complete: seq<ChatMessage> -> Completion)
    requires ValidStore(conversations)
    ensures ValidStore(Ask(conversations, userId, question, chunks, complete).conversations)
  {
    if !IsNullOrWhiteSpace(userId) && !IsNullOrWhiteSpace(question) {
      var outcome := Ask(conversations, userId, question, chunks, complete);
      var id := userId.value;
      var request := RequestFor(conversations, id, question.value, chunks);
      HistoryWellFormed(conversations, id);
      ExtendWellFormed(HistoryFor(conversations, id), ChatMessage(User, ComposePrompt(question.value, ContextOf(chunks))));
      if outcome.response.success {
        ExtendWellFormed(request, ChatMessage(Assistant, outcome.response.response));
      }
      StoreWellFormed(conversations, id, outcome.conversations[id]);
    }
  }

  /** A successful question extends the user's history by exactly its
      user turn and the answer's assistant turn. */
  lemma AskAppendsTwo(conversations: map<string, seq<ChatMessage>>, id: string, question: string,
                      chunks: Option<seq<string>>, complete: seq<ChatMessage> -> Completion)
    requires !IsBlank(id) && !IsBlank(question)
    requires Ask(conversations, Some(id), Some(question), chunks, complete).response.success
    ensures var outcome := Ask(conversations, Some(id), Some(question), chunks, complete);
            && id in outcome.conversations
            && outcome.conversations[id] == HistoryFor(conversations, id) +
                 [ChatMessage(User, ComposePrompt(question, ContextOf(chunks))),
                  ChatMessage(Assistant, outcome.response.response)]
  {
    var outcome := Ask(conversations, Some(id), Some(question), chunks, complete);
    var before := HistoryFor(conversations, id);
    var user := ChatMessage(User, ComposePrompt(question, ContextOf(chunks)));
    var assistant := ChatMessage(Assistant, outcome.response.response);
    assert outcome.conversations[id] == before + [user] + [assistant];
    assert before + [user] + [assistant] == before + [user, assistant];
  }

  /** The first question from a user starts a history with exactly one
      system turn, the seed, followed by the question's user turn. */
  lemma FirstAskSeeds(conversations: map<string, seq<ChatMessage>>, id: string, question: string,
                      chunks: Option<seq<string>>, complete: seq<ChatMessage> -> Completion)
    requires !IsBlank(id) && !IsBlank(question) && id !in conversations
    ensures var after := Ask(conversations, Some(id), Some(question), chunks, complete).conversations[id];
            && after[..2] == SEED + [ChatMessage(User, ComposePrompt(question, ContextOf(chunks)))]
            && CountRole(after, System) == 1
  {
    var outcome := Ask(conversations, Some(id), Some(question), chunks, complete);
    var user := ChatMessage(User, ComposePrompt(question, ContextOf(chunks)));
    SeededHistory(outcome.conversations[id], user, outcome.response.response);
  }

  /** A history that is the seed, a user turn and possibly a non-blank
      answer starts with the seed and that turn and has one system turn. */
  lemma SeededHistory(after: seq<ChatMessage>, user: ChatMessage, answer: string)
    requires user.role == User
    requires after == SEED + [user] || (after == SEED + [user] + [ChatMessage(Assistant, answer)] && !IsBlank(answer))
    ensures after[..2] == SEED + [user] && CountRole(after, System) == 1
  {
    ExtendWellFormed(SEED, user);
    if after != SEED + [user] {
      ExtendWellFormed(SEED + [user], ChatMessage(Assistant, answer));
    }
    OneSystemTurn(after);
  }

  /** Two successful questions in a row from the same user extend that
      user's history by exactly four turns, in order, and add no system
      turn: a known user's history is reused, never reseeded. */
  lemma AskTwice(conversations: map<string, seq<ChatMessage>>, id: string, first: string, second: string,
                 firstChunks: Option<seq<string>>, secondChunks: Option<seq<string>>,
                 complete: seq<ChatMessage> -> Completion, one: AskOutcome, two: AskOutcome)
    requires !IsBlank(id) && !IsBlank(first) && !IsBlank(second)
    requires one == Ask(conversations, Some(id), Some(first), firstChunks, complete) && one.response.success
    requires two == Ask(one.conversations, Some(id), Some(second), secondChunks, complete) && two.response.success
    ensures id in two.conversations
    ensures two.conversations[id] == HistoryFor(conversations, id) +
              [ ChatMessage(User, ComposePrompt(first, ContextOf(firstChunks))),
                ChatMessage(Assistant, one.response.response),
                ChatMessage(User, ComposePrompt(second, ContextOf(secondChunks))),
                ChatMessage(Assistant, two.response.response) ]
    ensures CountRole(two.conversations[id], System) == CountRole(HistoryFor(conversations, id), System)
  {
    var u1 := ChatMessage(User, ComposePrompt(first, ContextOf(firstChunks)));
    var a1 := ChatMessage(Assistant, one.response.response);
    var u2 := ChatMessage(User, ComposePrompt(second, ContextOf(secondChunks)));
    var a2 := ChatMessage(Assistant, two.response.response);
    AskAppendsTwo(conversations, id, first, firstChunks, complete);
    AskAppendsTwo(one.conversations, id, second, secondChunks, complete);
    AppendTwice(HistoryFor(conversations, id), one.conversations[id], two.conversations[id], u1, a1, u2, a2);
    NoSystemInExchanges(HistoryFor(conversations, id), u1.content, a1.content, u2.content, a2.content);
  }

  lemma AppendTwice<T>(before: seq<T>, middle: seq<T>, after: seq<T>, a: T, b: T, c: T, d: T)
    requires middle == before + [a, b] && after == middle + [c, d]
    ensures after == before + [a, b, c, d]
  {
  }

  /** Appending user and assistant turns adds no system turn. */
  lemma NoSystemInExchanges(history: seq<ChatMessage>, q1: string, a1: string, q2: string, a2: string)
    ensures var more := [ChatMessage(User, q1), ChatMessage(Assistant, a1), ChatMessage(User, q2), ChatMessage(Assistant, a2)];
            CountRole(history + more, System) == CountRole(history, System)
  {
    var more := [ChatMessage(User, q1), ChatMessage(Assistant, a1), ChatMessage(User, q2), ChatMessage(Assistant, a2)];
    assert forall i :: 0 <= i < |more| ==> more[i].role != System;
    CountRoleAppend(history, more, System);
  }

  /** After ClearConversation, the next question from that user starts
      afresh: the outcome for that user is the one a store that never saw
      them would give. */
  lemma ClearThenAskStartsFresh(conversations: map<string, seq<ChatMessage>>, id: string, question: Option<string>,
                                chunks: Option<seq<string>>, complete: seq<ChatMessage> -> Completion)
    requires !IsBlank(id)
    ensures var cleared := ClearOne(conversations, Some(id));
            var again := Ask(cleared, Some(id), question, chunks, complete);
            var unseen := Ask(map[], Some(id), question, chunks, complete);
            && again.response == unseen.response
            && (id in again.conversations <==> id in unseen.conversations)
            && (id in unseen.conversations ==> again.conversations[id] == unseen.conversations[id])
  {
    assert id !in ClearOne(conversations, Some(id));
  }

  /** Retrieval degradation: when the search gives nothing usable (null,
      no chunks, or only blank ones), the question is still put to the
      completion service, with the question-only prompt, and answered. */
  lemma NoContextStillAnswers(conversations: map<string, seq<ChatMessage>>, id: string, question: string,
                              chunks: Option<seq<string>>, complete: seq<ChatMessage> -> Completion)
    requires !IsBlank(id) && !IsBlank(question)
    requires forall k :: 0 <= k < |chunks.GetOr([])| ==> IsBlank(chunks.GetOr([])[k])
    requires !complete(HistoryFor(conversations, id) + [ChatMessage(User, QUESTION_HEAD + question + NO_CONTEXT_INSTRUCTION)]).Failed?
    ensures var outcome := Ask(conversations, Some(id), Some(question), chunks, complete);
            && outcome.response.success
            && outcome.conversations[id][|HistoryFor(conversations, id)|]
                 == ChatMessage(User, QUESTION_HEAD + question + NO_CONTEXT_INSTRUCTION)
  {
    var prompt := QUESTION_HEAD + question + NO_CONTEXT_INSTRUCTION;
    assert ComposePrompt(question, ContextOf(chunks)) == prompt;
    var request := RequestFor(conversations, id, question, chunks);
    assert request == HistoryFor(conversations, id) + [ChatMessage(User, prompt)];
    assert request[|HistoryFor(conversations, id)|] == ChatMessage(User, prompt);
  }

  /** A worked example: one retrieved sentence is quoted verbatim in a
      prompt of the context template and returned as the first source. */
  lemma RefundPolicyExample(complete: seq<ChatMessage> -> Completion)
    ensures var sentence := "Refunds are processed within 14 days.";
            var outcome := Ask(map[], Some("u1"), Some("What is the refund policy?"), Some([sentence]), complete);
            && "u1" in outcome.conversations
            && |outcome.conversations["u1"]| > 1
            && outcome.conversations["u1"][1].role == User
            && (var prompt := outcome.conversations["u1"][1].content;
                && StartsWith(prompt, CONTEXT_HEAD)
                && |CONTEXT_HEAD| + |sentence| <= |prompt|
                && prompt[|CONTEXT_HEAD|..|CONTEXT_HEAD| + |sentence|] == sentence)
            && (outcome.response.success ==> outcome.response.sources[0] == sentence)
  {
    var sentence := "Refunds are processed within 14 days.";
    var question := "What is the refund policy?";
    assert !IsWhiteSpace("u1"[0]);
    assert !IsWhiteSpace(question[0]);
    assert !IsWhiteSpace(sentence[0]);
    assert ContextOf(Some([sentence])) == sentence;
    var outcome := Ask(map[], Some("u1"), Some(question), Some([sentence]), complete);
    assert outcome.conversations["u1"][..2] == SEED + [ChatMessage(User, ComposePrompt(question, sentence))];
    assert outcome.conversations["u1"][1] == ChatMessage(User, ComposePrompt(question, sentence));
  }

  // ---------------------------------------------------------------------
  // Summaries and key points
  // ---------------------------------------------------------------------

  datatype DocumentTask = Summary | KeyPoints

  const SUMMARY_SYSTEM_PROMPT := "You are a document summarization assistant. Provide accurate and clear summaries."
  const KEY_POINTS_SYSTEM_PROMPT := "You are a key point extraction assistant. Respond only in concise bullet points."
  const SUMMARY_INSTRUCTION := "Please provide a comprehensive but concise summary of the following document:\n\n"
  const KEY_POINTS_INSTRUCTION := "Please extract the key points from the following document in clear bullet point format:\n\n"
  const NO_SUMMARY := "No summary generated."
  const NO_KEY_POINTS := "No key points extracted."
  const SUMMARY_FAILED := "An unexpected error occurred while summarizing the document."
  const KEY_POINTS_FAILED := "An unexpected error occurred while extracting key points."

  function SystemPromptOf(task: DocumentTask): string {
    match task
    case Summary => SUMMARY_SYSTEM_PROMPT
    case KeyPoints => KEY_POINTS_SYSTEM_PROMPT
  }

  function InstructionOf(task: DocumentTask): string {
    match task
    case Summary => SUMMARY_INSTRUCTION
    case KeyPoints => KEY_POINTS_INSTRUCTION
  }

  /** The text returned when the service gives a null reply. */
  function FallbackOf(task: DocumentTask): string {
    match task
    case Summary => NO_SUMMARY
    case KeyPoints => NO_KEY_POINTS
  }

  function FailureOf(task: DocumentTask): string {
    match task
    case Summary => SUMMARY_FAILED
    case KeyPoints => KEY_POINTS_FAILED
  }

  /** The fresh two-turn history a task shows the completion service. */
  function ExchangeFor(task: DocumentTask, content: string): seq<ChatMessage> {
    [ChatMessage(System, SystemPromptOf(task)), ChatMessage(User, InstructionOf(task) + content)]
  }

  /** `k` is the position of the first document whose id is `id`. */
  predicate FirstMatch(documents: seq<DocumentInfo>, id: string, k: int) {
    && 0 <= k < |documents|
    && documents[k].id == id
    && forall j :: 0 <= j < k ==> documents[j].id != id
  }

  /** The linear scan of FirstOrDefault(d => d.Id == id): the first match,
      or |documents| when there is none. */
  function FirstIndex(documents: seq<DocumentInfo>, id: string): (k: nat)
    ensures k <= |documents|
    ensures k < |documents| ==> FirstMatch(documents, id, k)
    ensures k == |documents| <==> forall j :: 0 <= j < |documents| ==> documents[j].id != id
  {
    if documents == [] then 0
    else if documents[0].id == id then 0
    else 1 + FirstIndex(documents[1..], id)
  }

  datatype TaskOutcome = TaskOutcome(response: ChatResponse, request: Option<seq<ChatMessage>>)

  /**
   * SummarizeDocumentAsync and ExtractKeyPointsAsync. The completion
   * service is called (`request` is what it is shown) exactly when the id
   * is not blank and some document has it; it is shown the task's system
   * turn and the task's instruction followed by the first such document's
   * content. Only a null reply is replaced by the fallback text; a blank
   * reply is returned trimmed, as the empty string.
   */
  function RunDocumentTask(task: DocumentTask, documentId: Option<string>, documents: seq<DocumentInfo>,
                           complete: seq<ChatMessage> -> Completion): (outcome: TaskOutcome)
    ensures outcome.request.None? <==>
              IsNullOrWhiteSpace(documentId) || forall j :: 0 <= j < |documents| ==> documents[j].id != documentId.value
    ensures IsNullOrWhiteSpace(documentId) ==> outcome.response == CreateError(DOCUMENT_ID_EMPTY)
    ensures !IsNullOrWhiteSpace(documentId) && outcome.request.None? ==> outcome.response == CreateError(DOCUMENT_NOT_FOUND)
    ensures outcome.request.Some? ==>
              && (exists k :: FirstMatch(documents, documentId.value, k)
                           && outcome.request.value == ExchangeFor(task, documents[k].content))
              && (outcome.response.success <==> !complete(outcome.request.value).Failed?)
              && (complete(outcome.request.value).Failed? ==> outcome.response == CreateError(FailureOf(task)))
              && (complete(outcome.request.value).NoContent? ==> outcome.response == CreateSuccess(FallbackOf(task), None))
              && (complete(outcome.request.value).Reply? ==>
                    outcome.response == CreateSuccess(Trim(complete(outcome.request.value).content), None))
  {
    if IsNullOrWhiteSpace(documentId) then TaskOutcome(CreateError(DOCUMENT_ID_EMPTY), None)
    else
      var k := FirstIndex(documents, documentId.value);
      if k == |documents| then TaskOutcome(CreateError(DOCUMENT_NOT_FOUND), None)
      else
        var request := ExchangeFor(task, documents[k].content);
        assert FirstMatch(documents, documentId.value, k);
        match complete(request)
        case Failed => TaskOutcome(CreateError(FailureOf(task)), Some(request))
        case NoContent => TaskOutcome(CreateSuccess(FallbackOf(task), None), Some(request))
        case Reply(text) => TaskOutcome(CreateSuccess(Trim(text), None), Some(request))
  }

  /** A document task never looks at the completion service's answer when
      the document is missing: the outcome is the same whatever it would
      have replied. */
  lemma NotFoundIgnoresService(task: DocumentTask, id: string, documents: seq<DocumentInfo>,
                               complete: seq<ChatMessage> -> Completion, other: seq<ChatMessage> -> Completion)
    requires !IsBlank(id)
    requires forall j :: 0 <= j < |documents| ==> documents[j].id != id
    ensures RunDocumentTask(task, Some(id), documents, complete) == RunDocumentTask(task, Some(id), documents, other)
    ensures RunDocumentTask(task, Some(id), documents, complete) == TaskOutcome(CreateError(DOCUMENT_NOT_FOUND), None)
  {
  }

  /** Unlike a question, a task returns a blank reply as an empty success
      rather than the fallback text. */
  lemma BlankReplyIsNotReplaced(task: DocumentTask, id: string, documents: seq<DocumentInfo>,
                                complete: seq<ChatMessage> -> Completion)
    requires !IsBlank(id) && exists k :: 0 <= k < |documents| && documents[k].id == id
    requires var exchange := ExchangeFor(task, documents[FirstIndex(documents, id)].content);
             complete(exchange).Reply? && IsBlank(complete(exchange).content)
    ensures RunDocumentTask(task, Some(id), documents, complete).response == CreateSuccess("", None)
  {
  }

  // ---------------------------------------------------------------------
  // The service
  // ---------------------------------------------------------------------

  lemma UpdateTwice<K, V>(m: map<K, V>, k: K, a: V, b: V)
    ensures m[k := a][k := b] == m[k := b]
  {
  }

  class SemanticKernelService {
    /** The per-user chat histories (`_conversations`). */
    var conversations: map<string, seq<ChatMessage>>

    ghost predicate Valid()
      reads this
    {
      ValidStore(conversations)
    }

    constructor()
      ensures Valid() && conversations == map[]
    {
      conversations := map[];
    }

    /** AskQuestionAsync: the store moves as Ask says. */
    method AskQuestion(userId: Option<string>, question: Option<string>, chunks: Option<seq<string>>,
                       complete: seq<ChatMessage> -> Completion) returns (response: ChatResponse)
      requires Valid()
      modifies this
      ensures Valid()
      ensures AskOutcome(conversations, response) == Ask(old(conversations), userId, question, chunks, complete)
    {
      AskKeepsStoreValid(conversations, userId, question, chunks, complete);
      if IsNullOrWhiteSpace(userId) {
        return CreateError(USER_ID_EMPTY);
      }
      if IsNullOrWhiteSpace(question) {
        return CreateError(QUESTION_EMPTY);
      }
      var context := ContextOf(chunks);
      var id := userId.value;
      if id !in conversations {
        conversations := conversations[id := SEED];
      }
      var chatHistory := conversations[id];
      var prompt := ComposePrompt(question.value, context);
      chatHistory := chatHistory + [ChatMessage(User, prompt)];
      UpdateTwice(old(conversations), id, SEED, chatHistory);
      conversations := conversations[id := chatHistory];
      assert conversations == old(conversations)[id := chatHistory];
      var reply := complete(chatHistory);
      if reply.Failed? {
        return CreateError(ASK_FAILED);
      }
      var answer := AnswerOf(reply);
      UpdateTwice(old(conversations), id, chatHistory, chatHistory + [ChatMessage(Assistant, answer)]);
      chatHistory := chatHistory + [ChatMessage(Assistant, answer)];
      conversations := conversations[id := chatHistory];
      response := CreateSuccess(answer, chunks);
    }

    /** SummarizeDocumentAsync; reads and writes no history. */
    method SummarizeDocument(documentId: Option<string>, documents: seq<DocumentInfo>,
                             complete: seq<ChatMessage> -> Completion)
      returns (response: ChatResponse, request: Option<seq<ChatMessage>>)
      ensures TaskOutcome(response, request) == RunDocumentTask(Summary, documentId, documents, complete)
    {
      response, request := RunTask(Summary, documentId, documents, complete);
    }

    /** ExtractKeyPointsAsync; reads and writes no history. */
    method ExtractKeyPoints(documentId: Option<string>, documents: seq<DocumentInfo>,
                            complete: seq<ChatMessage> -> Completion)
      returns (response: ChatResponse, request: Option<seq<ChatMessage>>)
      ensures TaskOutcome(response, request) == RunDocumentTask(KeyPoints, documentId, documents, complete)
    {
      response, request := RunTask(KeyPoints, documentId, documents, complete);
    }

    /** The steps the two document tasks share. */
    method RunTask(task: DocumentTask, documentId: Option<string>, documents: seq<DocumentInfo>,
                   complete: seq<ChatMessage> -> Completion)
      returns (response: ChatResponse, request: Option<seq<ChatMessage>>)
      ensures TaskOutcome(response, request) == RunDocumentTask(task, documentId, documents, complete)
    {
      request := None;
      if IsNullOrWhiteSpace(documentId) {
        return CreateError(DOCUMENT_ID_EMPTY), None;
      }
      var k := FirstIndex(documents, documentId.value);
      if k == |documents| {
        return CreateError(DOCUMENT_NOT_FOUND), None;
      }
      var document := documents[k];
      var prompt := InstructionOf(task) + document.content;
      var chatHistory := [ChatMessage(System, SystemPromptOf(task)), ChatMessage(User, prompt)];
      request := Some(chatHistory);
      var reply := complete(chatHistory);
      match reply {
        case Failed => response := CreateError(FailureOf(task));
        case NoContent => response := CreateSuccess(FallbackOf(task), None);
        case Reply(text) => response := CreateSuccess(Trim(text), None);
      }
    }

    /** ClearConversation. */
    method ClearConversation(userId: Option<string>)
      requires Valid()
      modifies this
      ensures Valid()
      ensures conversations == ClearOne(old(conversations), userId)
    {
      if !IsNullOrWhiteSpace(userId) && userId.value in conversations {
        conversations := conversations - {userId.value};
      }
    }

    /** ClearAllConversations. */
    method ClearAllConversations()
      modifies this
      ensures Valid() && conversations == map[]
    {
      conversations := map[];
    }
  }
}
