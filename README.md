# Enterprise RAG system — conversational core in Dafny

The system answers questions about uploaded documents. This model covers its
three pieces of plain logic:

- **The document chunker.** At indexing time it cuts a document's text into
  windows of 1000 words. Each window becomes a numbered `DocumentChunk`.
- **The question-answering orchestrator, `SemanticKernelService`.**
  - It keeps one chat history per user in a dictionary.
  - It builds a retrieval-augmented prompt from the chunks a search returned.
  - It records the user turn, asks the chat-completion service, and records
    the normalised answer as an assistant turn.
  - It can summarise a document or extract its key points. Each is a
    one-shot exchange that never touches the per-user histories.
- **The `ChatResponse` result record and its two factories.** Every
  orchestrator operation answers through them.

Modules:

- `Text` models the .NET string pieces the code relies on, over characters:
  - nullable references, as `Option`;
  - `Char.IsWhiteSpace` and `String.IsNullOrWhiteSpace`;
  - `Trim`;
  - `String.Join`;
  - `String.Split(' ', RemoveEmptyEntries)`.
- `Models` holds `ChatResponse`, `CreateSuccess` and `CreateError`.
- `VectorStore` holds `DocumentInfo`, `DocumentChunk` and the `CreateChunks`
  method.
- `SemanticKernel` holds chat messages, the prompt templates, and pure
  transition functions that specify each operation:
  - `Ask` for a question;
  - `ClearOne` for clearing one user;
  - `RunDocumentTask` for summaries and key points.

  It also holds the class `SemanticKernelService`. Its field `conversations`
  is the `_conversations` dictionary, and its methods update that field in
  place. Each method is proved to move the store as its transition function
  says, and to keep the store invariant `Valid()`. Under that invariant:
  - every history starts with the one system turn;
  - no later turn is a system turn;
  - every assistant turn is a non-blank answer that directly follows a user
    turn.

How external results enter the model:

- The search result and the document list are parameters. A null search
  result is `None`.
- The completion service is a function parameter
  `complete: seq<ChatMessage> -> Completion`. It maps the history it is shown
  to one of three outcomes:
  - `Reply(text)`;
  - `NoContent`, for a null response or null content;
  - `Failed`, for an exception.
- The document tasks return the history they showed the service, or `None`
  when they did not call it. That makes "the service is never called"
  something the model can state.

Three behaviours of the code are stated as they are written:

- **The chunker splits on the space character only.** A tab or line break
  stays inside a word (`Text.Words`, `Text.OneWordWithoutSpaces`).
- **A failed completion leaves the user turn in the history.** Nothing is
  rolled back, and no per-user lock is taken.
- **Document tasks replace only a null reply.** Summaries and key points use
  `?.Trim() ?? fallback`, so a blank reply comes back as an empty successful
  answer, not the fallback text (`BlankReplyIsNotReplaced`). A question, by
  contrast, replaces any blank answer with the apology.

## Model

| member | source | states |
|---|---|---|
| Text.Trim | Services/SemanticKernelService.cs:69 | The result is the part of the input left between blank runs at both ends (`TrimsTo`). When it is not empty, its first and last characters are not white space. It is empty exactly when the input is blank, so it is never blank unless empty. |
| Text.JoinBlank | Services/SemanticKernelService.cs:40 | Joining with a blank separator gives a blank string exactly when every part is blank. |
| Text.Words | Services/VectorStoreService.cs:197 | Every entry of the split is a non-empty string without the space character. |
| Text.WordsKeepCharacters | Services/VectorStoreService.cs:197 | The words, concatenated, are the input with its spaces removed; no other character is lost or changed. |
| Text.NoWords | Services/VectorStoreService.cs:197 | The split is empty exactly when the input consists of spaces only. The empty input is included. |
| Text.WordsSplitAtSpace | Services/VectorStoreService.cs:197 | Every space separates: the split of two strings joined by a space is the split of the first followed by the split of the second, so words on either side of one or more spaces are never merged. With `NoWords` and `OneWordWithoutSpaces` this pins the split down completely. |
| Text.OneWordWithoutSpaces | Services/VectorStoreService.cs:197 | A run without the space character splits into itself alone, even when it holds tabs or line breaks. |
| Text.WordsOfJoin | Services/VectorStoreService.cs:201-202 | Splitting words joined with single spaces gives back exactly those words. |
| Text.JoinWellSpaced | Services/VectorStoreService.cs:202 | One or more words joined with single spaces give a non-empty string. It has no leading, trailing or doubled space. |
| VectorStore.JoinWindow | Services/VectorStoreService.cs:201-202 | The content made from a window is well spaced. It splits back into that window. It extends the words covered so far. |
| VectorStore.NextChunk | Services/VectorStoreService.cs:199-208 | The chunk cut at word `i` is chunk number `i / 1000` of the document. Appending it keeps every chunk in place and covers the next window. |
| VectorStore.WindowSizes | Services/VectorStoreService.cs:199-201 | When n windows cover all the words, n = ceil(W/1000). Every window but the last holds 1000 words; the last holds 1 to 1000. |
| VectorStore.AllChunks | Services/VectorStoreService.cs:199-201 | Chunks that cover all the words, one window each, have CreateChunks' count, numbering, ids, contents and sizes. |
| VectorStore.CreateChunks | Services/VectorStoreService.cs:193-213 | There are ceil(W/1000) chunks, W being the number of space-separated words, so empty or all-space content gives none; content made only of tabs or line breaks is one word (`Text.OneWordWithoutSpaces`). Chunk k has number k and the given document id. Its content is well spaced and splits into words k·1000 onward, at most 1000. All chunks but the last hold 1000 words; the last holds 1 to 1000. The chunks' words in order are the document's words. |
| Models.CreateSuccess | Models/ChatResponse.cs:10-18 | Success is true and the response is the given one. Sources are the given list, or empty for null. The error message stays empty. |
| Models.CreateError | Models/ChatResponse.cs:20-28 | Success is false, the response is empty, the error message is the given one and sources stay empty. |
| SemanticKernel.ContextOf | Services/SemanticKernelService.cs:40 | The chunks joined with blank lines, null counting as none. The context is blank exactly when every chunk is blank, and empty when there are no chunks. |
| SemanticKernel.ComposePrompt | Services/SemanticKernelService.cs:56-59 | The prompt starts with "Context:\n" exactly when the context is not blank, and then quotes the context verbatim right after that head. It always ends with "Question: ", the question, and the instruction of the template the context selected. |
| SemanticKernel.AnswerOf | Services/SemanticKernelService.cs:69-73 | A reply with non-blank content gives the trimmed reply. A null or blank reply gives the apology. The answer is never blank. |
| SemanticKernel.HistoryWellFormed | Services/SemanticKernelService.cs:43-53 | In a valid store, the history a question continues is well formed and holds exactly one system turn. A new user gets a fresh history holding the system turn alone. |
| SemanticKernel.OneSystemTurn | Services/SemanticKernelService.cs:45-49 | A history kept by the service holds exactly one system turn. |
| SemanticKernel.Ask | Services/SemanticKernelService.cs:28-84 | A blank user id or question gives its error and leaves the store unchanged. Otherwise only that user's history changes: it becomes the request, i.e. the old or seeded history plus the prompt as a user turn. The call succeeds exactly when the service does not fail. On failure the user turn stays and the generic error is returned. On success the answer (`AnswerOf`, never blank) is appended and returned with the raw chunks as sources. |
| SemanticKernel.ExtendWellFormed | Services/SemanticKernelService.cs:63-75 | Appending a user turn, or a non-blank assistant turn after a user turn, keeps a history well formed. |
| SemanticKernel.AskKeepsStoreValid | Services/SemanticKernelService.cs:43-75 | Asking, successful or not, keeps every stored history well formed and every key a non-blank id. |
| SemanticKernel.AskAppendsTwo | Services/SemanticKernelService.cs:63-75 | A successful question appends exactly two turns to that user's history: the prompt as a user turn, then the answer as an assistant turn. |
| SemanticKernel.FirstAskSeeds | Services/SemanticKernelService.cs:43-53 | A new user's first question yields a history that starts with the system turn and the question's user turn, and holds exactly one system turn. |
| SemanticKernel.AskTwice | Services/SemanticKernelService.cs:43-53 | Two successful questions in a row extend the user's history by exactly four turns, in order: question, answer, question, answer. No system turn is added, so the history is reused and never reseeded. |
| SemanticKernel.ClearOne | Services/SemanticKernelService.cs:163-170 | A blank id changes nothing. Otherwise exactly that key is removed (an unknown key changes nothing) and every other history is kept as it was. |
| SemanticKernel.ClearThenAskStartsFresh | Services/SemanticKernelService.cs:165-167 | After a user's conversation is cleared, their next question has the outcome it would have for a user never seen before. |
| SemanticKernel.NoContextStillAnswers | Services/SemanticKernelService.cs:56-57 | When the search gives no usable context, the question-only prompt is recorded and the question is still answered. This covers a null result, no chunks, or only blank chunks. |
| SemanticKernel.RefundPolicyExample | Services/SemanticKernelService.cs:38-77 | Example: one retrieved sentence is quoted verbatim in a context-template prompt, right after "Context:\n". On success it is returned as the first source. |
| SemanticKernel.FirstIndex | Services/SemanticKernelService.cs:97 | The position of the first document with the id, or the list length exactly when no document has it. |
| SemanticKernel.RunDocumentTask | Services/SemanticKernelService.cs:89-121 | The service is called exactly when the id is not blank and some document has it. A blank id gives "DocumentId cannot be empty." and a missing document "Document not found.". The service is shown the task's system turn, then the task's instruction followed by the first matching document's content. A failure gives the task's error. A null reply gives the fallback text. A reply gives its trimmed text, with no sources. |
| SemanticKernel.NotFoundIgnoresService | Services/SemanticKernelService.cs:96-100 | For a missing document the outcome is "Document not found." whatever the service would answer. |
| SemanticKernel.BlankReplyIsNotReplaced | Services/SemanticKernelService.cs:111-114 | A blank reply to a document task is returned as an empty success, not as the fallback text. |
| SemanticKernel.SemanticKernelService.constructor | Services/SemanticKernelService.cs:14-23 | The service starts with no conversations and a valid store. |
| SemanticKernel.SemanticKernelService.AskQuestion | Services/SemanticKernelService.cs:28-84 | Seeds, appends and stores the history step by step. The store and the returned response are exactly `Ask` of the old store, and the store stays valid. |
| SemanticKernel.SemanticKernelService.RunTask | Services/SemanticKernelService.cs:93-114 | Builds the two-turn exchange and calls the service. The response and the request shown are exactly `RunDocumentTask`'s. |
| SemanticKernel.SemanticKernelService.SummarizeDocument | Services/SemanticKernelService.cs:89-121 | The response is `RunDocumentTask` for a summary. The method modifies nothing, so the conversations are untouched. |
| SemanticKernel.SemanticKernelService.ExtractKeyPoints | Services/SemanticKernelService.cs:126-158 | The response is `RunDocumentTask` for key points. The method modifies nothing, so the conversations are untouched. |
| SemanticKernel.SemanticKernelService.ClearConversation | Services/SemanticKernelService.cs:163-170 | The store becomes `ClearOne` of the old store and stays valid. |
| SemanticKernel.SemanticKernelService.ClearAllConversations | Services/SemanticKernelService.cs:175-179 | The store becomes empty, which is valid. |

## Left out

- Elasticsearch operations are represented only by their results:
  - `InitializeIndices`, `IndexDocumentAsync` and `DeleteDocumentAsync` are not modelled.
  - `SearchSimilarChunksAsync` and `GetAllDocumentsAsync` become the `chunks` and `documents` parameters. Both catch their own errors and return an empty list, which the parameters can express.
- The chat-completion service is the `complete` function parameter. The prompt-execution settings it would receive are not modelled.
- Dependency injection is not modelled. Neither are the constructor's `ArgumentNullException` checks on the kernel, store and logger, which the model does not hold.
- Logging, `DateTime` timestamps (`UploadedAt` is an integer stand-in) and async/await are left out. The service is a sequence of method calls.
- Concurrency is left out. The dictionary is unsynchronised in the code too.
- `ChatHistory` objects shared by reference are modelled as values stored in the map. The code appends to the history object the map holds; the model stores the extended sequence back under the same key. No other code holds a reference to a history, so the outcome is the same.
- Null members are not modelled: null document content, null chunk strings in a search result (which `String.Join` would treat as empty), or a null document in the list.
- `SemanticKernel.SemanticKernelService.AskQuestion`: an exception thrown by the search call itself is not modelled. The search result is a parameter, and the store method catches its own errors.
- `VectorStore.CreateChunks`: the 32-bit `int` loop counter and `ChunkNumber` are unbounded integers. They could only overflow for documents of more than 2^31 − 1000 words.
- `DocumentService`, the HTTP controller, the error-handling middleware, program start-up and the DTOs are not part of this model.
