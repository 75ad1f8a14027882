# Smart Librarian — a Dafny model of its deterministic core

Smart Librarian recommends books. It searches a Chroma collection of book
summaries for a question, renders the best hits as a `BOOK_CONTEXT` block,
asks a chat model to pick one book, and returns the model's answer together
with the book's full summary. The summary comes either from the model's own
call to the `get_summary_by_title` tool or from a fallback that looks up the
top result.

This project models the code around those services. The services
themselves (the embedding and chat API, and the vector store's similarity
search) are inputs. Four modules follow the four Python files:

- `Tools` (`tools.dfy`) covers `smart_librarian/tools.py`.
  - The title → full-summary dict is built from the catalog. It is a key
    sequence in insertion order plus a map.
  - The lookup tool tries an exact key whose summary is non-empty, then
    searches case-insensitively over the keys in dict order, then falls back
    to a not-found message.
- `VectorStore` (`vector_store.dfy`) covers `smart_librarian/vector_store.py`.
  - The collection is a class whose entries `add` appends and whose
    delete-and-recreate empties it.
  - `index_books` derives the id, document and metadata of every book.
  - `semantic_search` turns the store's parallel answer lists into uniform
    results, padding short lists.
- `Rag` (`rag.dfy`) covers `smart_librarian/rag.py`.
  - The numbered context block is rendered, and a result without a title
    raises `KeyError`.
  - The build-or-load rule re-indexes exactly when a rebuild is asked for
    or the collection is empty.
- `AppCli` (`app_cli.dfy`) covers `smart_librarian/app_cli.py`.
  - `mask_key` masks an API key.
  - `run_chat_once` has two branches:
    - The tool branch sends a follow-up request with one tool message per
      call to the tool.
    - The fallback branch appends the top result's summary.
  - `interactive_loop` reads lines. It skips blank lines, stops at
    `exit`/`quit` in any case, and answers everything else. A failing
    question is reported and the loop goes on.

Two more modules hold helpers:

- `Common` (`common.dfy`) holds `Option`, and `Result` with the Python
  exceptions that the modelled code raises: `KeyError`, `IndexError` and
  `TypeError`.
- `Text` (`text.dfy`) holds the Python string operations used here:
  - `str.join`;
  - `{n:03d}` and reading it back;
  - `str.strip()` over the characters for which `str.isspace()` holds;
  - slices with Python's clamping.

The world is passed in as parameters:

- The catalog is a `seq<Book>`.
- The store's answer to a query is a `QueryResponse`.
- The chat model's replies are `ModelReply` values: optional text plus tool
  calls whose arguments are already decoded.
- Python's `str.lower()` is the parameter `lower`.
- The lines typed at the prompt are a `seq<string>`.
- The world's answers for the n-th question asked are `turns(n)`.

What the program sends to the chat model is part of the result. An
`Exchange` records the requests made and the answer returned.

## Model

| member | source | states |
|---|---|---|
| Tools.Insert | smart_librarian/tools.py:27 | `d[k] = v`: an existing key gets the new value and keeps its place; a new key goes after all others |
| Tools.BuildTable | smart_librarian/tools.py:27 | `{b.title: b.full_summary for b in books}`: the books inserted one after the other in catalog order, title as key and full summary as value |
| Tools.InsertKeepsDict | smart_librarian/tools.py:27 | `d[k] = v` keeps a dict a dict: the old keys keep their order with at most the new key after them, k maps to v, every other key keeps its value and no other key appears |
| Tools.BuildTableValid | smart_librarian/tools.py:27 | the table built from any catalog is a well-formed dict: distinct keys, and the key order and the map hold the same keys |
| Tools.BuildTableHasTitles | smart_librarian/tools.py:27 | every catalog title is a key of the table |
| Tools.BuildTableOnlyTitles | smart_librarian/tools.py:27 | every key of the table is the title of some catalog book |
| Tools.BuildTableLastWins | smart_librarian/tools.py:27 | with duplicate titles, a title maps to the full summary of the last book that carries it |
| Tools.LastTitleSeen | smart_librarian/tools.py:27 | the last book's title is already a key of the table built from the books before it exactly when it occurs earlier in the catalog |
| Tools.BuildTableOrder | smart_librarian/tools.py:27 | the keys iterate in the order of their titles' first occurrence in the catalog |
| Tools.IndexOfTitle | smart_librarian/tools.py:27 | position of the first book with a title: that book has it and none before does; the catalog length when absent |
| Tools.NotFoundMessage | smart_librarian/tools.py:42 | the not-found reply contains the requested title at a fixed place and has a fixed length around it |
| Tools.FirstCaseInsensitive | smart_librarian/tools.py:39-41 | the first key, in dict order, whose lower-case form equals the title's; none when no key has it |
| Tools.Lookup | smart_librarian/tools.py:30-42 | an exact key with a non-empty summary gives that summary; otherwise the first key equal up to case gives its value; otherwise the not-found message naming the title; the result is always a table value or that message |
| Tools.LookupCaseInsensitive | smart_librarian/tools.py:39-41 | two titles with the same lower-case form, neither an exact hit, get the same result when some key matches them |
| Tools.CatalogTitleResolves | smart_librarian/tools.py:27-42 | every catalog title is found by the exact key or by a key equal up to case, so it never takes the not-found branch and resolves to a table value; a title whose last book has a non-empty summary resolves to exactly that summary |
| Tools.GetSummaryByTitle | smart_librarian/tools.py:30-42 | the exact lookup and the early-return linear search over the keys compute `Lookup`; the table is a value and is left unchanged |
| Text.JoinLength | smart_librarian/rag.py:38 | n parts joined by a separator are as long as the parts plus n - 1 separators |
| Text.JoinSnoc | smart_librarian/rag.py:38 | joining one more part appends one separator and that part |
| Text.NatToString | smart_librarian/vector_store.py:45 | the decimal text of a number is at least one digit, all digits, with no leading zero |
| Text.NatToStringRoundTrip | smart_librarian/vector_store.py:45 | the decimal text of n reads back to n |
| Text.Pad3 | smart_librarian/vector_store.py:45 | `{n:03d}` is all digits, three of them or as many as the decimal text when that is longer |
| Text.Pad3RoundTrip | smart_librarian/vector_store.py:45 | `{n:03d}` reads back to n |
| Text.StripEmpty | smart_librarian/app_cli.py:180-185 | `strip()` leaves nothing exactly when the line is all white space |
| Text.StripIsInfix | smart_librarian/app_cli.py:180 | `strip()` keeps an infix of the line with only white space cut around it |
| Text.PyPrefix | smart_librarian/app_cli.py:53 | `s[:n]` is the first min(n, len(s)) characters |
| Text.PySuffix | smart_librarian/app_cli.py:53 | `s[-n:]` is the last min(n, len(s)) characters |
| VectorStore.Collection.constructor | smart_librarian/vector_store.py:31-35 | a newly created collection is empty |
| VectorStore.Collection.Add | smart_librarian/vector_store.py:59 | one batch is appended after the existing entries, position by position |
| VectorStore.Collection.Reset | smart_librarian/vector_store.py:20-24 | deleting and recreating the collection leaves it empty |
| VectorStore.BookId | smart_librarian/vector_store.py:45 | the id of the book at 0-based position i: `book-`, then i + 1 as `{:03d}`, then `-`, then the title |
| VectorStore.BookDocument | smart_librarian/vector_store.py:46-50 | the embedded text: `Titlu: <title>\nTeme: <themes joined by ", ">\nRezumat scurt: <short summary>\n` |
| VectorStore.BookMetadata | smart_librarian/vector_store.py:51-55 | the metadata has exactly the keys `title` and `themes`; `title` is the book's title and `themes` its themes joined by `, ` |
| VectorStore.IndexRecord | smart_librarian/vector_store.py:44-56 | the entry of the book at 0-based position i: its `BookId`, its `BookDocument` and its `BookMetadata` |
| VectorStore.IndexedRecords | smart_librarian/vector_store.py:44-56 | one entry per book, in catalog order, whose metadata title is that book's title |
| VectorStore.BookIdRoundTrip | smart_librarian/vector_store.py:45 | the id of the i-th book reads back as `book-`, the ordinal i + 1 with at least three digits, `-`, and the title |
| VectorStore.IndexedIdsDistinct | smart_librarian/vector_store.py:44-45 | two books of one catalog never share an id, even when their titles are equal |
| VectorStore.IndexBooks | smart_librarian/vector_store.py:39-59 | the loop builds the three lists and the collection grows by exactly the catalog's entries in order; an empty catalog adds nothing |
| VectorStore.FirstList | smart_librarian/vector_store.py:69-72 | `res.get(key, [[]])[0] or []`: an absent key gives the empty list; a key holding None raises TypeError; an empty list of lists raises IndexError; a first list that is None gives the empty list; otherwise that first list |
| VectorStore.ResultAt | smart_librarian/vector_store.py:76-82 | result i: id i or None, document i, metadata i or `{}`, distance i or None, and score 1 - distance when there is a distance, else None |
| VectorStore.Normalised | smart_librarian/vector_store.py:74-83 | one result per returned document, in order; where a list is short: id None, metadata `{}`, distance None; the score is defined exactly when the distance is, and is then 1 - distance |
| VectorStore.SearchResults | smart_librarian/vector_store.py:69-84 | the answer is normalised exactly when all four lists can be read, and then has one result per document |
| VectorStore.MissingKeysAreEmpty | smart_librarian/vector_store.py:69-72 | keys absent from the answer behave as empty lists |
| VectorStore.SemanticSearch | smart_librarian/vector_store.py:62-84 | the indexed loop computes `SearchResults`, raising exactly when a list cannot be read |
| Rag.ContextEntry | smart_librarian/rag.py:37 | the block of rank r: `[<r>] Titlu: <title>\n<document>`, the rank written in decimal |
| Rag.ContextLines | smart_librarian/rag.py:32-37 | block r, counted from 1 in input order, is `[r] Titlu: <title>` plus a newline and the document; a result without a title raises `KeyError('title')`, and only then |
| Rag.Context | smart_librarian/rag.py:28-38 | the blocks are joined by the separator line; no results give the empty text; it fails exactly when the blocks do |
| Rag.ContextSnoc | smart_librarian/rag.py:33-38 | one more result adds one separator and one block, ranked after all the others |
| Rag.ContextLength | smart_librarian/rag.py:38 | n results give n - 1 separators |
| Rag.RetrievedContextSnippets | smart_librarian/rag.py:28-38 | the accumulating loop, with its early `KeyError`, computes `Context` |
| Rag.Reindexes | smart_librarian/rag.py:22 | the catalog is indexed exactly when a rebuild is asked for or the collection holds no entry |
| Rag.StoreAfter | smart_librarian/rag.py:20-25 | a rebuild leaves exactly the catalog's entries; without a rebuild a non-empty store is untouched; an empty store gets the catalog's entries |
| Rag.StoreAfterIdempotent | smart_librarian/rag.py:22-25 | loading again without a rebuild changes nothing |
| Rag.RebuildHoldsCatalog | smart_librarian/rag.py:21-24 | after a rebuild the collection holds one entry per catalog record, in order, with distinct ids, whatever it held before |
| Rag.IndexedTitlesResolve | smart_librarian/rag.py:22-24 | every title stored by indexing resolves through the summary table built from the same catalog |
| Rag.BuildOrLoadStore | smart_librarian/rag.py:20-25 | the collection after the call is `StoreAfter` of the collection before it |
| Rag.OpenFreshStore | smart_librarian/rag.py:20-25 | loading into a newly created collection indexes the catalog, with or without a rebuild, and the collection then holds exactly the catalog's entries |
| AppCli.MaskKey | smart_librarian/app_cli.py:49-54 | `(none)` for a missing or empty key; up to 12 characters: the first min(4, n), `...`, then the last min(2, n); longer keys: exactly 13 characters, the first 6, `...`, the last 4 |
| AppCli.MaskShowsShortKey | smart_librarian/app_cli.py:52-53 | a key of at most four characters appears in full before the ellipsis |
| AppCli.UserContent | smart_librarian/app_cli.py:111-114 | the user message is as long as its parts and the question and the context read back from their places |
| AppCli.ToolReplies | smart_librarian/app_cli.py:130-142 | at most one reply per call, each a tool message named `get_summary_by_title` |
| AppCli.ToolRepliesAllMatching | smart_librarian/app_cli.py:130-142 | when every call names the tool, reply i answers call i with its id and the lookup of its title |
| AppCli.ToolRepliesNoneMatching | smart_librarian/app_cli.py:131 | calls naming another tool get no reply |
| AppCli.ToolRepliesAppend | smart_librarian/app_cli.py:130-142 | the replies to two batches of calls are the replies to each, in order |
| AppCli.FollowupMessages | smart_librarian/app_cli.py:129-142 | the loop builds the first messages, then the assistant reply, then `ToolReplies` |
| AppCli.FallbackSummary | smart_librarian/app_cli.py:152-153 | the summary shown without tool calls: `(Nu există rezultate)` when there is no result or the top title is empty, else the lookup of the top title |
| AppCli.Conversation | smart_librarian/app_cli.py:103-154 | an exchange takes place exactly when the search answer and the context can be read; a search failure raises its own exception, any other failure is `KeyError('title')` |
| AppCli.FirstRequestSent | smart_librarian/app_cli.py:109-123 | the first request is the system prompt and `Întrebare: <q>` plus `BOOK_CONTEXT` and the context, with the tool offered |
| AppCli.ToolBranch | smart_librarian/app_cli.py:128-149 | with tool calls, the first request offers the tool and a second one does not; the second request is the first request's messages, the model's reply, then `ToolReplies` (calls to other tools skipped); the answer is the second reply's text or empty |
| AppCli.ToolBranchAllMatching | smart_librarian/app_cli.py:130-142 | when every call names the tool, call i is answered at position 3 + i of the second request with its id and the lookup of its title |
| AppCli.FallbackBranch | smart_librarian/app_cli.py:150-154 | without tool calls there is only the first request, and the answer is the text, the heading, then `(Nu există rezultate)` when there is no result or the top title is empty, else the lookup of the top title (the not-found message when the table does not know it) |
| AppCli.FallbackWithoutResults | smart_librarian/app_cli.py:150-154 | with no results and no tool call, the answer is the text, the heading and `(Nu există rezultate)` |
| AppCli.FallbackShowsTopBook | smart_librarian/app_cli.py:150-154 | with no tool call, when the top result's title is that of catalog book i, book i is the last book with that title, and both the title and its full summary are non-empty, the answer ends with that full summary |
| AppCli.RunChatOnce | smart_librarian/app_cli.py:103-154 | builds or loads the store as `StoreAfter` states, then returns exactly the `Conversation` exchange or its exception |
| AppCli.Classify | smart_librarian/app_cli.py:180-188 | a line is stripped; nothing left means skip; a stripped line whose lower-case form is `exit` or `quit` means leave; any other stripped line is asked |
| AppCli.ClassifyBlank | smart_librarian/app_cli.py:180-185 | a line is skipped exactly when it is all white space; a question is the stripped line |
| AppCli.Questions | smart_librarian/app_cli.py:178-188 | the questions asked up to the first exit line are never empty and never an exit word |
| AppCli.QuestionsSplit | smart_librarian/app_cli.py:178-188 | the questions asked so far and those still to come make up all the questions, line by line |
| AppCli.NothingAfterExit | smart_librarian/app_cli.py:186-188 | no line after an exit line is ever asked |
| AppCli.Outcome | smart_librarian/app_cli.py:189-195 | what a question prints: the answer of its exchange, or the exception the exchange raised |
| AppCli.Answers | smart_librarian/app_cli.py:189-195 | what the questions print: output k is the outcome of question k with turn k of the world |
| AppCli.Transcript | smart_librarian/app_cli.py:178-195 | everything the loop prints: the answers to `Questions(lines)`, then one goodbye |
| AppCli.AnswerQuestion | smart_librarian/app_cli.py:189-195 | a question is answered without a rebuild; the answer is shown or the exception is reported |
| AppCli.PrintAnswer | smart_librarian/app_cli.py:189-195 | the outcome of a question is printed after those of the questions before it |
| AppCli.AnswerLines | smart_librarian/app_cli.py:178-195 | the loop, with its continue and break, prints the answers to exactly `Questions`; the store is loaded at the first question and then left as it is |
| AppCli.InteractiveLoop | smart_librarian/app_cli.py:178-195 | everything printed is `Transcript`: the outcome of the k-th question with the k-th turn of the world, for every question asked, then one goodbye; the store ends as loaded by the first question, or untouched if none is asked |

## Left out

- The services:
  - the OpenAI chat and embedding calls;
  - the Chroma client, its similarity search, and `get_chroma_collection`'s client set-up;
  - `health_check`, `load_dotenv` and the environment reads;
  - the FastAPI wrapper (`backend/api_server.py`) and the web frontend.
  These are network or process I/O. Their results are parameters.
- `load_data` and `_load_books` are left out because they are file I/O and JSON parsing. The catalog is a parameter, and `tools.py` and `rag.py` are taken to read the same file.
- JSON decoding of tool-call arguments is left out. The title is taken as an already decoded string.
- A missing `title` argument is not modelled. It would make the lookup raise `AttributeError` at `title.lower()` when the table is not empty.
- Python's `str.lower()` is the parameter `lower`, because Unicode case mapping is out of scope.
- Distances and scores are `real`. The rounding of float `1 - d` is not modelled.
- A distance that is not a number is not modelled. Every distance is a number, so "score defined exactly when distance is numeric" becomes "score defined exactly when a distance is present".
- `None` entries inside the result lists are not modelled. Metadata values are strings.
- A failure of `delete_collection` is swallowed by the source. The model's reset always succeeds.
- The store query's `k`, the chat `model` name, `temperature` and `tool_choice` are not recorded. A `Request` records only the messages and whether the tool is offered.
- Exceptions raised inside the chat or store services during a turn are not modelled. The only exceptions modelled are those of the modelled code: `KeyError`, `IndexError` and `TypeError`.
- The loop's console output is left out: the banner, the `--- Răspuns ---` framing, and the leading newline printed before the goodbye when input ends. An `Output` records which event happened, not the text around it.
- The `--health` command-line flag is not modelled. With it, `interactive_loop` runs the health check and returns before reading any line. The health check is network I/O.
- A `KeyboardInterrupt` at the prompt ends input like end of file. It is the end of the line sequence.
- Tools.LookupCaseInsensitive: needs the premise that some key matches the two titles. Without one, each title gets a not-found message that names itself, so the two results differ.
- Lookup never modifying the table is not a separate lemma. The table is an immutable value, and `GetSummaryByTitle` has no `modifies` clause.
- Concurrent use of the lazily built store by the HTTP server is left out.
