/** The command-line front end (smart_librarian/app_cli.py): masking of the
    API key, one question-and-answer exchange with the chat model, and the
    read-classify-answer loop.

    The chat service is not modelled: each of its replies is an input
    (`ModelReply`), and the requests the program sends are part of the
    result, so that what is sent can be stated.  The vector store's answer
    to the query is an input as well (`QueryResponse`). */
module AppCli {
  import opened Common
  import opened Text
  import opened Tools
  import opened VectorStore
  import opened Rag

  // ---------------------------------------------------------------------
  // mask_key

  const NoKey: string := "(none)"
  const Ellipsis: string := "..."

  /** `mask_key(k)`: "(none)" for a missing or empty key; a key of at most
      12 characters shows its first 4 and last 2 characters (with Python's
      clamping for shorter keys); a longer key shows its first 6 and last 4,
      always 13 characters in all. */
  function MaskKey(k: Option<string>): (m: string)
    ensures k.None? || k.value == [] ==> m == NoKey
    ensures k.Some? && 0 < |k.value| <= 12 ==>
      && |m| == Min(4, |k.value|) + 3 + Min(2, |k.value|)
      && m[..Min(4, |k.value|)] == k.value[..Min(4, |k.value|)]
      && m[Min(4, |k.value|)..Min(4, |k.value|) + 3] == Ellipsis
      && m[Min(4, |k.value|) + 3..] == k.value[|k.value| - Min(2, |k.value|)..]
    ensures k.Some? && |k.value| > 12 ==>
      && |m| == 13
      && m[..6] == k.value[..6]
      && m[6..9] == Ellipsis
      && m[9..] == k.value[|k.value| - 4..]
  {
    match k
    case None => NoKey
    case Some(s) =>
      if |s| == 0 then NoKey
      else if |s| <= 12 then
        var head := PyPrefix(s, 4);
        var tail := PySuffix(s, 2);
        var m := head + Ellipsis + tail;
        assert m[..|head|] == head;
        assert m[|head|..|head| + 3] == Ellipsis;
        assert m[|head| + 3..] == tail;
        m
      else
        var head := s[..6];
        var tail := s[|s| - 4..];
        var m := head + Ellipsis + tail;
        assert m[..6] == head;
        assert m[6..9] == Ellipsis;
        assert m[9..] == tail;
        m
  }

  /** A key of at most four characters is shown in full before the ellipsis:
      the mask hides nothing of it. */
  lemma {:induction false} MaskShowsShortKey(k: string)
    requires 0 < |k| <= 4
    ensures MaskKey(Some(k))[..|k|] == k
    ensures |MaskKey(Some(k))| > |k|
  {
    var m := MaskKey(Some(k));
    assert Min(4, |k|) == |k|;
    assert k[..|k|] == k;
  }

  // ---------------------------------------------------------------------
  // The chat exchange

  /** The instructions sent as the system message of every first request. */
  const SystemPrompt: string :=
    "Ești Smart Librarian, un bibliotecar AI.\n"
    + "Primești întrebări de la utilizatori despre ce cărți ar trebui să citească.\n"
    + "Ai acces la un \"BOOK_CONTEXT\" (rezultatele unui retriever semantic) și la un tool numit get_summary_by_title(title).\n"
    + "Sarcina ta:\n"
    + "1) Alege o singură carte din BOOK_CONTEXT care se potrivește cel mai bine întrebării.\n"
    + "2) Explică pe scurt de ce ai ales acea carte (2–4 propoziții).\n"
    + "3) Apelează tool-ul get_summary_by_title EXACT cu titlul ales (o singură chemare).\n"
    + "4) În răspunsul final, afișează titlul recomandat, motivarea, apoi secțiunea „Rezumat complet” cu conținutul returnat de tool.\n"
    + "IMPORTANT:\n"
    + "- Dacă BOOK_CONTEXT nu conține o potrivire bună, alege totuși cea mai apropiată și explică ipoteza.\n"
    + "- Nu inventa titluri care nu apar în BOOK_CONTEXT.\n"
    + "- Chemarea către tool trebuie să aibă exact parametrul: title=<titlul selectat>.\n"
    + "- Scrie în limba română.\n"

  /** The one tool offered to the model. */
  const ToolName: string := "get_summary_by_title"

  const QuestionLabel: string := "Întrebare: "
  const ContextLabel: string := "\n\nBOOK_CONTEXT:\n"
  const SummaryHeading: string := "\n\n**Rezumat complet**\n"
  const NoResults: string := "(Nu există rezultate)"

  /** A tool call requested by the model; its arguments are taken as already
      decoded into the requested title. */
  datatype ToolCall = ToolCall(id: string, name: string, title: string)

  /** The assistant message of a completion: optional text and the tool calls
      (none, when the model answered directly). */
  datatype ModelReply = ModelReply(content: Option<string>, toolCalls: seq<ToolCall>)

  /** A chat message by role; the system message always carries the fixed
      `SystemPrompt` (see `Content`). */
  datatype Message =
    | SystemMessage
    | UserMessage(content: string)
    | AssistantMessage(reply: ModelReply)
    | ToolMessage(toolCallId: string, name: string, content: string)

  /** The text a message sends (an assistant message without text sends none). */
  function Content(m: Message): string {
    match m
    case SystemMessage => SystemPrompt
    case UserMessage(c) => c
    case AssistantMessage(reply) => reply.content.GetOr("")
    case ToolMessage(_, _, c) => c
  }

  /** One call of the chat service: the messages, and whether the tool list
      is offered (only the first request offers it). */
  datatype Request = Request(messages: seq<Message>, offersTool: bool)

  /** What one exchange sent to the chat service and what it answered. */
  datatype Exchange = Exchange(requests: seq<Request>, answer: string)

  /** The user message: the question, then the retrieved context, each
      readable back from its place. */
  function UserContent(question: string, context: string): (u: string)
    ensures |u| == |QuestionLabel| + |question| + |ContextLabel| + |context|
    ensures u[|QuestionLabel|..|QuestionLabel| + |question|] == question
    ensures u[|u| - |context|..] == context
  {
    QuestionLabel + question + ContextLabel + context
  }

  /** The messages of the first request: the system prompt, then the user
      message. */
  function FirstMessages(question: string, context: string): seq<Message> {
    [SystemMessage, UserMessage(UserContent(question, context))]
  }

  /** The tool messages answering the model's calls, in call order: one per
      call named `get_summary_by_title`, carrying that call's id and the
      lookup of its title; calls of any other name are skipped. */
  function ToolReplies(calls: seq<ToolCall>, t: SummaryTable, lower: string -> string): (ms: seq<Message>)
    requires t.Valid()
    ensures |ms| <= |calls|
    ensures forall i :: 0 <= i < |ms| ==> ms[i].ToolMessage? && ms[i].name == ToolName
    decreases |calls|
  {
    if |calls| == 0 then []
    else
      var n := |calls| - 1;
      ToolReplies(calls[..n], t, lower)
      + (if calls[n].name == ToolName
         then [ToolMessage(calls[n].id, ToolName, Lookup(t, calls[n].title, lower))]
         else [])
  }

  /** When every call names the tool, each call gets exactly one reply, at
      its own position. */
  lemma {:induction false} ToolRepliesAllMatching(calls: seq<ToolCall>, t: SummaryTable, lower: string -> string)
    requires t.Valid()
    requires forall i :: 0 <= i < |calls| ==> calls[i].name == ToolName
    ensures |ToolReplies(calls, t, lower)| == |calls|
    ensures forall i :: 0 <= i < |calls| ==>
      ToolReplies(calls, t, lower)[i] == ToolMessage(calls[i].id, ToolName, Lookup(t, calls[i].title, lower))
    decreases |calls|
  {
    if |calls| > 0 {
      var n := |calls| - 1;
      var init := calls[..n];
      ToolRepliesAllMatching(init, t, lower);
      var replies := ToolReplies(init, t, lower);
      assert ToolReplies(calls, t, lower)
        == replies + [ToolMessage(calls[n].id, ToolName, Lookup(t, calls[n].title, lower))];
      forall i | 0 <= i < n
        ensures ToolReplies(calls, t, lower)[i] == ToolMessage(calls[i].id, ToolName, Lookup(t, calls[i].title, lower))
      {
        assert init[i] == calls[i];
      }
    }
  }

  /** Calls to other tools get no reply at all. */
  lemma {:induction false} ToolRepliesNoneMatching(calls: seq<ToolCall>, t: SummaryTable, lower: string -> string)
    requires t.Valid()
    requires forall i :: 0 <= i < |calls| ==> calls[i].name != ToolName
    ensures ToolReplies(calls, t, lower) == []
    decreases |calls|
  {
    if |calls| > 0 {
      ToolRepliesNoneMatching(calls[..|calls| - 1], t, lower);
    }
  }

  /** The replies to two batches of calls are the replies to each batch, in
      order. */
  lemma {:induction false} ToolRepliesAppend(a: seq<ToolCall>, b: seq<ToolCall>, t: SummaryTable, lower: string -> string)
    requires t.Valid()
    ensures ToolReplies(a + b, t, lower) == ToolReplies(a, t, lower) + ToolReplies(b, t, lower)
    decreases |b|
  {
    if |b| == 0 {
      assert a + b == a;
    } else {
      var n := |b| - 1;
      assert (a + b)[..|a| + n] == a + b[..n];
      ToolRepliesAppend(a, b[..n], t, lower);
    }
  }

  /** The messages of the follow-up request: the first request's messages,
      the model's reply, then the tool replies; appended one by one. */
  method FollowupMessages(messages: seq<Message>, reply: ModelReply, t: SummaryTable, lower: string -> string)
    returns (ms: seq<Message>)
    requires t.Valid()
    ensures ms == messages + [AssistantMessage(reply)] + ToolReplies(reply.toolCalls, t, lower)
  {
    var calls := reply.toolCalls;
    ms := messages + [AssistantMessage(reply)];
    for i := 0 to |calls|
      invariant ms == messages + [AssistantMessage(reply)] + ToolReplies(calls[..i], t, lower)
    {
      assert calls[..i + 1][..i] == calls[..i];
      var tc := calls[i];
      if tc.name == ToolName {
        var summary := GetSummaryByTitle(t, tc.title, lower);
        ms := ms + [ToolMessage(tc.id, ToolName, summary)];
      }
    }
    assert calls[..|calls|] == calls;
  }

  /** The summary the no-tool branch appends: the lookup of the top result's
      title, or the no-results text when there is no result or its title is
      empty. */
  function FallbackSummary(results: seq<SearchResult>, t: SummaryTable, lower: string -> string): string
    requires t.Valid()
    requires |results| > 0 ==> "title" in results[0].metadata
  {
    if |results| == 0 || results[0].metadata["title"] == "" then NoResults
    else Lookup(t, results[0].metadata["title"], lower)
  }

  /** One call of `run_chat_once` after the store has been built or loaded:
      search, render the context, ask the model; if it called tools, answer
      the calls and ask again, returning the second answer's text; otherwise
      return the first answer's text followed by the top result's summary.
      A failure to read the search answer or a result without a title
      propagates as the exception it raises. */
  function Conversation(question: string, response: QueryResponse, t: SummaryTable, lower: string -> string,
                        first: ModelReply, second: ModelReply): (r: Result<Exchange>)
    requires t.Valid()
    ensures r.Ok? <==> SearchResults(response).Ok? && Context(SearchResults(response).value).Ok?
    ensures SearchResults(response).Err? ==> r == Err(SearchResults(response).error)
    ensures SearchResults(response).Ok? && r.Err? ==> r == Err(KeyError("title"))
  {
    var results :- SearchResults(response);
    var context :- Context(results);
    var messages := FirstMessages(question, context);
    if |first.toolCalls| > 0 then
      var followup := messages + [AssistantMessage(first)] + ToolReplies(first.toolCalls, t, lower);
      Ok(Exchange([Request(messages, true), Request(followup, false)], second.content.GetOr("")))
    else
      Ok(Exchange([Request(messages, true)], first.content.GetOr("") + SummaryHeading + FallbackSummary(results, t, lower)))
  }

  /** Every exchange starts with the same request: the system prompt and the
      user message holding the question and the rendered context, with the
      tool offered. */
  lemma {:induction false} FirstRequestSent(question: string, response: QueryResponse, t: SummaryTable, lower: string -> string,
                         first: ModelReply, second: ModelReply)
    requires t.Valid()
    requires Conversation(question, response, t, lower, first, second).Ok?
    ensures Context(SearchResults(response).value).Ok?
    ensures var c := Conversation(question, response, t, lower, first, second).value;
      && |c.requests| >= 1
      && c.requests[0]
         == Request([SystemMessage,
                     UserMessage(QuestionLabel + question + ContextLabel + Context(SearchResults(response).value).value)],
                    true)
  {
  }

  /** The tool branch: a second request without tools, made of the first
      request's messages, the model's reply and the replies to the calls
      (calls to other tools skipped); the answer is the second reply's
      text, or empty. */
  lemma {:induction false} ToolBranch(question: string, response: QueryResponse, t: SummaryTable, lower: string -> string,
                   first: ModelReply, second: ModelReply)
    requires t.Valid()
    requires Conversation(question, response, t, lower, first, second).Ok?
    requires |first.toolCalls| > 0
    ensures var c := Conversation(question, response, t, lower, first, second).value;
      && |c.requests| == 2
      && c.requests[0].offersTool
      && !c.requests[1].offersTool
      && c.requests[1].messages
         == c.requests[0].messages + [AssistantMessage(first)] + ToolReplies(first.toolCalls, t, lower)
      && c.answer == second.content.GetOr("")
  {
  }

  /** When every call names the tool, the i-th call is answered at position
      3 + i of the second request, with its id and the lookup of its title. */
  lemma {:induction false} ToolBranchAllMatching(question: string, response: QueryResponse, t: SummaryTable,
                                                 lower: string -> string, first: ModelReply, second: ModelReply)
    requires t.Valid()
    requires Conversation(question, response, t, lower, first, second).Ok?
    requires |first.toolCalls| > 0
    requires forall i :: 0 <= i < |first.toolCalls| ==> first.toolCalls[i].name == ToolName
    ensures var c := Conversation(question, response, t, lower, first, second).value;
      && |c.requests| == 2
      && |c.requests[1].messages| == 3 + |first.toolCalls|
      && c.requests[1].messages[2] == AssistantMessage(first)
      && forall i :: 0 <= i < |first.toolCalls| ==>
           c.requests[1].messages[3 + i]
           == ToolMessage(first.toolCalls[i].id, ToolName, Lookup(t, first.toolCalls[i].title, lower))
  {
    ToolRepliesAllMatching(first.toolCalls, t, lower);
  }

  /** The fallback branch: without tool calls there is only the first
      request, and the answer is the model's text, the heading and the
      summary of the top result's title; no result, or a top result with an
      empty title, gives the no-results text instead. */
  lemma {:induction false} FallbackBranch(question: string, response: QueryResponse, t: SummaryTable,
                                          lower: string -> string, first: ModelReply, second: ModelReply)
    requires t.Valid()
    requires Conversation(question, response, t, lower, first, second).Ok?
    requires |first.toolCalls| == 0
    ensures SearchResults(response).Ok? && Context(SearchResults(response).value).Ok?
    ensures |SearchResults(response).value| > 0 ==> "title" in SearchResults(response).value[0].metadata
    ensures var c := Conversation(question, response, t, lower, first, second).value;
      var results := SearchResults(response).value;
      && c.requests == [Request(FirstMessages(question, Context(results).value), true)]
      && c.answer
         == first.content.GetOr("") + SummaryHeading
            + (if |results| == 0 || results[0].metadata["title"] == ""
               then NoResults
               else Lookup(t, results[0].metadata["title"], lower))
  {
  }

  /** With no result and no tool call, the answer is the model's text, the
      heading and the no-results text. */
  lemma {:induction false} FallbackWithoutResults(question: string, response: QueryResponse, t: SummaryTable, lower: string -> string,
                               first: ModelReply, second: ModelReply)
    requires t.Valid()
    requires SearchResults(response) == Ok([])
    requires |first.toolCalls| == 0
    ensures Conversation(question, response, t, lower, first, second)
      == Ok(Exchange([Request(FirstMessages(question, ""), true)],
                     first.content.GetOr("") + SummaryHeading + NoResults))
  {
  }

  /** With no tool call and a top result whose title is a catalog title, the
      answer ends with the full summary of the last catalog book of that
      title (when that summary is non-empty). */
  lemma {:induction false} FallbackShowsTopBook(question: string, response: QueryResponse, catalog: seq<Book>, i: nat,
                             lower: string -> string, first: ModelReply, second: ModelReply)
    requires i < |catalog| && catalog[i].title != "" && catalog[i].fullSummary != ""
    requires forall j :: i < j < |catalog| ==> catalog[j].title != catalog[i].title
    requires SearchResults(response).Ok? && |SearchResults(response).value| > 0
    requires Context(SearchResults(response).value).Ok?
    requires SearchResults(response).value[0].metadata["title"] == catalog[i].title
    requires |first.toolCalls| == 0
    ensures BuildTable(catalog).Valid()
    ensures Conversation(question, response, BuildTable(catalog), lower, first, second).Ok?
    ensures Conversation(question, response, BuildTable(catalog), lower, first, second).value.answer
      == first.content.GetOr("") + SummaryHeading + catalog[i].fullSummary
  {
    CatalogTitleResolves(catalog, i, lower);
  }

  /** `run_chat_once(question, rebuild_store)`: builds or loads the store,
      then carries out the exchange of `Conversation`, with the search, the
      context and the tool replies computed by their methods. */
  method RunChatOnce(store: Collection, catalog: seq<Book>, rebuild: bool, question: string,
                     response: QueryResponse, t: SummaryTable, lower: string -> string,
                     first: ModelReply, second: ModelReply)
    returns (r: Result<Exchange>)
    requires t.Valid()
    modifies store
    ensures store.records == StoreAfter(old(store.records), catalog, rebuild)
    ensures r == Conversation(question, response, t, lower, first, second)
  {
    BuildOrLoadStore(store, catalog, rebuild);
    var results :- SemanticSearch(response);
    var context :- RetrievedContextSnippets(results);
    var messages := FirstMessages(question, context);
    var firstRequest := Request(messages, true);
    if |first.toolCalls| > 0 {
      var followup := FollowupMessages(messages, first, t, lower);
      return Ok(Exchange([firstRequest, Request(followup, false)], second.content.GetOr("")));
    }
    var content := first.content.GetOr("");
    var summary := NoResults;
    if |results| > 0 {
      var title := results[0].metadata["title"];
      if title != "" {
        summary := GetSummaryByTitle(t, title, lower);
      }
    }
    return Ok(Exchange([firstRequest], content + SummaryHeading + summary));
  }

  // ---------------------------------------------------------------------
  // interactive_loop

  /** What one input line asks for. */
  datatype Command = Skip | Exit | Ask(question: string)

  /** A line is stripped; nothing left means skip; "exit" or "quit" in any
      case means leave; anything else is a question. */
  function Classify(line: string, lower: string -> string): Command {
    var q := Strip(line);
    if q == [] then Skip
    else if lower(q) == "exit" || lower(q) == "quit" then Exit
    else Ask(q)
  }

  /** Exactly the lines made only of white space (the empty line among them)
      are skipped; a question is the stripped line. */
  lemma {:induction false} ClassifyBlank(line: string, lower: string -> string)
    ensures Classify(line, lower).Skip? <==> forall k :: 0 <= k < |line| ==> IsSpace(line[k])
    ensures Classify(line, lower).Ask? ==> Classify(line, lower).question == Strip(line)
  {
    StripEmpty(line);
  }

  /** What the loop prints for an event: an answer, an error message, or
      the goodbye that ends the session. */
  datatype Output = Shown(answer: string) | Reported(error: PyException) | Goodbye

  /** The world's side of the n-th question: the store's answer to the query
      and the two replies of the chat service. */
  datatype TurnInput = TurnInput(response: QueryResponse, first: ModelReply, second: ModelReply)

  /** What is printed for a question: the answer, or the error it raised. */
  function Outcome(question: string, input: TurnInput, t: SummaryTable, lower: string -> string): Output
    requires t.Valid()
  {
    match Conversation(question, input.response, t, lower, input.first, input.second)
    case Ok(e) => Shown(e.answer)
    case Err(x) => Reported(x)
  }

  /** The questions asked, in order, up to the first exit line: never empty
      and never an exit word. */
  function Questions(lines: seq<string>, lower: string -> string): (qs: seq<string>)
    ensures |qs| <= |lines|
    ensures forall j :: 0 <= j < |qs| ==>
      qs[j] != [] && lower(qs[j]) != "exit" && lower(qs[j]) != "quit"
    decreases |lines|
  {
    if |lines| == 0 then []
    else match Classify(lines[0], lower)
      case Skip => Questions(lines[1..], lower)
      case Exit => []
      case Ask(q) => [q] + Questions(lines[1..], lower)
  }

  /** What is printed for the questions `qs`, the k-th answered with the
      k-th turn of the world: one outcome per question, in order. */
  function Answers(qs: seq<string>, t: SummaryTable, lower: string -> string,
                   turns: nat -> TurnInput): seq<Output>
    requires t.Valid()
  {
    seq(|qs|, k requires 0 <= k < |qs| => Outcome(qs[k], turns(k), t, lower))
  }

  /** Answering one more question prints its outcome after the others. */
  lemma {:induction false} AnswersSnoc(qs: seq<string>, q: string, t: SummaryTable, lower: string -> string,
                                       turns: nat -> TurnInput)
    requires t.Valid()
    ensures Answers(qs + [q], t, lower, turns) == Answers(qs, t, lower, turns) + [Outcome(q, turns(|qs|), t, lower)]
  {
    var all := qs + [q];
    assert forall k :: 0 <= k < |qs| ==> all[k] == qs[k];
  }

  /** Everything the loop prints: for the k-th question asked, the outcome
      of the k-th turn (a failed question is reported and the session goes
      on), then exactly one goodbye. */
  function Transcript(lines: seq<string>, lower: string -> string, t: SummaryTable,
                      turns: nat -> TurnInput): seq<Output>
    requires t.Valid()
  {
    Answers(Questions(lines, lower), t, lower, turns) + [Goodbye]
  }

  /** The transcript has one output per question, the k-th being the
      outcome of the k-th question with the k-th turn, and ends with the
      goodbye. */
  lemma {:induction false} TranscriptShape(lines: seq<string>, lower: string -> string, t: SummaryTable,
                                           turns: nat -> TurnInput)
    requires t.Valid()
    ensures |Transcript(lines, lower, t, turns)| == |Questions(lines, lower)| + 1
    ensures Transcript(lines, lower, t, turns)[|Questions(lines, lower)|] == Goodbye
    ensures forall k :: 0 <= k < |Questions(lines, lower)| ==>
      Transcript(lines, lower, t, turns)[k] == Outcome(Questions(lines, lower)[k], turns(k), t, lower)
  {
  }

  /** Nothing after an exit line is asked. */
  lemma {:induction false} NothingAfterExit(lines: seq<string>, lower: string -> string, i: nat)
    requires i < |lines| && Classify(lines[i], lower) == Exit
    ensures Questions(lines, lower) == Questions(lines[..i], lower)
    decreases i
  {
    if i > 0 {
      assert lines[..i][0] == lines[0];
      assert lines[..i][1..] == lines[1..][..i - 1];
      NothingAfterExit(lines[1..], lower, i - 1);
    }
  }

  /** How the questions still to come unfold at line i. */
  lemma {:induction false} LoopStep(lines: seq<string>, lower: string -> string, i: nat)
    requires i < |lines|
    ensures Classify(lines[i], lower).Skip? ==> Questions(lines[i..], lower) == Questions(lines[i + 1..], lower)
    ensures Classify(lines[i], lower).Exit? ==> Questions(lines[i..], lower) == []
    ensures Classify(lines[i], lower).Ask? ==>
      Questions(lines[i..], lower) == [Classify(lines[i], lower).question] + Questions(lines[i + 1..], lower)
  {
    assert lines[i..][0] == lines[i];
    assert lines[i..][1..] == lines[i + 1..];
  }

  /** The questions asked so far, `done`, and those still to come from line
      i on make up all the questions; reading line i keeps it so. */
  lemma {:induction false} QuestionsSplit(lines: seq<string>, lower: string -> string, i: nat, done: seq<string>)
    requires i < |lines|
    requires Questions(lines, lower) == done + Questions(lines[i..], lower)
    ensures Classify(lines[i], lower).Skip? ==> Questions(lines, lower) == done + Questions(lines[i + 1..], lower)
    ensures Classify(lines[i], lower).Exit? ==> Questions(lines, lower) == done
    ensures Classify(lines[i], lower).Ask? ==>
      Questions(lines, lower) == (done + [Classify(lines[i], lower).question]) + Questions(lines[i + 1..], lower)
  {
    LoopStep(lines, lower, i);
    var rest := Questions(lines[i + 1..], lower);
    if Classify(lines[i], lower).Ask? {
      var q := Classify(lines[i], lower).question;
      assert done + ([q] + rest) == (done + [q]) + rest;
    } else if Classify(lines[i], lower).Exit? {
      assert done + [] == done;
    }
  }

  /** One question of the loop: `run_chat_once` without a rebuild, its
      answer shown or its exception reported. */
  method AnswerQuestion(store: Collection, catalog: seq<Book>, question: string, input: TurnInput,
                        t: SummaryTable, lower: string -> string)
    returns (o: Output)
    requires t.Valid()
    modifies store
    ensures store.records == StoreAfter(old(store.records), catalog, false)
    ensures o == Outcome(question, input, t, lower)
  {
    var r := RunChatOnce(store, catalog, false, question, input.response, t, lower, input.first, input.second);
    if r.Ok? {
      o := Shown(r.value.answer);
    } else {
      o := Reported(r.error);
    }
  }

  /** One turn of the loop that asks: the outcome of the question, answered
      with the turn of the world numbered by the questions before it, is
      printed after the outputs of those questions. */
  method PrintAnswer(store: Collection, catalog: seq<Book>, question: string, t: SummaryTable,
                     lower: string -> string, turns: nat -> TurnInput, ghost done: seq<string>,
                     out: seq<Output>)
    returns (out': seq<Output>)
    requires t.Valid()
    requires out == Answers(done, t, lower, turns)
    modifies store
    ensures store.records == StoreAfter(old(store.records), catalog, false)
    ensures out' == Answers(done + [question], t, lower, turns)
  {
    var o := AnswerQuestion(store, catalog, question, turns(|out|), t, lower);
    AnswersSnoc(done, question, t, lower, turns);
    out' := out + [o];
  }

  /** The reading loop of `interactive_loop`: reads lines until the input
      ends or an exit line, skipping blank lines and answering every question
      with `run_chat_once` on the shared store (never rebuilding it).  The
      store is loaded by the first question at the latest and left alone
      afterwards. */
  method AnswerLines(store: Collection, catalog: seq<Book>, lines: seq<string>, lower: string -> string,
                     t: SummaryTable, turns: nat -> TurnInput)
    returns (out: seq<Output>, ghost qs: seq<string>)
    requires t.Valid()
    modifies store
    ensures qs == Questions(lines, lower)
    ensures out == Answers(qs, t, lower, turns)
    ensures store.records
      == if |Questions(lines, lower)| == 0 then old(store.records) else StoreAfter(old(store.records), catalog, false)
  {
    out := [];
    qs := [];
    var asked := 0;
    var i := 0;
    while i < |lines|
      invariant 0 <= i <= |lines|
      invariant Questions(lines, lower) == qs + Questions(lines[i..], lower)
      invariant asked == |qs|
      invariant out == Answers(qs, t, lower, turns)
      invariant store.records == if asked == 0 then old(store.records) else StoreAfter(old(store.records), catalog, false)
    {
      QuestionsSplit(lines, lower, i, qs);
      var cmd := Classify(lines[i], lower);
      if cmd.Skip? {
        i := i + 1;
        continue;
      }
      if cmd.Exit? {
        break;
      }
      StoreAfterIdempotent(old(store.records), catalog, false);
      out := PrintAnswer(store, catalog, cmd.question, t, lower, turns, qs, out);
      qs := qs + [cmd.question];
      asked := asked + 1;
      i := i + 1;
    }
    if i == |lines| {
      assert lines[i..] == [];
    }
    assert Questions(lines, lower) == qs;
  }

  /** `interactive_loop`: the answers to the questions read, then goodbye. */
  method InteractiveLoop(store: Collection, catalog: seq<Book>, lines: seq<string>, lower: string -> string,
                         t: SummaryTable, turns: nat -> TurnInput)
    returns (out: seq<Output>)
    requires t.Valid()
    modifies store
    ensures out == Transcript(lines, lower, t, turns)
    ensures store.records
      == if |Questions(lines, lower)| == 0 then old(store.records) else StoreAfter(old(store.records), catalog, false)
  {
    ghost var qs;
    out, qs := AnswerLines(store, catalog, lines, lower, t, turns);
    out := out + [Goodbye];
  }
}
