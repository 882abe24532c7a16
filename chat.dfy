/**
 * The retrieval chat (src/chat.py): the check that the collection holds
 * vectors, the start-up answers, the prompt-file choice, the context block
 * built from search hits, and the question loop with its exit words, its
 * skipped empty lines, its short cut when nothing is found, and its soft
 * failure when the language model raises. Search, prompt formatting and the
 * model are parameters.
 */
module Chat {
  import opened Wrappers
  import opened Text
  import opened Values
  import opened Common
  import opened Db

  // ---------------------------------------------------------------
  // Collection check
  // ---------------------------------------------------------------

  /** The `ValueError` raised when `DATABASE_URL` is unset or empty. */
  datatype ConfigError = DatabaseUrlMissing

  /** The URL `check_if_collection_empty` connects to, normalised inline. */
  function ConnectionUrl(env: Env): (r: Result<string, ConfigError>)
    ensures r.Err? <==> IsUnset(env, "DATABASE_URL")
    ensures r.Ok? ==> r.value == NormalizeForPsycopg(env["DATABASE_URL"])
  {
    if IsUnset(env, "DATABASE_URL") then Err(DatabaseUrlMissing)
    else
      var url := env["DATABASE_URL"];
      if StartsWith(url, DriverScheme) then
        ReplaceFirstOfPrefix(url, DriverScheme, PlainScheme);
        Ok(ReplaceFirst(url, DriverScheme, PlainScheme))
      else
        Ok(url)
  }

  /** The collection name both programs use: `PG_VECTOR_COLLECTION_NAME`, default `"documents"`. */
  function CollectionName(env: Env): string {
    GetEnv(env, "PG_VECTOR_COLLECTION_NAME", "documents")
  }

  /**
   * `check_if_collection_empty`, where `t` holds the tables of the database
   * that `ConnectionUrl(env)` designates.
   */
  function CheckIfCollectionEmpty(env: Env, t: Tables): (r: Result<bool, ConfigError>)
    ensures r.Err? <==> IsUnset(env, "DATABASE_URL")
    ensures r.Ok? && GetCollectionId(t, CollectionName(env)).None? ==> r.value
    ensures r.Ok? ==>
      (r.value <==> forall i :: 0 <= i < |t.embeddings| ==>
                      GetCollectionId(t, CollectionName(env)) != Some(t.embeddings[i].collectionId))
  {
    match ConnectionUrl(env)
    case Err(e) => Err(e)
    case Ok(_) =>
      var name := CollectionName(env);
      match GetCollectionId(t, name)
      case None => Ok(true)
      case Some(_) => Ok(!CollectionHasAny(t, name))
  }

  // ---------------------------------------------------------------
  // Start-up answers
  // ---------------------------------------------------------------

  /** The answers that accept running ingestion first. */
  const ConfirmWords: set<string> := {"s", "sim", "y", "yes"}

  /** How `main` goes on after the collection check. */
  datatype Startup = StartChat | IngestThenChat | StopNoData

  /** The decision after `check_if_collection_empty`, given the answer typed if asked. */
  function StartupDecision(collectionEmpty: bool, answer: string): (d: Startup)
    ensures !collectionEmpty ==> d == StartChat
    ensures collectionEmpty ==> (d == IngestThenChat <==> Lower(Strip(answer)) in ConfirmWords)
    ensures d == StopNoData <==> collectionEmpty && Lower(Strip(answer)) !in ConfirmWords
  {
    if !collectionEmpty then StartChat
    else if Lower(Strip(answer)) in ConfirmWords then IngestThenChat
    else StopNoData
  }

  const PortuguesePrompt := "./prompts/qa_prompt_pt.txt"
  const EnglishPrompt := "./prompts/qa_prompt_en.txt"

  /** The prompt file chosen by the line typed at `> `: English only for `2`. */
  function PromptPath(line: string): (path: string)
    ensures path == EnglishPrompt || path == PortuguesePrompt
    ensures path == EnglishPrompt <==> Strip(line) == "2"
  {
    if Strip(line) != "2" then PortuguesePrompt else EnglishPrompt
  }

  // ---------------------------------------------------------------
  // Context block
  // ---------------------------------------------------------------

  /**
   * One result of `similarity_search_with_score`: a document whose metadata
   * may be `None`, and its score as `{score:.4f}` renders it.
   */
  datatype Hit = Hit(pageContent: string, metadata: Option<Metadata>, score: string)

  /** `(doc.metadata or {}).get("page", "N/A")`, rendered. */
  function PageLabel(metadata: Option<Metadata>): (page: string)
    ensures metadata.None? ==> page == "N/A"
    ensures metadata.Some? && "page" !in metadata.value ==> page == "N/A"
    ensures metadata.Some? && "page" in metadata.value ==> page == PyStr(metadata.value["page"])
  {
    var meta: Metadata := if metadata.Some? then metadata.value else map[];
    if "page" in meta then PyStr(meta["page"]) else "N/A"
  }

  /** `[Chunk <position> | page <page> | score <score>]`. */
  function Header(position: nat, hit: Hit): string {
    "[Chunk " + NatToString(position) + " | page " + PageLabel(hit.metadata) + " | score " + hit.score + "]"
  }

  /** The block for the hit ranked at `position`: its header line, then its text. */
  function Block(position: nat, hit: Hit): string {
    Header(position, hit) + "\n" + hit.pageContent
  }

  /** The blocks of all hits, numbered from 1 in rank order. */
  function Blocks(hits: seq<Hit>): seq<string> {
    seq(|hits|, i requires 0 <= i < |hits| => Block(i + 1, hits[i]))
  }

  /** The context block: the blocks separated by a blank line. */
  function Context(hits: seq<Hit>): string {
    Join(Blocks(hits), "\n\n")
  }

  /** `build_context`: append one block per hit, then join. */
  method BuildContext(docsWithScores: seq<Hit>) returns (context: string)
    ensures context == Context(docsWithScores)
  {
    var parts: seq<string> := [];
    for i := 0 to |docsWithScores|
      invariant parts == Blocks(docsWithScores[..i])
    {
      parts := parts + [Block(i + 1, docsWithScores[i])];
    }
    assert docsWithScores[..|docsWithScores|] == docsWithScores;
    context := Join(parts, "\n\n");
  }

  /** No hits give an empty context, and one hit gives its block alone. */
  lemma ContextOfFewHits(hit: Hit)
    ensures Context([]) == ""
    ensures Context([hit]) == Block(1, hit)
  {
  }

  /** One more hit adds a blank line and its block, labelled with the next position. */
  lemma ContextSnoc(hits: seq<Hit>, hit: Hit)
    requires hits != []
    ensures Context(hits + [hit]) == Context(hits) + "\n\n" + Block(|hits| + 1, hit)
  {
    assert Blocks(hits + [hit]) == Blocks(hits) + [Block(|hits| + 1, hit)];
    JoinSnoc(Blocks(hits), Block(|hits| + 1, hit), "\n\n");
  }

  /** A block's text after its header line is the hit's content, verbatim. */
  lemma BlockCarriesContent(position: nat, hit: Hit)
    ensures Block(position, hit)[..|Header(position, hit)|] == Header(position, hit)
    ensures Block(position, hit)[|Header(position, hit)|] == '\n'
    ensures Block(position, hit)[|Header(position, hit)| + 1..] == hit.pageContent
  {
  }

  /** Metadata `None` is read as an empty dictionary. */
  lemma NoMetadataIsEmptyMetadata(hit: Hit)
    requires hit.metadata.None?
    ensures PageLabel(hit.metadata) == PageLabel(Some(map[])) == "N/A"
  {
  }

  // ---------------------------------------------------------------
  // The question loop
  // ---------------------------------------------------------------

  /** What `console.input` gives: a line, or `EOFError` / `KeyboardInterrupt`. */
  datatype Input = Line(text: string) | EndOfInput

  /** The words that end the chat, compared in lower case. */
  const ExitWords: set<string> := {"sair", "exit", "quit"}

  /** What the loop does with one input. */
  datatype Command = Quit | Skip | Ask(question: string)

  /** The checks at the top of the loop body. */
  function Interpret(input: Input): Command {
    match input
    case EndOfInput => Quit
    case Line(text) =>
      var question := Strip(text);
      if question == "" then Skip
      else if Lower(question) in ExitWords then Quit
      else Ask(question)
  }

  /**
   * End of input and the exit words quit, a blank line is skipped, and
   * anything else is asked as typed without its surrounding spaces.
   */
  lemma InterpretCases(input: Input)
    ensures input.EndOfInput? ==> Interpret(input) == Quit
    ensures input.Line? && !HasText(input.text) ==> Interpret(input) == Skip
    ensures input.Line? ==> (Interpret(input) == Quit <==> Lower(Strip(input.text)) in ExitWords)
    ensures input.Line? && HasText(input.text) && Lower(Strip(input.text)) !in ExitWords ==>
      Interpret(input) == Ask(Strip(input.text))
    ensures Interpret(input).Ask? ==>
      && input.Line?
      && Interpret(input).question == Strip(input.text)
      && HasText(Interpret(input).question)
      && Lower(Interpret(input).question) !in ExitWords
  {
    if input.Line? && Strip(input.text) == "" {
      assert Lower(Strip(input.text)) == "";
    }
    if Interpret(input).Ask? {
      StripIdempotent(input.text);
    }
  }

  /** What `llm.invoke(prompt)` does: reply with some content, or raise. */
  datatype LlmResult = Replied(content: string) | Raised(message: string)

  const LlmErrorPrefix := "Erro ao consultar a LLM: "

  /** The answer shown: the reply's content, or the error text when the call raised. */
  function AnswerText(r: LlmResult): (answer: string)
    ensures r.Replied? ==> answer == r.content
    ensures r.Raised? ==> answer == LlmErrorPrefix + r.message
  {
    match r
    case Replied(content) => content
    case Raised(message) => LlmErrorPrefix + message
  }

  /** What the loop shows, in order. */
  datatype Event =
    | PromptSent(prompt: string)  // the "PROMPT ENVIADO" panel, then llm.invoke
    | Answered(answer: string)    // the "RESPOSTA" panel
    | NoInformation               // "Não tenho informações necessárias ..."
    | Exited                      // "Saindo.../Exiting..."

  /** The events of one question whose search returned `hits`. */
  function Turn(question: string, hits: seq<Hit>, fill: (string, string) -> string,
                llm: string -> LlmResult): seq<Event>
  {
    if hits == [] then [NoInformation]
    else
      var prompt := fill(Context(hits), question);
      [PromptSent(prompt), Answered(AnswerText(llm(prompt)))]
  }

  /** The events one command adds before the loop reads on; `Quit` adds none of those. */
  function StepEvents(c: Command, search: string -> seq<Hit>,
                      fill: (string, string) -> string, llm: string -> LlmResult): seq<Event>
  {
    match c
    case Quit => []
    case Skip => []
    case Ask(q) => Turn(q, search(q), fill, llm)
  }

  /**
   * The whole loop over the inputs typed; running out of inputs is
   * `EOFError`. `search` is `similarity_search_with_score(question, k=10)`,
   * `fill` is `template.format(context=..., question=...)`.
   */
  function Session(inputs: seq<Input>, search: string -> seq<Hit>,
                   fill: (string, string) -> string, llm: string -> LlmResult): seq<Event>
    decreases |inputs|
  {
    if inputs == [] then [Exited]
    else
      var c := Interpret(inputs[0]);
      if c == Quit then [Exited]
      else StepEvents(c, search, fill, llm) + Session(inputs[1..], search, fill, llm)
  }

  /** Reading one more input: the session is that input's events, then the rest. */
  lemma SessionStep(inputs: seq<Input>, search: string -> seq<Hit>,
                    fill: (string, string) -> string, llm: string -> LlmResult)
    requires inputs != []
    ensures Interpret(inputs[0]) == Quit ==> Session(inputs, search, fill, llm) == [Exited]
    ensures Interpret(inputs[0]) != Quit ==>
      Session(inputs, search, fill, llm)
        == StepEvents(Interpret(inputs[0]), search, fill, llm) + Session(inputs[1..], search, fill, llm)
  {
  }

  /** `SessionStep` for the inputs from position `i` on. */
  lemma SessionFrom(inputs: seq<Input>, i: nat, search: string -> seq<Hit>,
                    fill: (string, string) -> string, llm: string -> LlmResult)
    requires i < |inputs|
    ensures Interpret(inputs[i]) == Quit ==> Session(inputs[i..], search, fill, llm) == [Exited]
    ensures Interpret(inputs[i]) != Quit ==>
      Session(inputs[i..], search, fill, llm)
        == StepEvents(Interpret(inputs[i]), search, fill, llm) + Session(inputs[i + 1..], search, fill, llm)
  {
    assert inputs[i..][0] == inputs[i] && inputs[i..][1..] == inputs[i + 1..];
    SessionStep(inputs[i..], search, fill, llm);
  }

  /** The body of the loop for a question: search, and answer unless nothing was found. */
  method AnswerQuestion(question: string, search: string -> seq<Hit>,
                        fill: (string, string) -> string, llm: string -> LlmResult)
    returns (step: seq<Event>)
    ensures step == Turn(question, search(question), fill, llm)
  {
    var hits := search(question);
    if hits == [] {
      step := [NoInformation];
    } else {
      var context := BuildContext(hits);
      var prompt := fill(context, question);
      var answer := AnswerText(llm(prompt));
      step := [PromptSent(prompt), Answered(answer)];
    }
  }

  /** The loop body for a command that does not quit. */
  method RunCommand(command: Command, search: string -> seq<Hit>,
                    fill: (string, string) -> string, llm: string -> LlmResult)
    returns (step: seq<Event>)
    ensures step == StepEvents(command, search, fill, llm)
  {
    if command.Ask? {
      step := AnswerQuestion(command.question, search, fill, llm);
    } else {
      step := [];
    }
  }

  /** The `while True` loop of `main`. */
  method ChatLoop(inputs: seq<Input>, search: string -> seq<Hit>,
                  fill: (string, string) -> string, llm: string -> LlmResult)
    returns (events: seq<Event>)
    ensures events == Session(inputs, search, fill, llm)
  {
    events := [];
    var i := 0;
    while i < |inputs|
      invariant 0 <= i <= |inputs|
      invariant events + Session(inputs[i..], search, fill, llm) == Session(inputs, search, fill, llm)
    {
      var command := Interpret(inputs[i]);
      SessionFrom(inputs, i, search, fill, llm);
      if command == Quit {
        break;
      }
      var step := RunCommand(command, search, fill, llm);
      ghost var rest := Session(inputs[i + 1..], search, fill, llm);
      assert events + (step + rest) == (events + step) + rest;
      events := events + step;
      i := i + 1;
    }
    if i == |inputs| {
      assert inputs[i..] == [];
    }
    events := events + [Exited];
  }

  /** How many times the session invoked the model. */
  function ModelCalls(events: seq<Event>): nat {
    if events == [] then 0
    else (if events[0].PromptSent? then 1 else 0) + ModelCalls(events[1..])
  }

  /** The questions asked before the session ended whose search found something. */
  function AnswerableQuestions(inputs: seq<Input>, search: string -> seq<Hit>): nat
    decreases |inputs|
  {
    if inputs == [] then 0
    else
      match Interpret(inputs[0])
      case Quit => 0
      case Skip => AnswerableQuestions(inputs[1..], search)
      case Ask(q) => (if search(q) != [] then 1 else 0) + AnswerableQuestions(inputs[1..], search)
  }

  lemma {:induction false} ModelCallsAppend(a: seq<Event>, b: seq<Event>)
    ensures ModelCalls(a + b) == ModelCalls(a) + ModelCalls(b)
  {
    if a == [] {
      assert a + b == b;
    } else {
      assert (a + b)[1..] == a[1..] + b;
      ModelCallsAppend(a[1..], b);
    }
  }

  /**
   * The model is invoked exactly once per question whose search found
   * something, and never for an empty line, an exit word or an empty result.
   */
  lemma {:induction false} ModelCallsMatchAnswerable(inputs: seq<Input>, search: string -> seq<Hit>,
                                                     fill: (string, string) -> string, llm: string -> LlmResult)
    ensures ModelCalls(Session(inputs, search, fill, llm)) == AnswerableQuestions(inputs, search)
    decreases |inputs|
  {
    if inputs != [] {
      var c := Interpret(inputs[0]);
      if c != Quit {
        ModelCallsMatchAnswerable(inputs[1..], search, fill, llm);
        var step := StepEvents(c, search, fill, llm);
        ModelCallsAppend(step, Session(inputs[1..], search, fill, llm));
        assert ModelCalls(step) == if c.Ask? && search(c.question) != [] then 1 else 0;
      }
    }
  }

  /** The events of a command that does not quit never include the exit message. */
  lemma StepNeverExits(c: Command, search: string -> seq<Hit>,
                       fill: (string, string) -> string, llm: string -> LlmResult)
    ensures Exited !in StepEvents(c, search, fill, llm)
  {
  }

  /** Every session ends with the exit message, shown once and last. */
  lemma {:induction false} SessionEndsOnce(inputs: seq<Input>, search: string -> seq<Hit>,
                                           fill: (string, string) -> string, llm: string -> LlmResult)
    ensures var events := Session(inputs, search, fill, llm);
      events != [] && events[|events| - 1] == Exited && Exited !in events[..|events| - 1]
    decreases |inputs|
  {
    if inputs != [] {
      SessionStep(inputs, search, fill, llm);
      var c := Interpret(inputs[0]);
      if c != Quit {
        SessionEndsOnce(inputs[1..], search, fill, llm);
        StepNeverExits(c, search, fill, llm);
        var step := StepEvents(c, search, fill, llm);
        var rest := Session(inputs[1..], search, fill, llm);
        var events := step + rest;
        assert events[|events| - 1] == rest[|rest| - 1];
        assert events[..|events| - 1] == step + rest[..|rest| - 1];
      }
    }
  }

  /** An exit word, in any case and with any surrounding spaces, ends the session at once. */
  lemma ExitWordEndsSession(inputs: seq<Input>, search: string -> seq<Hit>,
                            fill: (string, string) -> string, llm: string -> LlmResult)
    requires inputs != [] && inputs[0].Line? && Lower(Strip(inputs[0].text)) in ExitWords
    ensures Session(inputs, search, fill, llm) == [Exited]
  {
    InterpretCases(inputs[0]);
  }

  /** An empty line is skipped: nothing is searched or shown for it. */
  lemma EmptyLineSkipped(inputs: seq<Input>, search: string -> seq<Hit>,
                         fill: (string, string) -> string, llm: string -> LlmResult)
    requires inputs != [] && inputs[0].Line? && !HasText(inputs[0].text)
    ensures Session(inputs, search, fill, llm) == Session(inputs[1..], search, fill, llm)
  {
    InterpretCases(inputs[0]);
  }

  /** A question with no hits shows the fixed message and does not reach the model. */
  lemma NoHitsNoModelCall(inputs: seq<Input>, search: string -> seq<Hit>,
                          fill: (string, string) -> string, llm: string -> LlmResult)
    requires inputs != [] && Interpret(inputs[0]).Ask? && search(Interpret(inputs[0]).question) == []
    ensures Session(inputs, search, fill, llm) == [NoInformation] + Session(inputs[1..], search, fill, llm)
  {
  }

  /** A model call that raises becomes the shown answer, and the loop reads the next input. */
  lemma ModelFailureIsAnswered(inputs: seq<Input>, search: string -> seq<Hit>,
                               fill: (string, string) -> string, llm: string -> LlmResult, message: string)
    requires inputs != [] && Interpret(inputs[0]).Ask?
    requires var q := Interpret(inputs[0]).question;
      search(q) != [] && llm(fill(Context(search(q)), q)) == Raised(message)
    ensures var q := Interpret(inputs[0]).question;
      Session(inputs, search, fill, llm) ==
        [PromptSent(fill(Context(search(q)), q)), Answered(LlmErrorPrefix + message)]
        + Session(inputs[1..], search, fill, llm)
  {
  }
}
