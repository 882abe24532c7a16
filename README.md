# RAG ingestion and chat: a Dafny model

This project models the deterministic core of a small command-line
retrieval-augmented-generation tool. One program ingests a PDF into a
PostgreSQL/pgvector collection through LangChain. The other answers
questions by searching that collection and sending the hits to a hosted
language model. The model covers four source files:

- `src/db.py`: the vector-store bookkeeping. The two tables PGVector keeps
  (`langchain_pg_collection`, a name and a uuid per collection, and
  `langchain_pg_embedding`, one row per chunk with its collection's uuid and
  `jsonb` metadata) are an in-memory `Db.Tables` value. The queries
  `get_collection_id`, `collection_has_any` and `collection_has_source` are
  functions of a snapshot. `delete_source` is a method of `Db.Connection`
  that changes the embedding table in place.
- `src/ingest.py`: the splitter constants, the PDF-path fallback, rejection
  of an empty split list, metadata scrubbing and the `doc-<i>` ids.
- `src/common.py`: scheme normalisation for psycopg, the missing-variable
  check, the default provider guessed from the API keys, and one round of
  the provider prompt.
- `src/chat.py`: the collection-empty check, the start-up answers, the
  prompt-file choice, the context block, and the question loop as a method
  over a sequence of inputs.

Files: `wrappers.dfy` (Option, Result), `seqs.dfy` (subsequences),
`text.dfy` (the Python string operations used: `strip`, `lower`,
`startswith`, `replace(old, new, 1)`, `join`, `str(int)`), `values.dfy`
(metadata values, `Document`, `str()` and the `->>` operator),
`common.dfy`, `db.dfy`, `ingest.dfy` and `chat.dfy`.

Points of the code the model follows as written:

- Ingestion does not classify a run as new, append, delete or skip.
  `ingest` never queries the store before `add_documents`.
- `src/chat.py:16` imports `_get_collection_id` and `already_ingested_any`
  from `ingest`, but `src/ingest.py` defines neither, so as written that
  import fails. The model reads them as `Db.GetCollectionId` and
  `Db.CollectionHasAny`.
- In the chat, an empty line is skipped. Only `sair`, `exit`, `quit`, end
  of input or Ctrl-C end it. `KeyboardInterrupt` is caught with `EOFError`
  (`src/chat.py:82`), and the model reads both as `EndOfInput`.
- `delete_source` removes only the chunks of the named collection.
- An empty split list ends the run with `SystemExit`.

Two consequences of the code are proved as lemmas:

- With no default provider, end of input makes the provider prompt ask
  again (`Common.EndOfInputWithoutDefaultReprompts`). When standard input
  is closed, every later round hits end of input as well, so the prompt
  never returns.
- When `ingest` runs through its `main`, it never falls back to
  `./document.pdf`, because `main` demands `PDF_PATH` first
  (`Ingest.MainTakesPathFromEnvironment`).

## Model

| member | source | states |
|---|---|---|
| `Common.NormalizeForPsycopg` | src/common.py:19-22 | A leading `postgresql+psycopg://` becomes `postgresql://` and the rest of the URL is kept verbatim; a URL without that prefix is returned unchanged |
| `Common.NormalizeIdempotent` | src/common.py:19-22 | Normalising twice gives the same URL as normalising once |
| `Common.MissingVars` | src/common.py:15 | The missing list holds exactly the required names that are unset or empty, each as many times as it is required, in their order, and is no longer than the list it came from |
| `Common.ValidateEnvironment` | src/common.py:10-17 | With no list nothing is checked and nothing is raised; otherwise the error is raised iff some required variable is unset or empty, and it carries the missing list |
| `Common.BackendFor` | src/common.py:43-58 | The Google backend is built exactly for the string `"google"`; every other string builds the OpenAI one |
| `Common.PickDefaultProvider` | src/common.py:60-67 | `"openai"` iff only the OpenAI key has a non-space character, `"google"` iff only the Google key does, and `None` iff both or neither do |
| `Common.PickDefaultProviderFromEnv` | src/common.py:60-67 | A default provider read from the environment is one of the two names, and its key is set to something besides white space |
| `Common.AskProviderStep` | src/common.py:24-41 | An empty line with a default returns the default; `1`/`2` return `openai`/`google`; a name matched case-insensitively is returned as typed (stripped, not lower-cased); anything else prompts again |
| `Common.EndOfInputWithoutDefaultReprompts` | src/common.py:30-41 | At end of input, with no default, the prompt asks again; when standard input is closed every round does, so it never returns |
| `Common.MixedCaseGoogleBuildsOpenAI` | src/common.py:39-58 | The line `Google` is returned as `"Google"`, and that string builds the OpenAI backend |
| `Common.AskProviderStepLowered` | src/common.py:35-41 | The same prompt step, but a provider name is returned in lower case; it prompts again in exactly the cases the original does |
| `Common.LoweredChoiceBuildsNamedBackend` | src/common.py:35-58 | With the lower-cased step, a chosen provider is always `openai` or `google`, and a typed choice builds Google iff the user typed `2` or `google` in some case |
| `Common.ChosenGoogle` | src/common.py:32-40 | As written, one prompt round yields `"google"` iff the line is empty with that default, or is `2`, or is `google` in lower case |
| `Common.SessionBackend` | src/chat.py:63-76 | The backend a session uses, as written: the key-derived default for an empty line; Google iff that default is Google for an empty line, or the line is `2` or lower-case `google`; no backend exactly when the prompt asks again |
| `Common.MixedCaseGoogleSessionUsesOpenAI` | src/chat.py:63-76 | As written, a session whose provider line is `Google` runs on OpenAI, whatever the keys |
| `Common.SessionBackendLowered` | src/chat.py:63-76 | The corrected composition from "## Findings": the key-derived default for an empty line, Google for `2` or `google` in any case, OpenAI for `1` or `openai` in any case, and no backend when the prompt asks again |
| `Db.FirstNamed` | src/db.py:18-21 | The position of the first collection row with that name, or one past the end when there is none |
| `Db.GetCollectionId` | src/db.py:17-22 | `None` iff no collection row has the name; otherwise the uuid of a row whose name equals the argument |
| `Db.CountInCollection` | src/db.py:28-32 | The count is positive iff some embedding row has that collection id |
| `Db.CountOfSource` | src/db.py:38-47 | The count is positive iff some row has that collection id and metadata `source` equal to the path |
| `Db.CollectionHasAny` | src/db.py:24-32 | False when the collection does not exist; true iff some embedding row carries that collection's uuid |
| `Db.CollectionHasSource` | src/db.py:34-47 | False when the collection does not exist; true iff some row of that collection has `source` equal to the path; rows of other collections, or with no `source` or a JSON null there, never count |
| `Db.HasSourceImpliesHasAny` | src/db.py:24-47 | A collection that holds the source holds some row |
| `Db.RemoveSource` | src/db.py:53-60 | The remaining rows are exactly the rows that do not have that collection id and that source, in their old order; exactly the matching rows are gone |
| `Db.AfterDeleteSource` | src/db.py:49-61 | The collection table is unchanged; an absent collection leaves both tables unchanged; otherwise exactly that collection's rows with that source are removed, as many rows as match, and all others are kept in order |
| `Db.Connection.DeleteSource` | src/db.py:49-61 | The connection's tables become `AfterDeleteSource` of the old tables, and the collection no longer holds the source |
| `Db.DeleteThenSourceAbsent` | src/db.py:34-61 | After `delete_source(c, p)`, `collection_has_source(c, p)` is false |
| `Db.DeleteKeepsOtherSources` | src/db.py:34-61 | After `delete_source(c, p)`, `collection_has_source(c, q)` for any `q != p` is what it was |
| `Db.DeleteKeepsOtherCollections` | src/db.py:24-61 | Deleting from one collection leaves `collection_has_any` and `collection_has_source` unchanged for every collection with a different uuid |
| `Ingest.Splitter` | src/ingest.py:10-44 | The splitter gets chunk size 1000 and overlap 150, so the overlap is positive and smaller than the chunk; no start index is added |
| `Ingest.Scrub` | src/ingest.py:53-55 | The scrubbed metadata keeps exactly the entries whose value is neither `""` nor `None`, with keys and values unchanged |
| `Ingest.ScrubIdempotent` | src/ingest.py:53-55 | Scrubbing scrubbed metadata changes nothing |
| `Ingest.EnrichedDocuments` | src/ingest.py:49-58 | Same length and order as the splits, each page content unchanged, each metadata scrubbed, and no blank value left anywhere |
| `Ingest.EnrichedIdempotent` | src/ingest.py:49-58 | Enriching enriched documents changes nothing |
| `Ingest.DefIndexDocuments` | src/ingest.py:60-61 | Exactly one id per document, the i-th being `doc-` followed by the decimal digits of i, counting from 0 |
| `Ingest.DocIdRoundTrip` | src/ingest.py:61 | Every id is `doc-` then decimal digits, and reading those digits back gives the position |
| `Ingest.IdsDistinct` | src/ingest.py:61 | The ids of one batch are pairwise distinct |
| `Ingest.GetDocumentsFromPdf` | src/ingest.py:39-47 | An empty split list is an error, and only that; otherwise the enriched documents, one per split |
| `Ingest.ResolvePdfPath` | src/ingest.py:27 | A non-empty `--pdf` argument wins; otherwise `PDF_PATH` when set (even to `""`), else `./document.pdf` |
| `Ingest.RunIngest` | src/ingest.py:27-36 | A missing PDF reports its path; an existing PDF with no splits is `NoSplits`; a batch is produced iff the PDF exists and has splits, and it carries the resolved existing path, the configured collection, the enriched documents and one `doc-<i>` id per document |
| `Ingest.Main` | src/ingest.py:13-16 | Missing required variables stop the run with exactly the missing list; once they are all set, the result is that of `ingest`; a stored batch implies all three variables are set |
| `Ingest.MainTakesPathFromEnvironment` | src/ingest.py:13-27 | Without `--pdf`, a run through `main` takes its path from a non-empty `PDF_PATH` |
| `Ingest.StoredBatchWellFormed` | src/ingest.py:36 | The ids passed to `add_documents` are as many as the documents and pairwise distinct |
| `Chat.ConnectionUrl` | src/chat.py:33-40 | An unset or empty `DATABASE_URL` is the configuration error; otherwise the inline scheme rewrite gives the same URL as `normalize_for_psycopg` |
| `Chat.CheckIfCollectionEmpty` | src/chat.py:29-46 | True when the collection does not exist; otherwise true iff no embedding row carries its uuid; an error iff `DATABASE_URL` is unset or empty |
| `Chat.StartupDecision` | src/chat.py:54-61 | A non-empty collection starts the chat; for an empty one, the stripped and lower-cased answer `s`, `sim`, `y` or `yes` runs ingestion first, and anything else stops |
| `Chat.PromptPath` | src/chat.py:66-68 | The English prompt file is chosen iff the stripped line is `2`; otherwise the Portuguese file |
| `Chat.PageLabel` | src/chat.py:23-24 | The page label is the rendered metadata `page` when present, else `N/A`; `None` metadata reads as an empty map |
| `Chat.NoMetadataIsEmptyMetadata` | src/chat.py:23 | `None` metadata labels a block exactly as an empty dictionary does, with `N/A` |
| `Chat.BuildContext` | src/chat.py:20-26 | The loop builds the same text as `Context`: one block per hit, in input order, labelled 1, 2, ..., joined by blank lines |
| `Chat.ContextOfFewHits` | src/chat.py:26 | No hits give the empty string; a single hit gives its block alone |
| `Chat.ContextSnoc` | src/chat.py:21-26 | One more hit appends exactly `"\n\n"` and that hit's block, labelled with the next position |
| `Chat.BlockCarriesContent` | src/chat.py:25 | A block is its header line, then `"\n"`, then the hit's page content verbatim |
| `Chat.InterpretCases` | src/chat.py:80-90 | End of input quits; a blank line is skipped; a line quits iff its stripped lower-case form is `sair`, `exit` or `quit`; anything else is asked as the stripped line |
| `Chat.AnswerText` | src/chat.py:101-105 | The reply's content, or `Erro ao consultar a LLM: ` followed by the error when the call raised |
| `Chat.SessionStep` | src/chat.py:79-107 | A quitting input ends the session with the exit message; any other input adds its events and the loop reads the next input |
| `Chat.AnswerQuestion` | src/chat.py:92-107 | The events of one question: the fixed message when nothing is found, else the prompt sent and the answer shown |
| `Chat.RunCommand` | src/chat.py:86-107 | The loop body adds nothing for a skipped line and the question's events for a question |
| `Chat.ChatLoop` | src/chat.py:79-107 | The loop shows exactly the events of `Session` for the inputs typed |
| `Chat.ModelCallsMatchAnswerable` | src/chat.py:86-102 | The model is invoked exactly once for each question whose search found something, and never for a blank line, an exit word or an empty result |
| `Chat.SessionEndsOnce` | src/chat.py:79-90 | When search and the template do not raise, every session ends with the exit message, and shows it nowhere else |
| `Chat.ExitWordEndsSession` | src/chat.py:88-90 | An exit word in any case, with any surrounding spaces, ends the session at once, whatever follows |
| `Chat.EmptyLineSkipped` | src/chat.py:86-87 | A blank line adds nothing and is not searched |
| `Chat.NoHitsNoModelCall` | src/chat.py:94-96 | A question with no hits shows the fixed message, sends no prompt, and the loop goes on |
| `Chat.ModelFailureIsAnswered` | src/chat.py:101-107 | A model call that raises shows `Erro ao consultar a LLM: ...` as the answer, and the loop goes on to the next input |

## Findings

| source | as written | input that shows it | evidently intended | confidence | as-written member | corrected member |
|---|---|---|---|---|---|---|
| src/common.py:39-40 | A provider name matched case-insensitively is returned as typed, and the `# type: ignore` silences the type checker. `get_llm` and `get_embeddings` then compare it with `"google"` exactly. | The line `Google` at the provider prompt builds the OpenAI model and OpenAI embeddings. | Return the name in lower case, a member of the declared `Provider` type, so that `Google` selects Google. | medium; not executed | `Common.AskProviderStep`, `Common.MixedCaseGoogleBuildsOpenAI`, `Common.SessionBackend`, `Common.MixedCaseGoogleSessionUsesOpenAI` | `Common.AskProviderStepLowered`, `Common.LoweredChoiceBuildsNamedBackend`, `Common.SessionBackendLowered` |

## Left out

- Connections and SQL execution (`get_connection`, `psycopg.connect`, `conn.commit`, connection errors, transactions) are left out. The model's `Tables` value is the database the URL designates. Each query reads one snapshot, and `delete_source` is one atomic step.
- Tables are sequences in scan order, so `LIMIT 1` without `ORDER BY` returns the first matching row in that order. Embedding vectors are not modelled.
- `get_vectorstore` (`src/db.py:66-75`) is not part of this model. It checks `DATABASE_URL` and `PG_VECTOR_COLLECTION_NAME` with `validate_environment`, then opens a `PGVector` store with the provider's embeddings. `PGVector` and `add_documents` are library code. The model stops at the batch (documents and ids) handed to `add_documents`. The store's upsert by id, including ids from different runs colliding, is not modelled.
- PDF loading (`PyPDFLoader`) and splitting (`RecursiveCharacterTextSplitter`) are foreign calls. The list of splits is an input, and chunking itself is not modelled.
- `validate_pdf_path` touches the filesystem. The existing files are a set of paths, and the path is tested as resolved from the argument or the environment. `Path.resolve()` and its absolute form are not modelled.
- Similarity search (`src/search.py`), embeddings and LLM construction are external services. Search is a function parameter. The model call is a function parameter that returns a reply or raises. `getattr(ai_msg, "content", str(ai_msg))` is taken as the reply's content.
- Chat.Session: search and `template.format` are taken to never raise. In the source, an exception from either (`src/chat.py:92`, `src/chat.py:99`) is uncaught and ends the program without the exit message. Two examples: search reaches `get_vectorstore`, whose `validate_environment` raises `EnvironmentError` when `PG_VECTOR_COLLECTION_NAME` is unset; and a template with a stray brace makes `format` raise. Only the model call is inside the `try` (`src/chat.py:101-105`), and only its failure is modelled.
- `{score:.4f}` is floating-point formatting. Each hit carries its score already rendered.
- `template.format(context=..., question=...)` is a parameter of the chat loop. Python's format-string syntax is not modelled.
- Console output, `rich` panels, `input()`, dotenv loading, argparse, `load_prompt_text` and its failure are I/O. Typed lines and the environment after loading are parameters. Running `ingest()` from the chat start-up is modelled only as the decision to do so.
- The `while True` retry loop of `ask_provider_interactively` is modelled one round at a time. `KeyboardInterrupt` at that prompt ends the program and is not modelled.
- Ingest.RunIngest: starts after the provider prompt of `src/ingest.py:25-26`. That prompt runs before `validate_pdf_path`. With no key-derived default and standard input closed, it never returns (`Common.EndOfInputWithoutDefaultReprompts`), so such a run never reaches the PDF check. The provider chosen only selects the embeddings, which are not modelled, so `Batch` does not carry it.
- Chat.StartupDecision: takes the answer as a string. At end of input, `console.input` at `src/chat.py:56` raises an uncaught `EOFError` and the program stops; that outcome is not modelled.
- Chat.PromptPath: takes the line as a string. At end of input, `console.input` at `src/chat.py:67` raises an uncaught `EOFError` and the program stops; that outcome is not modelled.
- Metadata values are `None`, strings, integers and booleans. Floats, lists and nested objects are not modelled.
- `Text.Lower`: models `str.lower` only on ASCII letters and leaves every other character as it is. It is used only to compare with the ASCII words `openai`, `google`, `sair`, `exit`, `quit`, `s`, `sim`, `y` and `yes`.
- Surrogate code points, which Python strings allow and Dafny characters do not, are not modelled.
