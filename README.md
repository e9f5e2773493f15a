# ICRA retrieval-augmented answering, modelled in Dafny

ICRA (Intelligent Campus Resource Assistant) answers questions about campus
facilities. Each campus record is rendered as a text document, and the
documents are stored once in a persistent vector collection. For each
question, the closest documents are retrieved, numbered into a context block,
and sent to a language model with a fixed system prompt. The answer is
returned with one source attribution per retrieved record.

This project models the two sequential parts of that flow and proves what
they promise:

- `knowledge_base.dfy` (module `KnowledgeBase`) covers the knowledge base:
  - `Document` renders a record as its document, or as the `KeyError` that the
    record's first missing required key raises. `EntryToDocument` is the same
    code with the hours loop written as a loop.
  - The store is a class (`Store`) holding its collections by name. A
    collection is a class (`Collection`) holding a sequence of index entries.
  - `GetOrCreateCollection` does the one-time population: an optional reset
    whose failure is ignored, skip-if-populated, and one batch `add`.
- `rag_pipeline.dfy` (module `RagPipeline`) covers the pipeline:
  - `BuildContextBlock` builds the numbered context block.
  - `GenerationRequest` is the single request sent to the model.
  - `AnswerText` classifies the model's failures through the ordered `except`
    clauses.
  - `GenerateAnswer` is the decision procedure that returns the result (a
    `RAGResult` datatype) and the request it sent, if any.
- `py_str.dfy` (module `PyStr`) covers the Python string operations the code
  relies on: `str.join`, one-character `str.replace`, ASCII `str.title`, and
  `f"{n}"` for a natural number. It also defines `str.split`, which the code
  does not call; it is used only to state the document's line structure.
  Each operation comes with its partner property: split undoes join, title
  case is stated position by position, and the decimal numeral reads back as
  its number.
- `wrappers.dfy` (module `Wrappers`) holds `Option` and `Result`.

The vector store's query and the language model are outside the model:

- The retrieval result `(documents, metadatas, distances, ids)` is an input.
- The model is a function `llm: Request -> Outcome`. An outcome is the first
  content block's text, or an exception of kind authentication, rate limit,
  other API error, or non-API.
- `GenerateAnswer` returns the request it passed to `llm`. So "no request was
  sent" is a stated, proved property, not an assumption.

Some facts about the code that the model keeps:

- A missing required field raises a plain `KeyError`; nothing wraps it.
- Nothing checks for duplicate ids.
- Nothing in this code sorts or ranks: the order of retrieved documents is
  whatever the store returns.
- The context block and user message are assembled before the API-key check.
  The missing-key result keeps the retrieved documents and distances.

## Model

| member | source | states |
|---|---|---|
| `PyStr.Replace` | knowledge_base.py:35 | every `_` of a period key becomes a space, every other character is kept, and the length is unchanged |
| `PyStr.TitleAt` | knowledge_base.py:35 | title case position by position: a letter is upper case at the start or after a non-letter, lower case after a letter; other characters are unchanged |
| `KnowledgeBase.LabelAt` | knowledge_base.py:35 | a period label, character by character: `_` reads as a space, every word starts upper case, and the remaining letters are lower case |
| `KnowledgeBase.HoursLinesAt` | knowledge_base.py:33-36 | an hours object yields exactly one line `"  " + label + ": " + time` per period, in the object's order |
| `KnowledgeBase.HoursPlaceholder` | knowledge_base.py:32-37 | the hours section is exactly `"  Not specified"` if and only if hours is absent, not an object, or an empty object |
| `KnowledgeBase.Document` | knowledge_base.py:25-53 | rendering succeeds exactly when name, type, location, description and contact are all present |
| `KnowledgeBase.DocumentMissingKey` | knowledge_base.py:44-52 | a failing rendering raises the KeyError of the first missing key in the order name, type, location, description, contact |
| `KnowledgeBase.OptionalFieldsNeverRaise` | knowledge_base.py:31-42 | whatever hours and additional_info hold, or whether they are absent, they never decide whether rendering fails |
| `KnowledgeBase.EntryToDocument` | knowledge_base.py:25-53 | the loop that builds the hours lines, then the f-string, gives exactly `Document(entry)` |
| `KnowledgeBase.DocumentAsLines` | knowledge_base.py:37-52 | the document is its lines joined by newlines: Name, Type, Location, Hours header, hours section, Description, Contact, Additional Info header, bullets (or an empty last line when there are no notes) |
| `KnowledgeBase.DocumentSplitsIntoLines` | knowledge_base.py:44-52 | for values without line breaks, splitting the document at newlines gives exactly those lines in that fixed order, each with its literal prefix |
| `KnowledgeBase.NoNotesEndsWithHeader` | knowledge_base.py:40-51 | with no additional notes the document ends with `"Additional Info:\n"` |
| `KnowledgeBase.IndexRecord` | knowledge_base.py:94-102 | one pass of the loop body: the record's document, then its id (a record lacking both reports the document's KeyError), then the four metadata fields |
| `KnowledgeBase.CollectBatch` | knowledge_base.py:89-102 | the loop yields parallel ids, documents and metadatas that zip to the batch for the records, or stops with the first record's KeyError |
| `KnowledgeBase.BatchFollowsData` | knowledge_base.py:93-102 | the batch succeeds if and only if every record yields an entry; entry i comes from record i; otherwise the error is that of the first failing record |
| `KnowledgeBase.BatchEntries` | knowledge_base.py:93-102 | entry i has record i's id and document, and metadata that is exactly its name, type, location and contact |
| `KnowledgeBase.BatchPrefixError` | knowledge_base.py:93-96 | a failure among the first records is the failure of the whole batch |
| `KnowledgeBase.Collection.Count` | knowledge_base.py:86 | the count is the number of stored entries |
| `KnowledgeBase.Collection.Add` | knowledge_base.py:104-108 | adding appends one entry per position of the three lists, in order |
| `KnowledgeBase.Store.DeleteCollection` | knowledge_base.py:72-77 | deleting removes the named collection; it raises when there is none, and when the store fails, in which case nothing is removed |
| `KnowledgeBase.Store.GetOrCreate` | knowledge_base.py:80-83 | returns the existing collection unchanged, or a fresh empty one that it registers |
| `KnowledgeBase.GetOrCreateCollection` | knowledge_base.py:56-115 | after an optional reset whose failure is ignored (a failed delete keeps the old collection, which then counts as existing), a populated collection is returned unchanged; an empty one receives exactly the batch for the records, or nothing plus the KeyError |
| `KnowledgeBase.PopulateIdempotent` | knowledge_base.py:85-113 | populating a second time without reset leaves what the first population left |
| `KnowledgeBase.PopulateEmpty` | knowledge_base.py:86-108 | from an empty collection (after a successful delete, or when none existed) the result depends only on the records: the whole batch, or no entries and the first KeyError |
| `KnowledgeBase.StartTwice` | knowledge_base.py:79-113 | two startups without reset leave the collection as the first one left it |
| `PyStr.NatToStringDecimal` | rag_pipeline.py:56-58 | a source number is rendered as a decimal numeral without leading zeros that reads back as the number |
| `RagPipeline.BlocksAt` | rag_pipeline.py:55-61 | one block per (doc, meta, dist) triple, as many as the shortest list, block i numbered i+1 in retrieval order with its distance and document |
| `RagPipeline.BuildContextBlock` | rag_pipeline.py:47-61 | the loop's blocks joined by newlines are exactly the context block |
| `RagPipeline.AnswerText` | rag_pipeline.py:130-149 | success gives the text; authentication, rate-limit and other API errors give their fixed messages; any other exception escapes |
| `RagPipeline.HandlerOrderMatters` | rag_pipeline.py:140-149 | with the generic API-error clause first, an authentication failure would get a different answer, so the clause order is load-bearing |
| `RagPipeline.GenerateAnswer` | rag_pipeline.py:64-162 | no documents gives the fixed no-results answer and no request; a missing key gives the fixed error, no sources, the retrieved docs and distances, and no request; otherwise exactly one request (fixed model, 1024 tokens, system prompt, user message around the context block) and the classified answer with sources and unchanged docs and distances; an escaping error is the model's own exception, or the IndexError of `metadatas[i]` when there are more ids than metadatas |
| `RagPipeline.SourcesFollowRetrieval` | rag_pipeline.py:152-155 | on every path past the key check, failures included, there is one source per id: the id with the name and type of the metadata at the same position |
| `RagPipeline.SourcesAttributeRecords` | rag_pipeline.py:152-162 | when the collection was populated from the records, every source names one record: that record's id, name and type, and its document is the retrieved one |

## Left out

- `load_campus_data` (file and JSON reading) is left out: the parsed records are an input of `GetOrCreateCollection`.
- Record values are strings. Python would format other JSON values with `str()`. An `additional_info` that is not a list is not modelled: `null` raises `TypeError`, and a string would be iterated character by character.
- `str.title` is modelled for ASCII letters only. Other characters are treated as uncased and kept unchanged.
- The embedding function, the persistent client's directory and the embedding vectors stored with each entry are foreign to this code and not modelled.
- `query_knowledge_base` and `collection.query` are foreign calls (embedding and nearest-neighbour ranking), so the retrieval result is an input. No order of results is assumed. `TOP_K_RESULTS = 3` is only forwarded to that query, so it does not appear.
- Why the store's delete fails is foreign to this code: whether it fails is the input `deleteFails` of `GetOrCreateCollection`.
- The store's own checks inside `add` (duplicate ids, an empty batch) are foreign and not modelled.
- The Anthropic client construction and network call are replaced by the parameter `llm`. When `response.content[0].text` raises (empty content, or a non-text first block), that appears as an outcome with a non-API exception.
- `{dist:.4f}` floating-point formatting is replaced by the parameter `format`.
- Logging, including the retrieval log loop of `generate_answer`, is not modelled.
- Concurrent startups that both see an empty collection are not modelled (concurrency).
- `server.py`, `main.py` and `config.py` are not part of this model, apart from the constants `CLAUDE_MODEL`, the collection name and the API key, which is a parameter.
- KnowledgeBase.GetOrCreateCollection: says that every other collection name keeps its collection object, not that the object's entries are unchanged. The store's map could alias the same object under two names.
