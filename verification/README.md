# A verified model of the FREE VET chatbot core

This project models the deterministic core of `FreeVETChatbot` (`free_rag_pipeline.py`) in Dafny. The chatbot answers
veterinary questions with retrieval-augmented generation. It has five deterministic parts:

- **Populating the knowledge base.** Each record of the question/answer dataset becomes three things:
  - a `Q: …\nA: …` document text;
  - a metadata map, whose `category` falls back to `"general"`;
  - a string id.

  These go into three parallel lists. The lists are then handed to the vector store in batches of at most 100, one `add`
  call per batch.
- **Start-up.** The `vet_qa` collection is reused when the store already holds it. Otherwise it is created and populated.
- **Emergency classification.** First, a keyword test on the lower-cased question. Only when no keyword matches is the
  highest similarity to five emergency exemplars compared with a threshold (default 0.7).
- **Prompt assembly.** The retrieved documents are numbered from 1 and joined with blank lines. The result goes into a
  fixed prompt template, together with the question. A failed model call becomes the text
  `Error generating response: <message>`.
- **Chat output.** The output record holds:
  - the question, unchanged;
  - the answer;
  - the emergency flag;
  - one `{question, urgency, species}` source per retrieved metadata map, in the same order.

The three outside services have abstract signatures:

- **The embedding model** is given as oracles. Population uses `encode: string -> Vector`. The classifier uses
  `Similarity`, the score of a question against one exemplar.
- **The vector store** is given as two classes. `Client` holds the collections by name. `Collection` holds the log of
  the batches added to it. Its nearest-neighbour query is an oracle `Retriever`.
- **The language model** is an oracle `Generator`. It returns either a reply or the text of the exception it raised.

The modules follow the program's structure:

| Module | What it models |
|---|---|
| `Text` | ASCII lower-casing, substring search, `str.join` and decimal rendering |
| `Records` | Record conversion, the first loop of `_populate_database` |
| `Batching` | Batching, the second loop |
| `Store` | The vector store |
| `Emergency` | `is_emergency` |
| `Generation` | `generate_response` |
| `FreeVet` | The `Chatbot` class: start-up, population, chat |

Start-up is the static method `Chatbot.Create`, because a Dafny constructor cannot fail. It builds the object before
populating, while the source sets `emergency_similarity` after populating. Population reads neither of the emergency
fields, so the two orders behave the same.

Three behaviours of the code a caller may not expect:

- **Malformed records.** They are not rejected at load time. A record lacking `question`, `answer`, `urgency`, `species`
  or `id` raises a `KeyError` during population, and only on the create path. By then the empty `vet_qa` collection has
  already been registered (`Chatbot.Create` states this). A later start-up in the same store reuses that empty
  collection.
- **Generation errors.** They are not a typed result. They come back as an ordinary answer string. `ErrorOf` reads the
  message back out of that string. `GenerateResponseOutcome` shows when this is ambiguous: a model reply that itself
  starts with the error prefix looks like a failure.
- **Ids.** Ids are `str(item['id'])`, so only distinct integer ids are shown to give distinct ids
  (`Records.DistinctIntIds`). `Store.Collection.Add` appends every batch unconditionally; how the store treats an id
  it already holds is left out.

## Model

| member | source | states |
|---|---|---|
| Text.LowerIsLowerCase | free_rag_pipeline.py:88 | the lower-cased question has no capital letter, has the same length, and lower-casing it again changes nothing |
| Text.LowerIgnoresCase | free_rag_pipeline.py:88 | questions that differ only in letter case lower-case to the same text |
| Text.ContainsHasPosition | free_rag_pipeline.py:91 | when `k in text` holds, `k` sits at some position of `text` |
| Text.PositionIsContained | free_rag_pipeline.py:91 | `k in text` holds wherever `k` sits in `text` |
| Text.ContainsIffOccurs | free_rag_pipeline.py:91 | the substring test holds exactly when the keyword occurs at some position |
| Text.ContainsSlice | free_rag_pipeline.py:91 | a text contains each of its own slices |
| Text.AbsentCharExcludes | free_rag_pipeline.py:91 | a keyword with a character missing from the text is not found |
| Text.AbsentStartExcludes | free_rag_pipeline.py:91 | a keyword whose first character appears nowhere it could start is not found |
| Text.Lower | free_rag_pipeline.py:88 | `question.lower()` on ASCII letters, letter by letter; its properties are stated by LowerIsLowerCase and LowerIgnoresCase |
| Text.Contains | free_rag_pipeline.py:91 | Python's `k in text` for strings; a match is never longer than the text, and ContainsIffOccurs ties it to an occurrence at some position |
| Text.Join | free_rag_pipeline.py:110 | `sep.join(parts)`; the result starts with the first part, and JoinSnoc states how one more part extends it |
| Text.JoinSnoc | free_rag_pipeline.py:110 | joining one more part adds the separator and the part at the end, except after no parts |
| Text.NatToDecimal | free_rag_pipeline.py:68 | `str(n)` of a natural number is a non-empty run of digits with no leading zero |
| Text.IntToDecimal | free_rag_pipeline.py:68 | `str(i)` is non-empty and starts with a minus sign exactly when `i` is negative |
| Text.ParseNatToDecimal | free_rag_pipeline.py:68 | reading the decimal text of a natural number gives the number back |
| Text.NatToDecimalInjective | free_rag_pipeline.py:110 | distinct natural numbers have distinct decimal texts |
| Text.IntToDecimalInjective | free_rag_pipeline.py:68 | distinct integers have distinct decimal texts |
| Records.Render | free_rag_pipeline.py:59-68 | `str(v)` / `f"{v}"` of a dataset value: the string itself, or the decimal text of an integer (see IntToDecimal) |
| Records.DocumentText | free_rag_pipeline.py:59 | `f"Q: {question}\nA: {answer}"`; its layout is stated by ConvertItemContents |
| Records.MetadataOf | free_rag_pipeline.py:61-67 | the metadata dictionary with `category` defaulting to "general"; its keys and copied values are stated by ConvertItemContents |
| Records.IdOf | free_rag_pipeline.py:68 | `str(item['id'])`; distinctness for integer ids is stated by DistinctIntIds |
| Records.ConvertItem | free_rag_pipeline.py:59-68 | a record converts exactly when it has question, answer, urgency, species and id; otherwise the `KeyError` names the first missing key in lookup order |
| Records.ConvertItemContents | free_rag_pipeline.py:59-68 | the document is `Q: ` + question + `\nA: ` + answer verbatim; the metadata has exactly question, answer, urgency, species and category; the first four are copied and category defaults to "general"; the id is `str(id)` |
| Records.ConvertWellFormed | free_rag_pipeline.py:59-68 | a complete record converts to its document text, metadata and id |
| Records.AppendKeeps | free_rag_pipeline.py:60-68 | appending a record's entry keeps every earlier position of the three lists |
| Records.AppendHolds | free_rag_pipeline.py:60-68 | appending a record's entry puts its document, metadata and id at the same new last position |
| Records.ConvertAll | free_rag_pipeline.py:56-68 | the first loop succeeds exactly when every record is complete, and then the three lists are aligned and as long as the dataset |
| Records.ConvertAllContents | free_rag_pipeline.py:56-68 | position `j` of the documents, metadatas and ids holds the conversion of record `j`: dataset order, nothing lost |
| Records.ConvertAllFirstError | free_rag_pipeline.py:58-68 | a dataset with an incomplete record fails with the error of the first incomplete record, all records before it being complete |
| Records.ConvertAllPrefixFailure | free_rag_pipeline.py:58-68 | once a prefix of the dataset fails, the whole dataset fails with the same error |
| Records.DistinctIntIds | free_rag_pipeline.py:68 | records with distinct integer ids get distinct id strings |
| Batching.Embed | free_rag_pipeline.py:76 | `encode(batch_docs)`: one embedding per document, in order, from the embedding oracle |
| Batching.MakeBatches | free_rag_pipeline.py:72-82 | the arguments of every `add` call, one per batch; BatchesRoundTrip and BatchesAligned state what they hold, and AddBatches is proved to make exactly these calls |
| Batching.ProgressCounts | free_rag_pipeline.py:83 | the count `min(i + 100, n)` after each batch, one per batch; ProgressCountsCorrect states its properties |
| Batching.BatchStartBelow | free_rag_pipeline.py:72 | `range(0, n, 100)` reaches batch `k` exactly when `k * 100 < n` |
| Batching.ChunkShape | free_rag_pipeline.py:73-75 | every slice `[i:i+100]` taken by the loop holds 1 to 100 items, and its item `j` is item `i + j` of the list |
| Batching.FlattenSnoc | free_rag_pipeline.py:72-75 | concatenating one more batch appends it |
| Batching.FlattenChunksPrefix | free_rag_pipeline.py:72-75 | the first `k` batches concatenate to the first `min(100k, n)` items |
| Batching.FlattenChunks | free_rag_pipeline.py:72-75 | the batches concatenate back to the whole list |
| Batching.BatchesRoundTrip | free_rag_pipeline.py:71-82 | the documents, metadatas and ids handed to `add`, concatenated, are exactly the three lists: no record lost or duplicated, order kept |
| Batching.BatchesAligned | free_rag_pipeline.py:72-82 | each `add` gets 1 to 100 items in four columns of equal length, aligned index for index, with embeddings computed from the batch's own documents |
| Batching.NoBatchesIffEmpty | free_rag_pipeline.py:72 | an empty dataset makes no `add` call, and a non-empty one makes at least one |
| Batching.ProgressCountsCorrect | free_rag_pipeline.py:83 | the progress count after each batch is the number of records added so far; it never exceeds `n`, grows with every batch and ends at `n` |
| Batching.NextBatch | free_rag_pipeline.py:72-83 | batch `k` is the slice `[100k, min(100k+100, n))` of each list with its embeddings, and its progress count is the slice's end |
| Store.Collection.constructor | free_rag_pipeline.py:37 | a new collection has its name and holds nothing |
| Store.Collection.Add | free_rag_pipeline.py:77-82 | `add` appends one batch to the collection and changes nothing else |
| Store.Client.GetCollection | free_rag_pipeline.py:33 | `get_collection` gives the collection of that name, or nothing where the client raises |
| Store.Client.CreateCollection | free_rag_pipeline.py:37 | `create_collection` registers a new, empty collection under a free name and leaves every other collection in place; a taken name is refused and changes nothing |
| Emergency.AnyKeyword | free_rag_pipeline.py:91 | `any(k in text for k in keywords)` holds exactly when some keyword occurs in the text |
| Emergency.MaxSimilarity | free_rag_pipeline.py:96-97 | the maximum score is at least every exemplar's score and is reached by one of them |
| Emergency.KeywordHit | free_rag_pipeline.py:88-91 | the keyword stage: some keyword occurs in the lower-cased question; KeywordInAnyCase and FeedingQuestionMissesKeywords are about it |
| Emergency.IsEmergency | free_rag_pipeline.py:86-100 | a keyword hit gives true; without one, the verdict is true exactly when some exemplar scores at least the threshold |
| Emergency.KeywordShortCircuits | free_rag_pipeline.py:91-92 | after a keyword hit, the similarity oracle cannot change the verdict |
| Emergency.LowerSlice | free_rag_pipeline.py:88 | lower-casing commutes with slicing |
| Emergency.KeywordInAnyCase | free_rag_pipeline.py:88-92 | a keyword written in any letter case anywhere in the question flags it |
| Emergency.ChocolateIsEmergency | free_rag_pipeline.py:88-92 | "My dog ate chocolate" is an emergency whatever the threshold, exemplars and oracle |
| Emergency.FeedingLacksBleeding | free_rag_pipeline.py:90-91 | "bleeding" does not occur in "how often should i feed my cat?" |
| Emergency.FeedingLacksSeizure | free_rag_pipeline.py:90-91 | "seizure" does not occur in the feeding question |
| Emergency.FeedingLacksChocolate | free_rag_pipeline.py:90-91 | "chocolate" does not occur in the feeding question |
| Emergency.FeedingLacksCollapsed | free_rag_pipeline.py:90-91 | "collapsed" does not occur in the feeding question |
| Emergency.FeedingLacksNotBreathing | free_rag_pipeline.py:90-91 | "not breathing" does not occur in the feeding question |
| Emergency.FeedingLacksChoking | free_rag_pipeline.py:90-91 | "choking" does not occur in the feeding question |
| Emergency.FeedingLacksVomiting | free_rag_pipeline.py:90-91 | "vomiting" does not occur in the feeding question |
| Emergency.FeedingLacksDiarrhea | free_rag_pipeline.py:90-91 | "diarrhea" does not occur in the feeding question |
| Emergency.NoKeywordOccurs | free_rag_pipeline.py:90-91 | a text containing none of the eight keywords has no keyword hit |
| Emergency.FeedingQuestionHasNoKeyword | free_rag_pipeline.py:90-91 | the lower-cased feeding question contains no keyword |
| Emergency.FeedingQuestionMissesKeywords | free_rag_pipeline.py:88-91 | "How often should I feed my cat?", in any letter case, gets no keyword hit |
| Emergency.FeedingQuestionUsesSimilarity | free_rag_pipeline.py:88-100 | for the feeding question the verdict is exactly whether some exemplar scores at least the threshold |
| Generation.Context | free_rag_pipeline.py:110 | the documents under headings "Relevant Information {i+1}:\n" joined with blank lines; ContextEmptyIff, ContextSnoc, ContextPrefix and ContextEntryInOrder state its properties |
| Generation.Prompt | free_rag_pipeline.py:111-122 | the prompt f-string with the context and question filled in; PromptLayout and PromptInjective state its layout |
| Generation.Messages | free_rag_pipeline.py:124-127 | the single `user` message carrying the prompt, sent to model `llama3.2:3b` |
| Generation.GenerateResponse | free_rag_pipeline.py:108-130 | the reply's content, or `Error generating response: ` + message when the call raises; see GenerateResponseOutcome |
| Generation.LabelsDistinct | free_rag_pipeline.py:110 | the headings "Relevant Information {i+1}:" of distinct documents differ |
| Generation.ContextEmptyIff | free_rag_pipeline.py:110 | the context is empty exactly when no document was retrieved |
| Generation.ContextSnoc | free_rag_pipeline.py:110 | one more document adds a blank line (unless it is the first), its heading numbered one past the previous count, and the document, at the end |
| Generation.ContextPrefix | free_rag_pipeline.py:110 | the context of the first `i` documents begins the whole context |
| Generation.ContextEntryInOrder | free_rag_pipeline.py:110 | document `i` appears under heading `i + 1`, after documents 0 to `i - 1` and a blank line: retrieval order is kept |
| Generation.PromptLayout | free_rag_pipeline.py:111-122 | the prompt is the fixed head, the context verbatim, the fixed question line, the question verbatim and the fixed instructions, in that order |
| Generation.PromptInjective | free_rag_pipeline.py:111-122 | prompts with contexts of the same length are equal only for the same context and question |
| Generation.GenerateResponseOutcome | free_rag_pipeline.py:123-130 | a raised call gives the error prefix and the exception text, which `ErrorOf` reads back; a reply is passed on unchanged and reads as no error unless it starts with the prefix |
| FreeVet.SourceOf | free_rag_pipeline.py:148 | a metadata map yields the source `{question, urgency, species}` exactly when it has those keys; otherwise the `KeyError` names a missing one |
| FreeVet.Sources | free_rag_pipeline.py:148 | the sources are one per metadata map, same length and order, each projecting exactly question, urgency and species; otherwise the error of the first incomplete map |
| FreeVet.StoredMetadataMakesSources | free_rag_pipeline.py:61-67 | metadata stored by population always has the source keys, so sources built from it never raise |
| FreeVet.Chatbot.constructor | free_rag_pipeline.py:9-48 | the chatbot keeps the dataset, the collection, the threshold and the five exemplars |
| FreeVet.Chatbot.PopulateDatabase | free_rag_pipeline.py:53-84 | an incomplete record raises its conversion error and adds nothing; otherwise the collection receives exactly the batches of the converted lists, and the progress counts are returned |
| FreeVet.Chatbot.BuildLists | free_rag_pipeline.py:56-68 | the first loop's lists, or its error, are those of the record-by-record conversion |
| FreeVet.Chatbot.AddBatches | free_rag_pipeline.py:71-83 | the second loop appends exactly the batches of the lists to the collection and yields the progress counts |
| FreeVet.Chatbot.Create | free_rag_pipeline.py:32-38 | an existing `vet_qa` collection is reused and left untouched, without population; otherwise a fresh one is registered and populated, so that it holds exactly the dataset's documents and ids in dataset order, or left empty when population raises |
| FreeVet.Chatbot.IsEmergency | free_rag_pipeline.py:86-100 | the chatbot flags a question exactly when it has a keyword hit or some exemplar scores at least the configured threshold |
| FreeVet.Chatbot.Chat | free_rag_pipeline.py:132-150 | a chat turn fails exactly when a retrieved map lacks a source key; otherwise the output has the question unchanged, the classifier's verdict, the generated answer and the sources projected one per retrieved map, in order |
| FreeVet.Chatbot.GenerationFailureOnlyAffectsAnswer | free_rag_pipeline.py:129-149 | the model's behaviour affects only the answer; a raised call makes the answer the error text |
| FreeVet.Chatbot.KeywordFlagsChat | free_rag_pipeline.py:135 | a question with a keyword is flagged as an emergency in the chat output whatever the similarity oracle says |

## Left out

- Embedding model and `util.cos_sim`: floating-point numerics inside a foreign model. They are oracles: `encode` per document and `Similarity` per question/exemplar pair. Batch encoding is assumed to equal encoding each document on its own.
- Vector store ranking: the nearest-neighbour query is the `Retriever` oracle. `retrieve_relevant_context` is modelled only as that oracle, called with `n_results = 3`, and only the first query row (`[0]`) is modelled.
- Failures inside `add`, `get_collection` errors other than a missing collection, and duplicate-id rejection by the store are not modelled.
- Persistence settings of the store client are not modelled. The `Client` given to `Chatbot.Create` stands for whatever state the store starts in.
- The language model call: `ollama.chat` is the `Generator` oracle. A response lacking `message` or `content` raises inside the `try`, so it is folded into the `Raised` case.
- File I/O: `json.load` of the dataset file is left out. The dataset is given as the already parsed sequence of records.
- JSON values other than strings and integers (floats, booleans, null, nested values) are not modelled, so neither is `str()` on them.
- Every `print`, including the progress line. `AddBatches` and `PopulateDatabase` return the progress counts instead of printing them. `Chatbot.Create` discards them.
- `format_output`: console output only.
- `app.py` and `evaluation.py` are not part of this model. They are a user interface and a timing harness.
- `str.lower()`: modelled on ASCII letters only. Full Unicode case mapping is left out.
