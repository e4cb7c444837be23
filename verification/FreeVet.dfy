/** The chatbot object (free_rag_pipeline.py, `FreeVETChatbot`): start-up
    against the vector store, which fills a new collection from the dataset
    and reuses an existing one untouched; and a chat turn, which combines
    the emergency verdict, the generated answer and the sources of the
    retrieved documents into one output record. */
module FreeVet {
  import opened Wrappers
  import opened Records
  import opened Batching
  import opened Store
  import opened Emergency
  import opened Generation

  /** The name of the collection the chatbot keeps its knowledge base in. */
  const VetCollection: string := "vet_qa"

  /** How many documents a chat turn asks the store for. */
  const NumResults: nat := 3

  /** What the store's query gives back for one question: the matching
      documents and their metadata, in rank order. */
  datatype Retrieval = Retrieval(documents: seq<string>, metadatas: seq<Metadata>)

  /** `retrieve_relevant_context(question, n_results)`: embedding the question
      and querying the store, an oracle here. */
  type Retriever = (string, nat) -> Retrieval

  /** One entry of the output's `sources`. */
  datatype Source = Source(question: Value, urgency: Value, species: Value)

  /** The dictionary `chat` returns. */
  datatype ChatOutput = ChatOutput(question: string, answer: string, isEmergency: bool, sources: seq<Source>)

  /** The metadata holds the three keys a source is built from. */
  predicate HasSourceKeys(m: Metadata)
  {
    "question" in m && "urgency" in m && "species" in m
  }

  /** `{'question': m['question'], 'urgency': m['urgency'], 'species': m['species']}`,
      or the `KeyError` of the first of these keys that is missing. */
  function SourceOf(m: Metadata): (r: Result<Source, Error>)
    ensures r.Success? <==> HasSourceKeys(m)
    ensures r.Success? ==> r.value == Source(m["question"], m["urgency"], m["species"])
    ensures r.Failure? ==> r.error.MissingKey? && r.error.key !in m && r.error.key in {"question", "urgency", "species"}
  {
    if "question" !in m then Failure(MissingKey("question"))
    else if "urgency" !in m then Failure(MissingKey("urgency"))
    else if "species" !in m then Failure(MissingKey("species"))
    else Success(Source(m["question"], m["urgency"], m["species"]))
  }

  predicate AllHaveSourceKeys(metas: seq<Metadata>)
  {
    forall j :: 0 <= j < |metas| ==> HasSourceKeys(metas[j])
  }

  /** The `sources` list comprehension: one source per metadata map, same
      order, each projecting exactly question, urgency and species; or the
      error of the first map lacking one of them. */
  function Sources(metas: seq<Metadata>): (r: Result<seq<Source>, Error>)
    ensures r.Success? <==> AllHaveSourceKeys(metas)
    ensures r.Success? ==> |r.value| == |metas|
    ensures r.Success? ==> forall j :: 0 <= j < |metas| ==>
      r.value[j] == Source(metas[j]["question"], metas[j]["urgency"], metas[j]["species"])
    ensures r.Failure? ==> exists j :: 0 <= j < |metas| && SourceOf(metas[j]) == Failure(r.error) && AllHaveSourceKeys(metas[..j])
  {
    if |metas| == 0 then Success([])
    else
      match SourceOf(metas[0])
      case Failure(e) =>
        assert AllHaveSourceKeys(metas[..0]);
        Failure(e)
      case Success(s) =>
        var rest := Sources(metas[1..]);
        assert forall j :: 1 <= j < |metas| ==> metas[1..][j - 1] == metas[j];
        match rest
        case Failure(e) =>
          ghost var j :| 0 <= j < |metas[1..]| && SourceOf(metas[1..][j]) == Failure(e) && AllHaveSourceKeys(metas[1..][..j]);
          assert metas[..j + 1] == [metas[0]] + metas[1..][..j];
          Failure(e)
        case Success(ss) => Success([s] + ss)
  }

  /** Metadata that population stored in the collection always has the keys a
      source needs: a chat turn whose retrieval returns stored metadata never
      raises a `KeyError` while building its sources. */
  lemma StoredMetadataMakesSources(dataset: seq<Item>, encode: string -> Vector, metas: seq<Metadata>)
    requires AllWellFormed(dataset)
    requires forall j :: 0 <= j < |metas| ==>
      metas[j] in Flatten(MetadataColumn(MakeBatches(ConvertAll(dataset).value, encode)))
    ensures Sources(metas).Success?
  {
    var ls := ConvertAll(dataset).value;
    BatchesRoundTrip(ls, encode);
    ConvertAllContents(dataset);
    forall j | 0 <= j < |metas| ensures HasSourceKeys(metas[j]) {
      var l :| 0 <= l < |ls.metadatas| && ls.metadatas[l] == metas[j];
      assert HoldsAt(ls, l, dataset[l]);
    }
  }

  class Chatbot {
    const dataset: seq<Item>
    const collection: Collection
    const emergencySimilarity: real
    const emergencyExamples: seq<string> := EmergencyExamples

    constructor(dataset: seq<Item>, collection: Collection, emergencySimilarity: real)
      ensures this.dataset == dataset && this.collection == collection
      ensures this.emergencySimilarity == emergencySimilarity
    {
      this.dataset := dataset;
      this.collection := collection;
      this.emergencySimilarity := emergencySimilarity;
    }

    /** `_populate_database()`: converts every record into the three lists,
        then hands them to the collection in batches of `BatchSize`, one
        `add` per batch, and returns the progress count shown after each
        batch. A record without a required key raises before anything is
        added. */
    method PopulateDatabase(encode: string -> Vector) returns (r: Result<seq<nat>, Error>)
      modifies collection
      ensures r.Success? <==> AllWellFormed(dataset)
      ensures r.Failure? ==> ConvertAll(dataset) == Failure(r.error) && collection.batches == old(collection.batches)
      ensures r.Success? ==>
        && collection.batches == old(collection.batches) + MakeBatches(ConvertAll(dataset).value, encode)
        && r.value == ProgressCounts(|dataset|)
    {
      var converted := BuildLists(dataset);
      match converted
      case Failure(e) =>
        return Failure(e);
      case Success(ls) =>
        var progress := AddBatches(ls, encode);
        return Success(progress);
    }

    /** The first loop of `_populate_database`: the three lists, built record
        by record in dataset order, or the `KeyError` of the first record
        that lacks a required key. */
    static method BuildLists(dataset: seq<Item>) returns (r: Result<Lists, Error>)
      ensures r == ConvertAll(dataset)
    {
      var documents, metadatas, ids := [], [], [];
      var j := 0;
      while j < |dataset|
        invariant 0 <= j <= |dataset|
        invariant ConvertAll(dataset[..j]) == Success(Lists(documents, metadatas, ids))
      {
        assert dataset[..j + 1][..j] == dataset[..j];
        match ConvertItem(dataset[j])
        case Failure(e) =>
          ConvertAllPrefixFailure(dataset, j + 1, e);
          return Failure(e);
        case Success(entry) =>
          documents := documents + [entry.document];
          metadatas := metadatas + [entry.metadata];
          ids := ids + [entry.id];
        j := j + 1;
      }
      assert dataset[..j] == dataset;
      return Success(Lists(documents, metadatas, ids));
    }

    /** The second loop of `_populate_database`: one `add` per batch of at
        most `BatchSize` records, each with the embeddings of its documents,
        and the progress count `min(i + BatchSize, n)` after each. */
    method AddBatches(ls: Lists, encode: string -> Vector) returns (progress: seq<nat>)
      requires ls.Aligned()
      modifies collection
      ensures collection.batches == old(collection.batches) + MakeBatches(ls, encode)
      ensures progress == ProgressCounts(ls.Length())
    {
      var n := |ls.documents|;
      progress := [];
      var i, k := 0, 0;
      while i < n
        invariant k <= NumBatches(n) && i == k * BatchSize
        invariant collection.batches == old(collection.batches) + MakeBatches(ls, encode)[..k]
        invariant progress == ProgressCounts(n)[..k]
        decreases n - i
      {
        BatchStartBelow(n, k);
        var end := Min(i + BatchSize, n);
        var batchDocs := ls.documents[i..end];
        var batchMeta := ls.metadatas[i..end];
        var batchIds := ls.ids[i..end];
        var embeddings := Embed(batchDocs, encode);
        collection.Add(batchDocs, batchMeta, batchIds, embeddings);
        progress := progress + [end];
        NextBatch(ls, encode, k);
        i, k := i + BatchSize, k + 1;
      }
      BatchStartBelow(n, k);
      assert MakeBatches(ls, encode)[..k] == MakeBatches(ls, encode);
      assert ProgressCounts(n)[..k] == ProgressCounts(n);
    }

    /** `FreeVETChatbot(dataset_path, emergency_similarity)`: reuses the
        "vet_qa" collection when the store has one, leaving it untouched;
        otherwise creates it and populates it from the dataset, which fails
        on a malformed record after the empty collection has been
        registered. */
    static method Create(dataset: seq<Item>, client: Client, encode: string -> Vector,
                         emergencySimilarity: real := DefaultEmergencySimilarity)
      returns (r: Result<Chatbot, Error>)
      modifies client
      ensures VetCollection in old(client.collections) ==>
        && client.collections == old(client.collections)
        && r.Success?
        && r.value.collection == client.collections[VetCollection]
        && r.value.collection.batches == old(client.collections[VetCollection].batches)
        && r.value.dataset == dataset && r.value.emergencySimilarity == emergencySimilarity
      ensures VetCollection !in old(client.collections) ==>
        && VetCollection in client.collections
        && fresh(client.collections[VetCollection])
        && client.collections == old(client.collections)[VetCollection := client.collections[VetCollection]]
        && client.collections[VetCollection].name == VetCollection
        && (AllWellFormed(dataset) ==>
              && r.Success?
              && r.value.collection == client.collections[VetCollection]
              && r.value.collection.batches == MakeBatches(ConvertAll(dataset).value, encode)
              && r.value.collection.Documents() == ConvertAll(dataset).value.documents
              && r.value.collection.Ids() == ConvertAll(dataset).value.ids
              && r.value.dataset == dataset && r.value.emergencySimilarity == emergencySimilarity)
        && (!AllWellFormed(dataset) ==>
              && r == Failure(ConvertAll(dataset).error)
              && client.collections[VetCollection].batches == [])
    {
      var existing := client.GetCollection(VetCollection);
      match existing
      case Some(c) =>
        var bot := new Chatbot(dataset, c, emergencySimilarity);
        r := Success(bot);
      case None =>
        var created := client.CreateCollection(VetCollection);
        var c := created.value;
        var bot := new Chatbot(dataset, c, emergencySimilarity);
        var populated := bot.PopulateDatabase(encode);
        if populated.Failure? {
          r := Failure(populated.error);
        } else {
          BatchesRoundTrip(ConvertAll(dataset).value, encode);
          r := Success(bot);
        }
    }

    /** `is_emergency(question)`: a keyword in the lower-cased question, or
        an exemplar at least as similar as the threshold. */
    function IsEmergency(question: string, sim: Similarity): (r: bool)
      ensures r <==> KeywordHit(question) || exists e :: e in emergencyExamples && sim(question, e) >= emergencySimilarity
    {
      Emergency.IsEmergency(question, emergencySimilarity, emergencyExamples, sim)
    }

    /** `chat(question)`: the question unchanged, the generated answer, the
        emergency verdict and one source per retrieved metadata map; it
        raises only when a retrieved map lacks a source key. */
    function Chat(question: string, sim: Similarity, retrieve: Retriever, generate: Generator): (r: Result<ChatOutput, Error>)
      ensures var results := retrieve(question, NumResults);
        && (r.Success? <==> AllHaveSourceKeys(results.metadatas))
        && (r.Failure? ==> Sources(results.metadatas) == Failure(r.error))
        && (r.Success? ==>
              && r.value.question == question
              && r.value.isEmergency == IsEmergency(question, sim)
              && r.value.answer == GenerateResponse(question, results.documents, generate)
              && r.value.sources == Sources(results.metadatas).value)
    {
      var emergency := IsEmergency(question, sim);
      var results := retrieve(question, NumResults);
      var response := GenerateResponse(question, results.documents, generate);
      match Sources(results.metadatas)
      case Failure(e) => Failure(e)
      case Success(sources) => Success(ChatOutput(question, response, emergency, sources))
    }

    /** A failed generation call changes only the answer, which becomes the
        error text: whether the turn succeeds, the question, the verdict and
        the sources are the same whatever the model does. */
    lemma GenerationFailureOnlyAffectsAnswer(question: string, sim: Similarity, retrieve: Retriever, g1: Generator, g2: Generator)
      ensures Chat(question, sim, retrieve, g1).Success? == Chat(question, sim, retrieve, g2).Success?
      ensures Chat(question, sim, retrieve, g1).Success? ==>
        var o1, o2 := Chat(question, sim, retrieve, g1).value, Chat(question, sim, retrieve, g2).value;
        && o1.question == o2.question && o1.isEmergency == o2.isEmergency && o1.sources == o2.sources
        && (g2(ModelName, Messages(question, retrieve(question, NumResults).documents)).Raised? ==>
              o2.answer == ErrorPrefix + g2(ModelName, Messages(question, retrieve(question, NumResults).documents)).message)
    {
    }

    /** A keyword in the question flags the turn as an emergency whatever the
        similarity oracle says. */
    lemma KeywordFlagsChat(question: string, sim: Similarity, retrieve: Retriever, generate: Generator)
      requires KeywordHit(question)
      requires Chat(question, sim, retrieve, generate).Success?
      ensures Chat(question, sim, retrieve, generate).value.isEmergency
    {
    }
  }
}
