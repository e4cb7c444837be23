/** The vector store, seen only through the calls the pipeline makes on it:
    `get_collection`, `create_collection` and `add`. A collection is modelled
    by the log of the batches added to it; nearest-neighbour search is not
    modelled (a query is an oracle of the chat session). */
module Store {
  import opened Wrappers
  import opened Records
  import opened Batching

  class Collection {
    const name: string
    var batches: seq<Batch>

    constructor(name: string)
      ensures this.name == name && batches == []
    {
      this.name := name;
      batches := [];
    }

    /** The documents stored so far, in the order they were added. */
    function Documents(): seq<string>
      reads this
    {
      Flatten(DocumentColumn(batches))
    }

    function Ids(): seq<string>
      reads this
    {
      Flatten(IdColumn(batches))
    }

    /** `collection.add(documents=..., metadatas=..., ids=..., embeddings=...)`. */
    method Add(documents: seq<string>, metadatas: seq<Metadata>, ids: seq<string>, embeddings: seq<Vector>)
      modifies this
      ensures batches == old(batches) + [Batch(documents, metadatas, ids, embeddings)]
    {
      batches := batches + [Batch(documents, metadatas, ids, embeddings)];
    }
  }

  /** The store's client: the collections it holds, by name. */
  class Client {
    var collections: map<string, Collection>

    /** `get_collection(name)`: the collection of that name, or `None` where the client raises. */
    method GetCollection(name: string) returns (r: Option<Collection>)
      ensures r == if name in collections then Some(collections[name]) else None
    {
      r := if name in collections then Some(collections[name]) else None;
    }

    /** `create_collection(name)`: a new, empty collection, registered under
        `name`; the call raises if the name is already taken. */
    method CreateCollection(name: string) returns (r: Result<Collection, Error>)
      modifies this
      ensures name in old(collections) ==> r == Failure(CollectionExists(name)) && collections == old(collections)
      ensures name !in old(collections) ==>
        && r.Success? && fresh(r.value) && r.value.name == name && r.value.batches == []
        && collections == old(collections)[name := r.value]
    {
      if name in collections {
        r := Failure(CollectionExists(name));
      } else {
        var c := new Collection(name);
        collections := collections[name := c];
        r := Success(c);
      }
    }
  }
}
