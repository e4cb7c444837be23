/** Turning the records of the knowledge-base dataset into what the vector
    store is given: a `Q:/A:` document text, a metadata map and a string id
    per record (free_rag_pipeline.py, `_populate_database`, first loop). */
module Records {
  import opened Wrappers
  import opened Text

  /** A scalar of the JSON dataset: a string or an integer. */
  datatype Value = Str(s: string) | Int(i: int)

  /** What `str(v)` and `f"{v}"` give for a dataset value. */
  function Render(v: Value): string
  {
    match v
    case Str(s) => s
    case Int(i) => IntToDecimal(i)
  }

  /** One dataset record, as loaded from JSON: keys to values. */
  type Item = map<string, Value>

  /** The metadata stored beside a document. */
  type Metadata = map<string, Value>

  /** The exceptions the modelled code raises: a `KeyError` for a key looked
      up and not found, and the vector store's refusal to create a collection
      whose name is taken. */
  datatype Error = MissingKey(key: string) | CollectionExists(name: string)

  const DefaultCategory: string := "general"

  /** The record has every key the conversion looks up. */
  predicate WellFormed(item: Item)
  {
    "question" in item && "answer" in item && "urgency" in item && "species" in item && "id" in item
  }

  /** `f"Q: {item['question']}\nA: {item['answer']}"`. */
  function DocumentText(item: Item): string
    requires WellFormed(item)
  {
    "Q: " + Render(item["question"]) + "\nA: " + Render(item["answer"])
  }

  /** The metadata dictionary of a record; `category` falls back to "general". */
  function MetadataOf(item: Item): Metadata
    requires WellFormed(item)
  {
    map[
      "question" := item["question"],
      "answer" := item["answer"],
      "urgency" := item["urgency"],
      "species" := item["species"],
      "category" := if "category" in item then item["category"] else Str(DefaultCategory)
    ]
  }

  /** `str(item['id'])`. */
  function IdOf(item: Item): string
    requires WellFormed(item)
  {
    Render(item["id"])
  }

  /** What one record contributes to the three lists. */
  datatype Entry = Entry(document: string, metadata: Metadata, id: string)

  /** The required keys looked up before `k`. */
  function KeysBefore(k: string): set<string>
  {
    if k == "question" then {}
    else if k == "answer" then {"question"}
    else if k == "urgency" then {"question", "answer"}
    else if k == "species" then {"question", "answer", "urgency"}
    else {"question", "answer", "urgency", "species"}
  }

  /** Converts one record, or raises the `KeyError` of the first required key it lacks. */
  function ConvertItem(item: Item): (r: Result<Entry, Error>)
    ensures r.Success? <==> WellFormed(item)
    ensures r.Failure? ==> r.error.MissingKey? && r.error.key in {"question", "answer", "urgency", "species", "id"}
    ensures r.Failure? ==> r.error.key !in item && KeysBefore(r.error.key) <= item.Keys
  {
    if "question" !in item then Failure(MissingKey("question"))
    else if "answer" !in item then Failure(MissingKey("answer"))
    else if "urgency" !in item then Failure(MissingKey("urgency"))
    else if "species" !in item then Failure(MissingKey("species"))
    else if "id" !in item then Failure(MissingKey("id"))
    else Success(Entry(DocumentText(item), MetadataOf(item), IdOf(item)))
  }

  /** The document text carries the question and the answer verbatim, and the
      metadata copies every field but `category`, which defaults to "general". */
  lemma ConvertItemContents(item: Item)
    requires WellFormed(item)
    ensures var e := ConvertItem(item).value;
      var q, a := Render(item["question"]), Render(item["answer"]);
      && e.document[..3] == "Q: "
      && e.document[3..3 + |q|] == q
      && |e.document| == 7 + |q| + |a|
      && e.document[3 + |q|..7 + |q|] == "\nA: "
      && e.document[7 + |q|..] == a
      && e.metadata.Keys == {"question", "answer", "urgency", "species", "category"}
      && (forall k :: k in {"question", "answer", "urgency", "species"} ==> e.metadata[k] == item[k])
      && e.metadata["category"] == (if "category" in item then item["category"] else Str("general"))
      && e.id == Render(item["id"])
  {
  }

  /** The three parallel lists `_populate_database` builds. */
  datatype Lists = Lists(documents: seq<string>, metadatas: seq<Metadata>, ids: seq<string>)
  {
    function Length(): nat { |documents| }

    predicate Aligned()
    {
      |metadatas| == |documents| && |ids| == |documents|
    }

    function Append(e: Entry): Lists
    {
      Lists(documents + [e.document], metadatas + [e.metadata], ids + [e.id])
    }
  }

  const NoLists: Lists := Lists([], [], [])

  predicate AllWellFormed(items: seq<Item>)
  {
    forall j :: 0 <= j < |items| ==> WellFormed(items[j])
  }

  /** The first loop of `_populate_database`: the records converted in order,
      or the error of the first record that cannot be converted. */
  function ConvertAll(items: seq<Item>): (r: Result<Lists, Error>)
    ensures r.Success? <==> AllWellFormed(items)
    ensures r.Success? ==> r.value.Aligned() && r.value.Length() == |items|
  {
    if |items| == 0 then Success(NoLists)
    else
      var front := items[..|items| - 1];
      assert forall j :: 0 <= j < |front| ==> front[j] == items[j];
      Extend(ConvertAll(front), items[|items| - 1])
  }

  /** One iteration of the loop: converts `item` and appends it, unless an earlier record has failed. */
  function Extend(sofar: Result<Lists, Error>, item: Item): Result<Lists, Error>
  {
    match sofar
    case Failure(e) => Failure(e)
    case Success(ls) =>
      match ConvertItem(item)
      case Failure(e) => Failure(e)
      case Success(entry) => Success(ls.Append(entry))
  }

  /** A well-formed record converts to its document text, metadata and id. */
  lemma ConvertWellFormed(item: Item)
    requires WellFormed(item)
    ensures ConvertItem(item) == Success(Entry(DocumentText(item), MetadataOf(item), IdOf(item)))
  {
  }

  /** Position `j` of the three lists holds what record `item` converts to. */
  predicate HoldsAt(ls: Lists, j: int, item: Item)
    requires WellFormed(item)
  {
    && 0 <= j < |ls.documents| && ls.documents[j] == DocumentText(item)
    && 0 <= j < |ls.metadatas| && ls.metadatas[j] == MetadataOf(item)
    && 0 <= j < |ls.ids| && ls.ids[j] == IdOf(item)
  }

  /** A dataset of well-formed records converts to one document, one metadata
      map and one id per record, in dataset order. */
  lemma {:induction false} ConvertAllContents(items: seq<Item>)
    requires AllWellFormed(items)
    ensures ConvertAll(items).Success?
    ensures forall j :: 0 <= j < |items| ==> HoldsAt(ConvertAll(items).value, j, items[j])
  {
    if |items| > 0 {
      var n := |items| - 1;
      var front := items[..n];
      assert AllWellFormed(front) by {
        forall j | 0 <= j < n ensures WellFormed(front[j]) { assert front[j] == items[j]; }
      }
      ConvertAllContents(front);
      var cf := ConvertAll(front).value;
      var e := Entry(DocumentText(items[n]), MetadataOf(items[n]), IdOf(items[n]));
      ConvertWellFormed(items[n]);
      assert ConvertAll(items) == Extend(Success(cf), items[n]);
      forall j | 0 <= j < |items| ensures HoldsAt(cf.Append(e), j, items[j]) {
        if j < n {
          assert front[j] == items[j];
          AppendKeeps(cf, e, j, items[j]);
        } else {
          AppendHolds(cf, items[n]);
        }
      }
    }
  }

  /** Appending an entry leaves the earlier positions as they were. */
  lemma AppendKeeps(ls: Lists, e: Entry, j: int, item: Item)
    requires WellFormed(item) && HoldsAt(ls, j, item)
    ensures HoldsAt(ls.Append(e), j, item)
  {
  }

  /** Appending the entry of a record puts it at the end of aligned lists. */
  lemma AppendHolds(ls: Lists, item: Item)
    requires WellFormed(item) && ls.Aligned()
    ensures HoldsAt(ls.Append(Entry(DocumentText(item), MetadataOf(item), IdOf(item))), ls.Length(), item)
  {
  }

  /** A dataset with a malformed record fails with the error of the first malformed record. */
  lemma {:induction false} ConvertAllFirstError(items: seq<Item>)
    requires !AllWellFormed(items)
    ensures exists j :: 0 <= j < |items| && ConvertItem(items[j]) == Failure(ConvertAll(items).error) && AllWellFormed(items[..j])
  {
    var front := items[..|items| - 1];
    if AllWellFormed(front) {
      assert items[..|items| - 1] == front;
    } else {
      ConvertAllFirstError(front);
      var j :| 0 <= j < |front| && ConvertItem(front[j]) == Failure(ConvertAll(front).error) && AllWellFormed(front[..j]);
      assert front[..j] == items[..j];
    }
  }

  /** Once a prefix of the dataset fails to convert, the whole dataset fails with the same error. */
  lemma {:induction false} ConvertAllPrefixFailure(items: seq<Item>, n: nat, e: Error)
    requires n <= |items|
    requires ConvertAll(items[..n]) == Failure(e)
    ensures ConvertAll(items) == Failure(e)
    decreases |items| - n
  {
    if n < |items| {
      assert items[..n + 1][..n] == items[..n];
      ConvertAllPrefixFailure(items, n + 1, e);
    } else {
      assert items[..n] == items;
    }
  }

  /** Records whose `id` values are distinct integers get distinct id strings. */
  lemma DistinctIntIds(items: seq<Item>)
    requires AllWellFormed(items)
    requires forall j :: 0 <= j < |items| ==> items[j]["id"].Int?
    requires forall j, l :: 0 <= j < l < |items| ==> items[j]["id"] != items[l]["id"]
    ensures forall j, l :: 0 <= j < l < |items| ==> ConvertAll(items).value.ids[j] != ConvertAll(items).value.ids[l]
  {
    ConvertAllContents(items);
    var ids := ConvertAll(items).value.ids;
    forall j, l | 0 <= j < l < |items| ensures ids[j] != ids[l] {
      assert HoldsAt(ConvertAll(items).value, j, items[j]);
      assert HoldsAt(ConvertAll(items).value, l, items[l]);
      if ids[j] == ids[l] {
        IntToDecimalInjective(items[j]["id"].i, items[l]["id"].i);
      }
    }
  }
}
