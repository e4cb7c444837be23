/** Building the language-model prompt from the retrieved documents, and the
    fallback that turns a failed generation call into an error text
    (free_rag_pipeline.py, `generate_response`). The model itself, reached
    over the network, is an oracle. */
module Generation {
  import opened Wrappers
  import opened Text

  const LabelPrefix: string := "Relevant Information "
  const LabelSuffix: string := ":\n"

  /** The separator between context entries. */
  const EntrySeparator: string := "\n\n"

  /** The heading of the `i`-th retrieved document (counted from 0), numbered from 1. */
  function Label(i: nat): string
  {
    LabelPrefix + NatToDecimal(i + 1) + LabelSuffix
  }

  /** Distinct positions get distinct headings. */
  lemma LabelsDistinct(i: nat, j: nat)
    requires Label(i) == Label(j)
    ensures i == j
  {
    var a, b := Label(i), Label(j);
    assert a[|LabelPrefix|..|a| - |LabelSuffix|] == NatToDecimal(i + 1);
    assert b[|LabelPrefix|..|b| - |LabelSuffix|] == NatToDecimal(j + 1);
    NatToDecimalInjective(i + 1, j + 1);
  }

  /** Each document under its heading. */
  function ContextEntries(docs: seq<string>): seq<string>
  {
    seq(|docs|, i requires 0 <= i < |docs| => Label(i) + docs[i])
  }

  /** The context block: the entries joined with blank lines. */
  function Context(docs: seq<string>): string
  {
    Join(EntrySeparator, ContextEntries(docs))
  }

  /** The context is empty exactly when no document was retrieved. */
  lemma ContextEmptyIff(docs: seq<string>)
    ensures Context(docs) == "" <==> docs == []
  {
    if docs != [] {
      assert |ContextEntries(docs)[0]| >= |Label(0)| > 0;
    }
  }

  /** One more document adds a blank line (unless it is the first), its
      heading numbered `|docs| + 1`, and the document itself, at the end. */
  lemma ContextSnoc(docs: seq<string>, d: string)
    ensures Context(docs + [d]) == (if docs == [] then "" else Context(docs) + EntrySeparator) + Label(|docs|) + d
  {
    assert ContextEntries(docs + [d]) == ContextEntries(docs) + [Label(|docs|) + d];
    JoinSnoc(EntrySeparator, ContextEntries(docs), Label(|docs|) + d);
  }

  /** The context of the first `i` documents begins the whole context. */
  lemma {:induction false} ContextPrefix(docs: seq<string>, i: nat)
    requires i <= |docs|
    ensures Context(docs[..i]) <= Context(docs)
    decreases |docs|
  {
    if i < |docs| {
      var front := docs[..|docs| - 1];
      assert front[..i] == docs[..i];
      ContextPrefix(front, i);
      assert front + [docs[|docs| - 1]] == docs;
      ContextSnoc(front, docs[|docs| - 1]);
    } else {
      assert docs[..i] == docs;
    }
  }

  /** Document `i`, under heading `i + 1`, follows documents 0 to `i - 1` in
      the context: the order of retrieval is kept. */
  lemma ContextEntryInOrder(docs: seq<string>, i: nat)
    requires i < |docs|
    ensures Context(docs[..i + 1]) == (if i == 0 then "" else Context(docs[..i]) + EntrySeparator) + Label(i) + docs[i]
    ensures Context(docs[..i + 1]) <= Context(docs)
  {
    assert docs[..i + 1] == docs[..i] + [docs[i]];
    ContextSnoc(docs[..i], docs[i]);
    ContextPrefix(docs, i + 1);
  }

  const PromptHead: string :=
    "You are a veterinary assistant. Answer based ONLY on the context below. If info is missing, say so.\n\nContext:\n"
  const PromptMiddle: string := "\n\nQuestion: "
  const PromptTail: string :=
    "\n\nInstructions:\n- If emergency, start with \"\U{26A0}\U{FE0F} EMERGENCY:\"\n- Concise but thorough\n- Include disclaimer to consult a vet if unsure\nAnswer:"

  /** The prompt template with the context block and the question filled in. */
  function Prompt(context: string, question: string): string
  {
    PromptHead + context + PromptMiddle + question + PromptTail
  }

  /** The prompt holds the fixed head, then the context verbatim, then the
      question verbatim, then the fixed instructions; so a prompt and the
      length of its context give back both. */
  lemma PromptLayout(context: string, question: string)
    ensures var p, h, m := Prompt(context, question), |PromptHead|, |PromptMiddle|;
      && |p| == h + |context| + m + |question| + |PromptTail|
      && p[..h] == PromptHead
      && p[h..h + |context|] == context
      && p[h + |context|..h + |context| + m] == PromptMiddle
      && p[h + |context| + m..|p| - |PromptTail|] == question
      && p[|p| - |PromptTail|..] == PromptTail
  {
  }

  /** Two prompts with contexts of the same length are equal only for the same context and question. */
  lemma PromptInjective(c1: string, q1: string, c2: string, q2: string)
    requires |c1| == |c2| && Prompt(c1, q1) == Prompt(c2, q2)
    ensures c1 == c2 && q1 == q2
  {
    PromptLayout(c1, q1);
    PromptLayout(c2, q2);
  }

  /** A chat message handed to the model. */
  datatype Message = Message(role: string, content: string)

  /** What the chat call gives back: the reply text, or the text of the exception it raised. */
  datatype Reply = Answered(content: string) | Raised(message: string)

  /** The local model server: a model name and a message list in, a reply out. */
  type Generator = (string, seq<Message>) -> Reply

  const ModelName: string := "llama3.2:3b"

  const ErrorPrefix: string := "Error generating response: "

  /** The single user message that carries the prompt. */
  function Messages(question: string, docs: seq<string>): seq<Message>
  {
    [Message("user", Prompt(Context(docs), question))]
  }

  /** `generate_response(question, context_docs)`: the model's reply to the
      prompt, or, when the call raises, the error text. */
  function GenerateResponse(question: string, docs: seq<string>, generate: Generator): (r: string)
  {
    match generate(ModelName, Messages(question, docs))
    case Answered(content) => content
    case Raised(message) => ErrorPrefix + message
  }

  /** Reads an error text back: the message after the error prefix, if any. */
  function ErrorOf(response: string): Option<string>
  {
    if ErrorPrefix <= response then Some(response[|ErrorPrefix|..]) else None
  }

  /** A failed call yields the error prefix followed by the exception's text,
      which can be read back; a reply is passed on unchanged and reads as no
      error unless the model itself began its reply with the prefix. */
  lemma GenerateResponseOutcome(question: string, docs: seq<string>, generate: Generator)
    ensures var reply, r := generate(ModelName, Messages(question, docs)), GenerateResponse(question, docs, generate);
      && (reply.Raised? ==> ErrorPrefix <= r && ErrorOf(r) == Some(reply.message))
      && (reply.Answered? ==> r == reply.content && (ErrorOf(r) == None <==> !(ErrorPrefix <= reply.content)))
  {
    var reply, r := generate(ModelName, Messages(question, docs)), GenerateResponse(question, docs, generate);
    if reply.Raised? {
      assert r == ErrorPrefix + reply.message;
      assert r[|ErrorPrefix|..] == reply.message;
    }
  }
}
