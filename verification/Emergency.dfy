/** The hybrid emergency classifier (free_rag_pipeline.py, `is_emergency`):
    a keyword test on the lower-cased question, and only when no keyword
    matches, the highest similarity between the question and the emergency
    exemplars compared against a threshold. */
module Emergency {
  import opened Text

  /** The fixed keywords, already lower-case. */
  const Keywords: seq<string> :=
    ["bleeding", "seizure", "chocolate", "collapsed", "not breathing", "choking", "vomiting", "diarrhea"]

  /** The default of `emergency_similarity`. */
  const DefaultEmergencySimilarity: real := 0.7

  /** The phrases whose embeddings anchor the similarity stage. */
  const EmergencyExamples: seq<string> := [
    "My dog ate chocolate",
    "My cat is vomiting and has diarrhea",
    "My pet is having a seizure",
    "My dog is choking",
    "My cat collapsed and is not breathing"
  ]

  /** The similarity score the embedding model gives a question and an
      exemplar (`util.cos_sim` of their embeddings): an oracle. */
  type Similarity = (string, string) -> real

  /** `any(k in text for k in keywords)`. */
  function AnyKeyword(text: string, keywords: seq<string>): (r: bool)
    ensures r <==> exists k :: k in keywords && Contains(text, k)
  {
    if |keywords| == 0 then false
    else
      var rest := AnyKeyword(text, keywords[1..]);
      assert forall k :: k in keywords <==> k == keywords[0] || k in keywords[1..];
      Contains(text, keywords[0]) || rest
  }

  /** The keyword stage: some keyword occurs in the lower-cased question. */
  predicate KeywordHit(question: string)
  {
    AnyKeyword(Lower(question), Keywords)
  }

  /** `similarities.max()`: the highest score of the question against the exemplars. */
  function MaxSimilarity(question: string, exemplars: seq<string>, sim: Similarity): (m: real)
    requires |exemplars| > 0
    ensures forall e :: e in exemplars ==> sim(question, e) <= m
    ensures exists e :: e in exemplars && sim(question, e) == m
  {
    if |exemplars| == 1 then sim(question, exemplars[0])
    else
      var rest := MaxSimilarity(question, exemplars[1..], sim);
      var first := sim(question, exemplars[0]);
      if first >= rest then first else rest
  }

  /** `is_emergency(question)`: a keyword hit makes it true whatever the
      similarity oracle says; without one, it is true exactly when some
      exemplar scores at least the threshold. */
  function IsEmergency(question: string, threshold: real, exemplars: seq<string>, sim: Similarity): (r: bool)
    requires |exemplars| > 0
    ensures KeywordHit(question) ==> r
    ensures !KeywordHit(question) ==> (r <==> exists e :: e in exemplars && sim(question, e) >= threshold)
  {
    KeywordHit(question) || MaxSimilarity(question, exemplars, sim) >= threshold
  }

  /** The similarity stage is never consulted after a keyword hit: any two
      oracles give the same verdict. */
  lemma KeywordShortCircuits(question: string, threshold: real, exemplars: seq<string>, sim1: Similarity, sim2: Similarity)
    requires |exemplars| > 0
    requires KeywordHit(question)
    ensures IsEmergency(question, threshold, exemplars, sim1) == IsEmergency(question, threshold, exemplars, sim2)
  {
  }

  /** Lower-casing commutes with taking a slice. */
  lemma LowerSlice(s: string, i: nat, j: nat)
    requires i <= j <= |s|
    ensures Lower(s)[i..j] == Lower(s[i..j])
  {
  }

  /** A keyword written in any mix of upper and lower case anywhere in the
      question flags it. */
  lemma KeywordInAnyCase(question: string, k: string, i: nat)
    requires k in Keywords
    requires i + |k| <= |question| && Lower(question[i..i + |k|]) == k
    ensures KeywordHit(question)
  {
    LowerSlice(question, i, i + |k|);
    LowerIsLowerCase(question);
    PositionIsContained(Lower(question), k, i);
  }

  /** "My dog ate chocolate" is an emergency whatever the threshold, the exemplars and the oracle. */
  lemma ChocolateIsEmergency(threshold: real, exemplars: seq<string>, sim: Similarity)
    requires |exemplars| > 0
    ensures IsEmergency("My dog ate chocolate", threshold, exemplars, sim)
  {
    KeywordInAnyCase("My dog ate chocolate", "chocolate", 11);
  }

  /** A question without any keyword, lower-cased. */
  const FeedingQuestion: string := "how often should i feed my cat?"

  // No keyword occurs in the feeding question: each keyword has a character
  // that the question lacks where the keyword could start.

  lemma FeedingLacksBleeding() ensures !Contains(FeedingQuestion, "bleeding") { AbsentCharExcludes(FeedingQuestion, "bleeding", 0); }  // 'b'
  lemma FeedingLacksSeizure() ensures !Contains(FeedingQuestion, "seizure") { AbsentCharExcludes(FeedingQuestion, "seizure", 3); }  // 'z'
  lemma FeedingLacksChocolate() ensures !Contains(FeedingQuestion, "chocolate") { AbsentStartExcludes(FeedingQuestion, "chocolate"); }  // no 'c' before "cat"
  lemma FeedingLacksCollapsed() ensures !Contains(FeedingQuestion, "collapsed") { AbsentCharExcludes(FeedingQuestion, "collapsed", 5); }  // 'p'
  lemma FeedingLacksNotBreathing() ensures !Contains(FeedingQuestion, "not breathing") { AbsentCharExcludes(FeedingQuestion, "not breathing", 4); }  // 'b'
  lemma FeedingLacksChoking() ensures !Contains(FeedingQuestion, "choking") { AbsentCharExcludes(FeedingQuestion, "choking", 3); }  // 'k'
  lemma FeedingLacksVomiting() ensures !Contains(FeedingQuestion, "vomiting") { AbsentCharExcludes(FeedingQuestion, "vomiting", 0); }  // 'v'
  lemma FeedingLacksDiarrhea() ensures !Contains(FeedingQuestion, "diarrhea") { AbsentCharExcludes(FeedingQuestion, "diarrhea", 3); }  // 'r'

  /** A text in which none of the eight keywords occurs has no keyword hit. */
  lemma NoKeywordOccurs(text: string)
    requires !Contains(text, "bleeding") && !Contains(text, "seizure") && !Contains(text, "chocolate")
    requires !Contains(text, "collapsed") && !Contains(text, "not breathing") && !Contains(text, "choking")
    requires !Contains(text, "vomiting") && !Contains(text, "diarrhea")
    ensures !AnyKeyword(text, Keywords)
  {
  }

  /** Together: the lower-cased feeding question contains no keyword. */
  lemma FeedingQuestionHasNoKeyword()
    ensures !AnyKeyword(FeedingQuestion, Keywords)
  {
    FeedingLacksBleeding();
    FeedingLacksSeizure();
    FeedingLacksChocolate();
    FeedingLacksCollapsed();
    FeedingLacksNotBreathing();
    FeedingLacksChoking();
    FeedingLacksVomiting();
    FeedingLacksDiarrhea();
    NoKeywordOccurs(FeedingQuestion);
  }

  /** "How often should I feed my cat?", in any capitalisation, has no
      keyword, so its verdict is the similarity stage's alone. */
  lemma FeedingQuestionUsesSimilarity(question: string, threshold: real, exemplars: seq<string>, sim: Similarity)
    requires Lower(question) == FeedingQuestion && |exemplars| > 0
    ensures IsEmergency(question, threshold, exemplars, sim)
        <==> exists e :: e in exemplars && sim(question, e) >= threshold
  {
    FeedingQuestionMissesKeywords(question);
  }

  /** The keyword stage misses the feeding question in any capitalisation. */
  lemma FeedingQuestionMissesKeywords(question: string)
    requires Lower(question) == FeedingQuestion
    ensures !KeywordHit(question)
  {
    FeedingQuestionHasNoKeyword();
  }
}
