/**
 * The older similarity engine: LLM category matching with an integer
 * threshold. Its category matching is an oracle result handed in by the
 * caller; construction calls nothing.
 */
module Similarity {
  import opened Wrappers
  import opened Types
  import opened Seqs
  import Classification

  datatype Engine = Engine(categories: seq<Category>, threshold: int)

  /** `New`: keeps the categories and the threshold; no client call is made, so it cannot fail. */
  function New(categories: seq<Category>, threshold: int): (r: Result<Engine>)
    ensures r.Ok? && r.value.categories == categories && r.value.threshold == threshold
  {
    Ok(Engine(categories, threshold))
  }

  /**
   * `CheckSimilarity`: a client error is wrapped and nothing is returned;
   * otherwise exactly the matches whose relevance reaches the integer
   * threshold, unmodified, in order and each as often as in the input.
   */
  function CheckSimilarity(s: Engine, matches: Result<seq<CategoryRelevance>>): (r: Result<seq<CategoryRelevance>>)
    ensures r.Err? <==> matches.Err?
    ensures r.Err? ==> r.msg == Wrap("failed to get category matches", matches.msg)
    ensures r.Ok? ==> forall m :: m in r.value <==> m in matches.value && m.relevance >= s.threshold as real
    ensures r.Ok? ==> IsSubsequence(r.value, matches.value)
    ensures r.Ok? ==> |r.value| == Count(matches.value, m => Classification.Reaches(m, s.threshold as real))
  {
    match matches
    case Err(err) => Err(Wrap("failed to get category matches", err))
    case Ok(ms) => Ok(Classification.Passing(ms, s.threshold as real))
  }

  /** The older engine agrees with the LLM classification engine run at the same threshold. */
  lemma AgreesWithLlmEngine(s: Engine, e: Classification.Engine, matches: Result<seq<CategoryRelevance>>)
    requires e.cfg.threshold == s.threshold as real
    ensures CheckSimilarity(s, matches) == Classification.ClassifyWithLlm(e, matches)
  {
  }
}
