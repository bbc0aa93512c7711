/**
 * Token accounting shared by both cloud clients: a per-model running total of
 * prompt and completion tokens.
 */
module Usage {

  datatype TokenUsed = TokenUsed(prompt: int, completion: int) {
    /** `tokenUsed.add`: component-wise addition. */
    function Add(other: TokenUsed): (r: TokenUsed)
      ensures r.prompt - prompt == other.prompt && r.completion - completion == other.completion
    {
      TokenUsed(prompt + other.prompt, completion + other.completion)
    }
  }

  const Zero: TokenUsed := TokenUsed(0, 0)

  predicate NonNegative(t: TokenUsed) {
    t.prompt >= 0 && t.completion >= 0
  }

  type UsageMap = map<string, TokenUsed>

  /** The running total of `model`, zero for a model never seen. */
  function Lookup(m: UsageMap, model: string): TokenUsed {
    if model in m then m[model] else Zero
  }

  /**
   * `updateTokenUsed`: create a zeroed entry for an unseen model, then add the
   * usage to it. Entries of other models are unchanged.
   */
  function Update(m: UsageMap, model: string, used: TokenUsed): (m': UsageMap)
    ensures m'.Keys == m.Keys + {model}
    ensures m'[model] == Lookup(m, model).Add(used)
    ensures model !in m ==> m'[model] == used
    ensures forall k :: k in m && k != model ==> m'[k] == m[k]
  {
    m[model := Lookup(m, model).Add(used)]
  }

  /** Adding non-negative usage never decreases a count. */
  lemma AddMonotone(t: TokenUsed, other: TokenUsed)
    requires NonNegative(other)
    ensures t.Add(other).prompt >= t.prompt && t.Add(other).completion >= t.completion
  {
  }

  /** Zero is neutral and addition is associative, so totals do not depend on grouping. */
  lemma AddLaws(a: TokenUsed, b: TokenUsed, c: TokenUsed)
    ensures a.Add(Zero) == a && Zero.Add(a) == a
    ensures a.Add(b).Add(c) == a.Add(b.Add(c))
    ensures a.Add(b) == b.Add(a)
  {
  }

  /** Two updates of one model accumulate: the same as one update with the sum. */
  lemma UpdateAccumulates(m: UsageMap, model: string, a: TokenUsed, b: TokenUsed)
    ensures Update(Update(m, model, a), model, b) == Update(m, model, a.Add(b))
  {
    var x := Lookup(m, model);
    assert Lookup(Update(m, model, a), model) == x.Add(a);
    assert x.Add(a).Add(b) == x.Add(a.Add(b));
  }
}
