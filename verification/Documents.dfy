/** Documents and what the tokenizer makes of them: the vocabulary in which every
    index, query and replication statement is phrased. */
module Documents {
  import opened Tokenizer

  /** `doc_id` is a 32-bit unsigned integer (src/inverted_index.h:28). */
  type DocId = n: int | 0 <= n < 0x1_0000_0000

  /** The content of a collection of documents, by identifier. */
  type Docs = map<DocId, string>

  function Count(term: string, tokens: seq<string>): nat {
    if tokens == [] then 0
    else (if tokens[|tokens| - 1] == term then 1 else 0) + Count(term, tokens[..|tokens| - 1])
  }

  function TermFrequency(text: string, term: string): nat {
    Count(term, Tokenize(text))
  }

  function DistinctTerms(text: string): set<string> {
    set t | t in Tokenize(text)
  }

  lemma {:induction false} CountPositiveIff(term: string, tokens: seq<string>)
    ensures Count(term, tokens) > 0 <==> term in tokens
  {
    if tokens != [] {
      var init := tokens[..|tokens| - 1];
      assert tokens == init + [tokens[|tokens| - 1]];
      CountPositiveIff(term, init);
    }
  }

  /** Every occurrence counts. */
  lemma {:induction false} CountIsMultiplicity(term: string, tokens: seq<string>)
    ensures Count(term, tokens) == multiset(tokens)[term]
  {
    if tokens != [] {
      var init := tokens[..|tokens| - 1];
      assert tokens == init + [tokens[|tokens| - 1]];
      CountIsMultiplicity(term, init);
    }
  }

  /** The frequency of a term is the number of its occurrences, and the frequencies on the
      two sides of a separator add up. */
  lemma FrequenciesAddUp(a: string, sep: char, b: string, term: string)
    requires !IsTokenChar(sep)
    ensures TermFrequency(a, term) == multiset(Tokenize(a))[term]
    ensures TermFrequency(a + [sep] + b, term) == TermFrequency(a, term) + TermFrequency(b, term)
  {
    SeparatorSplits("", a, sep, b);
    CountIsMultiplicity(term, Tokenize(a));
    CountIsMultiplicity(term, Tokenize(b));
    CountIsMultiplicity(term, Tokenize(a) + Tokenize(b));
  }

  lemma HasTermIff(text: string, term: string)
    ensures TermFrequency(text, term) > 0 <==> term in DistinctTerms(text)
  {
    CountPositiveIff(term, Tokenize(text));
  }

  /** src/shard.cpp:29-40. */
  predicate IsValidContent(content: string) {
    exists i :: 0 <= i < |content| && !IsBlankChar(content[i])
  }

  /** Content is refused exactly when trimming it leaves nothing. */
  lemma ValidIff(content: string)
    ensures IsValidContent(content) <==> Trim(content) != ""
  {
    BlankIff(content);
  }
}
