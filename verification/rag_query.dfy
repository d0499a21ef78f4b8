/** The query side (rag_query.py): turn the ranked chunks a retriever returns
    into one prompt with a context block per chunk and numbered citations, ask
    the generator, and return its answer with the distinct sources. The
    retriever and the generator are opaque collaborators passed in as
    functions. */
module RagQuery {
  import opened Paths
  import opened Strings
  import opened Collections
  import opened Documents
  import DocumentProcessor

  /** A similarity score; the assembly never looks at it. */
  type Score = real

  /** The retriever's ranked (chunk, score) pairs, best first. */
  type Retrieved = seq<(Document, Score)>

  /** The retriever: query text and `top_k` in, ranked pairs out. */
  type Retriever = (string, int) -> Retrieved

  /** The generator: prompt and model name in, answer text out. */
  type Generator = (string, string) -> string

  datatype RagAnswer = RagAnswer(answer: string, sources: seq<string>)

  const DefaultModel := "llama3:8b"
  const DefaultTopK := 5

  const ContextSeparator := "\n\n"
  const CitationSeparator := ", "

  /** The fixed instructions that open every prompt. */
  const Preamble := "You are an educational assistant that answers questions based on course materials.\nUse the following context to answer the question, and cite your sources where possible.\n\n"

  predicate RetrievedSourcesText(r: Retrieved)
  {
    forall i :: 0 <= i < |r| ==> SourceIsText(r[i].0.metadata)
  }

  /** `metadata.get('file_name', 'Unknown')` rendered as text. */
  function DisplayName(m: Metadata): string
  {
    if FileNameKey in m then Render(m[FileNameKey]) else "Unknown"
  }

  /** The context block of one retrieved chunk. */
  function Block(d: Document): string
  {
    "Document: " + DisplayName(d.metadata) + "\nContent: " + d.pageContent
  }

  /** The context blocks of the retrieved chunks, in rank order. */
  function Blocks(r: Retrieved): seq<string>
  {
    seq(|r|, i requires 0 <= i < |r| => Block(r[i].0))
  }

  /** The `source` of every retrieved chunk that has one, in rank order. */
  function CollectedSources(r: Retrieved): seq<string>
    requires RetrievedSourcesText(r)
  {
    if r == [] then []
    else
      var last := r[|r| - 1].0.metadata;
      CollectedSources(r[..|r| - 1]) + (if SourceKey in last then [last[SourceKey].s] else [])
  }

  /** The citation label for the `n`-th source. */
  function CitationLabel(n: nat, source: string): string
  {
    "[" + NatToString(n) + "] " + Basename(source)
  }

  /** The labels of sources listed in `order`, numbered from 1. */
  function CitationLabels(order: seq<string>): seq<string>
  {
    seq(|order|, i requires 0 <= i < |order| => CitationLabel(i + 1, order[i]))
  }

  /** The prompt template with its three substitutions. */
  function PromptText(context: string, citations: string, query: string): string
  {
    Preamble + "CONTEXT:\n" + context + "\n\nSOURCES:\n" + citations + "\n\nQUESTION:\n" + query + "\n\nANSWER:\n"
  }

  /** The loop over the retrieved pairs: one context block per pair, and the
      sources of the chunks that have one. */
  method GatherContext(retrieved: Retrieved) returns (contextParts: seq<string>, sources: seq<string>)
    requires RetrievedSourcesText(retrieved)
    ensures contextParts == Blocks(retrieved)
    ensures sources == CollectedSources(retrieved)
  {
    contextParts, sources := [], [];
    for i := 0 to |retrieved|
      invariant contextParts == Blocks(retrieved[..i])
      invariant sources == CollectedSources(retrieved[..i])
    {
      var (doc, _) := retrieved[i];
      contextParts := contextParts + ["Document: " + DisplayName(doc.metadata) + "\nContent: " + doc.pageContent];
      if SourceKey in doc.metadata {
        var source := doc.metadata[SourceKey].s;
        sources := sources + [source];
      }
      assert retrieved[..i + 1][..i] == retrieved[..i];
    }
    assert retrieved[..|retrieved|] == retrieved;
  }

  /** The loop that numbers the sources in the order the set yields them. */
  method FormatCitations(order: seq<string>) returns (formatted: seq<string>)
    ensures formatted == CitationLabels(order)
  {
    formatted := [];
    for i := 0 to |order|
      invariant formatted == CitationLabels(order[..i])
    {
      formatted := formatted + ["[" + NatToString(i + 1) + "] " + Basename(order[i])];
    }
    assert order[..|order|] == order;
  }

  /** Everything `rag_query` does between retrieval and generation, plus the
      `sources` of its result. The two iterations over `set(sources)` are
      independent: `citationOrder` is the order the prompt numbers the
      sources in, and the returned `sources` may list them in another. */
  method Assemble(retrieved: Retrieved, userQuery: string)
    returns (prompt: string, sources: seq<string>, ghost citationOrder: seq<string>)
    requires RetrievedSourcesText(retrieved)
    ensures Enumerates(citationOrder, Elements(CollectedSources(retrieved)))
    ensures prompt == PromptText(Join(Blocks(retrieved), ContextSeparator),
                                 Join(CitationLabels(citationOrder), CitationSeparator),
                                 userQuery)
    ensures Enumerates(sources, Elements(CollectedSources(retrieved)))
  {
    var contextParts, collected := GatherContext(retrieved);
    var context := Join(contextParts, ContextSeparator);
    var order := SetToSeq(Elements(collected));
    var formatted := FormatCitations(order);
    prompt := PromptText(context, Join(formatted, CitationSeparator), userQuery);
    citationOrder := order;
    sources := SetToSeq(Elements(collected));
  }

  /** `rag_query`: retrieve, assemble, generate, package. */
  method Query(retrieve: Retriever, generate: Generator, userQuery: string,
               model: string := DefaultModel, topK: int := DefaultTopK)
    returns (result: RagAnswer)
    requires RetrievedSourcesText(retrieve(userQuery, topK))
    ensures var retrieved := retrieve(userQuery, topK);
      && (exists citationOrder ::
            && Enumerates(citationOrder, Elements(CollectedSources(retrieved)))
            && result.answer == generate(PromptText(Join(Blocks(retrieved), ContextSeparator),
                                                    Join(CitationLabels(citationOrder), CitationSeparator),
                                                    userQuery), model))
      && Enumerates(result.sources, Elements(CollectedSources(retrieved)))
  {
    var relevant := retrieve(userQuery, topK);
    var prompt, sources, order := Assemble(relevant, userQuery);
    var answer := generate(prompt, model);
    result := RagAnswer(answer, sources);
  }

  // Properties of the assembly

  /** The context holds one block per retrieved pair, in rank order: block
      `k` starts where `Join` puts part `k`, and reads "Document: ", the
      display name, "\nContent: " and the chunk's text. */
  lemma ContextBlockAt(r: Retrieved, k: nat)
    requires k < |r|
    ensures var context, s := Join(Blocks(r), ContextSeparator), PartStart(Blocks(r), ContextSeparator, k);
      var b := "Document: " + DisplayName(r[k].0.metadata) + "\nContent: " + r[k].0.pageContent;
      s + |b| <= |context| && context[s..s + |b|] == b
  {
    JoinLayout(Blocks(r), ContextSeparator, k);
  }

  /** An empty retrieval gives an empty context, no sources and no citations. */
  lemma EmptyRetrieval(query: string)
    ensures Join(Blocks([]), ContextSeparator) == ""
    ensures CollectedSources([]) == []
    ensures CitationLabels([]) == []
    ensures PromptText("", "", query) == Preamble + "CONTEXT:\n\n\nSOURCES:\n\n\nQUESTION:\n" + query + "\n\nANSWER:\n"
  {
  }

  /** Collecting sources distributes over concatenation of retrievals: the
      sources of earlier-ranked chunks come first. */
  lemma {:induction false} CollectedSourcesConcat(a: Retrieved, b: Retrieved)
    requires RetrievedSourcesText(a + b)
    ensures RetrievedSourcesText(a) && RetrievedSourcesText(b)
    ensures CollectedSources(a + b) == CollectedSources(a) + CollectedSources(b)
    decreases |b|
  {
    assert forall i :: 0 <= i < |a| ==> a[i] == (a + b)[i];
    assert forall i :: 0 <= i < |b| ==> b[i] == (a + b)[|a| + i];
    if b == [] {
      assert a + b == a;
    } else {
      var init := b[..|b| - 1];
      assert (a + b)[..|a + b| - 1] == a + init;
      CollectedSourcesConcat(a, init);
    }
  }

  /** A value is collected exactly when some retrieved chunk has it as its
      `source`. */
  lemma {:induction false} CollectedSourcesMembership(r: Retrieved, x: string)
    requires RetrievedSourcesText(r)
    ensures x in CollectedSources(r) <==>
      exists i :: 0 <= i < |r| && SourceKey in r[i].0.metadata && r[i].0.metadata[SourceKey] == Text(x)
  {
    if r != [] {
      var init := r[..|r| - 1];
      CollectedSourcesMembership(init, x);
      assert forall i :: 0 <= i < |init| ==> init[i] == r[i];
    }
  }

  /** Chunks without a `source` are skipped: when every retrieved chunk has
      one, the collected sources are those sources, one per chunk, in rank
      order; and there are never more collected sources than chunks. */
  lemma {:induction false} CollectedSourcesInRankOrder(r: Retrieved)
    requires RetrievedSourcesText(r)
    ensures |CollectedSources(r)| <= |r|
    ensures (forall i :: 0 <= i < |r| ==> SourceKey in r[i].0.metadata) ==>
      && |CollectedSources(r)| == |r|
      && forall i :: 0 <= i < |r| ==> Text(CollectedSources(r)[i]) == r[i].0.metadata[SourceKey]
  {
    if r != [] {
      var init := r[..|r| - 1];
      assert forall i :: 0 <= i < |init| ==> init[i] == r[i];
      CollectedSourcesInRankOrder(init);
    }
  }

  /** The scores play no part: two retrievals with the same chunks in the same
      order give the same blocks and the same collected sources. */
  lemma {:induction false} ScoresIgnored(r1: Retrieved, r2: Retrieved)
    requires |r1| == |r2|
    requires forall i :: 0 <= i < |r1| ==> r1[i].0 == r2[i].0
    requires RetrievedSourcesText(r1)
    ensures RetrievedSourcesText(r2)
    ensures Blocks(r1) == Blocks(r2)
    ensures CollectedSources(r1) == CollectedSources(r2)
  {
    if r1 != [] {
      ScoresIgnored(r1[..|r1| - 1], r2[..|r2| - 1]);
    }
  }

  /** The citation label of the `n`-th source starts with `n` in brackets,
      and the bracketed digits read back as `n`. */
  lemma CitationLabelNumber(n: nat, source: string)
    ensures var shown, digits := CitationLabel(n, source), NatToString(n);
      && |shown| >= |digits| + 3
      && shown[0] == '[' && shown[|digits| + 1] == ']'
      && shown[1..|digits| + 1] == digits
      && ParseNat(shown[1..|digits| + 1]) == n
      && shown[|digits| + 3..] == Basename(source)
  {
  }

  /** The number in a citation label determines it: equal labels carry equal
      numbers, whatever their sources. */
  lemma CitationNumberDetermined(n1: nat, s1: string, n2: nat, s2: string)
    requires CitationLabel(n1, s1) == CitationLabel(n2, s2)
    ensures n1 == n2
  {
    var d1, d2 := NatToString(n1), NatToString(n2);
    var shown := CitationLabel(n1, s1);
    assert shown == "[" + d1 + "] " + Basename(s1);
    assert shown == "[" + d2 + "] " + Basename(s2);
    assert shown[|d1| + 1] == ']' && shown[|d2| + 1] == ']';
    assert forall t :: 1 <= t <= |d1| ==> shown[t] == d1[t - 1];
    assert forall t :: 1 <= t <= |d2| ==> shown[t] == d2[t - 1];
    assert |d1| == |d2|;
    assert d1 == shown[1..|d1| + 1] == d2;
    NatToStringInjective(n1, n2);
  }

  /** Citation labels are numbered 1..n: label `i` carries number `i + 1`
      and the basename of the `i`-th source, so no two labels are equal even
      when two sources share a basename. */
  lemma CitationLabelsDistinct(order: seq<string>)
    ensures |CitationLabels(order)| == |order|
    ensures NoDuplicates(CitationLabels(order))
  {
    var labels := CitationLabels(order);
    forall i, j | 0 <= i < j < |labels|
      ensures labels[i] != labels[j]
    {
      if labels[i] == labels[j] {
        CitationNumberDetermined(i + 1, order[i], j + 1, order[j]);
      }
    }
  }

  /** With the citation order `Assemble` uses, there is one label per
      distinct source, and every distinct source is labelled exactly once
      (the last clause is the `NoDuplicates` part of `Enumerates` in the
      requires, restated for one source). */
  lemma CitationsCoverDistinctSources(collected: seq<string>, order: seq<string>, x: string)
    requires Enumerates(order, Elements(collected))
    ensures |CitationLabels(order)| == |Elements(collected)|
    ensures x in collected ==>
      exists i :: 0 <= i < |order| && order[i] == x && CitationLabels(order)[i] == CitationLabel(i + 1, x)
    ensures forall i, j :: 0 <= i < |order| && 0 <= j < |order| && order[i] == x && order[j] == x ==> i == j
  {
    NoDuplicatesCardinality(order);
    if x in collected {
      assert x in Elements(order);
      var i :| 0 <= i < |order| && order[i] == x;
    }
  }

  /** The prompt is the fixed template with the context, the citation line
      and the question substituted verbatim, in that order. */
  lemma PromptLayout(context: string, citations: string, query: string)
    ensures var p, c0 := PromptText(context, citations, query), |Preamble| + 9;
      var s0 := c0 + |context| + 11;
      var q0 := s0 + |citations| + 12;
      && |p| == q0 + |query| + 10
      && p[..c0] == Preamble + "CONTEXT:\n"
      && p[c0..c0 + |context|] == context
      && p[c0 + |context|..s0] == "\n\nSOURCES:\n"
      && p[s0..s0 + |citations|] == citations
      && p[s0 + |citations|..q0] == "\n\nQUESTION:\n"
      && p[q0..q0 + |query|] == query
      && p[q0 + |query|..] == "\n\nANSWER:\n"
  {
  }

  /** Across the two halves of the pipeline: the name a stamped chunk shows in
      its context block is the basename of its source; a chunk stamped without
      a source shows "Unknown" unless it already carried a `file_name`. */
  lemma StampedDisplayName(docs: seq<Document>, i: nat)
    requires AllSourcesText(docs) && i < |docs|
    ensures var m, shown := docs[i].metadata, DisplayName(DocumentProcessor.StampAll(docs)[i].metadata);
      && (SourceKey in m ==> shown == Basename(m[SourceKey].s))
      && (SourceKey !in m && FileNameKey !in m ==> shown == "Unknown")
  {
  }
}
