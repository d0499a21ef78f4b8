# Chunk stamping and prompt assembly of a small RAG pipeline

This project models, in Dafny, the deterministic core of a retrieval-augmented
question-answering tool for course materials:

- **Chunk metadata stamping** (`split_documents` in `document_processor.py`).
  The text splitter's output is walked once. The chunk at position `i` gets
  `chunk_id = i`. A chunk whose metadata has a `source` also gets `file_name`,
  the POSIX basename of that source. Chunks are objects (`DocumentProcessor.Chunk`)
  whose metadata map the loop updates in place. The splitter is a function
  parameter.
- **Prompt and citation assembly** (`rag_query` in `rag_query.py`). The ranked
  (chunk, score) pairs become one context block each, joined by a blank line.
  The `source` of every chunk that has one is collected. The distinct sources
  are numbered `[1]..[n]` with their basenames, and everything is substituted
  into a fixed prompt template. The generator's answer is returned with the
  distinct sources. The retriever and the generator are function parameters.

Python's `set(...)` iteration order is unspecified. `Collections.SetToSeq`
models one iteration: it lists every element once, in an order the verifier
treats as arbitrary. `rag_query` iterates over `set(sources)` twice: once to
number the citations, once to build the returned `sources`. The model makes
two independent calls, so the prompt's numbering and the returned list are
not promised to agree, nor to follow rank order.

Modules: `Paths` (`os.path.basename`), `Strings` (`str.join` and decimal
rendering of integers), `Collections` (duplicates, set iteration),
`Documents` (metadata values and documents), `DocumentProcessor`, `RagQuery`.

Specification functions without contracts of their own carry the definitions
the lemmas are about: `DocumentProcessor.Stamp` and `StampAll` (metadata after
the pass), `RagQuery.Block`, `Blocks`, `CollectedSources`, `CitationLabel`,
`CitationLabels`, `PromptText`, `DisplayName`, `Strings.Join` and `Paths.Basename`.

Three behaviours of the program worth knowing:
- `split_documents` never checks `chunk_overlap < chunk_size`. Both values
  are passed to the splitter unchanged.
- Exceptions from retrieval and generation propagate to the caller, and a
  non-200 reply from the generation service comes back as answer text.
- The block label uses `metadata.get('file_name', 'Unknown')`. A chunk whose
  `file_name` is present but empty is shown with an empty name, not
  "Unknown".

The defaults of the program (chunk size 1000, overlap 200, model
`llama3:8b`, `top_k` 5) are the default parameter values of
`DocumentProcessor.SplitDocuments` and `RagQuery.Query`.

## Model

| member | source | states |
|---|---|---|
| `Paths.LastSeparatorEnd` | document_processor.py:67 | the cut point of `basename` lies within the path, follows a '/' when positive, and no '/' comes after it |
| `Paths.BasenameIsLastComponent` | document_processor.py:67 | the basename is a suffix of the path, contains no '/', and is the whole path or is preceded by '/' |
| `Paths.BasenameUnique` | document_processor.py:67 | any suffix with those three properties is the basename, so they define it |
| `Paths.BasenameIdempotent` | document_processor.py:67 | a file name that is already a basename is its own basename |
| `DocumentProcessor.Chunk.constructor` | document_processor.py:62 | a new chunk object holds exactly the text and metadata the splitter produced |
| `DocumentProcessor.StampChunks` | document_processor.py:65-69 | after the loop every chunk object's text and metadata equal `StampAll` of what they were before |
| `DocumentProcessor.NewChunks` | document_processor.py:62 | the splitter's output arrives as distinct fresh chunk objects, in order, with the splitter's text and metadata |
| `DocumentProcessor.SplitDocuments` | document_processor.py:44-71 | splitting with the fixed separators and stamping yields fresh distinct chunks equal to `StampAll` of the splitter output |
| `DocumentProcessor.StampAllKeepsChunks` | document_processor.py:62-71 | stamping keeps the number and order of chunks and every chunk's text |
| `DocumentProcessor.ChunkIdIsPosition` | document_processor.py:65-69 | the chunk at position i has `chunk_id` i |
| `DocumentProcessor.ChunkIdsIncrease` | document_processor.py:65-69 | ids are strictly increasing along the output, hence unique |
| `DocumentProcessor.ChunkIdsContinueAcrossDocuments` | document_processor.py:62-69 | the chunks of a later document are numbered after all chunks of earlier ones; ids are not reset per document |
| `DocumentProcessor.StampFileName` | document_processor.py:66-69 | with a `source`, `file_name` becomes its basename and the keys gain exactly `file_name` and `chunk_id`; without one, the keys gain only `chunk_id` and any old `file_name` stays |
| `DocumentProcessor.StampKeepsOtherKeys` | document_processor.py:65-69 | every metadata key other than `file_name` and `chunk_id` keeps its value |
| `DocumentProcessor.StampedFileNameIsLastComponent` | document_processor.py:67-68 | the stamped `file_name` has no '/' and is a suffix of the `source` |
| `DocumentProcessor.StampAllIdempotent` | document_processor.py:65-69 | stamping the stamped output again changes nothing |
| `Strings.JoinLayout` | rag_query.py:64 | the joined string is the parts in order, one separator between neighbours, nothing before the first or after the last |
| `Strings.JoinSmall` | rag_query.py:64 | joining no parts gives "" and joining one part gives that part |
| `Strings.NatToString` | rag_query.py:69 | a number renders as a non-empty string of decimal digits with no leading zero |
| `Strings.ParseNatToString` | rag_query.py:69 | reading the rendered digits back gives the number |
| `Strings.NatToStringInjective` | rag_query.py:69 | different numbers render differently |
| `Strings.IntToString` | rag_query.py:59 | an integer renders with a leading '-' exactly when negative, followed by decimal digits without leading zero that read back as its magnitude |
| `Documents.Render` | rag_query.py:59 | a string metadata value renders as itself; an integer renders as `str(n)`: '-' exactly when negative, then decimal digits without leading zero that read back as its magnitude |
| `Collections.SetToSeq` | rag_query.py:92 | iterating over `set(xs)` lists each distinct element exactly once, as many entries as the set has elements |
| `Collections.NoDuplicatesCardinality` | rag_query.py:68 | a list without duplicates has as many distinct elements as entries |
| `RagQuery.GatherContext` | rag_query.py:55-62 | the loop yields one context block per retrieved pair in rank order, and exactly the collected sources |
| `RagQuery.FormatCitations` | rag_query.py:67-69 | the loop yields label `[i+1] basename(s)` for the i-th source of the set iteration |
| `RagQuery.Assemble` | rag_query.py:55-92 | the prompt is the template filled with the joined blocks, the comma-joined labels of some duplicate-free ordering of the distinct sources, and the query; the returned sources are a possibly different duplicate-free ordering of the same set |
| `RagQuery.Query` | rag_query.py:39-93 | retrieval is called with the query and `top_k`; the answer is the generator's output on the assembled prompt and the model, unmodified; the sources are the distinct collected sources |
| `RagQuery.ContextBlockAt` | rag_query.py:58-64 | block k of the context sits at its join position and reads "Document: ", the display name, "\nContent: " and the chunk text |
| `RagQuery.EmptyRetrieval` | rag_query.py:64 | no retrieved pairs give an empty context, no sources, no citations |
| `RagQuery.CollectedSourcesConcat` | rag_query.py:60-62 | collecting sources over two ranked runs gives the first run's sources before the second's |
| `RagQuery.CollectedSourcesMembership` | rag_query.py:60-62 | a value is collected if and only if some retrieved chunk has it as `source` |
| `RagQuery.CollectedSourcesInRankOrder` | rag_query.py:58-62 | at most one source per chunk; when every chunk has one, source i is chunk i's |
| `RagQuery.ScoresIgnored` | rag_query.py:58-59 | retrievals with the same chunks but other scores give the same blocks and sources |
| `RagQuery.CitationLabelNumber` | rag_query.py:69 | label n is "[", the digits of n, "] ", then the basename; the bracketed digits read back as n |
| `RagQuery.CitationNumberDetermined` | rag_query.py:69 | equal labels carry equal numbers, whatever their sources |
| `RagQuery.CitationLabelsDistinct` | rag_query.py:67-69 | there is one label per listed source and no two labels are equal |
| `RagQuery.CitationsCoverDistinctSources` | rag_query.py:67-69 | the number of labels is the number of distinct sources, and each distinct source is labelled at exactly one position |
| `RagQuery.PromptLayout` | rag_query.py:72-85 | the prompt is the fixed preamble, then context, citation line and question verbatim at fixed offsets between the template's headings, ending in "ANSWER:\n" |
| `RagQuery.StampedDisplayName` | rag_query.py:59 | a stamped chunk with a `source` is shown under its source's basename; one without `source` or `file_name` is shown as "Unknown" |

## Left out

- The text splitter (`RecursiveCharacterTextSplitter`) lives in a library. It is a function parameter here, and no chunk-size, overlap or reconstruction property is claimed.
- `load_documents` and `process_directory` are filesystem loading and printing. They are not part of this model.
- `embedding_storage.py` (embeddings and the Chroma store) is not part of this model. Retrieval is a function parameter; the `top_k` bound and the relevance order are the store's promises.
- `query_ollama` is an HTTP call. The generator is a function parameter, so its folding of a non-200 reply into the answer text is inside it.
- `main.py` and `interactive.py` are the command line and the read loop. Note that `--db-path` never reaches retrieval, which always uses `./chroma_db`.
- Exceptions raised by the retriever or the generator are not modelled. Both are total functions here.
- DocumentProcessor.StampChunks: requires every `source` to be a string, because `os.path.basename` raises on an integer, the only other value kind modelled; the partly stamped list such an error would leave is not modelled.
- DocumentProcessor.StampChunks: requires the chunk objects to be distinct, and each chunk owns its metadata map. The splitter creates a new object per chunk with its own copy of the metadata. Aliasing is not modelled: two chunks sharing one object or one dictionary would both end up with the later `chunk_id`.
- DocumentProcessor.SplitDocuments: requires every `source` in the splitter output to be a string, for the same reason.
- RagQuery.GatherContext: requires every retrieved `source` to be a string, because `os.path.basename` at rag_query.py:69 raises on an integer, the only other value kind modelled.
- RagQuery.Assemble: same requirement on retrieved sources.
- RagQuery.Query: same requirement on what the retriever returns.
- Metadata values are strings or integers. Floats, `None` and other Python values are not modelled.
- Similarity scores are reals. The assembly never reads them.
- Python's actual set order (hash-based) is not modelled; any duplicate-free order is allowed.
- Paths follow POSIX rules only; Windows separators are not modelled.
