/** A loaded or split document as the core sees it: its text and a metadata
    dictionary. */
module Documents {
  import opened Strings

  /** A metadata value: the loaders and the stamping pass store strings
      (paths, file names) and integers (page numbers, chunk ids). */
  datatype Value = Text(s: string) | Number(n: int)

  type Metadata = map<string, Value>

  datatype Document = Document(pageContent: string, metadata: Metadata)

  const SourceKey := "source"
  const FileNameKey := "file_name"
  const ChunkIdKey := "chunk_id"

  /** `os.path.basename` accepts only a path string: a `source` entry, when
      present, must be one. */
  predicate SourceIsText(m: Metadata)
  {
    SourceKey in m ==> m[SourceKey].Text?
  }

  predicate AllSourcesText(docs: seq<Document>)
  {
    forall i :: 0 <= i < |docs| ==> SourceIsText(docs[i].metadata)
  }

  /** How an f-string renders a metadata value (`str(v)`). */
  function Render(v: Value): (r: string)
    ensures v.Text? ==> r == v.s
    ensures v.Number? ==> |r| >= 1 && (r[0] == '-' <==> v.n < 0)
    ensures v.Number? ==> var d := if v.n < 0 then r[1..] else r;
      && |d| >= 1 && (|d| > 1 ==> d[0] != '0')
      && (forall k :: 0 <= k < |d| ==> IsDigit(d[k]))
      && ParseNat(d) == (if v.n < 0 then -v.n else v.n)
  {
    match v
    case Text(s) => s
    case Number(n) => IntToString(n)
  }
}
