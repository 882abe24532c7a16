/**
 * The documents that flow through ingestion and search: page text plus a
 * metadata dictionary whose values are Python scalars, stored as `jsonb`.
 */
module Values {
  import opened Wrappers
  import opened Text

  /** A metadata value: `None`, a string, an integer or a boolean. */
  datatype Value = Null | Str(s: string) | Int(i: int) | Bool(b: bool)

  /** A metadata dictionary, such as a chunk's `metadata` or a row's `cmetadata`. */
  type Metadata = map<string, Value>

  /** A LangChain `Document`: page content and metadata. */
  datatype Document = Document(pageContent: string, metadata: Metadata)

  /** `str(v)`, which is also what an f-string renders for `{v}`. */
  function PyStr(v: Value): string {
    match v
    case Null => "None"
    case Str(s) => s
    case Int(i) => IntToString(i)
    case Bool(b) => if b then "True" else "False"
  }

  /**
   * The PostgreSQL operator `->>` applied to a `jsonb` value: its text, or
   * SQL NULL (`None`) for a JSON `null`.
   */
  function JsonText(v: Value): Option<string> {
    match v
    case Null => None
    case Str(s) => Some(s)
    case Int(i) => Some(IntToString(i))
    case Bool(b) => Some(if b then "true" else "false")
  }

  /** `m->>key`: SQL NULL when the key is absent or maps to `null`. */
  function Field(m: Metadata, key: string): Option<string> {
    if key in m then JsonText(m[key]) else None
  }
}
