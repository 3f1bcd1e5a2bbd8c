/**
 * The shared parser skeleton: the ordered column schema (every column typed
 * as text) and the rows a parser produces.
 */
module Base {
  import opened Collections
  import opened Json

  /** The column type every schema entry carries; the dataframe stores every field as text. */
  datatype TextType = Utf8

  /** An ordered dict of column name to column type. */
  type Schema = seq<(string, TextType)>

  /** One finding: an ordered dict of column name to the value copied from the payload. */
  type Row = seq<(string, JSON)>

  /** What the merge step hands to the spreadsheet writer. */
  datatype Table = Table(schema: Schema, rows: seq<Row>)

  /**
   * `{key: pl.Utf8 for key in output_keys}`: one text column per distinct key.
   * A repeated key keeps the position of its first occurrence.
   */
  function SchemaOf(outputKeys: seq<string>): (s: Schema)
    ensures forall k :: k in Columns(s) <==> k in outputKeys
    ensures forall i :: 0 <= i < |s| ==> s[i].1 == Utf8
    ensures Distinct(Columns(s))
  {
    var keys := Dedupe(outputKeys);
    var s := Map(k => (k, Utf8), keys);
    assert Columns(s) == keys;
    s
  }

  /** The columns of a schema follow the first occurrences of the keys it was built from. */
  lemma SchemaOrder(outputKeys: seq<string>)
    ensures Columns(SchemaOf(outputKeys)) == Dedupe(outputKeys)
    ensures forall i, j :: 0 <= i < j < |SchemaOf(outputKeys)| ==>
              FirstIndex(outputKeys, Columns(SchemaOf(outputKeys))[i]) <
              FirstIndex(outputKeys, Columns(SchemaOf(outputKeys))[j])
  {
    DedupeOrder(outputKeys);
  }

  /** Keys without repetitions become the columns, in the given order. */
  lemma SchemaOfDistinct(outputKeys: seq<string>)
    requires Distinct(outputKeys)
    ensures Columns(SchemaOf(outputKeys)) == outputKeys
  {
    DedupeDistinct(outputKeys);
  }

  /** A row has exactly the schema's columns, in the schema's order. */
  predicate Conforms(row: Row, schema: Schema) {
    Columns(row) == Columns(schema)
  }
}
