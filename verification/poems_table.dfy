/** The `poems` table: one row per ingested poem, read back by the search routes. */
module PoemsTable {

  /** The six columns ingestion fills in for one poem; `tags` holds the JSON text of the tag
      list and `tokens` the kept token surfaces joined by single spaces. */
  datatype Columns = Columns(
    text: string, source: string, location: string, age: string, tags: string, tokens: string)

  /** A stored row: the columns plus the `INTEGER PRIMARY KEY AUTOINCREMENT` id. */
  datatype Row = Row(
    id: int, text: string, source: string, location: string, age: string, tags: string, tokens: string)

  /** The columns of a stored row, as `SELECT text, source, location, age, tags, tokens` gives them. */
  function ColumnsOf(row: Row): Columns
  {
    Columns(row.text, row.source, row.location, row.age, row.tags, row.tokens)
  }

  /** `executemany('INSERT ...', data)` into the freshly created table: one row per tuple, in
      order, with ids counted from 1. */
  function InsertAll(data: seq<Columns>): (table: seq<Row>)
    ensures |table| == |data|
    ensures forall i | 0 <= i < |table| :: ColumnsOf(table[i]) == data[i] && table[i].id == i + 1
  {
    seq(|data|, i requires 0 <= i < |data| =>
      Row(i + 1, data[i].text, data[i].source, data[i].location, data[i].age, data[i].tags, data[i].tokens))
  }
}
