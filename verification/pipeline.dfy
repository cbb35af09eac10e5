/** Ingestion followed by the query routes: what the routes answer for a table built from a
    poem file. */
module Pipeline {
  import opened Wrappers
  import opened Text
  import opened TagJson
  import opened PoemsTable
  import opened Ingest
  import opened App

  /** `data` is what the ingestion loop produces for `poems`. */
  predicate Ingested(poems: seq<Poem>, tokenize: string -> seq<string>, stopwords: set<string>,
    data: seq<Columns>)
  {
    && |data| == |poems|
    && forall i | 0 <= i < |poems| :: data[i] == PrepareRow(poems[i], tokenize, stopwords)
  }

  /** What a stored row holds of the poem it was made from, as the routes read it back. */
  predicate StoredFrom(r: Row, poem: Poem, tokenize: string -> seq<string>,
    stopwords: set<string>)
  {
    && r.text == poem.text.GetOr("")
    && r.source == poem.source.GetOr("")
    && r.location == poem.location.GetOr("")
    && r.age == poem.age.GetOr("")
    && Deserialize(r.tags) == Some(NormalizeTags(poem.tags))
    && r.tokens == Join(PoemTokens(poem, tokenize, stopwords))
  }

  /** Every row of `table` was stored from the poem its id counts to. */
  predicate IngestedTable(poems: seq<Poem>, tokenize: string -> seq<string>, stopwords: set<string>,
    table: seq<Row>)
  {
    forall r | r in table :: 1 <= r.id <= |poems| && StoredFrom(r, poems[r.id - 1], tokenize, stopwords)
  }

  /** Inserting what the ingestion loop produced gives such a table. */
  lemma InsertIngested(poems: seq<Poem>, tokenize: string -> seq<string>, stopwords: set<string>,
    data: seq<Columns>)
    requires Ingested(poems, tokenize, stopwords, data)
    ensures IngestedTable(poems, tokenize, stopwords, InsertAll(data))
  {
    var table := InsertAll(data);
    forall r | r in table
      ensures 1 <= r.id <= |poems| && StoredFrom(r, poems[r.id - 1], tokenize, stopwords)
    {
      var j :| 0 <= j < |table| && table[j] == r;
      var poem := poems[j];
      assert ColumnsOf(r) == data[j] == PrepareRow(poem, tokenize, stopwords);
      assert r.id - 1 == j;
      RoundTrip(NormalizeTags(poem.tags));
    }
  }

  /** Rows drawn from an ingested table project without failing on the stored tags, and every
      entry shows its poem's text, source and location as given (`""` when missing) and its tag
      list as normalised at ingestion. */
  lemma ProjectOfRows(poems: seq<Poem>, tokenize: string -> seq<string>, stopwords: set<string>,
    table: seq<Row>, rows: seq<Row>)
    requires IngestedTable(poems, tokenize, stopwords, table)
    requires forall r | r in rows :: r in table
    ensures && Project(rows).Success?
            && |Project(rows).value| == |rows|
            && forall k | 0 <= k < |rows| ::
                 && 1 <= rows[k].id <= |poems|
                 && Project(rows).value[k].text == poems[rows[k].id - 1].text.GetOr("")
                 && Project(rows).value[k].tags == NormalizeTags(poems[rows[k].id - 1].tags)
                 && Project(rows).value[k].source == poems[rows[k].id - 1].source.GetOr("")
                 && Project(rows).value[k].location == poems[rows[k].id - 1].location.GetOr("")
  {
    forall k | 0 <= k < |rows|
      ensures 1 <= rows[k].id <= |poems|
      ensures StoredFrom(rows[k], poems[rows[k].id - 1], tokenize, stopwords)
    {
      assert rows[k] in rows;
    }
  }

  /** On an ingested table the search route never fails on the stored tags, and every entry
      shows its poem's text, source and location as given (`""` when missing) and its tag list
      as normalised at ingestion. */
  lemma SearchIngested(poems: seq<Poem>, tokenize: string -> seq<string>, stopwords: set<string>,
    table: seq<Row>, c: Criteria)
    requires IngestedTable(poems, tokenize, stopwords, table)
    ensures var rows := Select(table, c);
      && Project(rows).Success?
      && |Project(rows).value| == |rows|
      && forall k | 0 <= k < |rows| ::
           && 1 <= rows[k].id <= |poems|
           && Project(rows).value[k].text == poems[rows[k].id - 1].text.GetOr("")
           && Project(rows).value[k].tags == NormalizeTags(poems[rows[k].id - 1].tags)
           && Project(rows).value[k].source == poems[rows[k].id - 1].source.GetOr("")
           && Project(rows).value[k].location == poems[rows[k].id - 1].location.GetOr("")
  {
    ProjectOfRows(poems, tokenize, stopwords, table, Select(table, c));
  }

  lemma PoemTokensNonEmpty(poem: Poem, tokenize: string -> seq<string>,
    stopwords: set<string>)
    requires forall text: string, k | 0 <= k < |tokenize(text)| :: tokenize(text)[k] != ""
    ensures var kept := PoemTokens(poem, tokenize, stopwords);
              forall k | 0 <= k < |kept| :: kept[k] != ""
  {
    var kept := PoemTokens(poem, tokenize, stopwords);
    forall k | 0 <= k < |kept| ensures kept[k] != "" {
      assert kept[k] in kept;
    }
  }

  /** The kept tokens of the poem a row was stored from, row by row. */
  function TokensOfRows(poems: seq<Poem>, tokenize: string -> seq<string>, stopwords: set<string>,
    rows: seq<Row>): (kept: seq<seq<string>>)
    ensures |kept| == |rows|
    ensures forall i | 0 <= i < |rows| && 1 <= rows[i].id <= |poems| ::
              kept[i] == PoemTokens(poems[rows[i].id - 1], tokenize, stopwords)
  {
    seq(|rows|, i requires 0 <= i < |rows| =>
      if 1 <= rows[i].id <= |poems| then PoemTokens(poems[rows[i].id - 1], tokenize, stopwords) else [])
  }

  /** One row drawn from an ingested table holds the joined kept tokens of its poem, and those
      tokens are non-empty when the tokenizer yields no empty surface. */
  lemma RowTokens(poems: seq<Poem>, tokenize: string -> seq<string>, stopwords: set<string>,
    table: seq<Row>, rows: seq<Row>, i: nat)
    requires IngestedTable(poems, tokenize, stopwords, table)
    requires forall text: string, k | 0 <= k < |tokenize(text)| :: tokenize(text)[k] != ""
    requires forall r | r in rows :: r in table
    requires i < |rows|
    ensures var kept := TokensOfRows(poems, tokenize, stopwords, rows)[i];
      && rows[i].tokens == Join(kept)
      && forall k | 0 <= k < |kept| :: kept[k] != ""
  {
    assert 1 <= rows[i].id <= |poems|
        && StoredFrom(rows[i], poems[rows[i].id - 1], tokenize, stopwords) by {
      assert rows[i] in rows;
    }
    var poem := poems[rows[i].id - 1];
    var kept := TokensOfRows(poems, tokenize, stopwords, rows)[i];
    assert kept == PoemTokens(poem, tokenize, stopwords);
    assert forall k | 0 <= k < |kept| :: kept[k] != "" by {
      PoemTokensNonEmpty(poem, tokenize, stopwords);
    }
  }

  /** The word-cloud text of rows drawn from an ingested table, with a tokenizer that yields no
      empty surface: the kept tokens of their poems, in row order, joined by single spaces. */
  lemma CloudOfRows(poems: seq<Poem>, tokenize: string -> seq<string>, stopwords: set<string>,
    table: seq<Row>, rows: seq<Row>)
    requires IngestedTable(poems, tokenize, stopwords, table)
    requires forall text: string, k | 0 <= k < |tokenize(text)| :: tokenize(text)[k] != ""
    requires forall r | r in rows :: r in table
    ensures var kept := Flatten(TokensOfRows(poems, tokenize, stopwords, rows));
      CloudText(rows) == if kept == [] then NoData else Join(kept)
  {
    var kept := TokensOfRows(poems, tokenize, stopwords, rows);
    forall i | 0 <= i < |rows|
      ensures rows[i].tokens == Join(kept[i])
      ensures forall k | 0 <= k < |kept[i]| :: kept[i][k] != ""
    {
      RowTokens(poems, tokenize, stopwords, table, rows, i);
    }
    CloudTextFlattens(rows, kept);
  }

  /** On an ingested table, with a tokenizer that yields no empty surface, the word-cloud text
      is every kept token of the selected poems, poem after poem in table order, joined by
      single spaces, and the no-data text when there is none. */
  lemma CloudIngested(poems: seq<Poem>, tokenize: string -> seq<string>, stopwords: set<string>,
    table: seq<Row>, c: Criteria)
    requires IngestedTable(poems, tokenize, stopwords, table)
    requires forall text: string, k | 0 <= k < |tokenize(text)| :: tokenize(text)[k] != ""
    ensures var rows := Select(table, c);
      var kept := Flatten(TokensOfRows(poems, tokenize, stopwords, rows));
      CloudText(rows) == if kept == [] then NoData else Join(kept)
  {
    CloudOfRows(poems, tokenize, stopwords, table, Select(table, c));
  }
}
