# Poetry search and word cloud: a Dafny model

This is a model of the core of a small web application for searching a collection of Japanese
poems (`句`). It has two parts:

- **Ingestion** (`init_db.py`). The poem file is read and each poem becomes one database row.
  A missing field becomes the empty string. The `AIタグ` value is normalised to a list and stored
  as JSON text. The poem's text is tokenized, stopwords are dropped, and the remaining surfaces
  are stored joined by single spaces.
- **Query routes** (`app.py`). Both `/search` and `/wordcloud` read four optional criteria from
  the request body: `query`, `tag`, `source` and `location`. Each criterion is trimmed of
  whitespace. Both routes build the same `WHERE 1=1 AND ...` clause:
  - a keyword is a substring match on the text;
  - a source is a substring match;
  - a location is exact equality;
  - a tag is a substring match on the stored JSON text of the tag list.

  The two routes repeat the same WHERE-building code; the model states it once
  (`App.BuildWhere`). `/search` returns one entry per matching row, with the tags decoded. `/wordcloud` joins the
  non-empty token strings of the matching rows with spaces, or uses `データなし` when there are
  none. That text is what the word-cloud image is rendered from.

Modules:

| file | module | contents |
|---|---|---|
| `wrappers.dfy` | `Wrappers` | `Option`, `Result` |
| `text.dfy` | `Text` | substring containment (the meaning of `LIKE '%x%'`), Python's `str.strip`, `" ".join`, flattening, subsequences |
| `tag_json.dfy` | `TagJson` | the JSON text stored for a tag list (`json.dumps(..., ensure_ascii=False)`) and its reader (`json.loads`) |
| `poems_table.dfy` | `PoemsTable` | the `poems` table and its bulk insert with autoincrement ids |
| `stopwords.dfy` | `Stopwords` | the stopword list as written, its set, and the proof that the set has 90 members |
| `ingest.dfy` | `Ingest` | tag normalisation, token filtering, the per-poem row and the ingestion loop |
| `app.dfy` | `App` | reading the criteria, the WHERE clause and its meaning, the two routes |
| `pipeline.dfy` | `Pipeline` | what the routes answer on a table built by ingestion |
| `examples.dfy` | `Examples` | worked cases on a two-poem table |

The tokenizer is a parameter, `tokenize: string -> seq<string>`. It gives the surfaces the
tokenizer yields for a text before it finishes, or before it raises. A raise in the source is
caught and logged, and the poem keeps the tokens gathered so far. So the stored tokens depend
only on the surfaces yielded. The stopword set is a parameter of the per-poem preparation.
`Ingest.InitDb` builds it once, with `Stopwords.Stopwords()`, as the source does.

SQLite gives no row order for a `SELECT` without `ORDER BY`. The model returns rows in
insertion order. That is a choice of the model, and the statements about order below rest on it.

Two behaviours of the routes are worth noting:

- An empty JSON object `{}` is falsy in Python, so both routes refuse it with status 400
  (`App.ReadCriteriaSpec`, `Examples.EmptyObjectRefused`). It does not select every poem. A
  body such as `{"query": ""}` selects every poem.
- The tag criterion is a substring test on the JSON text of the whole list. It is not a
  membership test. `恋` selects a poem tagged `恋愛`, and `", "` matches any poem with two or
  more tags (`Examples.TagMatchesFragment`, `Examples.TagMatchSpansTags`).

## Model

| member | source | states |
|---|---|---|
| Text.Strip | app.py:44-47 | The trimmed criterion is a run `s[i..j]` of the value, with only whitespace before and after it (the Python whitespace set, including U+3000). Neither of its ends is whitespace. It is empty exactly when the value is all whitespace. |
| Text.StripIdempotent | app.py:44-47 | Trimming a trimmed criterion changes nothing. |
| Text.Join | init_db.py:97 | Every joined word occurs in the text joined by spaces. |
| Text.JoinAppend | init_db.py:97 | Joining two non-empty word lists with spaces is joining each and putting one space between them. |
| Text.JoinEmpty | app.py:149 | For words that are all non-empty, the joined text is empty exactly when there are no words. |
| TagJson.Serialize | init_db.py:85 | The stored tag text is bracketed by `[` and `]`. It is `[]` exactly when the list is empty. |
| TagJson.Deserialize | app.py:87 | A tag text that decodes starts with `[`. It decodes to the empty list exactly when it is `[]`. |
| TagJson.RoundTrip | init_db.py:85 | The tag text written at ingestion is read back by the search route as the same list (app.py:87). |
| TagJson.TagFragmentInSerialized | app.py:73-78 | A filter text without quote, backslash or control characters that occurs in one tag occurs in the stored JSON text. So the tag `LIKE` never misses a poem carrying such a tag, whole or as a fragment. |
| TagJson.ItemsContainQuote | init_db.py:85 | Every tag appears, quoted and escaped, in the written element list. |
| PoemsTable.InsertAll | init_db.py:101 | The bulk insert stores one row per prepared tuple, in order, with its columns unchanged. The i-th row gets id i+1. |
| Stopwords.Stopwords | init_db.py:10-20 | The stopword set built from the 94 listed literals has 90 members. |
| Stopwords.StopwordCount | init_db.py:11-20 | The list repeats four literals (`も`, `だ`, `て`, `な`), so its set has exactly 90 distinct words. |
| Ingest.NormalizeTags | init_db.py:78-82 | A missing `AIタグ` gives the empty list. A lone string gives the one-tag list. A list is kept as it is. |
| Ingest.KeptTokens | init_db.py:88-93 | A word is kept exactly when the tokenizer yielded it and it is not a stopword. The kept words are a subsequence of the surfaces, in the tokenizer's order. |
| Ingest.KeptTokensCount | init_db.py:88-93 | Each word that is not a stopword is kept as many times as the tokenizer yielded it. A stopword is never kept. |
| Ingest.CollectTokens | init_db.py:88-95 | The token loop gathers exactly the kept tokens of the surfaces, in order. |
| Ingest.PrepareRow | init_db.py:72-75 | Text, source, location and age are stored as given, and as `""` when missing. |
| Ingest.PreparedRow | init_db.py:72-97 | The four text fields are stored as given, or as `""` when missing. The stored tag text reads back as the lone tag in a list, as the list itself, or as `[]` when the value is missing. The token string is empty exactly when every surface is a stopword, for a tokenizer that yields no empty surface. |
| Ingest.PrepareOne | init_db.py:72-99 | One pass of the loop body yields the poem's prepared row. |
| Ingest.PrepareAll | init_db.py:69-99 | The loop prepares one tuple per poem, in file order. Each tuple is that poem's prepared row. |
| Ingest.InitDb | init_db.py:69-99 | Ingestion builds the stopword set once and yields one prepared tuple per poem, in file order. |
| App.FieldOf | app.py:44 | Reading a criterion succeeds exactly when the key is missing or holds a string. It fails only with that key's error. The value read is the key's value trimmed, or `""` when the key is missing. It is empty exactly when the key was missing or all whitespace, and trimming it again changes nothing. |
| App.ReadCriteria | app.py:40-47 | A truthy body that is not an object, and only such a body, fails on the first `.get`. |
| App.ReadCriteriaSpec | app.py:40-47 | The request is refused with status 400 exactly when the body is missing, `{}` or another falsy value. The criteria are read exactly when the body is a non-empty object whose criteria are strings or missing. Each criterion is the value under its own key trimmed, or `""` when missing. It is empty exactly when it was missing or all whitespace. |
| App.Execute | app.py:80-81 | A row is fetched exactly when it is in the table and meets every clause. The fetched rows are a subsequence of the table, in table order. |
| App.ExecuteCount | app.py:80-81 | Each row that meets every clause is fetched as often as it occurs in the table. No other row is fetched. |
| App.WhereClause | app.py:52-78 | The WHERE clause has at most four conditions. It is empty exactly when no criterion is present. |
| App.HoldsAllAddIf | app.py:56-78 | Adding a clause for a present criterion adds exactly that requirement. A skipped criterion adds none. |
| App.WhereClauseMeaning | app.py:52-78 | A row meets the built WHERE clause exactly when it meets each present criterion: keyword and source as substrings, location by equality, tag as a substring of the stored tag text. The clause is empty exactly when no criterion is present. |
| App.Select | app.py:52-81 | A row is selected exactly when it is in the table and matches the criteria. The selected rows are a subsequence of the table, in table order. |
| App.SelectCount | app.py:52-81 | Each matching row is selected as often as it occurs in the table. No other row is selected. |
| App.SelectAll | app.py:52-53 | With no criterion every row is selected, in table order. |
| App.Project | app.py:83-93 | The response succeeds exactly when every fetched tag text decodes. It then has one entry per row, in row order, showing text, decoded tags, source and location. Otherwise the error names a fetched row. |
| App.DisplaysSnoc | app.py:84-93 | Appending the entry of a decodable row to the entries of the rows before it gives the entries of the longer list. |
| App.ProjectSnoc | app.py:84-93 | One more fetched row either appends its display entry, or ends the response with its decoding error. |
| App.ProjectKeepsFailure | app.py:84-87 | Once a fetched row's tags fail to decode, the rows after it do not change the response. |
| App.ProjectRows | app.py:83-93 | The result loop yields the projection of the fetched rows: all entries in order, or the error of the first row whose tags do not decode. |
| App.NonEmptyOnlyShape | app.py:144-147 | The gathered strings are a subsequence of the column. There are none exactly when every string in the column is empty. |
| App.NonEmptyOnlyCount | app.py:144-147 | Each non-empty string is gathered as often as it occurs. The empty string is never gathered. |
| App.TokenStrings | app.py:144-147 | Only non-empty token strings are gathered. None are gathered exactly when every fetched row's token string is empty. |
| App.TokenStringsFromColumn | app.py:144-147 | The gathered token strings are the fetched rows' non-empty token strings, each as often as it occurs, in row order. |
| App.CloudText | app.py:149 | The cloud text is never empty. It is `データなし` when no fetched row has tokens. |
| App.CloudTextFlattens | app.py:144-149 | When each row's token string is its token list joined by spaces, the cloud text is all the tokens joined by spaces, row after row. It is `データなし` when there is no token. |
| App.BuildWhere | app.py:52-78 | The clause built by the route's four `if`s is the WHERE clause of the criteria. Its meaning is stated by `App.WhereClauseMeaning`. `/wordcloud` repeats the same code at app.py:123-137. |
| App.AggregateTokens | app.py:143-149 | The token loop and the final join yield the cloud text of the fetched rows. |
| App.Search | app.py:39-97 | The `/search` route answers with the criteria error, or with the projection of the rows matching the criteria. |
| App.GenerateWordcloud | app.py:110-149 | The `/wordcloud` route answers with the criteria error, or with the cloud text of the rows matching the criteria (the same rows `/search` uses). |
| Pipeline.InsertIngested | init_db.py:69-101 | Inserting the ingestion loop's tuples gives a table where each row's id names its poem. Each row holds that poem's text, source, location and age (`""` when missing), its normalised tags (as read back) and its joined kept tokens. |
| Pipeline.ProjectOfRows | app.py:83-93 | Rows drawn from an ingested table project without failing on their tags. Each entry shows its poem's text, source and location (`""` when missing) and the poem's normalised tag list. |
| Pipeline.SearchIngested | app.py:83-93 | On an ingested table, `/search` never fails on stored tags. Each entry shows its poem's text, source and location and the poem's normalised tag list. |
| Pipeline.RowTokens | app.py:144-147 | A row of an ingested table holds its poem's kept tokens joined by spaces. These tokens are non-empty for a tokenizer that yields no empty surface. |
| Pipeline.CloudOfRows | app.py:144-149 | For rows drawn from an ingested table, the cloud text is every kept token of their poems, row after row, joined by single spaces. It is `データなし` when there is none. |
| Pipeline.CloudIngested | app.py:144-149 | On an ingested table the cloud text is every kept token of the selected poems, poem by poem in table order, joined by single spaces. It is `データなし` when there is none. This holds for a tokenizer that yields no empty surface. |
| Examples.LocationIsExact | app.py:66-68 | `京都` selects only the 京都 poem. Neither `東京` nor `東京都` selects the other's poem. |
| Examples.KeywordIsSubstring | app.py:56-58 | `の` selects both poems whose text contains it, in table order. |
| Examples.TagMatchesFragment | app.py:73-78 | `恋` selects the poem tagged `恋愛`, and its cloud text is that poem's tokens. |
| Examples.TagMatchSpansTags | app.py:73-78 | `", "` occurs in the stored text of a two-tag list, though in neither tag. |
| Examples.EmptyObjectRefused | app.py:41-47 | `{}` is refused as missing data. A criterion that is only an ideographic space reads as absent and selects every poem. |

## Left out

- The HTTP layer is not modelled: Flask routing, `jsonify`, the `index` page, status codes beyond the failure kinds, and `send_file` of the rendered PNG.
- The word-cloud rendering (mask image, font, colours, PNG buffer) is not modelled. The model stops at the text handed to `generate`.
- SQLite itself is not modelled: connections, `CREATE TABLE`, the two indexes, and `commit`/`close`. The table is a sequence of rows. A query returns rows in insertion order, which SQLite does not promise without `ORDER BY`.
- `LIKE` is modelled as case-sensitive substring containment. SQLite's `LIKE` folds ASCII case, and `%` or `_` inside a criterion acts as a wildcard. Neither is modelled.
- The model's tag text decoder reads only the layout the writer produces: a list of strings, `", "` separators, and `\uXXXX` escapes without surrogate pairs. Other JSON text in the tags column (written by another program) is rejected by the model, where `json.loads` might accept it.
- The poem file is not parsed. Each poem arrives as a `Poem` whose fields are strings or missing. Non-string field values, and an `AIタグ` that is neither a string nor a list of strings, are not modelled.
- The tokenizer is a parameter. The dictionary-based morphological analysis is not modelled. A raise inside it is not a separate value: the parameter gives the surfaces yielded before it, and the log line is left out.
- The file system steps are not modelled: the missing data file check, removing an old database, and the progress printing.
- Ingest.KeptTokens, App.Execute, App.Select and App.TokenStrings: how many times each element is kept is stated by the lemmas `Ingest.KeptTokensCount`, `App.ExecuteCount`, `App.SelectCount` and `App.TokenStringsFromColumn`. It is not stated in the function's own postcondition.
