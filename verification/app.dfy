/** The two query routes: `search` returns the matching poems for display, `wordcloud` joins
    their precomputed token strings into the text handed to the word-cloud renderer. Both read
    the same four optional criteria from the request body and build the same WHERE clause. */
module App {
  import opened Wrappers
  import opened Text
  import opened TagJson
  import opened PoemsTable

  /** A value of the request's JSON object, as far as the routes look at it. */
  datatype Value = Str(s: string) | NonString

  /** The request body as `request.json` gives it: none, an object, or another JSON value
      (an array, number, string, boolean or null), of which only its truthiness matters. */
  datatype Body = NoBody | Object(fields: map<string, Value>) | NonObject(truthy: bool)

  /** Why a route answers with an error instead of a result. */
  datatype Failure =
    | NoJsonData                 // status 400: the body is missing or falsy
    | FieldNotString(key: string) // status 500: `.strip()` on a value that is not a string
    | NotAnObject                // status 500: `.get` on a JSON value that is not an object
    | TagsNotJson(id: int)       // status 500: `json.loads` failed on a stored tag text

  /** The four criteria after trimming; `""` means the criterion is absent. */
  datatype Criteria = Criteria(query: string, tag: string, source: string, location: string)

  const NoCriteria := Criteria("", "", "", "")

  /** The text handed to the renderer when no matching poem has any token. */
  const NoData: string := "データなし"

  /** The criterion under `key` is absent: the key is missing or its text is all whitespace. */
  predicate Blank(fields: map<string, Value>, key: string)
  {
    key !in fields || (fields[key].Str? && forall k | 0 <= k < |fields[key].s| :: IsSpace(fields[key].s[k]))
  }

  /** `key` is missing or holds a string. */
  predicate StringOrAbsent(fields: map<string, Value>, key: string)
  {
    key !in fields || fields[key].Str?
  }

  /** `v` is what `.get(key, "").strip()` gives: the stored string trimmed, or `""` for a
      missing key. */
  predicate TrimmedFrom(fields: map<string, Value>, key: string, v: string)
  {
    if key in fields then fields[key].Str? && v == Strip(fields[key].s) else v == ""
  }

  /** `data.get(key, "").strip()`: a string or nothing is accepted, and the result is that value
      trimmed, empty exactly when the value was missing or all whitespace. */
  function FieldOf(fields: map<string, Value>, key: string): (r: Result<string, Failure>)
    ensures r.Success? <==> StringOrAbsent(fields, key)
    ensures r.Failure? ==> r.error == FieldNotString(key)
    ensures r.Success? ==>
              && TrimmedFrom(fields, key, r.value)
              && (r.value == "" <==> Blank(fields, key))
              && Strip(r.value) == r.value
  {
    if key !in fields then Success("")
    else
      match fields[key]
      case Str(s) => StripIdempotent(s); Success(Strip(s))
      case NonString => Failure(FieldNotString(key))
  }

  /** The request check and the four reads at the top of both routes; a JSON value that is
      truthy but not an object fails on the first `.get`. */
  function ReadCriteria(body: Body): (r: Result<Criteria, Failure>)
    ensures r == Failure(NotAnObject) <==> body.NonObject? && body.truthy
  {
    match body
    case NoBody => Failure(NoJsonData)
    case NonObject(truthy) => if truthy then Failure(NotAnObject) else Failure(NoJsonData)
    case Object(fields) =>
      if fields == map[] then Failure(NoJsonData)
      else
        var query := FieldOf(fields, "query");
        var tag := FieldOf(fields, "tag");
        var source := FieldOf(fields, "source");
        var location := FieldOf(fields, "location");
        if query.Failure? then Failure(query.error)
        else if tag.Failure? then Failure(tag.error)
        else if source.Failure? then Failure(source.error)
        else if location.Failure? then Failure(location.error)
        else
          Success(Criteria(query.value, tag.value, source.value, location.value))
  }

  /** A missing or falsy body is refused with status 400; otherwise the criteria are read when
      every criterion present is a string, and each is the value under its own key trimmed,
      empty exactly when it was missing or all whitespace. */
  lemma ReadCriteriaSpec(body: Body)
    ensures ReadCriteria(body) == Failure(NoJsonData) <==>
              body == NoBody || body == Object(map[]) || body == NonObject(false)
    ensures ReadCriteria(body).Success? <==>
              && body.Object? && body.fields != map[]
              && StringOrAbsent(body.fields, "query") && StringOrAbsent(body.fields, "tag")
              && StringOrAbsent(body.fields, "source") && StringOrAbsent(body.fields, "location")
    ensures ReadCriteria(body).Success? ==>
              var c := ReadCriteria(body).value;
              && (c.query == "" <==> Blank(body.fields, "query"))
              && (c.tag == "" <==> Blank(body.fields, "tag"))
              && (c.source == "" <==> Blank(body.fields, "source"))
              && (c.location == "" <==> Blank(body.fields, "location"))
              && TrimmedFrom(body.fields, "query", c.query) && TrimmedFrom(body.fields, "tag", c.tag)
              && TrimmedFrom(body.fields, "source", c.source) && TrimmedFrom(body.fields, "location", c.location)
              && Strip(c.query) == c.query && Strip(c.tag) == c.tag
              && Strip(c.source) == c.source && Strip(c.location) == c.location
  {
    match body
    case NoBody =>
    case NonObject(_) =>
    case Object(fields) =>
      if fields != map[] {
        var q, t := FieldOf(fields, "query"), FieldOf(fields, "tag");
        var s, l := FieldOf(fields, "source"), FieldOf(fields, "location");
        if q.Success? && t.Success? && s.Success? && l.Success? {
          assert ReadCriteria(body) == Success(Criteria(q.value, t.value, s.value, l.value));
        } else {
          assert ReadCriteria(body).Failure? && ReadCriteria(body).error != NoJsonData;
        }
      }
  }

  /** One `AND ...` clause of the WHERE clause, with its bound parameter. */
  datatype Condition =
    | TextLike(needle: string)     // AND text LIKE '%needle%'
    | SourceLike(needle: string)   // AND source LIKE '%needle%'
    | LocationIs(value: string)    // AND location = value
    | TagsLike(needle: string)     // AND tags LIKE '%needle%'

  predicate Holds(cond: Condition, row: Row)
  {
    match cond
    case TextLike(needle) => Contains(row.text, needle)
    case SourceLike(needle) => Contains(row.source, needle)
    case LocationIs(value) => row.location == value
    case TagsLike(needle) => Contains(row.tags, needle)
  }

  /** `WHERE 1=1 AND c1 AND c2 ...`. */
  predicate HoldsAll(conds: seq<Condition>, row: Row)
  {
    forall i | 0 <= i < |conds| :: Holds(conds[i], row)
  }

  /** `conn.execute(sql, params).fetchall()`: the rows meeting every clause, in table order. */
  function Execute(table: seq<Row>, conds: seq<Condition>): (rows: seq<Row>)
    ensures forall r :: r in rows <==> r in table && HoldsAll(conds, r)
    ensures IsSubsequence(rows, table)
  {
    if table == [] then []
    else
      var front, last := table[..|table| - 1], table[|table| - 1];
      assert table == front + [last];
      var rowsFront := Execute(front, conds);
      SubsequenceExtend(rowsFront, front, last);
      if HoldsAll(conds, last) then rowsFront + [last] else rowsFront
  }

  /** A fetched row occurs as often as in the table when it meets every clause, else not at all. */
  lemma {:induction false} ExecuteCount(table: seq<Row>, conds: seq<Condition>)
    ensures forall r :: multiset(Execute(table, conds))[r] ==
                        if HoldsAll(conds, r) then multiset(table)[r] else 0
    decreases |table|
  {
    if table != [] {
      var front, last := table[..|table| - 1], table[|table| - 1];
      assert table == front + [last];
      ExecuteCount(front, conds);
    }
  }

  /** `conds` with `cond` appended when the criterion is present (one `if` of the routes). */
  function AddIf(conds: seq<Condition>, present: bool, cond: Condition): seq<Condition>
  {
    if present then conds + [cond] else conds
  }

  /** The clauses the routes add for the criteria, in the order they add them: at most one per
      criterion, and none exactly when no criterion is present. */
  function WhereClause(c: Criteria): (conds: seq<Condition>)
    ensures |conds| <= 4
    ensures conds == [] <==> c == NoCriteria
  {
    var afterQuery := AddIf([], c.query != "", TextLike(c.query));
    var afterSource := AddIf(afterQuery, c.source != "", SourceLike(c.source));
    var afterLocation := AddIf(afterSource, c.location != "", LocationIs(c.location));
    AddIf(afterLocation, c.tag != "", TagsLike(c.tag))
  }

  lemma HoldsAllAddIf(conds: seq<Condition>, present: bool, cond: Condition, row: Row)
    ensures HoldsAll(AddIf(conds, present, cond), row) <==> HoldsAll(conds, row) && (present ==> Holds(cond, row))
    ensures AddIf(conds, present, cond) == [] <==> conds == [] && !present
  {
    if present {
      var added := conds + [cond];
      assert added[|conds|] == cond;
      assert forall i | 0 <= i < |conds| :: added[i] == conds[i];
    }
  }

  /** What the criteria ask of a row, one criterion at a time: an absent criterion asks nothing. */
  predicate Matches(c: Criteria, row: Row)
  {
    && (c.query == "" || Contains(row.text, c.query))
    && (c.source == "" || Contains(row.source, c.source))
    && (c.location == "" || row.location == c.location)
    && (c.tag == "" || Contains(row.tags, c.tag))
  }

  /** A row meets the built clause exactly when it meets each present criterion. */
  lemma WhereClauseMeaning(c: Criteria, row: Row)
    ensures HoldsAll(WhereClause(c), row) <==> Matches(c, row)
  {
    var afterQuery := AddIf([], c.query != "", TextLike(c.query));
    var afterSource := AddIf(afterQuery, c.source != "", SourceLike(c.source));
    var afterLocation := AddIf(afterSource, c.location != "", LocationIs(c.location));
    HoldsAllAddIf([], c.query != "", TextLike(c.query), row);
    HoldsAllAddIf(afterQuery, c.source != "", SourceLike(c.source), row);
    HoldsAllAddIf(afterSource, c.location != "", LocationIs(c.location), row);
    HoldsAllAddIf(afterLocation, c.tag != "", TagsLike(c.tag), row);
  }

  /** The rows both routes fetch for the criteria: every table row that matches them, each as
      often as in the table, in table order. */
  function Select(table: seq<Row>, c: Criteria): (rows: seq<Row>)
    ensures forall r :: r in rows <==> r in table && Matches(c, r)
    ensures IsSubsequence(rows, table)
  {
    assert forall r :: HoldsAll(WhereClause(c), r) <==> Matches(c, r) by {
      forall r ensures HoldsAll(WhereClause(c), r) <==> Matches(c, r) {
        WhereClauseMeaning(c, r);
      }
    }
    Execute(table, WhereClause(c))
  }

  /** A matching row is selected as often as it occurs in the table, any other row never. */
  lemma SelectCount(table: seq<Row>, c: Criteria)
    ensures forall r :: multiset(Select(table, c))[r] == if Matches(c, r) then multiset(table)[r] else 0
  {
    ExecuteCount(table, WhereClause(c));
    forall r ensures HoldsAll(WhereClause(c), r) <==> Matches(c, r) {
      WhereClauseMeaning(c, r);
    }
  }

  /** Without criteria every row is selected, in table order. */
  lemma {:induction false} SelectAll(table: seq<Row>)
    ensures Select(table, NoCriteria) == table
  {
    if table != [] {
      var front := table[..|table| - 1];
      SelectAll(front);
      assert table == front + [table[|table| - 1]];
    }
  }

  /** One entry of the search response: `句`, `AIタグ` (decoded), `データ元`, `場所`. */
  datatype Display = Display(text: string, tags: seq<string>, source: string, location: string)

  /** `shown` is one entry per row, in row order, each showing the row's text, decoded tags,
      source and location. */
  predicate DisplaysRows(rows: seq<Row>, shown: seq<Display>)
  {
    && |shown| == |rows|
    && forall i | 0 <= i < |rows| ::
         && Deserialize(rows[i].tags).Some?
         && shown[i] == Display(rows[i].text, Deserialize(rows[i].tags).value, rows[i].source, rows[i].location)
  }

  /** The search response for the fetched rows: one entry per row, in row order, or the error
      raised by the first row whose tag text does not decode. */
  function Project(rows: seq<Row>): (r: Result<seq<Display>, Failure>)
    ensures r.Success? <==> forall i | 0 <= i < |rows| :: Deserialize(rows[i].tags).Some?
    ensures r.Success? ==> DisplaysRows(rows, r.value)
    ensures r.Failure? ==> exists i | 0 <= i < |rows| :: r.error == TagsNotJson(rows[i].id)
  {
    if rows == [] then Success([])
    else
      var front, last := rows[..|rows| - 1], rows[|rows| - 1];
      match Project(front)
      case Failure(e) =>
        assert exists i | 0 <= i < |rows| :: Deserialize(rows[i].tags).None? by {
          var i :| 0 <= i < |front| && Deserialize(front[i].tags).None?;
          assert rows[i] == front[i];
        }
        assert exists i | 0 <= i < |rows| :: e == TagsNotJson(rows[i].id) by {
          var i :| 0 <= i < |front| && e == TagsNotJson(front[i].id);
          assert rows[i] == front[i];
        }
        Failure(e)
      case Success(shown) =>
        match Deserialize(last.tags)
        case None => Failure(TagsNotJson(last.id))
        case Some(tags) =>
          DisplaysSnoc(rows, shown);
          Success(shown + [Display(last.text, tags, last.source, last.location)])
  }

  /** One more row whose tags decode extends the entries by its own. */
  lemma DisplaysSnoc(rows: seq<Row>, shown: seq<Display>)
    requires rows != [] && DisplaysRows(rows[..|rows| - 1], shown)
    requires Deserialize(rows[|rows| - 1].tags).Some?
    ensures var last := rows[|rows| - 1];
      DisplaysRows(rows, shown + [Display(last.text, Deserialize(last.tags).value, last.source, last.location)])
  {
    var front := rows[..|rows| - 1];
    forall i | 0 <= i < |front| ensures rows[i] == front[i] { }
  }

  /** One more fetched row: its entry is appended, or its decoding error ends the response. */
  lemma ProjectSnoc(rows: seq<Row>, n: nat)
    requires n < |rows| && Project(rows[..n]).Success?
    ensures var last := rows[n];
      Deserialize(last.tags).None? ==> Project(rows[..n + 1]) == Failure(TagsNotJson(last.id))
    ensures var last := rows[n];
      Deserialize(last.tags).Some? ==>
        Project(rows[..n + 1]) ==
        Success(Project(rows[..n]).value + [Display(last.text, Deserialize(last.tags).value, last.source, last.location)])
  {
    assert rows[..n + 1][..n] == rows[..n];
  }


  /** Once a fetched row's tags fail to decode, the rows after it do not change the error. */
  lemma {:induction false} ProjectKeepsFailure(rows: seq<Row>, n: nat)
    requires n <= |rows| && Project(rows[..n]).Failure?
    ensures Project(rows) == Project(rows[..n])
    decreases |rows|
  {
    if n < |rows| {
      var front := rows[..|rows| - 1];
      assert front[..n] == rows[..n];
      ProjectKeepsFailure(front, n);
    } else {
      assert rows[..n] == rows;
    }
  }

  /** The `tokens` column of the rows, in row order. */
  function TokensColumn(rows: seq<Row>): (column: seq<string>)
    ensures |column| == |rows|
    ensures forall i | 0 <= i < |rows| :: column[i] == rows[i].tokens
  {
    if rows == [] then [] else TokensColumn(rows[..|rows| - 1]) + [rows[|rows| - 1].tokens]
  }

  /** The non-empty strings of `xs`. */
  function NonEmptyOnly(xs: seq<string>): (ys: seq<string>)
    ensures forall k | 0 <= k < |ys| :: ys[k] != ""
  {
    if xs == [] then []
    else
      var front, last := xs[..|xs| - 1], xs[|xs| - 1];
      assert xs == front + [last];
      var kept := NonEmptyOnly(front);
      if last != "" then kept + [last] else kept
  }

  /** Each non-empty string is left as often as it occurs, the empty string never. */
  lemma {:induction false} NonEmptyOnlyCount(xs: seq<string>)
    ensures forall w :: multiset(NonEmptyOnly(xs))[w] == if w == "" then 0 else multiset(xs)[w]
    decreases |xs|
  {
    if xs != [] {
      var front := xs[..|xs| - 1];
      assert xs == front + [xs[|xs| - 1]];
      NonEmptyOnlyCount(front);
    }
  }

  /** Nothing is left exactly when every string was empty, and what is left keeps its order. */
  lemma {:induction false} NonEmptyOnlyShape(xs: seq<string>)
    ensures NonEmptyOnly(xs) == [] <==> forall k | 0 <= k < |xs| :: xs[k] == ""
    ensures IsSubsequence(NonEmptyOnly(xs), xs)
    decreases |xs|
  {
    if xs != [] {
      var front, last := xs[..|xs| - 1], xs[|xs| - 1];
      assert xs == front + [last];
      NonEmptyOnlyShape(front);
      SubsequenceExtend(NonEmptyOnly(front), front, last);
      assert (forall k | 0 <= k < |xs| :: xs[k] == "") <==>
             last == "" && forall k | 0 <= k < |front| :: front[k] == "" by {
        forall k | 0 <= k < |front| ensures front[k] == xs[k] { }
      }
    }
  }

  /** The non-empty token strings of the rows (`all_words`); none exactly when every row's token
      string is empty. */
  function TokenStrings(rows: seq<Row>): (words: seq<string>)
    ensures forall k | 0 <= k < |words| :: words[k] != ""
    ensures words == [] <==> forall i | 0 <= i < |rows| :: rows[i].tokens == ""
  {
    NonEmptyOnlyShape(TokensColumn(rows));
    NonEmptyOnly(TokensColumn(rows))
  }

  /** The gathered words are the non-empty entries of the `tokens` column in row order, each as
      often as it occurs there, and nothing else. */
  lemma TokenStringsFromColumn(rows: seq<Row>)
    ensures forall w :: multiset(TokenStrings(rows))[w] ==
                        if w == "" then 0 else multiset(TokensColumn(rows))[w]
    ensures IsSubsequence(TokenStrings(rows), TokensColumn(rows))
  {
    NonEmptyOnlyShape(TokensColumn(rows));
    NonEmptyOnlyCount(TokensColumn(rows));
  }

  /** The text the word cloud is generated from. */
  function CloudText(rows: seq<Row>): (text: string)
    ensures text != ""
    ensures text == NoData <== forall i | 0 <= i < |rows| :: rows[i].tokens == ""
  {
    var words := TokenStrings(rows);
    JoinEmpty(words);
    if words != [] then Join(words) else NoData
  }

  /** When each row's token string is its token list joined by spaces, with no empty token,
      the cloud text is all those tokens joined by spaces, row after row. */
  lemma {:induction false} CloudTextFlattens(rows: seq<Row>, tokens: seq<seq<string>>)
    requires |rows| == |tokens|
    requires forall i | 0 <= i < |rows| :: rows[i].tokens == Join(tokens[i])
    requires forall i, k | 0 <= i < |tokens| && 0 <= k < |tokens[i]| :: tokens[i][k] != ""
    ensures TokenStrings(rows) == [] <==> Flatten(tokens) == []
    ensures CloudText(rows) == if Flatten(tokens) == [] then NoData else Join(Flatten(tokens))
    decreases |rows|
  {
    if rows != [] {
      var n := |rows| - 1;
      var front, last := rows[..n], tokens[n];
      CloudTextFlattens(front, tokens[..n]);
      assert Flatten(tokens) == Flatten(tokens[..n]) + last;
      JoinEmpty(last);
      var wordsFront, flatFront := TokenStrings(front), Flatten(tokens[..n]);
      if last != [] {
        assert TokenStrings(rows) == wordsFront + [Join(last)];
        if flatFront != [] {
          JoinAppend(wordsFront, [Join(last)]);
          JoinAppend(flatFront, last);
        } else {
          assert flatFront + last == last;
        }
      } else {
        assert Flatten(tokens) == flatFront;
        assert TokenStrings(rows) == wordsFront;
      }
    }
  }

  /** The WHERE clause as both routes build it: one `if` per criterion, in the order keyword,
      source, location, tag. */
  method BuildWhere(c: Criteria) returns (conds: seq<Condition>)
    ensures conds == WhereClause(c)
  {
    conds := [];
    if c.query != "" {
      conds := conds + [TextLike(c.query)];
    }
    ghost var afterQuery := conds;
    if c.source != "" {
      conds := conds + [SourceLike(c.source)];
    }
    ghost var afterSource := conds;
    if c.location != "" {
      conds := conds + [LocationIs(c.location)];
    }
    ghost var afterLocation := conds;
    if c.tag != "" {
      conds := conds + [TagsLike(c.tag)];
    }
    assert afterQuery == AddIf([], c.query != "", TextLike(c.query));
    assert afterSource == AddIf(afterQuery, c.source != "", SourceLike(c.source));
    assert afterLocation == AddIf(afterSource, c.location != "", LocationIs(c.location));
  }

  /** The result loop of `/search`: one entry per fetched row, stopping at the first tag text
      that does not decode. */
  method ProjectRows(rows: seq<Row>) returns (response: Result<seq<Display>, Failure>)
    ensures response == Project(rows)
  {
    var results: seq<Display> := [];
    for i := 0 to |rows|
      invariant Project(rows[..i]) == Success(results)
    {
      var row := rows[i];
      ProjectSnoc(rows, i);
      var tags := Deserialize(row.tags);
      if tags.None? {
        // `json.loads` raises; the route answers with the error.
        ProjectKeepsFailure(rows, i + 1);
        return Failure(TagsNotJson(row.id));
      }
      results := results + [Display(row.text, tags.value, row.source, row.location)];
    }
    assert rows[..|rows|] == rows;
    response := Success(results);
  }

  /** The token loop of `/wordcloud` and the text it hands to the renderer. */
  method AggregateTokens(rows: seq<Row>) returns (text: string)
    ensures text == CloudText(rows)
  {
    var allWords: seq<string> := [];
    for i := 0 to |rows|
      invariant allWords == TokenStrings(rows[..i])
    {
      assert rows[..i + 1][..i] == rows[..i];
      if rows[i].tokens != "" {
        allWords := allWords + [rows[i].tokens];
      }
    }
    assert rows[..|rows|] == rows;
    text := if allWords != [] then Join(allWords) else NoData;
  }

  /** The `/search` route: the display entries of the rows matching the request's criteria. */
  method Search(table: seq<Row>, body: Body) returns (response: Result<seq<Display>, Failure>)
    ensures response == match ReadCriteria(body)
                        case Failure(e) => Failure(e)
                        case Success(c) => Project(Select(table, c))
  {
    var criteria := ReadCriteria(body);
    if criteria.Failure? {
      return Failure(criteria.error);
    }
    var conds := BuildWhere(criteria.value);
    var rows := Execute(table, conds);
    response := ProjectRows(rows);
  }

  /** The `/wordcloud` route up to the renderer: the text the cloud is generated from, over the
      same rows `Search` fetches. */
  method GenerateWordcloud(table: seq<Row>, body: Body) returns (response: Result<string, Failure>)
    ensures response == match ReadCriteria(body)
                        case Failure(e) => Failure(e)
                        case Success(c) => Success(CloudText(Select(table, c)))
  {
    var criteria := ReadCriteria(body);
    if criteria.Failure? {
      return Failure(criteria.error);
    }
    var conds := BuildWhere(criteria.value);
    var rows := Execute(table, conds);
    var text := AggregateTokens(rows);
    response := Success(text);
  }
}
