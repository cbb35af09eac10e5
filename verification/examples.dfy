/** Worked cases of the query routes on a two-poem table. */
module Examples {
  import opened Wrappers
  import opened Text
  import opened TagJson
  import opened PoemsTable
  import opened App

  /** Two stored poems: 秋の空 (tag 自然, from A, in 京都) and 恋の歌 (tag 恋愛, from B, in 東京). */
  function SampleTable(): seq<Row>
  {
    [ Row(1, "秋の空", "A", "京都", "", Serialize(["自然"]), "秋 空"),
      Row(2, "恋の歌", "B", "東京", "", Serialize(["恋愛"]), "恋 歌") ]
  }

  /** The location filter compares whole values: 京都 selects the first poem only, and 東京
      neither selects nor is selected by 東京都. */
  lemma LocationIsExact()
    ensures Select(SampleTable(), Criteria("", "", "", "京都")) == [SampleTable()[0]]
    ensures Select(SampleTable(), Criteria("", "", "", "東京都")) == []
    ensures !Matches(Criteria("", "", "", "東京"), Row(3, "", "", "東京都", "", "[]", ""))
  {
    var c := Criteria("", "", "", "京都");
    WhereClauseMeaning(c, SampleTable()[0]);
    WhereClauseMeaning(c, SampleTable()[1]);
    assert SampleTable()[..1] == [SampleTable()[0]];
    var c2 := Criteria("", "", "", "東京都");
    WhereClauseMeaning(c2, SampleTable()[0]);
    WhereClauseMeaning(c2, SampleTable()[1]);
  }

  /** The keyword filter is substring containment: の occurs in both texts, so both poems are
      selected, in table order. */
  lemma KeywordIsSubstring()
    ensures Select(SampleTable(), Criteria("の", "", "", "")) == SampleTable()
  {
    var c := Criteria("の", "", "", "");
    assert OccursAt("秋の空", "の", 1);
    assert OccursAt("恋の歌", "の", 1);
    WhereClauseMeaning(c, SampleTable()[0]);
    WhereClauseMeaning(c, SampleTable()[1]);
    assert SampleTable()[..1] == [SampleTable()[0]];
  }

  /** The tag filter is substring containment in the stored JSON text: 恋 is no tag of the
      second poem, yet it selects it through 恋愛, and the cloud text is that poem's tokens. */
  lemma TagMatchesFragment()
    ensures "恋" !in ["恋愛"]
    ensures Select(SampleTable(), Criteria("", "恋", "", "")) == [SampleTable()[1]]
    ensures CloudText(Select(SampleTable(), Criteria("", "恋", "", ""))) == "恋 歌"
  {
    var c := Criteria("", "恋", "", "");
    assert Select(SampleTable(), c) == [SampleTable()[1]] by {
      assert Serialize(["恋愛"]) == "[\"恋愛\"]";
      assert OccursAt(Serialize(["恋愛"]), "恋", 2);
      assert Serialize(["自然"]) == "[\"自然\"]";
      assert !Contains(Serialize(["自然"]), "恋");
      WhereClauseMeaning(c, SampleTable()[0]);
      WhereClauseMeaning(c, SampleTable()[1]);
      assert SampleTable()[..1] == [SampleTable()[0]];
    }
    assert TokensColumn([SampleTable()[1]]) == ["恋 歌"];
    assert NonEmptyOnly(["恋 歌"]) == ["恋 歌"] by {
      assert ["恋 歌"][..0] == [];
    }
  }

  /** The tag filter can match across two tags: `", "` occurs in the JSON text of [夏, 海]
      though in neither tag. */
  lemma TagMatchSpansTags()
    ensures Contains(Serialize(["夏", "海"]), "\", \"")
    ensures !Contains("夏", "\", \"") && !Contains("海", "\", \"")
  {
    assert Serialize(["夏", "海"]) == "[\"夏\", \"海\"]";
    assert OccursAt(Serialize(["夏", "海"]), "\", \"", 3);
  }

  /** An empty JSON object is refused like a missing body, while a criterion that is only
      whitespace (here an ideographic space) reads as absent and selects every poem. */
  lemma EmptyObjectRefused()
    ensures ReadCriteria(Object(map[])) == Failure(NoJsonData)
    ensures ReadCriteria(Object(map["query" := Str("\U{3000}")])) == Success(NoCriteria)
    ensures Select(SampleTable(), NoCriteria) == SampleTable()
  {
    var fields := map["query" := Str("\U{3000}")];
    assert IsSpace('\U{3000}');
    assert Blank(fields, "query");
    assert "tag" !in fields && "source" !in fields && "location" !in fields;
    ReadCriteriaSpec(Object(fields));
    SelectAll(SampleTable());
  }
}
