/** Building the table rows from the poem file: defaults for missing fields, tag
    normalisation, and the stopword-filtered token string precomputed for the word cloud. */
module Ingest {
  import opened Wrappers
  import opened Text
  import opened TagJson
  import opened PoemsTable
  import Stopwords

  /** The `AIタグ` value of a poem: a lone string or a list of strings. */
  datatype TagValue = OneTag(tag: string) | TagList(tags: seq<string>)

  /** One object of the poem file; `None` is a missing key (`句`, `データ元`, `場所`, `年齢`, `AIタグ`). */
  datatype Poem = Poem(
    text: Option<string>, source: Option<string>, location: Option<string>,
    age: Option<string>, tags: Option<TagValue>)

  /** The tag list stored for a poem: a lone string becomes a one-element list, a list is kept,
      and a missing value is the empty list. */
  function NormalizeTags(value: Option<TagValue>): (tags: seq<string>)
    ensures value.None? ==> tags == []
    ensures value.Some? && value.value.OneTag? ==> tags == [value.value.tag]
    ensures value.Some? && value.value.TagList? ==> tags == value.value.tags
  {
    var raw := value.GetOr(TagList([]));
    if raw.OneTag? then [raw.tag] else raw.tags
  }

  /** The surfaces that are not stopwords, each occurrence kept, in the order the tokenizer
      produced them. */
  function KeptTokens(surfaces: seq<string>, stopwords: set<string>): (kept: seq<string>)
    ensures forall w :: w in kept <==> w in surfaces && w !in stopwords
    ensures IsSubsequence(kept, surfaces)
    ensures |kept| <= |surfaces|
  {
    if surfaces == [] then []
    else
      var last := surfaces[|surfaces| - 1];
      var front := surfaces[..|surfaces| - 1];
      assert surfaces == front + [last];
      var keptFront := KeptTokens(front, stopwords);
      SubsequenceExtend(keptFront, front, last);
      if last in stopwords then keptFront else keptFront + [last]
  }

  /** A surface that is not a stopword is kept as often as the tokenizer produced it, a stopword
      never. */
  lemma {:induction false} KeptTokensCount(surfaces: seq<string>, stopwords: set<string>)
    ensures forall w :: multiset(KeptTokens(surfaces, stopwords))[w] ==
                        if w in stopwords then 0 else multiset(surfaces)[w]
    decreases |surfaces|
  {
    if surfaces != [] {
      var front := surfaces[..|surfaces| - 1];
      assert surfaces == front + [surfaces[|surfaces| - 1]];
      KeptTokensCount(front, stopwords);
    }
  }

  /** The tokens kept for a poem's text (a missing text is the empty string). */
  function PoemTokens(poem: Poem, tokenize: string -> seq<string>, stopwords: set<string>): seq<string>
  {
    KeptTokens(tokenize(poem.text.GetOr("")), stopwords)
  }

  /** The tuple ingestion inserts for one poem: present fields are stored unchanged and missing
      ones as `""`. */
  function PrepareRow(poem: Poem, tokenize: string -> seq<string>, stopwords: set<string>)
    : (row: Columns)
    ensures row.text == poem.text.GetOr("") && row.source == poem.source.GetOr("")
    ensures row.location == poem.location.GetOr("") && row.age == poem.age.GetOr("")
  {
    Columns(poem.text.GetOr(""), poem.source.GetOr(""), poem.location.GetOr(""), poem.age.GetOr(""),
            Serialize(NormalizeTags(poem.tags)), Join(PoemTokens(poem, tokenize, stopwords)))
  }

  /** What a prepared row holds: the poem's text, source, location and age as given, or `""`
      where missing; a tag text that reads back as the lone tag in a list, as the list itself,
      or as the empty list; and a token string that is empty exactly when every surface is a
      stopword (for a tokenizer that yields no empty surface). */
  lemma PreparedRow(poem: Poem, tokenize: string -> seq<string>, stopwords: set<string>)
    ensures var row := PrepareRow(poem, tokenize, stopwords);
      && row.text == poem.text.GetOr("") && row.source == poem.source.GetOr("")
      && row.location == poem.location.GetOr("") && row.age == poem.age.GetOr("")
      && Deserialize(row.tags) == Some(match poem.tags
                                       case None => []
                                       case Some(OneTag(t)) => [t]
                                       case Some(TagList(ts)) => ts)
      && ((forall k | 0 <= k < |tokenize(row.text)| :: tokenize(row.text)[k] != "") ==>
            (row.tokens == "" <==> forall k | 0 <= k < |tokenize(row.text)| ::
                                     tokenize(row.text)[k] in stopwords))
  {
    RoundTrip(NormalizeTags(poem.tags));
    JoinEmptyWhenNoneKept(tokenize(poem.text.GetOr("")), stopwords);
  }

  lemma JoinEmptyWhenNoneKept(surfaces: seq<string>, stopwords: set<string>)
    ensures (forall k | 0 <= k < |surfaces| :: surfaces[k] != "") ==>
              (Join(KeptTokens(surfaces, stopwords)) == "" <==>
               forall k | 0 <= k < |surfaces| :: surfaces[k] in stopwords)
  {
    var kept := KeptTokens(surfaces, stopwords);
    if forall k | 0 <= k < |surfaces| :: surfaces[k] != "" {
      assert forall k | 0 <= k < |kept| :: kept[k] != "" by {
        forall k | 0 <= k < |kept| ensures kept[k] != "" {
          assert kept[k] in surfaces;
        }
      }
      JoinEmpty(kept);
      if kept != [] {
        assert kept[0] in surfaces;
      } else {
        forall k | 0 <= k < |surfaces| ensures surfaces[k] in stopwords {
          assert surfaces[k] in surfaces;
        }
      }
    }
  }

  /** The inner token loop of the ingestion: the surfaces that are not stopwords, in order. */
  method CollectTokens(surfaces: seq<string>, stopwords: set<string>) returns (tokens: seq<string>)
    ensures tokens == KeptTokens(surfaces, stopwords)
  {
    tokens := [];
    for j := 0 to |surfaces|
      invariant tokens == KeptTokens(surfaces[..j], stopwords)
    {
      var word := surfaces[j];
      assert surfaces[..j + 1][..j] == surfaces[..j];
      if word !in stopwords {
        tokens := tokens + [word];
      }
    }
    assert surfaces[..|surfaces|] == surfaces;
  }

  /** The body of the per-poem loop: the tuple inserted for one poem. */
  method PrepareOne(poem: Poem, tokenize: string -> seq<string>, stopwords: set<string>)
    returns (row: Columns)
    ensures row == PrepareRow(poem, tokenize, stopwords)
  {
    var text := poem.text.GetOr("");
    var source := poem.source.GetOr("");
    var location := poem.location.GetOr("");
    var age := poem.age.GetOr("");

    var tagsRaw := poem.tags.GetOr(TagList([]));
    var tagsList: seq<string>;
    if tagsRaw.OneTag? {
      tagsList := [tagsRaw.tag];
    } else {
      tagsList := tagsRaw.tags;
    }
    var tagsJson := Serialize(tagsList);

    // A tokenizer that raises ends the token loop after the surfaces it already produced:
    // `tokenize` gives those, the error is only logged, and the poem is still inserted.
    var tokens := CollectTokens(tokenize(text), stopwords);
    var tokensStr := Join(tokens);

    row := Columns(text, source, location, age, tagsJson, tokensStr);
    assert tagsList == NormalizeTags(poem.tags);
  }

  /** The per-poem loop of the ingestion: one tuple per poem, in input order. */
  method PrepareAll(poems: seq<Poem>, tokenize: string -> seq<string>, stopwords: set<string>)
    returns (data: seq<Columns>)
    ensures |data| == |poems|
    ensures forall i | 0 <= i < |poems| :: data[i] == PrepareRow(poems[i], tokenize, stopwords)
  {
    data := [];
    for i := 0 to |poems|
      invariant |data| == i
      invariant forall j | 0 <= j < i :: data[j] == PrepareRow(poems[j], tokenize, stopwords)
    {
      var row := PrepareOne(poems[i], tokenize, stopwords);
      ghost var before := data;
      data := data + [row];
      forall j | 0 <= j < i + 1 ensures data[j] == PrepareRow(poems[j], tokenize, stopwords) {
        if j < i {
          assert data[j] == before[j];
        }
      }
    }
  }

  /** The ingestion: the stopword set is built once, then every poem is prepared with it. */
  method InitDb(poems: seq<Poem>, tokenize: string -> seq<string>) returns (data: seq<Columns>)
    ensures |data| == |poems|
    ensures forall i | 0 <= i < |poems| :: data[i] == PrepareRow(poems[i], tokenize, Stopwords.Stopwords())
  {
    var stopwords := Stopwords.Stopwords();
    data := PrepareAll(poems, tokenize, stopwords);
  }
}
