/** The stopword set of the ingestion: the literals of `get_stopwords`, and the proof that
    they name 90 distinct words. */
module Stopwords {

  /** The list `get_stopwords` builds its set from, line by line and in its order; four words
      appear twice (も, だ, て, な). */
  function StopwordList(): seq<string>
  {
    ["あ", "い", "う", "え", "お", "か", "が", "き", "ぎ", "く", "ぐ", "け", "げ", "こ", "ご"]
    + ["さ", "ざ", "し", "じ", "す", "ず", "せ", "ぜ", "そ", "ぞ"]
    + ["た", "だ", "ち", "ぢ", "つ", "づ", "て", "で", "と", "ど"]
    + ["な", "に", "ぬ", "ね", "の"]
    + ["は", "ば", "ぱ", "ひ", "び", "ぴ", "ふ", "ぶ", "ぷ", "へ", "べ", "ぺ", "ほ", "ぼ", "ぽ"]
    + ["ま", "み", "む", "め", "も", "や", "ゆ", "よ", "ら", "り", "る", "れ", "ろ", "わ", "を", "ん"]
    + ["する", "れる", "いる", "ある", "なる", "これ", "それ", "です", "ます", "も", "だ"]
    + ["成る", "為る", "居る", "て", "な", "思う", "。", "、", "！", "？", ",", "から"]
  }

  /** `set(...)` of that list. */
  function Stopwords(): (words: set<string>)
    ensures |words| == 90
  {
    StopwordCount();
    set w | w in StopwordList()
  }

  /** The distinct stopwords in ascending code-point order, in runs of six. */
  function SortedStopwords(): seq<string>
  {
    Run0() + (Run1() + (Run2() + (Run3() + (Run4() + (Run5() + (Run6() + (Run7()
      + (Run8() + (Run9() + (Run10() + (Run11() + (Run12() + (Run13() + Run14())))))))))))))
  }

  /** `a` comes strictly before `b` in code-point order (a proper prefix comes first). */
  predicate Precedes(a: string, b: string)
  {
    if a == [] then b != []
    else b != [] && (a[0] < b[0] || (a[0] == b[0] && Precedes(a[1..], b[1..])))
  }

  lemma {:induction false} PrecedesIrreflexive(a: string)
    ensures !Precedes(a, a)
  {
    if a != [] {
      PrecedesIrreflexive(a[1..]);
    }
  }

  lemma {:induction false} PrecedesTransitive(a: string, b: string, c: string)
    requires Precedes(a, b) && Precedes(b, c)
    ensures Precedes(a, c)
    decreases |a|
  {
    if a != [] && a[0] == b[0] && b[0] == c[0] {
      PrecedesTransitive(a[1..], b[1..], c[1..]);
    }
  }

  /** Each element comes strictly before the next. */
  predicate Ascending(xs: seq<string>)
  {
    |xs| <= 1 || (Precedes(xs[0], xs[1]) && Ascending(xs[1..]))
  }

  lemma AscendingCons(x: string, xs: seq<string>)
    requires xs != [] && Precedes(x, xs[0]) && Ascending(xs)
    ensures Ascending([x] + xs)
  {
    assert ([x] + xs)[1..] == xs;
  }

  lemma {:induction false} AscendingAppend(a: seq<string>, b: seq<string>)
    requires a != [] && b != [] && Ascending(a) && Ascending(b) && Precedes(a[|a| - 1], b[0])
    ensures Ascending(a + b)
    decreases |a|
  {
    if |a| == 1 {
      AscendingCons(a[0], b);
      assert [a[0]] + b == a + b;
    } else {
      AscendingAppend(a[1..], b);
      assert a[1..] + b == (a + b)[1..];
    }
  }

  /** In an ascending list, the head comes before every later element. */
  lemma {:induction false} AscendingHead(xs: seq<string>)
    requires xs != [] && Ascending(xs)
    ensures forall k | 1 <= k < |xs| :: Precedes(xs[0], xs[k])
    decreases |xs|
  {
    if |xs| > 1 {
      AscendingHead(xs[1..]);
      forall k | 2 <= k < |xs| ensures Precedes(xs[0], xs[k]) {
        assert xs[k] == xs[1..][k - 1];
        PrecedesTransitive(xs[0], xs[1], xs[k]);
      }
    }
  }

  /** An ascending list has no repeated element, so its set is as large as the list. */
  lemma {:induction false} AscendingCard(xs: seq<string>)
    requires Ascending(xs)
    ensures |set w | w in xs| == |xs|
    decreases |xs|
  {
    if xs != [] {
      var tail := xs[1..];
      AscendingCard(tail);
      AscendingHead(xs);
      if xs[0] in tail {
        var k :| 0 <= k < |tail| && tail[k] == xs[0];
        assert xs[k + 1] == xs[0];
        PrecedesIrreflexive(xs[0]);
      }
      assert (set w | w in xs) == (set w | w in tail) + {xs[0]};
    }
  }

  /** The runs, each in ascending order and each below the next. */
  function Run0(): seq<string> { [",", "、", "。", "あ", "ある", "い"] }

  function Run1(): seq<string> { ["いる", "う", "え", "お", "か", "から"] }

  function Run2(): seq<string> { ["が", "き", "ぎ", "く", "ぐ", "け"] }

  function Run3(): seq<string> { ["げ", "こ", "これ", "ご", "さ", "ざ"] }

  function Run4(): seq<string> { ["し", "じ", "す", "する", "ず", "せ"] }

  function Run5(): seq<string> { ["ぜ", "そ", "それ", "ぞ", "た", "だ"] }

  function Run6(): seq<string> { ["ち", "ぢ", "つ", "づ", "て", "で"] }

  function Run7(): seq<string> { ["です", "と", "ど", "な", "なる", "に"] }

  function Run8(): seq<string> { ["ぬ", "ね", "の", "は", "ば", "ぱ"] }

  function Run9(): seq<string> { ["ひ", "び", "ぴ", "ふ", "ぶ", "ぷ"] }

  function Run10(): seq<string> { ["へ", "べ", "ぺ", "ほ", "ぼ", "ぽ"] }

  function Run11(): seq<string> { ["ま", "ます", "み", "む", "め", "も"] }

  function Run12(): seq<string> { ["や", "ゆ", "よ", "ら", "り", "る"] }

  function Run13(): seq<string> { ["れ", "れる", "ろ", "わ", "を", "ん"] }

  function Run14(): seq<string> { ["居る", "思う", "成る", "為る", "！", "？"] }

  /** Each run is ascending, checked one neighbouring pair at a time. */
  lemma AscendingRun0()
    ensures Ascending(Run0())
  {
    var run := ["い"];
    AscendingCons("ある", run); run := ["ある"] + run;
    AscendingCons("あ", run); run := ["あ"] + run;
    AscendingCons("。", run); run := ["。"] + run;
    AscendingCons("、", run); run := ["、"] + run;
    AscendingCons(",", run); run := [","] + run;
  }

  lemma AscendingRun1()
    ensures Ascending(Run1())
  {
    var run := ["から"];
    AscendingCons("か", run); run := ["か"] + run;
    AscendingCons("お", run); run := ["お"] + run;
    AscendingCons("え", run); run := ["え"] + run;
    AscendingCons("う", run); run := ["う"] + run;
    AscendingCons("いる", run); run := ["いる"] + run;
  }

  lemma AscendingRun2()
    ensures Ascending(Run2())
  {
    var run := ["け"];
    AscendingCons("ぐ", run); run := ["ぐ"] + run;
    AscendingCons("く", run); run := ["く"] + run;
    AscendingCons("ぎ", run); run := ["ぎ"] + run;
    AscendingCons("き", run); run := ["き"] + run;
    AscendingCons("が", run); run := ["が"] + run;
  }

  lemma AscendingRun3()
    ensures Ascending(Run3())
  {
    var run := ["ざ"];
    AscendingCons("さ", run); run := ["さ"] + run;
    AscendingCons("ご", run); run := ["ご"] + run;
    AscendingCons("これ", run); run := ["これ"] + run;
    AscendingCons("こ", run); run := ["こ"] + run;
    AscendingCons("げ", run); run := ["げ"] + run;
  }

  lemma AscendingRun4()
    ensures Ascending(Run4())
  {
    var run := ["せ"];
    AscendingCons("ず", run); run := ["ず"] + run;
    AscendingCons("する", run); run := ["する"] + run;
    AscendingCons("す", run); run := ["す"] + run;
    AscendingCons("じ", run); run := ["じ"] + run;
    AscendingCons("し", run); run := ["し"] + run;
  }

  lemma AscendingRun5()
    ensures Ascending(Run5())
  {
    var run := ["だ"];
    AscendingCons("た", run); run := ["た"] + run;
    AscendingCons("ぞ", run); run := ["ぞ"] + run;
    AscendingCons("それ", run); run := ["それ"] + run;
    AscendingCons("そ", run); run := ["そ"] + run;
    AscendingCons("ぜ", run); run := ["ぜ"] + run;
  }

  lemma AscendingRun6()
    ensures Ascending(Run6())
  {
    var run := ["で"];
    AscendingCons("て", run); run := ["て"] + run;
    AscendingCons("づ", run); run := ["づ"] + run;
    AscendingCons("つ", run); run := ["つ"] + run;
    AscendingCons("ぢ", run); run := ["ぢ"] + run;
    AscendingCons("ち", run); run := ["ち"] + run;
  }

  lemma AscendingRun7()
    ensures Ascending(Run7())
  {
    var run := ["に"];
    AscendingCons("なる", run); run := ["なる"] + run;
    AscendingCons("な", run); run := ["な"] + run;
    AscendingCons("ど", run); run := ["ど"] + run;
    AscendingCons("と", run); run := ["と"] + run;
    AscendingCons("です", run); run := ["です"] + run;
  }

  lemma AscendingRun8()
    ensures Ascending(Run8())
  {
    var run := ["ぱ"];
    AscendingCons("ば", run); run := ["ば"] + run;
    AscendingCons("は", run); run := ["は"] + run;
    AscendingCons("の", run); run := ["の"] + run;
    AscendingCons("ね", run); run := ["ね"] + run;
    AscendingCons("ぬ", run); run := ["ぬ"] + run;
  }

  lemma AscendingRun9()
    ensures Ascending(Run9())
  {
    var run := ["ぷ"];
    AscendingCons("ぶ", run); run := ["ぶ"] + run;
    AscendingCons("ふ", run); run := ["ふ"] + run;
    AscendingCons("ぴ", run); run := ["ぴ"] + run;
    AscendingCons("び", run); run := ["び"] + run;
    AscendingCons("ひ", run); run := ["ひ"] + run;
  }

  lemma AscendingRun10()
    ensures Ascending(Run10())
  {
    var run := ["ぽ"];
    AscendingCons("ぼ", run); run := ["ぼ"] + run;
    AscendingCons("ほ", run); run := ["ほ"] + run;
    AscendingCons("ぺ", run); run := ["ぺ"] + run;
    AscendingCons("べ", run); run := ["べ"] + run;
    AscendingCons("へ", run); run := ["へ"] + run;
  }

  lemma AscendingRun11()
    ensures Ascending(Run11())
  {
    var run := ["も"];
    AscendingCons("め", run); run := ["め"] + run;
    AscendingCons("む", run); run := ["む"] + run;
    AscendingCons("み", run); run := ["み"] + run;
    AscendingCons("ます", run); run := ["ます"] + run;
    AscendingCons("ま", run); run := ["ま"] + run;
  }

  lemma AscendingRun12()
    ensures Ascending(Run12())
  {
    var run := ["る"];
    AscendingCons("り", run); run := ["り"] + run;
    AscendingCons("ら", run); run := ["ら"] + run;
    AscendingCons("よ", run); run := ["よ"] + run;
    AscendingCons("ゆ", run); run := ["ゆ"] + run;
    AscendingCons("や", run); run := ["や"] + run;
  }

  lemma AscendingRun13()
    ensures Ascending(Run13())
  {
    var run := ["ん"];
    AscendingCons("を", run); run := ["を"] + run;
    AscendingCons("わ", run); run := ["わ"] + run;
    AscendingCons("ろ", run); run := ["ろ"] + run;
    AscendingCons("れる", run); run := ["れる"] + run;
    AscendingCons("れ", run); run := ["れ"] + run;
  }

  lemma AscendingRun14()
    ensures Ascending(Run14())
  {
    var run := ["？"];
    AscendingCons("！", run); run := ["！"] + run;
    AscendingCons("為る", run); run := ["為る"] + run;
    AscendingCons("成る", run); run := ["成る"] + run;
    AscendingCons("思う", run); run := ["思う"] + run;
    AscendingCons("居る", run); run := ["居る"] + run;
  }

  /** The runs from the k-th on, joined, are ascending. */
  lemma AscendingFrom14()
    ensures Ascending(Run14())
  {
    AscendingRun14();
  }

  lemma AscendingFrom13()
    ensures Ascending(Run13() + Run14())
  {
    AscendingRun13();
    AscendingFrom14();
    AscendingAppend(Run13(), Run14());
  }

  lemma AscendingFrom12()
    ensures Ascending(Run12() + (Run13() + Run14()))
  {
    AscendingRun12();
    AscendingFrom13();
    AscendingAppend(Run12(), Run13() + Run14());
  }

  lemma AscendingFrom11()
    ensures Ascending(Run11() + (Run12() + (Run13() + Run14())))
  {
    AscendingRun11();
    AscendingFrom12();
    AscendingAppend(Run11(), Run12() + (Run13() + Run14()));
  }

  lemma AscendingFrom10()
    ensures Ascending(Run10() + (Run11() + (Run12() + (Run13() + Run14()))))
  {
    AscendingRun10();
    AscendingFrom11();
    AscendingAppend(Run10(), Run11() + (Run12() + (Run13() + Run14())));
  }

  lemma AscendingFrom9()
    ensures Ascending(Run9() + (Run10() + (Run11() + (Run12() + (Run13() + Run14())))))
  {
    AscendingRun9();
    AscendingFrom10();
    AscendingAppend(Run9(), Run10() + (Run11() + (Run12() + (Run13() + Run14()))));
  }

  lemma AscendingFrom8()
    ensures Ascending(Run8() + (Run9() + (Run10() + (Run11() + (Run12() + (Run13() + Run14()))))))
  {
    AscendingRun8();
    AscendingFrom9();
    AscendingAppend(Run8(), Run9() + (Run10() + (Run11() + (Run12() + (Run13() + Run14())))));
  }

  lemma AscendingFrom7()
    ensures Ascending(Run7() + (Run8() + (Run9() + (Run10() + (Run11() + (Run12() + (Run13() + Run14())))))))
  {
    AscendingRun7();
    AscendingFrom8();
    AscendingAppend(Run7(), Run8() + (Run9() + (Run10() + (Run11() + (Run12() + (Run13() + Run14()))))));
  }

  lemma AscendingFrom6()
    ensures Ascending(Run6() + (Run7() + (Run8() + (Run9() + (Run10() + (Run11() + (Run12() + (Run13() + Run14()))))))))
  {
    AscendingRun6();
    AscendingFrom7();
    AscendingAppend(Run6(), Run7() + (Run8() + (Run9() + (Run10() + (Run11() + (Run12() + (Run13() + Run14())))))));
  }

  lemma AscendingFrom5()
    ensures Ascending(Run5() + (Run6() + (Run7() + (Run8() + (Run9() + (Run10() + (Run11() + (Run12() + (Run13() + Run14())))))))))
  {
    AscendingRun5();
    AscendingFrom6();
    AscendingAppend(Run5(), Run6() + (Run7() + (Run8() + (Run9() + (Run10() + (Run11() + (Run12() + (Run13() + Run14()))))))));
  }

  lemma AscendingFrom4()
    ensures Ascending(Run4() + (Run5() + (Run6() + (Run7() + (Run8() + (Run9() + (Run10() + (Run11() + (Run12() + (Run13() + Run14()))))))))))
  {
    AscendingRun4();
    AscendingFrom5();
    AscendingAppend(Run4(), Run5() + (Run6() + (Run7() + (Run8() + (Run9() + (Run10() + (Run11() + (Run12() + (Run13() + Run14())))))))));
  }

  lemma AscendingFrom3()
    ensures Ascending(Run3() + (Run4() + (Run5() + (Run6() + (Run7() + (Run8() + (Run9() + (Run10() + (Run11() + (Run12() + (Run13() + Run14())))))))))))
  {
    AscendingRun3();
    AscendingFrom4();
    AscendingAppend(Run3(), Run4() + (Run5() + (Run6() + (Run7() + (Run8() + (Run9() + (Run10() + (Run11() + (Run12() + (Run13() + Run14()))))))))));
  }

  lemma AscendingFrom2()
    ensures Ascending(Run2() + (Run3() + (Run4() + (Run5() + (Run6() + (Run7() + (Run8() + (Run9() + (Run10() + (Run11() + (Run12() + (Run13() + Run14()))))))))))))
  {
    AscendingRun2();
    AscendingFrom3();
    AscendingAppend(Run2(), Run3() + (Run4() + (Run5() + (Run6() + (Run7() + (Run8() + (Run9() + (Run10() + (Run11() + (Run12() + (Run13() + Run14())))))))))));
  }

  lemma AscendingFrom1()
    ensures Ascending(Run1() + (Run2() + (Run3() + (Run4() + (Run5() + (Run6() + (Run7() + (Run8() + (Run9() + (Run10() + (Run11() + (Run12() + (Run13() + Run14())))))))))))))
  {
    AscendingRun1();
    AscendingFrom2();
    AscendingAppend(Run1(), Run2() + (Run3() + (Run4() + (Run5() + (Run6() + (Run7() + (Run8() + (Run9() + (Run10() + (Run11() + (Run12() + (Run13() + Run14()))))))))))));
  }

  lemma AscendingFrom0()
    ensures Ascending(Run0() + (Run1() + (Run2() + (Run3() + (Run4() + (Run5() + (Run6() + (Run7() + (Run8() + (Run9() + (Run10() + (Run11() + (Run12() + (Run13() + Run14()))))))))))))))
  {
    AscendingRun0();
    AscendingFrom1();
    AscendingAppend(Run0(), Run1() + (Run2() + (Run3() + (Run4() + (Run5() + (Run6() + (Run7() + (Run8() + (Run9() + (Run10() + (Run11() + (Run12() + (Run13() + Run14())))))))))))));
  }

  /** Every word of each line of the literal list is among the sorted words, and back. */
  lemma LineSorted0()
    ensures forall w | w in ["あ", "い", "う", "え", "お", "か", "が", "き", "ぎ", "く", "ぐ", "け", "げ", "こ", "ご"] :: w in SortedStopwords()
  {
  }

  lemma LineSorted1()
    ensures forall w | w in ["さ", "ざ", "し", "じ", "す", "ず", "せ", "ぜ", "そ", "ぞ"] :: w in SortedStopwords()
  {
  }

  lemma LineSorted2()
    ensures forall w | w in ["た", "だ", "ち", "ぢ", "つ", "づ", "て", "で", "と", "ど"] :: w in SortedStopwords()
  {
  }

  lemma LineSorted3()
    ensures forall w | w in ["な", "に", "ぬ", "ね", "の"] :: w in SortedStopwords()
  {
  }

  lemma LineSorted4()
    ensures forall w | w in ["は", "ば", "ぱ", "ひ", "び", "ぴ", "ふ", "ぶ", "ぷ", "へ", "べ", "ぺ", "ほ", "ぼ", "ぽ"] :: w in SortedStopwords()
  {
  }

  lemma LineSorted5()
    ensures forall w | w in ["ま", "み", "む", "め", "も", "や", "ゆ", "よ", "ら", "り", "る", "れ", "ろ", "わ", "を", "ん"] :: w in SortedStopwords()
  {
  }

  lemma LineSorted6()
    ensures forall w | w in ["する", "れる", "いる", "ある", "なる", "これ", "それ", "です", "ます", "も", "だ"] :: w in SortedStopwords()
  {
  }

  lemma LineSorted7()
    ensures forall w | w in ["成る", "為る", "居る", "て", "な", "思う", "。", "、", "！", "？", ",", "から"] :: w in SortedStopwords()
  {
  }

  lemma RunListed0()
    ensures forall w | w in Run0() :: w in StopwordList()
  {
  }

  lemma RunListed1()
    ensures forall w | w in Run1() :: w in StopwordList()
  {
  }

  lemma RunListed2()
    ensures forall w | w in Run2() :: w in StopwordList()
  {
  }

  lemma RunListed3()
    ensures forall w | w in Run3() :: w in StopwordList()
  {
  }

  lemma RunListed4()
    ensures forall w | w in Run4() :: w in StopwordList()
  {
  }

  lemma RunListed5()
    ensures forall w | w in Run5() :: w in StopwordList()
  {
  }

  lemma RunListed6()
    ensures forall w | w in Run6() :: w in StopwordList()
  {
  }

  lemma RunListed7()
    ensures forall w | w in Run7() :: w in StopwordList()
  {
  }

  lemma RunListed8()
    ensures forall w | w in Run8() :: w in StopwordList()
  {
  }

  lemma RunListed9()
    ensures forall w | w in Run9() :: w in StopwordList()
  {
  }

  lemma RunListed10()
    ensures forall w | w in Run10() :: w in StopwordList()
  {
  }

  lemma RunListed11()
    ensures forall w | w in Run11() :: w in StopwordList()
  {
  }

  lemma RunListed12()
    ensures forall w | w in Run12() :: w in StopwordList()
  {
  }

  lemma RunListed13()
    ensures forall w | w in Run13() :: w in StopwordList()
  {
  }

  lemma RunListed14()
    ensures forall w | w in Run14() :: w in StopwordList()
  {
  }

  /** The literal list and the sorted list name the same words. */
  lemma SameWords()
    ensures (set w | w in StopwordList()) == (set w | w in SortedStopwords())
  {
    LineSorted0();
    LineSorted1();
    LineSorted2();
    LineSorted3();
    LineSorted4();
    LineSorted5();
    LineSorted6();
    LineSorted7();
    RunListed0();
    RunListed1();
    RunListed2();
    RunListed3();
    RunListed4();
    RunListed5();
    RunListed6();
    RunListed7();
    RunListed8();
    RunListed9();
    RunListed10();
    RunListed11();
    RunListed12();
    RunListed13();
    RunListed14();
  }

  /** The literal list names exactly 90 distinct words. */
  lemma StopwordCount()
    ensures |set w | w in StopwordList()| == 90
  {
    SameWords();
    AscendingFrom0();
    AscendingCard(SortedStopwords());
  }
}
