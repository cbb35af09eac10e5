/** The JSON text a poem's tag list is stored as: `json.dumps(tags, ensure_ascii=False)` on the
    writing side, `json.loads` on the reading side (RFC 8259, sections 5 and 7). Only arrays of
    strings are modelled, and the reader accepts the layout the writer produces. */
module TagJson {
  import opened Wrappers
  import opened Text

  /** The lower-case hexadecimal digit for `d`. */
  function HexDigit(d: nat): (ch: char)
    requires d < 16
    ensures HexValue(ch) == Some(d)
  {
    if d < 10 then ('0' as int + d) as char else ('a' as int + d - 10) as char
  }

  /** The value of a hexadecimal digit of either case. */
  function HexValue(ch: char): (r: Option<nat>)
    ensures r.Some? ==> r.value < 16
  {
    if '0' <= ch <= '9' then Some(ch as int - '0' as int)
    else if 'a' <= ch <= 'f' then Some(ch as int - 'a' as int + 10)
    else if 'A' <= ch <= 'F' then Some(ch as int - 'A' as int + 10)
    else None
  }

  /** The characters the writer must escape inside a string: the quote, the backslash
      and the control characters below U+0020. */
  predicate NeedsEscape(ch: char)
  {
    ch == '"' || ch == '\\' || ch < ' '
  }

  /** How the writer renders one character of a string; with `ensure_ascii=False`, every
      character from U+0020 on other than the quote and the backslash is written as itself. */
  function EscapeChar(ch: char): string
  {
    if ch == '"' then ['\\', '"']
    else if ch == '\\' then ['\\', '\\']
    else if ch == '\n' then ['\\', 'n']
    else if ch == '\r' then ['\\', 'r']
    else if ch == '\t' then ['\\', 't']
    else if ch == '\U{8}' then ['\\', 'b']
    else if ch == '\U{C}' then ['\\', 'f']
    else if ch < ' ' then ['\\', 'u', '0', '0', HexDigit(ch as int / 16), HexDigit(ch as int % 16)]
    else [ch]
  }

  function Escape(s: string): string
  {
    if s == [] then [] else EscapeChar(s[0]) + Escape(s[1..])
  }

  /** One string as a JSON string literal. */
  function Quote(s: string): string
  {
    ['"'] + Escape(s) + ['"']
  }

  /** The array elements, separated by `", "` (the writer's default item separator). */
  function Items(tags: seq<string>): string
  {
    if tags == [] then ""
    else if |tags| == 1 then Quote(tags[0])
    else Quote(tags[0]) + ", " + Items(tags[1..])
  }

  /** `json.dumps(tags, ensure_ascii=False)` for a list of strings: a bracketed text that is
      the empty array exactly for the empty list. */
  function Serialize(tags: seq<string>): (r: string)
    ensures |r| >= 2 && r[0] == '[' && r[|r| - 1] == ']'
    ensures r == "[]" <==> tags == []
  {
    "[" + Items(tags) + "]"
  }

  /** The character a backslash escape stands for, and how many characters after the
      backslash it occupies. */
  function Unescape(s: string): (r: Option<(char, nat)>)
    ensures r.Some? ==> 1 <= r.value.1 <= |s|
  {
    if s == [] then None
    else if s[0] == '"' then Some(('"', 1))
    else if s[0] == '\\' then Some(('\\', 1))
    else if s[0] == '/' then Some(('/', 1))
    else if s[0] == 'b' then Some(('\U{8}', 1))
    else if s[0] == 'f' then Some(('\U{C}', 1))
    else if s[0] == 'n' then Some(('\n', 1))
    else if s[0] == 'r' then Some(('\r', 1))
    else if s[0] == 't' then Some(('\t', 1))
    else if s[0] == 'u' && |s| >= 5 then
      match (HexValue(s[1]), HexValue(s[2]), HexValue(s[3]), HexValue(s[4]))
      case (Some(a), Some(b), Some(c), Some(d)) =>
        var code := ((a * 16 + b) * 16 + c) * 16 + d;
        if code < 0xD800 || 0xE000 <= code then Some((code as char, 5)) else None
      case _ => None
    else None
  }

  /** Reads the body of a string literal whose opening quote is already consumed; gives the
      string and what follows its closing quote. Raw control characters are refused, as the
      strict reader does. */
  function ParseChars(s: string): (r: Option<(string, string)>)
    ensures r.Some? ==> |r.value.1| < |s|
    decreases |s|
  {
    if s == [] then None
    else if s[0] == '"' then Some(("", s[1..]))
    else if s[0] == '\\' then
      match Unescape(s[1..])
      case None => None
      case Some((ch, n)) =>
        match ParseChars(s[1 + n..])
        case None => None
        case Some((t, rest)) => Some(([ch] + t, rest))
    else if s[0] < ' ' then None
    else
      match ParseChars(s[1..])
      case None => None
      case Some((t, rest)) => Some(([s[0]] + t, rest))
  }

  /** Reads one or more array elements followed by the closing bracket and the end of input. */
  function ParseItems(s: string): (r: Option<seq<string>>)
    ensures r.Some? ==> r.value != []
    decreases |s|, 1
  {
    if s == [] || s[0] != '"' then None
    else
      match ParseChars(s[1..])
      case None => None
      case Some((item, rest)) => ParseAfterItem(item, rest)
  }

  /** After an element: either the closing bracket ends the array, or `", "` leads to more. */
  function ParseAfterItem(item: string, rest: string): (r: Option<seq<string>>)
    ensures r.Some? ==> r.value != [] && r.value[0] == item
    decreases |rest|, 0
  {
    if rest == "]" then Some([item])
    else if |rest| >= 2 && rest[..2] == ", " then
      match ParseItems(rest[2..])
      case None => None
      case Some(items) => Some([item] + items)
    else None
  }

  /** `json.loads` for the stored tag text: `None` where the reader would raise. Only a text
      opening with `[` reads as a list, and only `[]` as the empty list. */
  function Deserialize(s: string): (r: Option<seq<string>>)
    ensures r.Some? ==> |s| >= 2 && s[0] == '['
    ensures r == Some([]) <==> s == "[]"
  {
    if s == "[]" then Some([])
    else if |s| >= 2 && s[0] == '[' then ParseItems(s[1..])
    else None
  }

  lemma UnescapeChar(ch: char, tail: string)
    requires NeedsEscape(ch)
    ensures |EscapeChar(ch)| >= 2 && EscapeChar(ch)[0] == '\\'
    ensures Unescape(EscapeChar(ch)[1..] + tail) == Some((ch, |EscapeChar(ch)| - 1))
  {
    var e := EscapeChar(ch)[1..] + tail;
    if ch < ' ' && ch !in {'\n', '\r', '\t', '\U{8}', '\U{C}'} {
      var hi, lo := ch as int / 16, ch as int % 16;
      assert e[..5] == ['u', '0', '0', HexDigit(hi), HexDigit(lo)];
      assert ((0 * 16 + 0) * 16 + hi) * 16 + lo == ch as int;
    }
  }

  /** Reading one rendered character in front of an already readable remainder. */
  lemma ParseCharStep(ch: char, tail: string, t: string, rest: string)
    requires ParseChars(tail) == Some((t, rest))
    ensures ParseChars(EscapeChar(ch) + tail) == Some(([ch] + t, rest))
  {
    var e := EscapeChar(ch);
    var input := e + tail;
    if NeedsEscape(ch) {
      UnescapeChar(ch, tail);
      assert input[1..] == e[1..] + tail;
      assert input[1 + (|e| - 1)..] == tail;
    } else {
      assert input[1..] == tail;
    }
  }

  lemma {:induction false} ParseEscaped(s: string, rest: string)
    ensures ParseChars(Escape(s) + ['"'] + rest) == Some((s, rest))
    decreases |s|
  {
    if s == [] {
      assert Escape(s) + ['"'] + rest == ['"'] + rest;
    } else {
      var tail := Escape(s[1..]) + ['"'] + rest;
      assert Escape(s) + ['"'] + rest == EscapeChar(s[0]) + tail;
      ParseEscaped(s[1..], rest);
      ParseCharStep(s[0], tail, s[1..], rest);
      assert [s[0]] + s[1..] == s;
    }
  }

  lemma ParseLastItem(q: string)
    ensures ParseItems(Quote(q) + "]") == Some([q])
  {
    var input := Quote(q) + "]";
    assert input[1..] == Escape(q) + ['"'] + "]";
    ParseEscaped(q, "]");
  }

  lemma ParseNextItem(q: string, more: string, items: seq<string>)
    requires ParseItems(more) == Some(items)
    ensures ParseItems(Quote(q) + ", " + more) == Some([q] + items)
  {
    assert more != [];
    var tail := ", " + more;
    var input := Quote(q) + tail;
    assert input[0] == '"';
    assert input[1..] == Escape(q) + ['"'] + tail;
    ParseEscaped(q, tail);
    assert |tail| >= 3 && tail[..2] == ", " && tail[2..] == more;
    assert ParseAfterItem(q, tail) == Some([q] + items);
    assert ParseItems(input) == Some([q] + items);
    assert input == Quote(q) + ", " + more;
  }

  lemma {:induction false} ParseItemsRoundTrip(tags: seq<string>)
    requires tags != []
    ensures ParseItems(Items(tags) + "]") == Some(tags)
    decreases |tags|
  {
    if |tags| == 1 {
      ParseLastItem(tags[0]);
      assert tags == [tags[0]];
    } else {
      ParseItemsRoundTrip(tags[1..]);
      ParseNextItem(tags[0], Items(tags[1..]) + "]", tags[1..]);
      assert Items(tags) + "]" == Quote(tags[0]) + ", " + (Items(tags[1..]) + "]");
      assert [tags[0]] + tags[1..] == tags;
    }
  }

  /** What the writer stores, the reader gives back unchanged. */
  lemma RoundTrip(tags: seq<string>)
    ensures Deserialize(Serialize(tags)) == Some(tags)
  {
    var s := Serialize(tags);
    if tags != [] {
      assert |Items(tags)| > 0;
      assert s != "[]";
      assert s[1..] == Items(tags) + "]";
      ParseItemsRoundTrip(tags);
    }
  }

  lemma {:induction false} EscapeAppend(a: string, b: string)
    ensures Escape(a + b) == Escape(a) + Escape(b)
    decreases |a|
  {
    if a != [] {
      assert (a + b)[1..] == a[1..] + b;
      EscapeAppend(a[1..], b);
    } else {
      assert a + b == b;
    }
  }

  lemma {:induction false} EscapePlain(t: string)
    requires forall k | 0 <= k < |t| :: !NeedsEscape(t[k])
    ensures Escape(t) == t
    decreases |t|
  {
    if t != [] {
      EscapePlain(t[1..]);
      assert [t[0]] + t[1..] == t;
    }
  }

  /** Every element appears, quoted, in the rendered element list. */
  lemma {:induction false} ItemsContainQuote(tags: seq<string>, i: nat)
    requires i < |tags|
    ensures Contains(Items(tags), Quote(tags[i]))
    decreases i
  {
    if |tags| == 1 {
      ContainsInfix("", Quote(tags[0]), "");
      assert "" + Quote(tags[0]) + "" == Items(tags);
    } else if i == 0 {
      ContainsInfix("", Quote(tags[0]), ", " + Items(tags[1..]));
      assert "" + Quote(tags[0]) + (", " + Items(tags[1..])) == Items(tags);
    } else {
      ItemsContainQuote(tags[1..], i - 1);
      ContainsInfix(Quote(tags[0]) + ", ", Items(tags[1..]), "");
      assert Quote(tags[0]) + ", " + Items(tags[1..]) + "" == Items(tags);
      ContainsTransitive(Items(tags), Items(tags[1..]), Quote(tags[i]));
    }
  }

  lemma QuoteContainsFragment(tag: string, t: string)
    requires Contains(tag, t)
    requires forall k | 0 <= k < |t| :: !NeedsEscape(t[k])
    ensures Contains(Quote(tag), t)
  {
    var j: nat :| j <= |tag| - |t| && OccursAt(tag, t, j);
    var a, b := tag[..j], tag[j + |t|..];
    assert tag == a + t + b;
    EscapeAppend(a + t, b);
    EscapeAppend(a, t);
    EscapePlain(t);
    assert Quote(tag) == (['"'] + Escape(a)) + t + (Escape(b) + ['"']);
    ContainsInfix(['"'] + Escape(a), t, Escape(b) + ['"']);
  }

  /** A filter text without quote, backslash or control characters that occurs inside any one
      tag also occurs in the stored JSON text, so a LIKE match on that text never misses a
      record carrying such a tag, whole or as a fragment. */
  lemma TagFragmentInSerialized(tags: seq<string>, i: nat, t: string)
    requires i < |tags| && Contains(tags[i], t)
    requires forall k | 0 <= k < |t| :: !NeedsEscape(t[k])
    ensures Contains(Serialize(tags), t)
  {
    QuoteContainsFragment(tags[i], t);
    ItemsContainQuote(tags, i);
    ContainsInfix("[", Items(tags), "]");
    ContainsTransitive(Serialize(tags), Items(tags), Quote(tags[i]));
    ContainsTransitive(Serialize(tags), Quote(tags[i]), t);
  }
}
