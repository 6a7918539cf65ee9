/** Exactly which settings travel through a constructed URL unchanged, and what the other characters do. */
module UrlExactness {
  import opened Wrappers
  import opened Text
  import opened JobInformation
  import opened Url

  // ----- One piece -----------------------------------------------------------------------------------

  lemma {:induction false} UnescapeShortens(s: string)
    ensures Unescape(s).Some? ==> |Unescape(s).value| <= |s|
    ensures Unescape(s).Some? && '%' in s ==> |Unescape(s).value| < |s|
  {
    if s != [] {
      if s[0] == '%' {
        if |s| >= 3 { UnescapeShortens(s[3..]); }
      } else {
        UnescapeShortens(s[1..]);
        assert s == [s[0]] + s[1..];
      }
    }
  }

  lemma {:induction false} UnescapeSpace(s: string, i: nat)
    requires i < |s| && s[i] == '+' && '%' !in s
    ensures Unescape(s) != Some(s)
  {
    assert s[0] != '%';
    if i > 0 {
      assert s[1..][i - 1] == '+';
      UnescapeSpace(s[1..], i - 1);
    }
  }

  lemma {:induction false} UnescapeWithout(s: string)
    requires '%' !in s && '+' !in s
    ensures Unescape(s) == Some(s)
  {
    if s != [] {
      assert s[0] in s;
      UnescapeWithout(s[1..]);
      assert s == [s[0]] + s[1..];
    }
  }

  /** A piece carries its value unchanged exactly when the value has none of the three characters with a meaning inside
      a piece. */
  lemma PieceCarries(key: string, value: string)
    requires PlainKey(key)
    ensures ParsePiece(Piece(Entry(key, value))) == Some(Entry(key, value)) <==>
            '%' !in value && '+' !in value && ';' !in value
  {
    var e := Entry(key, value);
    var p := Piece(e);
    IndexOfAfter(key, "=", value);
    assert p[..|key|] == key && p[|key| + 1..] == value;
    UnescapePlain(key);
    SpacedWithout(key);
    if ';' in value {
      var i :| 0 <= i < |value| && value[i] == ';';
      assert p[|key| + 1 + i] == ';';
    } else {
      forall i | 0 <= i < |p| ensures p[i] != ';' {
        if i < |key| { assert p[i] == key[i] && IsPlain(key[i]); }
        else if i > |key| { assert p[i] == value[i - |key| - 1]; }
      }
      if '%' in value {
        UnescapeShortens(value);
      } else if '+' in value {
        var i :| 0 <= i < |value| && value[i] == '+';
        UnescapeSpace(value, i);
      } else {
        UnescapeWithout(value);
      }
    }
  }

  // ----- Queries, piece by piece -----------------------------------------------------------------------

  function HexDigit(d: nat): char
    requires d < 16
  {
    if d < 10 then '0' + d as char else 'A' + (d - 10) as char
  }

  /** One escaped character. */
  function EscapeOne(c: char): string
    requires c < '\U{100}'
  {
    ['%', HexDigit(c as nat / 16), HexDigit(c as nat % 16)]
  }

  /** Percent-encoding of every character of a text of Latin-1. */
  function Escape(s: string): string
    requires AllOf(s, c => c < '\U{100}')
  {
    if s == [] then [] else EscapeOne(s[0]) + Escape(s[1..])
  }

  lemma HexDigitIsRead(d: nat)
    requires d < 16
    ensures IsHex(HexDigit(d)) && HexValue(HexDigit(d)) == d && IsPlain(HexDigit(d))
  {
  }

  lemma UnescapeFirst(h: char, l: char, rest: string, c: char)
    requires IsHex(h) && IsHex(l) && 16 * HexValue(h) + HexValue(l) == c as nat && Unescape(rest).Some?
    ensures Unescape(['%', h, l] + rest) == Some([c] + Unescape(rest).value)
  {
    assert (['%', h, l] + rest)[3..] == rest;
  }

  lemma UnescapeOne(c: char, rest: string)
    requires c < '\U{100}' && Unescape(rest).Some?
    ensures Unescape(EscapeOne(c) + rest) == Some([c] + Unescape(rest).value)
  {
    var n := c as nat;
    HexDigitIsRead(n / 16);
    HexDigitIsRead(n % 16);
    UnescapeFirst(HexDigit(n / 16), HexDigit(n % 16), rest, c);
  }

  lemma {:induction false} UnescapeEscaped(s: string)
    requires AllOf(s, c => c < '\U{100}')
    ensures Unescape(Escape(s)) == Some(s)
  {
    if s != [] {
      UnescapeEscaped(s[1..]);
      UnescapeOne(s[0], Escape(s[1..]));
      assert s == [s[0]] + s[1..];
    }
  }

  lemma {:induction false} EscapedIsPlain(s: string)
    requires AllOf(s, c => c < '\U{100}')
    ensures AllOf(Escape(s), c => c !in "&#;")
  {
    if s != [] {
      var first, rest := EscapeOne(s[0]), Escape(s[1..]);
      EscapedIsPlain(s[1..]);
      HexDigitIsRead(s[0] as nat / 16);
      HexDigitIsRead(s[0] as nat % 16);
      forall i | 0 <= i < |first + rest| ensures (first + rest)[i] !in "&#;" {
        if i >= 3 { assert (first + rest)[i] == rest[i - 3]; }
        else { assert first[i] == '%' || IsPlain(first[i]); }
      }
    }
  }

  /** Escaped, a value stays in one piece and arrives, whatever characters it has. */
  lemma EscapedPieceCarries(key: string, value: string)
    requires PlainKey(key) && AllOf(value, c => c < '\U{100}')
    ensures var p := Piece(Entry(key, Escape(value)));
      ParsePiece(p) == Some(Entry(key, value)) && AllOf(p, c => c !in "&#;")
  {
    var p := Piece(Entry(key, Escape(value)));
    IndexOfAfter(key, "=", Escape(value));
    assert p[..|key|] == key && p[|key| + 1..] == Escape(value);
    UnescapePlain(key);
    SpacedWithout(key);
    UnescapeEscaped(value);
    EscapedIsPlain(value);
    forall i | 0 <= i < |p| ensures p[i] !in "&#;" {
      if i < |key| { assert p[i] == key[i] && IsPlain(key[i]); }
      else if i > |key| { assert p[i] == Escape(value)[i - |key| - 1]; }
    }
  }

  lemma Regroup<T>(x: seq<T>, y: seq<T>, z: seq<T>)
    ensures (x + y) + z == x + (y + z)
  {
  }

  lemma MoveCut(x: string, y: string, b: string)
    ensures x + "&" + y + "&" + b == x + "&" + (y + "&" + b)
  {
  }

  lemma {:induction false} SplitBoth(a: string, b: string)
    ensures Split(a + "&" + b, "&") == Split(a, "&") + Split(b, "&")
    decreases |a|
  {
    if '&' in a {
      var x, y := FirstOccurrenceOf(a, '&');
      SplitBoth(y, b);
      SplitAfter(x, "&", y);
      SplitAfter(x, "&", y + "&" + b);
      Regroup([x], Split(y, "&"), Split(b, "&"));
      MoveCut(x, y, b);
    } else {
      SplitNone(a, "&");
      SplitAfter(a, "&", b);
    }
  }

  lemma {:induction false} ParseBoth(xs: seq<string>, ys: seq<string>)
    ensures ParsePieces(xs + ys) == ParsePieces(xs) + ParsePieces(ys)
  {
    if xs == [] {
      assert xs + ys == ys;
    } else {
      ParseBoth(xs[1..], ys);
      assert (xs + ys)[1..] == xs[1..] + ys;
      Regroup(Found(xs[0]), ParsePieces(xs[1..]), ParsePieces(ys));
    }
  }

  lemma QueryBoth(a: string, b: string)
    ensures ParseQuery(a + "&" + b) == ParseQuery(a) + ParseQuery(b)
  {
    SplitBoth(a, b);
    ParseBoth(Split(a, "&"), Split(b, "&"));
  }

  lemma QueryOfPiece(piece: string)
    requires '&' !in piece
    ensures ParseQuery(piece) == Found(piece)
  {
    SplitNone(piece, "&");
    assert ParsePieces([piece][1..]) == [];
  }

  // ----- The weight of entries: the length of their pieces -------------------------------------------------

  function Weight(entries: seq<Entry>): nat {
    if entries == [] then 0 else |Piece(entries[0])| + Weight(entries[1..])
  }

  lemma {:induction false} WeightBoth(xs: seq<Entry>, ys: seq<Entry>)
    ensures Weight(xs + ys) == Weight(xs) + Weight(ys)
  {
    if xs == [] {
      assert xs + ys == ys;
    } else {
      WeightBoth(xs[1..], ys);
      assert (xs + ys)[1..] == xs[1..] + ys;
    }
  }

  lemma WeightOne(e: Entry)
    ensures Weight([e]) == |Piece(e)|
  {
    assert Weight([e][1..]) == 0;
  }

  /** An entry weighs at most its piece, and one more if the piece has no `=`. */
  lemma PieceWeight(piece: string)
    requires ParsePiece(piece).Some?
    ensures |Piece(ParsePiece(piece).value)| <= |piece| + 1
    ensures '=' in piece ==> |Piece(ParsePiece(piece).value)| <= |piece|
  {
    IndexOfChar(piece, '=');
    if '=' in piece {
      var i := IndexOf(piece, "=").value;
      UnescapeShortens(piece[..i]);
      UnescapeShortens(piece[i + 1..]);
    } else {
      UnescapeShortens(piece);
      UnescapeShortens([]);
    }
  }

  lemma {:induction false} QueryWeight(s: string)
    ensures Weight(ParseQuery(s)) <= |s| + 1
    decreases |s|
  {
    if '&' in s {
      var x, y := FirstOccurrenceOf(s, '&');
      QueryWeight(x);
      QueryWeight(y);
      QueryBoth(x, y);
      WeightBoth(ParseQuery(x), ParseQuery(y));
    } else {
      QueryOfPiece(s);
      if ParsePiece(s).Some? {
        PieceWeight(s);
        WeightOne(ParsePiece(s).value);
      }
    }
  }

  /** The characters that a value may not have to travel in one piece. */
  predicate Escapeless(s: string) { '&' !in s && '%' !in s && ';' !in s }

  lemma KeyHasNo(key: string)
    requires PlainKey(key)
    ensures '&' !in key && '#' !in key && ';' !in key && Unescape(key) == Some(key)
  {
    UnescapePlain(key);
    SpacedWithout(key);
    forall i | 0 <= i < |key| ensures key[i] !in "&#;" { assert IsPlain(key[i]); }
  }

  /** A pair without ampersand yields at most its own weight, and that only without escapes and semicolons. */
  lemma PairWeight(e: Entry)
    requires PlainKey(e.key) && '&' !in e.value
    ensures Weight(ParseQuery(Piece(e))) <= |Piece(e)|
    ensures Weight(ParseQuery(Piece(e))) == |Piece(e)| ==> |ParseQuery(Piece(e))| == 1 && Escapeless(e.value)
  {
    var p := Piece(e);
    KeyHasNo(e.key);
    assert '&' !in p;
    QueryOfPiece(p);
    IndexOfAfter(e.key, "=", e.value);
    assert p[..|e.key|] == e.key && p[|e.key| + 1..] == e.value;
    UnescapeShortens(e.value);
    if ParsePiece(p).Some? {
      WeightOne(ParsePiece(p).value);
      SemicolonsDrop(e);
    }
  }

  lemma SemicolonsDrop(e: Entry)
    requires ParsePiece(Piece(e)).Some?
    ensures ';' !in e.value
  {
    forall i | 0 <= i < |e.value| ensures e.value[i] != ';' {
      assert Piece(e)[|e.key| + 1 + i] == e.value[i];
    }
  }

  /** A pair is cut inside its value. */
  lemma CutPair(key: string, a: string, c: char, b: string)
    ensures Piece(Entry(key, a + [c] + b)) == Piece(Entry(key, a)) + [c] + b
  {
  }

  /** Any pair yields at most its own weight; if it yields all of it, as one entry, it has no escapes, semicolons and
      ampersands. */
  lemma GroupWeight(e: Entry)
    requires PlainKey(e.key)
    ensures Weight(ParseQuery(Piece(e))) <= |Piece(e)|
    ensures Weight(ParseQuery(Piece(e))) == |Piece(e)| ==>
      |ParseQuery(Piece(e))| >= 1 && (|ParseQuery(Piece(e))| == 1 ==> Escapeless(e.value))
  {
    if '&' in e.value {
      var a, b := FirstOccurrenceOf(e.value, '&');
      var head := Entry(e.key, a);
      PairWeight(head);
      QueryWeight(b);
      CutPair(e.key, a, '&', b);
      QueryBoth(Piece(head), b);
      WeightBoth(ParseQuery(Piece(head)), ParseQuery(b));
    } else {
      PairWeight(e);
    }
  }

  ghost predicate PlainKeys(entries: seq<Entry>) {
    forall i :: 0 <= i < |entries| ==> PlainKey(entries[i].key)
  }

  /** What is sent of joined entries. */
  function Sent(entries: seq<Entry>): string
    requires entries != []
  {
    UpToHash(Join(entries))
  }

  /** A hash sign in the first pair ends everything. */
  lemma HashInFirst(entries: seq<Entry>)
    requires entries != [] && PlainKey(entries[0].key) && '#' in entries[0].value
    ensures Weight(ParseQuery(Sent(entries))) < |Piece(entries[0])|
  {
    var e := entries[0];
    var rest := if |entries| == 1 then "" else "&" + Join(entries[1..]);
    assert Join(entries) == Piece(e) + rest;
    var a, b := FirstOccurrenceOf(e.value, '#');
    var head := Entry(e.key, a);
    KeyHasNo(e.key);
    CutPair(e.key, a, '#', b);
    Regroup(Piece(head) + "#", b, rest);
    Regroup(Piece(head), "#", b + rest);
    HashAfter(Piece(head), "#" + (b + rest));
    assert UpToHash("#" + (b + rest)) == "" && Piece(head) + "" == Piece(head);
    GroupWeight(head);
  }

  /** Without one, the first pair is sent whole, before what is sent of the others. */
  lemma FirstIsSent(entries: seq<Entry>)
    requires entries != [] && PlainKey(entries[0].key) && '#' !in entries[0].value
    ensures Sent(entries) ==
            if |entries| == 1 then Piece(entries[0]) else Piece(entries[0]) + "&" + Sent(entries[1..])
  {
    var e := entries[0];
    KeyHasNo(e.key);
    assert '#' !in Piece(e);
    if |entries| == 1 {
      IndexOfNone(Piece(e), "#");
    } else {
      HashAfter(Piece(e) + "&", Join(entries[1..]));
    }
  }

  lemma SentFirst(entries: seq<Entry>)
    requires entries != [] && PlainKey(entries[0].key) && '#' !in entries[0].value
    ensures ParseQuery(Sent(entries)) ==
            ParseQuery(Piece(entries[0])) + if |entries| == 1 then [] else ParseQuery(Sent(entries[1..]))
  {
    FirstIsSent(entries);
    if |entries| > 1 {
      QueryBoth(Piece(entries[0]), Sent(entries[1..]));
    }
  }

  /** Joined entries yield at most their weight; if they yield all of it, then from every pair at least one entry. */
  lemma {:induction false} SentWeight(entries: seq<Entry>)
    requires entries != [] && PlainKeys(entries)
    ensures Weight(ParseQuery(Sent(entries))) <= Weight(entries)
    ensures Weight(ParseQuery(Sent(entries))) == Weight(entries) ==> |ParseQuery(Sent(entries))| >= |entries|
    decreases |entries|
  {
    GroupWeight(entries[0]);
    if '#' in entries[0].value {
      HashInFirst(entries);
    } else if |entries| == 1 {
      SentFirst(entries);
      WeightOne(entries[0]);
      assert entries == [entries[0]];
      WeightBoth(ParseQuery(Piece(entries[0])), []);
    } else {
      SentFirst(entries);
      SentWeight(entries[1..]);
      WeightBoth(ParseQuery(Piece(entries[0])), ParseQuery(Sent(entries[1..])));
    }
  }

  /** A value that arrives as it was sent. */
  predicate Unchanged(s: string) { Plain(s) && '+' !in s }

  lemma UnchangedCharacters(s: string)
    ensures Unchanged(s) <==> '&' !in s && '#' !in s && '%' !in s && ';' !in s && '+' !in s
  {
    if '&' !in s && '#' !in s && '%' !in s && ';' !in s {
      forall i | 0 <= i < |s| ensures IsPlain(s[i]) { assert s[i] in s; }
    }
    if Plain(s) {
      forall i | 0 <= i < |s| ensures s[i] !in "&#%;" { assert IsPlain(s[i]); }
    }
  }

  /** If all entries arrive, the first pair arrives as one entry, and the others without it. */
  lemma FirstArrivesAlone(entries: seq<Entry>)
    requires entries != [] && PlainKeys(entries) && ParseQuery(Sent(entries)) == entries
    ensures '#' !in entries[0].value && ParseQuery(Piece(entries[0])) == [entries[0]] && Escapeless(entries[0].value)
    ensures |entries| > 1 ==> ParseQuery(Sent(entries[1..])) == entries[1..]
  {
    var e := entries[0];
    var first := ParseQuery(Piece(e));
    if '#' in e.value { HashInFirst(entries); }
    SentFirst(entries);
    GroupWeight(e);
    if |entries| == 1 {
      WeightOne(e);
      assert entries == [e] && first + [] == first;
    } else {
      var rest := ParseQuery(Sent(entries[1..]));
      SentWeight(entries[1..]);
      WeightBoth(first, rest);
      assert first == entries[..|first|] && rest == entries[|first|..];
    }
  }

  lemma FirstArrives(entries: seq<Entry>)
    requires entries != [] && PlainKeys(entries) && ParseQuery(Sent(entries)) == entries
    ensures Unchanged(entries[0].value)
    ensures |entries| > 1 ==> ParseQuery(Sent(entries[1..])) == entries[1..]
  {
    var e := entries[0];
    FirstArrivesAlone(entries);
    KeyHasNo(e.key);
    QueryOfPiece(Piece(e));
    PieceCarries(e.key, e.value);
    UnchangedCharacters(e.value);
  }

  lemma {:induction false} AllArrive(entries: seq<Entry>)
    requires entries != [] && PlainKeys(entries) && ParseQuery(Sent(entries)) == entries
    ensures forall i :: 0 <= i < |entries| ==> Unchanged(entries[i].value)
    decreases |entries|
  {
    FirstArrives(entries);
    if |entries| > 1 {
      AllArrive(entries[1..]);
      forall i | 0 < i < |entries| ensures Unchanged(entries[i].value) {
        assert entries[i] == entries[1..][i - 1];
      }
    }
  }

  lemma SpacedUnchanged(info: JobInfo)
    requires forall v :: v in ValuesOf(info) ==> Unchanged(v)
    ensures SpacedInfo(info) == info && PlainInfo(info)
  {
    var values := ValuesOf(info);
    forall i | 0 <= i < 12 ensures Spaced(values[i]) == values[i] {
      assert values[i] in values;
      SpacedWithout(values[i]);
    }
    assert Spaced(values[0]) == values[0] && Spaced(values[1]) == values[1] && Spaced(values[2]) == values[2];
    assert Spaced(values[3]) == values[3] && Spaced(values[4]) == values[4] && Spaced(values[5]) == values[5];
    assert Spaced(values[6]) == values[6] && Spaced(values[7]) == values[7] && Spaced(values[8]) == values[8];
    assert Spaced(values[9]) == values[9] && Spaced(values[10]) == values[10] && Spaced(values[11]) == values[11];
  }

  /** For all settings: the query of the constructed URL parses into exactly the pairs that were written if and only if
      no value has one of the five characters with a meaning in a query. */
  lemma UrlCarriesExactly(base: string, info: JobInfo, action: string)
    requires PlainTarget(base, action)
    ensures ParseQuery(RawQuery(ConstructUrl(base, info, action))) == Entries(info) <==>
            forall v :: v in ValuesOf(info) ==> Unchanged(v)
  {
    RawQueryOfUrl(base, info, action);
    var entries, values := Entries(info), ValuesOf(info);
    if ParseQuery(Sent(entries)) == entries {
      forall i | 0 <= i < 12 ensures PlainKey(entries[i].key) { KeyIsPlain(i); }
      AllArrive(entries);
      forall i | 0 <= i < 12 ensures Unchanged(values[i]) {
        assert entries[i].value == values[i];
      }
    }
    if forall v :: v in values ==> Unchanged(v) {
      SpacedUnchanged(info);
      ParsedUrl(base, info, action);
    }
  }

  // ----- What an ampersand and a hash sign do ----------------------------------------------------------

  lemma AmpersandCutsFirst(entries: seq<Entry>, value: string, rest: string)
    requires entries != [] && PlainKey(entries[0].key) && Plain(value) && entries[0].value == value + "&" + rest
    ensures Get(ParseQuery(Sent(entries)), entries[0].key) == Spaced(value)
  {
    var head := Entry(entries[0].key, value);
    var tail := if |entries| == 1 then rest else rest + ("&" + Join(entries[1..]));
    CutPair(entries[0].key, value, '&', rest);
    assert Join(entries) == Piece(head) + "&" + tail;
    PieceIsParsed(head);
    HashAfter(Piece(head) + "&", tail);
    QueryBoth(Piece(head), UpToHash(tail));
    QueryOfPiece(Piece(head));
  }

  lemma PlainFirst(entries: seq<Entry>)
    requires |entries| > 1 && PlainEntry(entries[0])
    ensures ParseQuery(Sent(entries)) == [Received(entries[0])] + ParseQuery(Sent(entries[1..]))
  {
    PieceIsParsed(entries[0]);
    PlainHasNoHash(entries[0]);
    SentFirst(entries);
    QueryOfPiece(Piece(entries[0]));
  }

  lemma GetLater(e: Entry, rest: seq<Entry>, key: string)
    requires e.key != key
    ensures Get([e] + rest, key) == Get(rest, key)
  {
    assert ([e] + rest)[1..] == rest;
  }

  /** An ampersand cuts a value, wherever it stands in a query: the handler reads what precedes it. */
  lemma {:induction false} AmpersandCutsAt(entries: seq<Entry>, i: nat, value: string, rest: string)
    requires i < |entries| && PlainKey(entries[i].key) && forall j :: 0 <= j < i ==> PlainEntry(entries[j])
    requires forall j :: 0 <= j < i ==> entries[j].key != entries[i].key
    requires entries[i].value == value + "&" + rest && Plain(value)
    ensures Get(ParseQuery(Sent(entries)), entries[i].key) == Spaced(value)
    decreases i
  {
    if i == 0 {
      AmpersandCutsFirst(entries, value, rest);
    } else {
      var later := entries[1..];
      PlainFirst(entries);
      forall j | 0 <= j < i - 1 ensures PlainEntry(later[j]) && later[j].key != later[i - 1].key {
        assert later[j] == entries[j + 1];
      }
      AmpersandCutsAt(later, i - 1, value, rest);
      GetLater(Received(entries[0]), ParseQuery(Sent(later)), entries[i].key);
    }
  }

  lemma PlainHasNoHash(e: Entry)
    requires PlainEntry(e)
    ensures '#' !in e.value
  {
    forall i | 0 <= i < |e.value| ensures e.value[i] != '#' { assert IsPlain(e.value[i]); }
  }

  /** Of a setting with an ampersand a handler reads what precedes it, if the settings before it are plain. */
  lemma AmpersandCuts(base: string, info: JobInfo, action: string, i: nat, value: string, rest: string)
    requires PlainTarget(base, action) && i < 12 && forall j :: 0 <= j < i ==> Plain(ValuesOf(info)[j])
    requires ValuesOf(info)[i] == value + "&" + rest && Plain(value)
    ensures Get(ParseQuery(RawQuery(ConstructUrl(base, info, action))), KEYS[i]) == Spaced(value)
  {
    RawQueryOfUrl(base, info, action);
    var entries := Entries(info);
    KeyIsPlain(i);
    forall j | 0 <= j < i ensures entries[j].key != entries[i].key && PlainEntry(entries[j]) {
      KeyIsPlain(j);
      KeysAreDistinct(j, i);
    }
    AmpersandCutsAt(entries, i, value, rest);
  }

  /** A hash sign ends the query, although the filter for names would keep it. */
  lemma HashCuts(target: string, query: string, rest: string)
    requires '?' !in target && '#' !in target && '#' !in query
    ensures RawQuery(target + "?" + query + "#" + rest) == query && IsNameChar('#')
  {
    assert target + "?" + query + "#" + rest == target + "?" + (query + "#" + rest);
    RawQueryOf(target, query + "#" + rest);
    IndexOfAfter(query, "#", rest);
    assert (query + "#" + rest)[..|query|] == query;
  }
}
