/** The URLs by which the injected init-containers call the Slurm handlers: construction by the injector, substitution
    of the node by the init-container, and parsing by the handlers (query component, section 3.4 of RFC 3986). */
module Url {
  import opened Wrappers
  import opened Text
  import opened JobInformation

  // ----- Construction ------------------------------------------------------------------------

  function Pair(key: string, value: string): string { key + "=" + value + "&" }

  function TrimSuffix(s: string, suffix: string): string {
    if |suffix| <= |s| && s[|s| - |suffix|..] == suffix then s[..|s| - |suffix|] else s
  }

  function ConstructUrl(base: string, info: JobInfo, action: string): string {
    TrimSuffix(
      base + "/slurm/" + action + "?" +
      Pair("namespace", info.namespace) + Pair("objectname", info.objectName) +
      Pair("nodespecificationmode", info.mode) + Pair("partition", info.partition) + Pair("node", info.node) +
      Pair("ntasks", info.ntasks) + Pair("ncpus", info.ncpus) + Pair("ngpus", info.ngpus) + Pair("gres", info.gres) +
      Pair("time", info.time) + Pair("name", info.name) + Pair("uuid", info.uuid), "&")
  }

  /** `sed "s/old/new/"`: the first occurrence. */
  function ReplaceFirst(s: string, pattern: string, replacement: string): string {
    match IndexOf(s, pattern)
    case None => s
    case Some(i) => s[..i] + replacement + s[i + |pattern|..]
  }

  // ----- Parsing -----------------------------------------------------------------------------

  predicate IsHex(c: char) { IsDigit(c) || 'a' <= c <= 'f' || 'A' <= c <= 'F' }

  function HexValue(c: char): nat
    requires IsHex(c)
    ensures HexValue(c) < 16
  {
    if IsDigit(c) then (c - '0') as nat else if 'a' <= c then (c - 'a') as nat + 10 else (c - 'A') as nat + 10
  }

  /** `url.QueryUnescape`. */
  function Unescape(s: string): Option<string> {
    if s == [] then Some([])
    else if s[0] == '%' then
      if |s| >= 3 && IsHex(s[1]) && IsHex(s[2]) then
        match Unescape(s[3..])
        case None => None
        case Some(rest) => Some([(16 * HexValue(s[1]) + HexValue(s[2])) as char] + rest)
      else None
    else
      match Unescape(s[1..])
      case None => None
      case Some(rest) => Some([if s[0] == '+' then ' ' else s[0]] + rest)
  }

  datatype Entry = Entry(key: string, value: string)

  /** One piece of a query: cut at the first `=`, both sides unescaped; a piece with `;` or a malformed escape is
      dropped. */
  function ParsePiece(piece: string): Option<Entry> {
    if piece == [] || ';' in piece then None
    else
      var cut := IndexOf(piece, "=");
      var key := if cut.Some? then piece[..cut.value] else piece;
      var value := if cut.Some? then piece[cut.value + 1..] else [];
      if Unescape(key).Some? && Unescape(value).Some? then Some(Entry(Unescape(key).value, Unescape(value).value)) else None
  }

  /** A dropped piece leaves nothing. */
  function Found(piece: string): seq<Entry> {
    match ParsePiece(piece)
    case None => []
    case Some(e) => [e]
  }

  function ParsePieces(pieces: seq<string>): seq<Entry> {
    if pieces == [] then [] else Found(pieces[0]) + ParsePieces(pieces[1..])
  }

  /** `url.ParseQuery`. */
  function ParseQuery(query: string): seq<Entry> { ParsePieces(Split(query, "&")) }

  /** `Values.Get`: the first value of a key, or the empty string. */
  function Get(entries: seq<Entry>, key: string): string {
    if entries == [] then []
    else if entries[0].key == key then entries[0].value
    else Get(entries[1..], key)
  }

  /** What the client sends: everything before the fragment. */
  function UpToHash(s: string): string {
    match IndexOf(s, "#")
    case Some(i) => s[..i]
    case None => s
  }

  /** What the client sends, after the first `?`. */
  function RawQuery(url: string): string {
    match IndexOf(UpToHash(url), "?")
    case Some(i) => UpToHash(url)[i + 1..]
    case None => []
  }

  /** The handlers' reading of a URL into a new job information. */
  method ParseQueryParams(url: string, info0: JobInfo) returns (info: JobInfo)
    ensures info == ReadEntries(ParseQuery(RawQuery(url)), info0)
  {
    var q := ParseQuery(RawQuery(url));
    info := info0;
    info := info.(namespace := KeepName(Get(q, "namespace")));
    info := info.(objectName := KeepName(Get(q, "objectname")));
    info := info.(mode := KeepName(Get(q, "nodespecificationmode")));
    info := info.(partition := KeepName(Get(q, "partition")));
    info := info.(node := KeepName(Get(q, "node")));
    info := info.(ntasks := KeepDigits(Get(q, "ntasks")));
    info := info.(ncpus := KeepDigits(Get(q, "ncpus")));
    info := info.(ngpus := KeepDigits(Get(q, "ngpus")));
    info := info.(gres := KeepName(Get(q, "gres")));
    info := info.(time := KeepDigits(Get(q, "time")));
    info := info.(name := KeepName(Get(q, "name")));
    info := info.(uuid := KeepName(Get(q, "uuid")));
  }

  function ReadEntries(q: seq<Entry>, info0: JobInfo): JobInfo {
    JobInfo(
      KeepName(Get(q, "uuid")), KeepName(Get(q, "namespace")), KeepName(Get(q, "objectname")),
      KeepName(Get(q, "nodespecificationmode")), KeepName(Get(q, "partition")), KeepName(Get(q, "node")),
      KeepDigits(Get(q, "ntasks")), KeepDigits(Get(q, "ncpus")), KeepDigits(Get(q, "ngpus")), info0.gpuLimit,
      KeepName(Get(q, "gres")), KeepDigits(Get(q, "time")), KeepName(Get(q, "name")))
  }

  /** Every field through its character filter. */
  function Filtered(info: JobInfo, gpuLimit: bool): JobInfo {
    JobInfo(
      KeepName(info.uuid), KeepName(info.namespace), KeepName(info.objectName), KeepName(info.mode),
      KeepName(info.partition), KeepName(info.node), KeepDigits(info.ntasks), KeepDigits(info.ncpus),
      KeepDigits(info.ngpus), gpuLimit, KeepName(info.gres), KeepDigits(info.time), KeepName(info.name))
  }

  // ----- Round trip --------------------------------------------------------------------------

  predicate IsPlain(c: char) { c !in "&#%;" }

  /** A value that stays in one piece of a query and has no escapes. */
  predicate Plain(s: string) { AllOf(s, IsPlain) }

  /** Plus signs stand for spaces. */
  function Spaced(s: string): (r: string)
    ensures |r| == |s|
  {
    seq(|s|, i requires 0 <= i < |s| => if s[i] == '+' then ' ' else s[i])
  }

  lemma {:induction false} UnescapePlain(s: string)
    requires Plain(s)
    ensures Unescape(s) == Some(Spaced(s))
  {
    if s != [] {
      assert IsPlain(s[0]);
      UnescapePlain(s[1..]);
      assert Spaced(s) == [Spaced(s)[0]] + Spaced(s[1..]);
    }
  }

  lemma SpacedWithout(s: string)
    requires '+' !in s
    ensures Spaced(s) == s
  {
  }

  /** A filter that keeps neither plus nor space does not see the difference. */
  lemma {:induction false} FilterSpaced(s: string, allowed: char -> bool)
    requires !allowed('+') && !allowed(' ')
    ensures Filter(Spaced(s), allowed) == Filter(s, allowed)
  {
    if s != [] {
      FilterSpaced(s[1..], allowed);
      assert Spaced(s)[1..] == Spaced(s[1..]);
    }
  }

  /** A key of the query: plain, without plus signs, not empty and without `=`. */
  predicate PlainKey(s: string) { Plain(s) && '+' !in s && s != [] && '=' !in s }

  predicate PlainEntry(e: Entry) { PlainKey(e.key) && Plain(e.value) }

  function Piece(e: Entry): string { e.key + "=" + e.value }

  /** An entry as it arrives. */
  function Received(e: Entry): Entry { Entry(e.key, Spaced(e.value)) }

  lemma PieceIsParsed(e: Entry)
    requires PlainEntry(e)
    ensures ParsePiece(Piece(e)) == Some(Received(e)) && '&' !in Piece(e) && '#' !in Piece(e)
  {
    var p := Piece(e);
    IndexOfAfter(e.key, "=", e.value);
    assert p[..|e.key|] == e.key && p[|e.key| + 1..] == e.value;
    UnescapePlain(e.key);
    SpacedWithout(e.key);
    UnescapePlain(e.value);
    forall i | 0 <= i < |p| ensures p[i] !in "&#;" {
      if i < |e.key| { assert p[i] == e.key[i] && IsPlain(e.key[i]); }
      else if i > |e.key| { assert p[i] == e.value[i - |e.key| - 1] && IsPlain(e.value[i - |e.key| - 1]); }
    }
  }

  /** A piece without `=` is a key without a value, and nothing is no piece. */
  lemma BarePieceIsParsed(key: string)
    requires PlainKey(key)
    ensures ParsePiece(key) == Some(Entry(key, "")) && ParsePiece("") == None
  {
    IndexOfNone(key, "=");
    UnescapePlain(key);
    SpacedWithout(key);
  }

  /** Entries joined with `&`. */
  function Join(entries: seq<Entry>): string
    requires entries != []
  {
    if |entries| == 1 then Piece(entries[0]) else Piece(entries[0]) + "&" + Join(entries[1..])
  }

  ghost predicate PlainEntries(entries: seq<Entry>) {
    forall i :: 0 <= i < |entries| ==> PlainEntry(entries[i])
  }

  lemma FirstPiece(piece: string, rest: seq<string>, e: Entry)
    requires ParsePiece(piece) == Some(e)
    ensures ParsePieces([piece] + rest) == [e] + ParsePieces(rest)
  {
  }

  function AllReceived(entries: seq<Entry>): (r: seq<Entry>)
    ensures |r| == |entries|
  {
    seq(|entries|, i requires 0 <= i < |entries| => Received(entries[i]))
  }

  lemma FirstReceived(entries: seq<Entry>)
    requires entries != []
    ensures AllReceived(entries) == [Received(entries[0])] + AllReceived(entries[1..])
  {
  }

  lemma {:induction false} JoinIsParsed(entries: seq<Entry>)
    requires entries != [] && PlainEntries(entries)
    ensures ParseQuery(Join(entries)) == AllReceived(entries) && '#' !in Join(entries)
  {
    var piece, first := Piece(entries[0]), Received(entries[0]);
    PieceIsParsed(entries[0]);
    FirstReceived(entries);
    if |entries| == 1 {
      SplitNone(piece, "&");
      FirstPiece(piece, [], first);
      assert [piece] + [] == [piece] && AllReceived(entries[1..]) == [];
    } else {
      JoinIsParsed(entries[1..]);
      SplitAfter(piece, "&", Join(entries[1..]));
      FirstPiece(piece, Split(Join(entries[1..]), "&"), first);
    }
  }

  /** The first entry of a key that no earlier entry has. */
  lemma {:induction false} GetAt(entries: seq<Entry>, i: nat)
    requires i < |entries| && forall j :: 0 <= j < i ==> entries[j].key != entries[i].key
    ensures Get(entries, entries[i].key) == entries[i].value
  {
    if i > 0 {
      assert entries[0].key != entries[i].key;
      assert entries[1..][i - 1] == entries[i];
      forall j | 0 <= j < i - 1 ensures entries[1..][j].key != entries[i].key {
        assert entries[1..][j] == entries[j + 1];
      }
      GetAt(entries[1..], i - 1);
    }
  }

  const KEYS := ["namespace", "objectname", "nodespecificationmode", "partition", "node", "ntasks", "ncpus", "ngpus", "gres",
                 "time", "name", "uuid"]

  function ValuesOf(info: JobInfo): seq<string> {
    [info.namespace, info.objectName, info.mode, info.partition, info.node, info.ntasks, info.ncpus, info.ngpus, info.gres,
     info.time, info.name, info.uuid]
  }

  function Entries(info: JobInfo): (r: seq<Entry>)
    ensures |r| == 12
  {
    seq(12, i requires 0 <= i < 12 => Entry(KEYS[i], ValuesOf(info)[i]))
  }

  lemma KeyIsPlain(i: nat)
    requires i < 12
    ensures PlainKey(KEYS[i])
  {
    assert AllOf(KEYS[i], IsLetter);
    LettersArePlain(KEYS[i]);
  }

  lemma LettersArePlain(s: string)
    requires AllOf(s, IsLetter) && s != []
    ensures PlainKey(s)
  {
  }

  lemma KeysAreDistinct(i: nat, j: nat)
    requires i < j < 12
    ensures KEYS[i] != KEYS[j]
  {
  }

  lemma EntriesArePlain(info: JobInfo)
    requires PlainInfo(info)
    ensures PlainEntries(Entries(info))
  {
    var values := ValuesOf(info);
    forall i | 0 <= i < 12 ensures PlainEntry(Entries(info)[i]) {
      KeyIsPlain(i);
      assert Plain(values[i]);
    }
  }

  predicate PlainInfo(info: JobInfo) { forall v :: v in ValuesOf(info) ==> Plain(v) }

  /** The value found under each key. */
  lemma GetEntry(info: JobInfo, i: nat)
    requires i < 12
    ensures Get(Entries(info), KEYS[i]) == ValuesOf(info)[i]
  {
    forall j | 0 <= j < i ensures Entries(info)[j].key != Entries(info)[i].key {
      KeysAreDistinct(j, i);
    }
    GetAt(Entries(info), i);
  }

  lemma ReadEntriesOf(info: JobInfo, info0: JobInfo)
    ensures ReadEntries(Entries(info), info0) == Filtered(info, info0.gpuLimit)
  {
    forall i | 0 <= i < 12 ensures Get(Entries(info), KEYS[i]) == ValuesOf(info)[i] { GetEntry(info, i); }
    var q := Entries(info);
    assert Get(q, KEYS[0]) == info.namespace && Get(q, KEYS[1]) == info.objectName && Get(q, KEYS[2]) == info.mode;
    assert Get(q, KEYS[3]) == info.partition && Get(q, KEYS[4]) == info.node && Get(q, KEYS[5]) == info.ntasks;
    assert Get(q, KEYS[6]) == info.ncpus && Get(q, KEYS[7]) == info.ngpus && Get(q, KEYS[8]) == info.gres;
    assert Get(q, KEYS[9]) == info.time && Get(q, KEYS[10]) == info.name && Get(q, KEYS[11]) == info.uuid;
  }

  // ----- The constructed URL as joined entries ---------------------------------------------------

  function Target(base: string, action: string): string { base + "/slurm/" + action + "?" }

  /** The URL up to the entry `i`, with a trailing `&` per entry. */
  function Prefix(base: string, info: JobInfo, action: string, i: nat): string
    requires i <= 12
  {
    if i == 0 then Target(base, action)
    else Prefix(base, info, action, i - 1) + Pair(KEYS[i - 1], ValuesOf(info)[i - 1])
  }

  lemma JoinFrom(entries: seq<Entry>, i: nat)
    requires i < |entries|
    ensures Join(entries[i..]) ==
            if i + 1 == |entries| then Piece(entries[i]) else Piece(entries[i]) + "&" + Join(entries[i + 1..])
  {
    assert entries[i..][1..] == entries[i + 1..];
  }

  lemma PairIsPiece(info: JobInfo, i: nat)
    requires i < 12
    ensures Pair(KEYS[i], ValuesOf(info)[i]) == Piece(Entries(info)[i]) + "&"
  {
  }

  lemma MovePiece(p: string, piece: string, rest: string)
    ensures p + (piece + "&" + rest + "&") == (p + (piece + "&")) + (rest + "&")
  {
  }

  lemma {:induction false} PrefixJoin(base: string, info: JobInfo, action: string, i: nat)
    requires i < 12
    ensures Prefix(base, info, action, i) + (Join(Entries(info)[i..]) + "&") == Prefix(base, info, action, 12)
    decreases 12 - i
  {
    var e, p := Entries(info), Prefix(base, info, action, i);
    JoinFrom(e, i);
    PairIsPiece(info, i);
    if i < 11 {
      PrefixJoin(base, info, action, i + 1);
      MovePiece(p, Piece(e[i]), Join(e[i + 1..]));
    }
  }

  lemma TrimAmpersand(s: string)
    ensures TrimSuffix(s + "&", "&") == s
  {
  }

  lemma ConstructUrlIsJoin(base: string, info: JobInfo, action: string)
    ensures ConstructUrl(base, info, action) == Target(base, action) + Join(Entries(info))
  {
    FullUrl(base, info, action);
    PrefixJoin(base, info, action, 0);
    assert Entries(info)[0..] == Entries(info);
    var target, joined := Target(base, action), Join(Entries(info));
    assert target + (joined + "&") == (target + joined) + "&";
    TrimAmpersand(target + joined);
  }

  /** The URL around the value of the node. */
  lemma ConstructUrlAroundNode(base: string, info: JobInfo, action: string)
    ensures ConstructUrl(base, info, action) ==
            (Prefix(base, info, action, 4) + "node=") + info.node + ("&" + Join(Entries(info)[5..]))
  {
    FullUrl(base, info, action);
    PrefixJoin(base, info, action, 5);
    var before, tail, value := Prefix(base, info, action, 4), Join(Entries(info)[5..]), info.node;
    assert KEYS[4] == "node" && ValuesOf(info)[4] == value;
    assert Prefix(base, info, action, 5) == before + (("node" + "=") + value + "&");
    assert "node" + "=" == "node=";
    AroundValue(before, "node=", value, tail);
    TrimAmpersand((before + "node=") + value + ("&" + tail));
  }

  lemma AroundValue(before: string, key: string, value: string, tail: string)
    ensures before + (key + value + "&") + (tail + "&") == ((before + key) + value + ("&" + tail)) + "&"
  {
  }

  /** The concatenation in the code, entry by entry. */
  lemma FullUrl(base: string, info: JobInfo, action: string)
    ensures ConstructUrl(base, info, action) == TrimSuffix(Prefix(base, info, action, 12), "&")
  {
    var p1 := Target(base, action) + Pair("namespace", info.namespace);
    assert p1 == Prefix(base, info, action, 1);
    var p2 := p1 + Pair("objectname", info.objectName);
    assert p2 == Prefix(base, info, action, 2);
    var p3 := p2 + Pair("nodespecificationmode", info.mode);
    assert p3 == Prefix(base, info, action, 3);
    var p4 := p3 + Pair("partition", info.partition);
    assert p4 == Prefix(base, info, action, 4);
    var p5 := p4 + Pair("node", info.node);
    assert p5 == Prefix(base, info, action, 5);
    var p6 := p5 + Pair("ntasks", info.ntasks);
    assert p6 == Prefix(base, info, action, 6);
    var p7 := p6 + Pair("ncpus", info.ncpus);
    assert p7 == Prefix(base, info, action, 7);
    var p8 := p7 + Pair("ngpus", info.ngpus);
    assert p8 == Prefix(base, info, action, 8);
    var p9 := p8 + Pair("gres", info.gres);
    assert p9 == Prefix(base, info, action, 9);
    var p10 := p9 + Pair("time", info.time);
    assert p10 == Prefix(base, info, action, 10);
    var p11 := p10 + Pair("name", info.name);
    assert p11 == Prefix(base, info, action, 11);
    var p12 := p11 + Pair("uuid", info.uuid);
    assert p12 == Prefix(base, info, action, 12);
  }

  // ----- The theorems ------------------------------------------------------------------------

  /** Base and action do not reach into query or fragment. */
  predicate PlainTarget(base: string, action: string) {
    '?' !in base && '#' !in base && '?' !in action && '#' !in action
  }

  lemma HashEnds(a: string, b: string)
    requires '#' !in a
    ensures UpToHash(a + "#" + b) == a
  {
    IndexOfAfter(a, "#", b);
    assert (a + "#" + b)[..|a|] == a;
  }

  lemma HashMissing(a: string)
    requires '#' !in a
    ensures UpToHash(a) == a
  {
    IndexOfNone(a, "#");
  }

  lemma HashAfter(a: string, b: string)
    requires '#' !in a
    ensures UpToHash(a + b) == a + UpToHash(b)
  {
    if '#' in b {
      var x, y := FirstOccurrenceOf(b, '#');
      HashEnds(x, y);
      HashEnds(a + x, y);
      assert a + b == a + x + "#" + y && b == x + "#" + y;
    } else {
      HashMissing(b);
      HashMissing(a + b);
    }
  }

  lemma RawQueryOf(target: string, query: string)
    requires '?' !in target && '#' !in target
    ensures RawQuery(target + "?" + query) == UpToHash(query)
  {
    HashAfter(target + "?", query);
    var sent := target + "?" + UpToHash(query);
    IndexOfAfter(target, "?", UpToHash(query));
    assert sent[|target| + 1..] == UpToHash(query);
  }

  /** The query of a constructed URL. */
  lemma RawQueryOfUrl(base: string, info: JobInfo, action: string)
    requires PlainTarget(base, action)
    ensures RawQuery(ConstructUrl(base, info, action)) == UpToHash(Join(Entries(info)))
  {
    ConstructUrlIsJoin(base, info, action);
    assert '?' !in "/slurm/" && '#' !in "/slurm/";
    RawQueryOf(base + "/slurm/" + action, Join(Entries(info)));
  }

  /** The settings with spaces for plus signs. */
  function SpacedInfo(info: JobInfo): JobInfo {
    JobInfo(
      Spaced(info.uuid), Spaced(info.namespace), Spaced(info.objectName), Spaced(info.mode), Spaced(info.partition),
      Spaced(info.node), Spaced(info.ntasks), Spaced(info.ncpus), Spaced(info.ngpus), info.gpuLimit, Spaced(info.gres),
      Spaced(info.time), Spaced(info.name))
  }

  lemma ReceivedEntries(info: JobInfo)
    ensures AllReceived(Entries(info)) == Entries(SpacedInfo(info))
  {
    var v, w := ValuesOf(info), ValuesOf(SpacedInfo(info));
    forall i | 0 <= i < 12 ensures w[i] == Spaced(v[i]) {
    }
  }

  lemma FilteredSpaced(info: JobInfo, gpuLimit: bool)
    ensures Filtered(SpacedInfo(info), gpuLimit) == Filtered(info, gpuLimit)
  {
    FilterSpaced(info.uuid, IsNameChar);
    FilterSpaced(info.namespace, IsNameChar);
    FilterSpaced(info.objectName, IsNameChar);
    FilterSpaced(info.mode, IsNameChar);
    FilterSpaced(info.partition, IsNameChar);
    FilterSpaced(info.node, IsNameChar);
    FilterSpaced(info.ntasks, IsDigit);
    FilterSpaced(info.ncpus, IsDigit);
    FilterSpaced(info.ngpus, IsDigit);
    FilterSpaced(info.gres, IsNameChar);
    FilterSpaced(info.time, IsDigit);
    FilterSpaced(info.name, IsNameChar);
  }

  lemma ParsedUrl(base: string, info: JobInfo, action: string)
    requires PlainTarget(base, action) && PlainInfo(info)
    ensures ParseQuery(RawQuery(ConstructUrl(base, info, action))) == Entries(SpacedInfo(info))
  {
    EntriesArePlain(info);
    JoinIsParsed(Entries(info));
    RawQueryOfUrl(base, info, action);
    IndexOfNone(Join(Entries(info)), "#");
    ReceivedEntries(info);
  }

  /** A handler reads from the URL of any plain job information every field through its character filter. */
  lemma RoundTrip(base: string, info: JobInfo, action: string, info0: JobInfo)
    requires PlainTarget(base, action) && PlainInfo(info)
    ensures ReadEntries(ParseQuery(RawQuery(ConstructUrl(base, info, action))), info0) ==
            Filtered(info, info0.gpuLimit)
  {
    ParsedUrl(base, info, action);
    ReadEntriesOf(SpacedInfo(info), info0);
    FilteredSpaced(info, info0.gpuLimit);
  }

  predicate InAlphabet(info: JobInfo) {
    && AllOf(info.uuid, IsNameChar) && AllOf(info.namespace, IsNameChar) && AllOf(info.objectName, IsNameChar)
    && AllOf(info.mode, IsNameChar) && AllOf(info.partition, IsNameChar) && AllOf(info.node, IsNameChar)
    && AllOf(info.ntasks, IsDigit) && AllOf(info.ncpus, IsDigit) && AllOf(info.ngpus, IsDigit)
    && AllOf(info.gres, IsNameChar) && AllOf(info.time, IsDigit) && AllOf(info.name, IsNameChar)
  }

  /** Exactly the fields within the alphabets of the filters arrive unchanged. */
  lemma FilteredUnchanged(info: JobInfo)
    ensures Filtered(info, info.gpuLimit) == info <==> InAlphabet(info)
  {
    FilterFixpoint(info.uuid, IsNameChar);
    FilterFixpoint(info.namespace, IsNameChar);
    FilterFixpoint(info.objectName, IsNameChar);
    FilterFixpoint(info.mode, IsNameChar);
    FilterFixpoint(info.partition, IsNameChar);
    FilterFixpoint(info.node, IsNameChar);
    FilterFixpoint(info.ntasks, IsDigit);
    FilterFixpoint(info.ncpus, IsDigit);
    FilterFixpoint(info.ngpus, IsDigit);
    FilterFixpoint(info.gres, IsNameChar);
    FilterFixpoint(info.time, IsDigit);
    FilterFixpoint(info.name, IsNameChar);
  }

  // ----- Substitution of the node ----------------------------------------------------------------

  /** A string whose last character is foreign to `p` shares no occurrence of `p` with what follows. */
  lemma NoOverlap(a: string, p: string, b: string)
    requires a != [] && a[|a| - 1] !in p && !(p <= a)
    ensures !(p <= a + p + b)
  {
    var s, last := a + p + b, |a| - 1;
    assert s[last] == a[last];
    assert |p| <= |a| ==> s[..|p|] == a[..|p|];
    assert |p| > |a| ==> p[last] in p && p[last] != s[last];
  }

  lemma IndexOfLater(s: string, p: string)
    requires s != [] && p != []
    ensures IndexOf(s, p).None? ==> !(p <= s) && IndexOf(s[1..], p).None?
    ensures !(p <= s) && IndexOf(s[1..], p).Some? ==> IndexOf(s, p) == Some(IndexOf(s[1..], p).value + 1)
  {
  }

  lemma AfterFirst(a: string, p: string, b: string)
    requires a != []
    ensures (a + p + b)[1..] == a[1..] + p + b
  {
  }

  lemma {:induction false} FirstOccurrence(a: string, p: string, b: string)
    requires p != [] && IndexOf(a, p) == None && (a != [] ==> a[|a| - 1] !in p)
    ensures IndexOf(a + p + b, p) == Some(|a|)
  {
    if a == [] {
      assert a + p + b == p + b;
    } else {
      IndexOfLater(a, p);
      NoOverlap(a, p, b);
      AfterFirst(a, p, b);
      FirstOccurrence(a[1..], p, b);
      IndexOfLater(a + p + b, p);
    }
  }

  lemma ReplaceFirstAt(a: string, p: string, b: string, replacement: string)
    requires p != [] && IndexOf(a, p) == None && (a != [] ==> a[|a| - 1] !in p)
    ensures ReplaceFirst(a + p + b, p, replacement) == a + replacement + b
  {
    FirstOccurrence(a, p, b);
    var s := a + p + b;
    assert s[..|a|] == a && s[|a| + |p|..] == b;
  }

  lemma SameTail(info: JobInfo, node: string)
    ensures Entries(info.(node := node))[5..] == Entries(info)[5..]
  {
    var info' := info.(node := node);
    forall i | 5 <= i < 12 ensures ValuesOf(info')[i] == ValuesOf(info)[i] {
      assert ValuesOf(info')[5..] == ValuesOf(info)[5..];
    }
  }

  /** Two URLs that differ in the node only. */
  lemma NodeParts(base: string, info: JobInfo, action: string, node: string) returns (a: string, b: string)
    ensures ConstructUrl(base, info, action) == a + info.node + b
    ensures ConstructUrl(base, info.(node := node), action) == a + node + b
    ensures a == Prefix(base, info, action, 4) + "node=" && a != [] && a[|a| - 1] == '='
  {
    a, b := Prefix(base, info, action, 4) + "node=", "&" + Join(Entries(info)[5..]);
    ConstructUrlAroundNode(base, info, action);
    ConstructUrlAroundNode(base, info.(node := node), action);
    SamePrefix(base, info, info.(node := node), action, 4);
    SameTail(info, node);
  }

  lemma SubstitutedNode(base: string, info: JobInfo, action: string, node: string)
    requires info.node != [] && '=' !in info.node
    requires IndexOf(Prefix(base, info, action, 4) + "node=", info.node) == None
    ensures ReplaceFirst(ConstructUrl(base, info, action), info.node, node) ==
            ConstructUrl(base, info.(node := node), action)
  {
    var a, b := NodeParts(base, info, action, node);
    ReplaceFirstAt(a, info.node, b, node);
  }

  /** In auto mode the init-container replaces the placeholder by its node before it calls the handler: when no earlier
      part of the URL holds the placeholder, this amounts to a URL constructed with that node. */
  lemma SubstitutedUrl(base: string, info: JobInfo, action: string, node: string)
    requires info.node == NODE_PLACEHOLDER
    requires IndexOf(Prefix(base, info, action, 4) + "node=", NODE_PLACEHOLDER) == None
    ensures ReplaceFirst(ConstructUrl(base, info, action), NODE_PLACEHOLDER, node) ==
            ConstructUrl(base, info.(node := node), action)
  {
    assert '=' !in NODE_PLACEHOLDER;
    SubstitutedNode(base, info, action, node);
  }

  lemma {:induction false} SamePrefix(base: string, info: JobInfo, info': JobInfo, action: string, i: nat)
    requires i <= 4 && forall j :: 0 <= j < i ==> ValuesOf(info)[j] == ValuesOf(info')[j]
    ensures Prefix(base, info, action, i) == Prefix(base, info', action, i)
  {
    if i > 0 { SamePrefix(base, info, info', action, i - 1); }
  }

  /** The round trip of auto mode: the handler reads the node of the init-container, and every other field, filtered. */
  lemma AutoRoundTrip(base: string, info: JobInfo, action: string, node: string, info0: JobInfo)
    requires PlainTarget(base, action) && PlainInfo(info) && Plain(node) && info.node == NODE_PLACEHOLDER
    requires IndexOf(Prefix(base, info, action, 4) + "node=", NODE_PLACEHOLDER) == None
    ensures ReadEntries(ParseQuery(RawQuery(ReplaceFirst(ConstructUrl(base, info, action), NODE_PLACEHOLDER, node))), info0) ==
            Filtered(info.(node := node), info0.gpuLimit)
  {
    SubstitutedUrl(base, info, action, node);
    RoundTrip(base, info.(node := node), action, info0);
  }
}
