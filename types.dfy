/**
 * The HEOS data model of types.rs: connection configuration, the response
 * header with its `k=v&k=v` message field, the enumerations and their wire
 * text, the payload records and the device error.
 */
module HeosTypes {
  import opened Wrappers
  import opened Numerals

  /** Connection configuration (host, TCP port, default player id). */
  datatype HeosConfig = HeosConfig(host: string, port: U16, player_id: I64)

  const HeosPort: U16 := 1255
  const DefaultConfig := HeosConfig("192.168.1.2", HeosPort, 0)

  /** The `heos` header present in every response; `message` defaults to "". */
  datatype Header = Header(command: string, result: string, message: string)

  /** `HeosHeader::is_success`. */
  predicate IsSuccess(h: Header) {
    h.result == "success"
  }

  /** Only the exact, lower-case "success" counts. */
  lemma IsSuccessIsExact(h: Header)
    ensures !IsSuccess(h.(result := "fail")) && !IsSuccess(h.(result := "Success")) && !IsSuccess(h.(result := "SUCCESS"))
  {
  }

  // ------------------------------------------------------------------------
  // Splitting and joining on a separator (`str::split`, `splitn(2, _)`)
  // ------------------------------------------------------------------------

  /** The pieces separated by `sep`, glued back together. */
  function Join(parts: seq<string>, sep: char): string
    requires |parts| >= 1
  {
    if |parts| == 1 then parts[0] else parts[0] + [sep] + Join(parts[1..], sep)
  }

  /** `s.split(sep)`: always at least one piece, "" for the empty string; no piece holds `sep`. */
  function Split(s: string, sep: char): (parts: seq<string>)
    ensures |parts| >= 1
    ensures forall i | 0 <= i < |parts| :: sep !in parts[i]
    ensures Join(parts, sep) == s
  {
    if s == [] then [""]
    else
      var rest := Split(s[1..], sep);
      if s[0] == sep then
        assert ([""] + rest)[1..] == rest;
        [""] + rest
      else
        var parts := [[s[0]] + rest[0]] + rest[1..];
        assert parts[1..] == rest[1..];
        assert |rest| > 1 ==> Join(rest, sep) == rest[0] + [sep] + Join(rest[1..], sep);
        assert s == [s[0]] + s[1..];
        parts
  }

  /** `s.splitn(2, sep)`: the text before the first `sep` and the text after it, if `sep` occurs. */
  function SplitOnce(s: string, sep: char): (r: Option<(string, string)>)
    ensures r.None? <==> sep !in s
    ensures r.Some? ==> sep !in r.value.0 && r.value.0 + [sep] + r.value.1 == s
  {
    if s == [] then None
    else if s[0] == sep then Some(("", s[1..]))
    else
      match SplitOnce(s[1..], sep)
      case None => None
      case Some((k, v)) =>
        assert s == [s[0]] + s[1..];
        Some(([s[0]] + k, v))
  }

  lemma {:induction false} SplitOnceAt(k: string, sep: char, v: string)
    requires sep !in k
    ensures SplitOnce(k + [sep] + v, sep) == Some((k, v))
  {
    if k != [] {
      assert (k + [sep] + v)[1..] == k[1..] + [sep] + v;
      SplitOnceAt(k[1..], sep, v);
      assert [k[0]] + k[1..] == k;
    } else {
      assert k + [sep] + v == [sep] + v;
    }
  }

  lemma {:induction false} SplitWithoutSep(s: string, sep: char)
    requires sep !in s
    ensures Split(s, sep) == [s]
  {
    if s != [] {
      SplitWithoutSep(s[1..], sep);
      assert [s[0]] + s[1..] == s;
    }
  }

  /** Splitting distributes over a separator: the pieces of `a` then those of `b`. */
  lemma {:induction false} SplitAppend(a: string, sep: char, b: string)
    ensures Split(a + [sep] + b, sep) == Split(a, sep) + Split(b, sep)
  {
    var s := a + [sep] + b;
    if a == [] {
      assert s == [sep] + b;
      assert s[1..] == b;
    } else {
      assert s[0] == a[0];
      assert s[1..] == a[1..] + [sep] + b;
      SplitAppend(a[1..], sep, b);
    }
  }

  lemma {:induction false} SplitJoin(parts: seq<string>, sep: char)
    requires |parts| >= 1
    requires forall i | 0 <= i < |parts| :: sep !in parts[i]
    ensures Split(Join(parts, sep), sep) == parts
  {
    if |parts| == 1 {
      SplitWithoutSep(parts[0], sep);
    } else {
      SplitJoin(parts[1..], sep);
      SplitAppend(parts[0], sep, Join(parts[1..], sep));
      SplitWithoutSep(parts[0], sep);
      assert [parts[0]] + parts[1..] == parts;
    }
  }

  // ------------------------------------------------------------------------
  // The message field
  // ------------------------------------------------------------------------

  /** The `filter_map` of `parse_message`: each piece split at its first '=', pieces without '=' dropped. */
  function Pairs(pieces: seq<string>): (ps: seq<(string, string)>)
    ensures |ps| <= |pieces|
    ensures forall i | 0 <= i < |ps| :: '=' !in ps[i].0
  {
    if pieces == [] then []
    else
      (match SplitOnce(pieces[0], '=')
       case None => []
       case Some(p) => [p])
      + Pairs(pieces[1..])
  }

  lemma {:induction false} PairsAppend(a: seq<string>, b: seq<string>)
    ensures Pairs(a + b) == Pairs(a) + Pairs(b)
  {
    if a != [] {
      assert (a + b)[0] == a[0];
      assert (a + b)[1..] == a[1..] + b;
      PairsAppend(a[1..], b);
    } else {
      assert a + b == b;
    }
  }

  /** The `collect` into a map: pairs inserted in order, so a later key overwrites an earlier one. */
  function Collect(ps: seq<(string, string)>): (m: map<string, string>)
    ensures m.Keys == set i | 0 <= i < |ps| :: ps[i].0
    ensures forall i | 0 <= i < |ps| :: (forall j | i < j < |ps| :: ps[j].0 != ps[i].0) ==> m[ps[i].0] == ps[i].1
  {
    if ps == [] then map[]
    else
      var init := ps[..|ps| - 1];
      var last := ps[|ps| - 1];
      assert ps == init + [last];
      var m0 := Collect(init);
      CollectSnoc(init, last, m0);
      m0[last.0 := last.1]
  }

  /** Inserting one more pair keeps `Collect`'s description of the map. */
  lemma CollectSnoc(init: seq<(string, string)>, last: (string, string), m0: map<string, string>)
    requires m0.Keys == set i | 0 <= i < |init| :: init[i].0
    requires forall i | 0 <= i < |init| :: (forall j | i < j < |init| :: init[j].0 != init[i].0) ==> m0[init[i].0] == init[i].1
    ensures var ps, m := init + [last], m0[last.0 := last.1];
      && m.Keys == (set i | 0 <= i < |ps| :: ps[i].0)
      && (forall i | 0 <= i < |ps| :: (forall j | i < j < |ps| :: ps[j].0 != ps[i].0) ==> m[ps[i].0] == ps[i].1)
  {
    var ps, m := init + [last], m0[last.0 := last.1];
    assert forall i | 0 <= i < |init| :: ps[i] == init[i];
    var before, after := (set i | 0 <= i < |init| :: init[i].0), (set i | 0 <= i < |ps| :: ps[i].0);
    assert ps[|init|] == last;
    forall x | x in after ensures x in before + {last.0} {
      var i :| 0 <= i < |ps| && ps[i].0 == x;
      if i < |init| {
        assert init[i].0 == x;
      }
    }
    forall x | x in before + {last.0} ensures x in after {
      if x != last.0 {
        var i :| 0 <= i < |init| && init[i].0 == x;
        assert ps[i].0 == x;
      }
    }
    assert after == before + {last.0};
    forall i | 0 <= i < |ps| && (forall j | i < j < |ps| :: ps[j].0 != ps[i].0)
      ensures m[ps[i].0] == ps[i].1
    {
      if i < |init| {
        assert ps[|ps| - 1] == last;
        assert forall j | i < j < |init| :: init[j] == ps[j];
      }
    }
  }

  /** Pieces without '&' give pairs without '&'. */
  lemma {:induction false} PairsKeepPlain(pieces: seq<string>)
    requires forall i | 0 <= i < |pieces| :: '&' !in pieces[i]
    ensures forall i | 0 <= i < |Pairs(pieces)| :: '&' !in Pairs(pieces)[i].0 && '&' !in Pairs(pieces)[i].1
  {
    if pieces != [] {
      PairsKeepPlain(pieces[1..]);
    }
  }

  /** Every entry of a collected map is one of the pairs. */
  lemma {:induction false} CollectFromPairs(ps: seq<(string, string)>)
    ensures forall k | k in Collect(ps) :: (k, Collect(ps)[k]) in ps
  {
    if ps != [] {
      var init, last := ps[..|ps| - 1], ps[|ps| - 1];
      assert ps == init + [last];
      CollectFromPairs(init);
    }
  }

  /** `HeosHeader::parse_message`: every key is free of '&' and '=', every value of '&'. */
  function ParseMessage(message: string): (m: map<string, string>)
    ensures forall k | k in m :: '&' !in k && '=' !in k && '&' !in m[k]
  {
    var ps := Pairs(Split(message, '&'));
    var m := Collect(ps);
    PairsKeepPlain(Split(message, '&'));
    CollectFromPairs(ps);
    forall k | k in m ensures '&' !in k && '=' !in k && '&' !in m[k] {
      var i :| 0 <= i < |ps| && ps[i] == (k, m[k]);
    }
    m
  }

  /** A list of `key=value` entries joined by '&', the form of a command's query string. */
  function EncodeMessage(entries: seq<(string, string)>): (r: string)
    ensures entries == [] ==> r == ""
    ensures WellFormedEntries(entries) && entries != [] ==> Split(r, '&') == EntryTexts(entries)
  {
    if entries == [] then ""
    else
      EncodeSplits(entries);
      Join(EntryTexts(entries), '&')
  }

  /** Well-formed entries are exactly the '&'-pieces of their encoding. */
  lemma EncodeSplits(entries: seq<(string, string)>)
    requires entries != []
    ensures WellFormedEntries(entries) ==> Split(Join(EntryTexts(entries), '&'), '&') == EntryTexts(entries)
  {
    if WellFormedEntries(entries) {
      var texts := EntryTexts(entries);
      forall i | 0 <= i < |texts| ensures '&' !in texts[i] {
        assert texts[i] == entries[i].0 + "=" + entries[i].1;
      }
      SplitJoin(texts, '&');
    }
  }

  function EntryTexts(entries: seq<(string, string)>): (texts: seq<string>)
    ensures |texts| == |entries|
    ensures forall i | 0 <= i < |entries| :: texts[i] == entries[i].0 + "=" + entries[i].1
  {
    if entries == [] then [] else [entries[0].0 + "=" + entries[0].1] + EntryTexts(entries[1..])
  }

  /** Entries that survive the trip through the message field: no '&' anywhere and no '=' in a key (a value may hold '='). */
  predicate WellFormedEntries(entries: seq<(string, string)>) {
    forall i | 0 <= i < |entries| :: '&' !in entries[i].0 && '=' !in entries[i].0 && '&' !in entries[i].1
  }

  lemma {:induction false} PairsOfEntryTexts(entries: seq<(string, string)>)
    requires forall i | 0 <= i < |entries| :: '=' !in entries[i].0
    ensures Pairs(EntryTexts(entries)) == entries
  {
    if entries != [] {
      var texts := EntryTexts(entries);
      SplitOnceAt(entries[0].0, '=', entries[0].1);
      assert texts[1..] == EntryTexts(entries[1..]);
      PairsOfEntryTexts(entries[1..]);
      assert [entries[0]] + entries[1..] == entries;
    }
  }

  /** Parsing what was encoded gives the entries back as a map, the last entry winning on a repeated key. */
  lemma ParseEncodeMessage(entries: seq<(string, string)>)
    requires WellFormedEntries(entries)
    ensures ParseMessage(EncodeMessage(entries)) == Collect(entries)
  {
    if entries == [] {
      assert Split("", '&') == [""];
      assert SplitOnce("", '=') == None;
      assert Pairs([""]) == [];
    } else {
      var texts := EntryTexts(entries);
      forall i | 0 <= i < |texts| ensures '&' !in texts[i] {
        assert texts[i] == entries[i].0 + "=" + entries[i].1;
      }
      SplitJoin(texts, '&');
      PairsOfEntryTexts(entries);
    }
  }

  /** An empty message yields an empty map. */
  lemma ParseEmptyMessage()
    ensures ParseMessage("") == map[]
  {
    ParseEncodeMessage([]);
  }

  /** A piece without '=' is dropped wherever it stands, not an error. */
  lemma ParseDropsMalformed(message: string, junk: string)
    requires '=' !in junk && '&' !in junk
    ensures ParseMessage(message + "&" + junk) == ParseMessage(message)
    ensures ParseMessage(junk + "&" + message) == ParseMessage(message)
  {
    SplitAppend(message, '&', junk);
    SplitAppend(junk, '&', message);
    SplitWithoutSep(junk, '&');
    PairsAppend(Split(message, '&'), [junk]);
    PairsAppend([junk], Split(message, '&'));
    assert Pairs([junk]) == [] by {
      assert SplitOnce(junk, '=') == None;
    }
    assert Pairs(Split(message, '&')) + [] == Pairs(Split(message, '&'));
    assert [] + Pairs(Split(message, '&')) == Pairs(Split(message, '&'));
  }

  /** A pair appended at the end overrides any earlier value of its key, and its value keeps every '='. */
  lemma ParseLastWins(message: string, key: string, value: string)
    requires '&' !in key && '=' !in key && '&' !in value
    ensures ParseMessage(message + "&" + key + "=" + value) == ParseMessage(message)[key := value]
  {
    var piece := key + "=" + value;
    assert message + "&" + key + "=" + value == message + "&" + piece;
    SplitAppend(message, '&', piece);
    SplitWithoutSep(piece, '&');
    SplitOnceAt(key, '=', value);
    var ps := Pairs(Split(message, '&'));
    PairsAppend(Split(message, '&'), [piece]);
    assert Pairs([piece]) == [(key, value)];
    assert (ps + [(key, value)])[..|ps|] == ps;
  }

  /** A message of one pair. */
  lemma ParseSingle(k: string, v: string)
    requires '&' !in k && '=' !in k && '&' !in v
    ensures ParseMessage(k + "=" + v) == map[k := v]
  {
    var piece := k + "=" + v;
    assert '&' !in piece by {
      assert forall i | 0 <= i < |piece| :: piece[i] == (if i < |k| then k[i] else if i == |k| then '=' else v[i - |k| - 1]);
    }
    SplitWithoutSep(piece, '&');
    SplitOnceAt(k, '=', v);
    assert Pairs([piece]) == [(k, v)];
  }

  /** A message of two pairs with distinct keys. */
  lemma ParseTwo(k1: string, v1: string, k2: string, v2: string)
    requires '&' !in k1 && '=' !in k1 && '&' !in v1
    requires '&' !in k2 && '=' !in k2 && '&' !in v2
    ensures ParseMessage(k1 + "=" + v1 + "&" + k2 + "=" + v2) == map[k1 := v1, k2 := v2]
  {
    ParseSingle(k1, v1);
    ParseLastWins(k1 + "=" + v1, k2, v2);
  }

  /** The text of a two-entry message. */
  lemma EncodeTwo(k1: string, v1: string, k2: string, v2: string)
    ensures EncodeMessage([(k1, v1), (k2, v2)]) == k1 + "=" + v1 + "&" + k2 + "=" + v2
  {
    var texts := EntryTexts([(k1, v1), (k2, v2)]);
    assert texts == [k1 + "=" + v1, k2 + "=" + v2];
    assert texts[1..] == [k2 + "=" + v2];
    assert Join(texts, '&') == (k1 + "=" + v1) + "&" + (k2 + "=" + v2);
  }

  /** The example from the client's unit test. */
  lemma ParseMessageExample()
    ensures ParseMessage("pid=123&level=50") == map["pid" := "123", "level" := "50"]
  {
    assert "pid" + "=" + "123" + "&" + "level" + "=" + "50" == "pid=123&level=50";
    ParseTwo("pid", "123", "level", "50");
  }

  /** Only the first '=' splits a pair. */
  lemma ParseKeepsLaterEquals()
    ensures ParseMessage("url=a=b") == map["url" := "a=b"]
  {
    var entries := [("url", "a=b")];
    var texts := EntryTexts(entries);
    assert texts[0] == "url" + "=" + "a=b" == "url=a=b";
    assert texts == ["url=a=b"];
    assert EncodeMessage(entries) == "url=a=b";
    ParseEncodeMessage(entries);
  }

  /** The value under `key`, as `HashMap::get`. */
  function Lookup(m: map<string, string>, key: string): (r: Option<string>)
    ensures r.Some? <==> key in m
    ensures r.Some? ==> r.value == m[key]
  {
    if key in m then Some(m[key]) else None
  }

  // ------------------------------------------------------------------------
  // Case folding (ASCII only)
  // ------------------------------------------------------------------------

  function LowerChar(c: char): char {
    if 'A' <= c <= 'Z' then (c as int + 32) as char else c
  }

  /** `to_lowercase`, restricted to ASCII letters. */
  function Lower(s: string): (r: string)
    ensures |r| == |s|
    ensures forall i | 0 <= i < |s| :: r[i] == LowerChar(s[i])
  {
    if s == [] then [] else [LowerChar(s[0])] + Lower(s[1..])
  }

  function UpperChar(c: char): char {
    if 'a' <= c <= 'z' then (c as int - 32) as char else c
  }

  function Upper(s: string): (r: string)
    ensures |r| == |s|
    ensures forall i | 0 <= i < |s| :: r[i] == UpperChar(s[i])
  {
    if s == [] then [] else [UpperChar(s[0])] + Upper(s[1..])
  }

  /** Folding is insensitive to an earlier change of case. */
  lemma LowerOfUpper(s: string)
    ensures Lower(Upper(s)) == Lower(s)
  {
    forall i | 0 <= i < |s| ensures Lower(Upper(s))[i] == Lower(s)[i] {
    }
  }

  // ------------------------------------------------------------------------
  // Enumerations and their wire text
  // ------------------------------------------------------------------------

  datatype PlayState = Play | Pause | Stop

  /** `Display for PlayState`. */
  function PlayStateText(p: PlayState): (t: string)
    ensures t != [] && '&' !in t && '=' !in t
    ensures forall i | 0 <= i < |t| :: 'a' <= t[i] <= 'z' || t[i] == '_'
  {
    match p
    case Play => "play"
    case Pause => "pause"
    case Stop => "stop"
  }

  /** `FromStr for PlayState`: case-insensitive; anything else is an error naming the input. */
  function ParsePlayState(s: string): (r: Result<PlayState, string>)
    ensures r.Ok? ==> Lower(s) == PlayStateText(r.value)
    ensures r.Err? ==> r.error == "Unknown play state: " + s
    ensures r.Err? ==> forall p :: Lower(s) != PlayStateText(p)
  {
    var l := Lower(s);
    if l == "play" then Ok(Play)
    else if l == "pause" then Ok(Pause)
    else if l == "stop" then Ok(Stop)
    else Err("Unknown play state: " + s)
  }

  /** Every play state reads back from its text, in any case. */
  lemma PlayStateRoundTrip(p: PlayState)
    ensures ParsePlayState(PlayStateText(p)) == Ok(p)
    ensures ParsePlayState(Upper(PlayStateText(p))) == Ok(p)
  {
    var t := PlayStateText(p);
    assert Lower(t) == t;
    LowerOfUpper(t);
  }

  /** A string parses to `p` exactly when its lowercase form is the text of `p`. */
  lemma ParsePlayStateExactly(s: string, p: PlayState)
    ensures ParsePlayState(s) == Ok(p) <==> Lower(s) == PlayStateText(p)
  {
  }

  datatype MuteState = MuteOn | MuteOff

  /** `Display for MuteState`. */
  function MuteStateText(m: MuteState): (t: string)
    ensures t != [] && '&' !in t && '=' !in t
    ensures forall i | 0 <= i < |t| :: 'a' <= t[i] <= 'z' || t[i] == '_'
  {
    match m
    case MuteOn => "on"
    case MuteOff => "off"
  }

  /** `FromStr for MuteState`: case-insensitive "on" / "off"; anything else is an error naming the input. */
  function ParseMuteState(s: string): (r: Result<MuteState, string>)
    ensures r.Ok? ==> Lower(s) == MuteStateText(r.value)
    ensures r.Err? ==> r.error == "Unknown mute state: " + s
    ensures r.Err? ==> forall m :: Lower(s) != MuteStateText(m)
  {
    var l := Lower(s);
    if l == "on" then Ok(MuteOn)
    else if l == "off" then Ok(MuteOff)
    else Err("Unknown mute state: " + s)
  }

  lemma MuteStateRoundTrip(m: MuteState)
    ensures ParseMuteState(MuteStateText(m)) == Ok(m)
    ensures ParseMuteState(Upper(MuteStateText(m))) == Ok(m)
  {
    var t := MuteStateText(m);
    assert Lower(t) == t;
    LowerOfUpper(t);
  }

  lemma ParseMuteStateExactly(s: string, m: MuteState)
    ensures ParseMuteState(s) == Ok(m) <==> Lower(s) == MuteStateText(m)
  {
  }

  datatype RepeatMode = RepeatOff | RepeatOne | RepeatAll

  /** `Display for RepeatMode`. */
  function RepeatModeText(r: RepeatMode): (t: string)
    ensures t != [] && '&' !in t && '=' !in t
    ensures forall i | 0 <= i < |t| :: 'a' <= t[i] <= 'z' || t[i] == '_'
  {
    match r
    case RepeatOff => "off"
    case RepeatOne => "on_one"
    case RepeatAll => "on_all"
  }

  datatype ShuffleMode = ShuffleOn | ShuffleOff

  /** `Display for ShuffleMode`. */
  function ShuffleModeText(s: ShuffleMode): (t: string)
    ensures t != [] && '&' !in t && '=' !in t
    ensures forall i | 0 <= i < |t| :: 'a' <= t[i] <= 'z' || t[i] == '_'
  {
    match s
    case ShuffleOn => "on"
    case ShuffleOff => "off"
  }

  /** Distinct modes have distinct wire texts. */
  lemma ModeTextsInjective(a: RepeatMode, b: RepeatMode, x: ShuffleMode, y: ShuffleMode)
    ensures RepeatModeText(a) == RepeatModeText(b) ==> a == b
    ensures ShuffleModeText(x) == ShuffleModeText(y) ==> x == y
  {
  }

  // ------------------------------------------------------------------------
  // Payload records
  // ------------------------------------------------------------------------

  datatype Player = Player(
    name: string, pid: I64, model: string, version: string,
    ip: Option<string>, network: Option<string>, lineout: Option<U8>, serial: Option<string>)

  datatype NowPlayingMedia = NowPlayingMedia(
    media_type: Option<string>, song: Option<string>, album: Option<string>, artist: Option<string>,
    image_url: Option<string>, mid: Option<string>, qid: Option<I64>, sid: Option<I64>, station: Option<string>)

  /** `NowPlayingMedia::default()`: every field absent. */
  const NoMedia := NowPlayingMedia(None, None, None, None, None, None, None, None, None)

  datatype MusicSource = MusicSource(
    name: string, image_url: Option<string>, source_type: string, sid: I64,
    available: Option<string>, service_username: Option<string>)

  // ------------------------------------------------------------------------
  // Device error
  // ------------------------------------------------------------------------

  /** `HeosError`: the code and text a device reports for a failed command. */
  datatype HeosError = HeosError(code: I32, message: string)

  /** `Display for HeosError`: the prefix, the code's text that reads back as the code, ": ", the message. */
  function HeosErrorText(e: HeosError): (t: string)
    ensures |t| > |"HEOS Error "| + |e.message| && t[..11] == "HEOS Error "
    ensures t[|t| - |e.message|..] == e.message
    ensures exists d :: t == "HEOS Error " + d + ": " + e.message && ParseI32(d) == Some(e.code)
  {
    var d := IntToString(e.code);
    I32RoundTrip(e.code);
    "HEOS Error " + d + ": " + e.message
  }
}
