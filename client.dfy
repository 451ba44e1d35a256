/**
 * The HEOS client of client.rs: one optional connection, CRLF framing of a
 * command, a line read back, JSON decoding of the envelope and translation of
 * a failed header into `HeosError`.
 *
 * The network is a script. `dials` are the outcomes of successive connection
 * attempts, `replies` the successive lines the device answers, and `sent` the
 * log of every frame written to the socket. The pure functions `Dial`,
 * `Ensure`, `Exchange`, `TypedExchange` and `SimpleExchange` state what one
 * step does to that state; the methods of `HeosClient` carry it out on the
 * object's fields and are proved equal to them.
 */
module Client {
  import opened Wrappers
  import opened Numerals
  import opened HeosTypes

  /** A decoded payload, one variant per record shape the commands ask for. */
  datatype Payload =
    | PlayerList(players: seq<Player>)
    | PlayerRecord(player: Player)
    | MediaRecord(media: NowPlayingMedia)
    | SourceList(sources: seq<MusicSource>)

  /** The type parameter `T` of `HeosResponse<T>`; `NoPayload` is `()`. */
  datatype Shape = NoPayload | PlayersShape | PlayerShape | MediaShape | SourcesShape

  /** Whether a payload deserialises as `Option<T>`: an absent payload always does, `()` accepts no present one. */
  predicate Fits(p: Option<Payload>, shape: Shape) {
    match p
    case None => true
    case Some(x) =>
      match shape
      case NoPayload => false
      case PlayersShape => x.PlayerList?
      case PlayerShape => x.PlayerRecord?
      case MediaShape => x.MediaRecord?
      case SourcesShape => x.SourceList?
  }

  /** `HeosResponse<T>`: the header and the optional payload. */
  datatype Envelope = Envelope(heos: Header, payload: Option<Payload>)

  datatype DialOutcome = Accepted | Refused(reason: string)

  /** One line from the device with its JSON decoding (None: not a valid envelope), or an I/O error. */
  datatype Reply = Line(raw: string, json: Option<Envelope>) | Broken(reason: string)

  datatype Network = Network(dials: seq<DialOutcome>, replies: seq<Reply>, sent: seq<string>)

  /** The connection flag (`stream.is_some()`) together with the network. */
  datatype Link = Link(connected: bool, net: Network)

  /** What `send_command` returns: the trimmed line, with the decoding of it. */
  datatype Response = Response(text: string, json: Option<Envelope>)

  /** The error kinds behind `Box<dyn Error>`: could not reach, could not decode, device refused, local check. */
  datatype HeosFailure =
    | Transport(reason: string)
    | Protocol(reason: string)
    | Device(error: HeosError)
    | Local(reason: string)

  /** The link after a step, and what the step returned. */
  datatype Sent<T> = Sent(link: Link, result: Result<T, HeosFailure>)

  const Unreachable := "connection refused"
  const Malformed := "response is not a valid HEOS envelope"

  // ------------------------------------------------------------------------
  // Framing
  // ------------------------------------------------------------------------

  /** What is written for a command: the command and a CRLF terminator. */
  function Frame(command: string): (f: string)
    ensures |f| == |command| + 2 && f[..|command|] == command && f[|command|..] == "\r\n"
  {
    command + "\r\n"
  }

  lemma FrameInjective(a: string, b: string)
    ensures Frame(a) == Frame(b) ==> a == b
  {
    if Frame(a) == Frame(b) {
      assert a == Frame(a)[..|a|];
    }
  }

  /** Unicode White_Space, the characters `str::trim` removes. */
  predicate IsWhitespace(c: char) {
    ('\t' <= c <= '\r') || c == ' ' || c == '\U{85}' || c == '\U{A0}' || c == '\U{1680}'
    || ('\U{2000}' <= c <= '\U{200A}') || c == '\U{2028}' || c == '\U{2029}'
    || c == '\U{202F}' || c == '\U{205F}' || c == '\U{3000}'
  }

  function TrimStart(s: string): (r: string)
    ensures |r| <= |s| && r == s[|s| - |r|..]
    ensures forall k | 0 <= k < |s| - |r| :: IsWhitespace(s[k])
    ensures r != [] ==> !IsWhitespace(r[0])
  {
    if s != [] && IsWhitespace(s[0]) then
      var r := TrimStart(s[1..]);
      assert s[1..][|s| - 1 - |r|..] == s[|s| - |r|..];
      assert forall k | 1 <= k < |s| - |r| :: s[k] == s[1..][k - 1];
      r
    else s
  }

  function TrimEnd(s: string): (r: string)
    ensures |r| <= |s| && r == s[..|r|]
    ensures forall k | |r| <= k < |s| :: IsWhitespace(s[k])
    ensures r != [] ==> !IsWhitespace(r[|r| - 1])
  {
    if s != [] && IsWhitespace(s[|s| - 1]) then
      var r := TrimEnd(s[..|s| - 1]);
      assert s[..|s| - 1][..|r|] == s[..|r|];
      assert forall k | |r| <= k < |s| - 1 :: s[k] == s[..|s| - 1][k];
      r
    else s
  }

  /** `r` stands at index `i` of `s`, with only whitespace before and after it. */
  predicate Surrounds(s: string, r: string, i: nat) {
    && i + |r| <= |s|
    && r == s[i..i + |r|]
    && (forall k | 0 <= k < i :: IsWhitespace(s[k]))
    && (forall k | i + |r| <= k < |s| :: IsWhitespace(s[k]))
  }

  /** `str::trim`: the infix of `s` that neither starts nor ends with whitespace, all around it whitespace. */
  function Trim(s: string): (r: string)
    ensures exists i: nat :: Surrounds(s, r, i)
    ensures r != [] ==> !IsWhitespace(r[0]) && !IsWhitespace(r[|r| - 1])
  {
    var e := TrimEnd(s);
    var r := TrimStart(e);
    TrimWitness(s, e, r);
    r
  }

  /** Trimming the end and then the start leaves an infix with only whitespace around it. */
  lemma TrimWitness(s: string, e: string, r: string)
    requires |e| <= |s| && e == s[..|e|] && forall k | |e| <= k < |s| :: IsWhitespace(s[k])
    requires |r| <= |e| && r == e[|e| - |r|..] && forall k | 0 <= k < |e| - |r| :: IsWhitespace(e[k])
    ensures Surrounds(s, r, |e| - |r|)
    ensures r != [] ==> r[0] == e[|e| - |r|] && r[|r| - 1] == e[|e| - 1]
  {
    var i := |e| - |r|;
    assert r == s[i..i + |r|];
    forall k | 0 <= k < i ensures IsWhitespace(s[k]) {
      assert s[k] == e[k];
    }
  }

  /** A line the device ends with CRLF reads back as the bare line. */
  lemma TrimFramedLine(line: string)
    requires line == [] || (!IsWhitespace(line[0]) && !IsWhitespace(line[|line| - 1]))
    ensures Trim(Frame(line)) == line
  {
    var f := Frame(line);
    assert TrimEnd(f[..|f| - 1]) == TrimEnd(line + "\r");
    assert (line + "\r")[..|line|] == line;
    assert TrimEnd(f) == line;
    assert TrimStart(line) == line;
  }

  // ------------------------------------------------------------------------
  // The connection state machine
  // ------------------------------------------------------------------------

  /** `connect`: one connection attempt; success sets the connection, failure leaves the old one. */
  function Dial(l: Link): (r: Sent<()>)
    ensures r.result.Ok? <==> l.net.dials != [] && l.net.dials[0].Accepted?
    ensures r.result.Err? ==> r.result.error.Transport?
    ensures r.link.connected == (l.connected || r.result.Ok?)
    ensures r.link.net.sent == l.net.sent && r.link.net.replies == l.net.replies
    ensures r.link.net.dials == if l.net.dials == [] then [] else l.net.dials[1..]
  {
    if l.net.dials == [] then Sent(l, Err(Transport(Unreachable)))
    else
      var net := l.net.(dials := l.net.dials[1..]);
      match l.net.dials[0]
      case Accepted => Sent(Link(true, net), Ok(()))
      case Refused(why) => Sent(Link(l.connected, net), Err(Transport(why)))
  }

  /** `ensure_connected`: attempts a connection only when there is none. */
  function Ensure(l: Link): (r: Sent<()>)
    ensures l.connected ==> r == Sent(l, Ok(()))
    ensures !l.connected ==> r == Dial(l)
    ensures r.result.Ok? <==> r.link.connected
    ensures r.link.net.sent == l.net.sent && r.link.net.replies == l.net.replies
  {
    if l.connected then Sent(l, Ok(())) else Dial(l)
  }

  /**
   * `send_command`: ensure a connection, write the frame, read one line and
   * trim it. Nothing is written when no connection can be had. A script with
   * no reply left behaves as a closed stream: `read_line` reads nothing.
   */
  function Exchange(l: Link, command: string): (r: Sent<Response>)
    ensures r.link.net.sent == l.net.sent + [Frame(command)] || r.link.net.sent == l.net.sent
    ensures r.link.net.sent == l.net.sent <==> !Ensure(l).link.connected
    ensures r.link.net.sent == l.net.sent ==> r.result == Err(Ensure(l).result.error) && r.link == Ensure(l).link
    ensures r.link.connected == Ensure(l).link.connected
    ensures l.connected ==> r.link.net.dials == l.net.dials
    ensures r.result.Ok? ==> |r.link.net.sent| == |l.net.sent| + 1
    ensures l.connected ==> r.link.connected && r.link.net.sent == l.net.sent + [Frame(command)]
    ensures Ensure(l).link.connected && l.net.replies == [] ==>
      r.result == Ok(Response("", None)) && r.link.net.replies == []
    ensures Ensure(l).link.connected && l.net.replies != [] ==> r.link.net.replies == l.net.replies[1..]
    ensures Ensure(l).link.connected && l.net.replies != [] && l.net.replies[0].Line? ==>
      r.result == Ok(Response(Trim(l.net.replies[0].raw), l.net.replies[0].json))
    ensures Ensure(l).link.connected && l.net.replies != [] && l.net.replies[0].Broken? ==>
      r.result == Err(Transport(l.net.replies[0].reason))
  {
    var e := Ensure(l);
    if e.result.Err? then Sent(e.link, Err(e.result.error))
    else
      var net := e.link.net.(sent := e.link.net.sent + [Frame(command)]);
      if net.replies == [] then Sent(Link(true, net), Ok(Response("", None)))
      else
        var rest := net.(replies := net.replies[1..]);
        match net.replies[0]
        case Line(raw, json) => Sent(Link(true, rest), Ok(Response(Trim(raw), json)))
        case Broken(why) => Sent(Link(true, rest), Err(Transport(why)))
  }

  /** A device line framed with CRLF comes back as exactly that line, and the reply is consumed. */
  lemma ExchangeReadsFramedLine(l: Link, command: string, line: string, json: Option<Envelope>, rest: seq<Reply>)
    requires l.connected && l.net.replies == [Line(Frame(line), json)] + rest
    requires line == [] || (!IsWhitespace(line[0]) && !IsWhitespace(line[|line| - 1]))
    ensures Exchange(l, command) == Sent(Link(true, Network(l.net.dials, rest, l.net.sent + [Frame(command)])), Ok(Response(line, json)))
  {
    TrimFramedLine(line);
    assert Ensure(l) == Sent(l, Ok(()));
    assert l.net.replies[0] == Line(Frame(line), json) && l.net.replies[1..] == rest;
    var r := Exchange(l, command);
    assert r.result == Ok(Response(line, json));
    assert r.link.net == Network(l.net.dials, rest, l.net.sent + [Frame(command)]);
  }

  // ------------------------------------------------------------------------
  // Decoding and error translation
  // ------------------------------------------------------------------------

  /** `serde_json::from_str::<HeosResponse<T>>` on a response, with the shape of `T`. */
  function Decode(resp: Response, shape: Shape): (r: Result<Envelope, HeosFailure>)
    ensures r.Ok? <==> resp.json.Some? && Fits(resp.json.value.payload, shape)
    ensures r.Ok? ==> r.value == resp.json.value
    ensures r.Err? ==> r.error.Protocol?
  {
    match resp.json
    case None => Err(Protocol(Malformed))
    case Some(env) => if Fits(env.payload, shape) then Ok(env) else Err(Protocol(Malformed))
  }

  /** The error of a failed header: `eid` as i32, or -1; `text`, or "Unknown error". */
  function ErrorFromHeader(h: Header): (e: HeosError)
    ensures var m := ParseMessage(h.message);
      && ("eid" in m && ParseI32(m["eid"]).Some? ==> e.code == ParseI32(m["eid"]).value)
      && ("eid" !in m || ParseI32(m["eid"]).None? ==> e.code == -1)
      && ("text" in m ==> e.message == m["text"])
      && ("text" !in m ==> e.message == "Unknown error")
  {
    var m := ParseMessage(h.message);
    var code := match Lookup(m, "eid") case Some(s) => (match ParseI32(s) case Some(c) => c case None => -1) case None => -1;
    var text := match Lookup(m, "text") case Some(t) => t case None => "Unknown error";
    HeosError(code, text)
  }

  /** The success test shared by both typed and simple sends. */
  function CheckHeader(h: Header): (r: Result<Header, HeosFailure>)
    ensures r.Ok? <==> IsSuccess(h)
    ensures r.Ok? ==> r.value == h
    ensures r.Err? ==> r.error == Device(ErrorFromHeader(h))
  {
    if IsSuccess(h) then Ok(h) else Err(Device(ErrorFromHeader(h)))
  }

  /** A device that reports `eid=<code>&text=<text>` yields exactly that error. */
  lemma ErrorFromReportedHeader(command: string, code: I32, text: string)
    requires '&' !in text
    ensures ErrorFromHeader(Header(command, "fail", EncodeMessage([("eid", IntToString(code)), ("text", text)]))) == HeosError(code, text)
  {
    IntTextIsPlain(code);
    EncodeTwo("eid", IntToString(code), "text", text);
    ParseTwo("eid", IntToString(code), "text", text);
    I32RoundTrip(code);
  }

  /** The keys of an error message and the text of code 3 hold no separator. */
  lemma ErrorKeysArePlain()
    ensures '&' !in "eid" && '=' !in "eid" && '&' !in "3" && '&' !in "text" && '=' !in "text"
    ensures IntToString(3) == "3"
  {
  }

  /** The message of a wrong-arguments rejection, as its parts. */
  lemma WrongArgumentsParts(text: string)
    ensures "eid=3&text=" + text == "eid" + "=" + "3" + "&" + "text" + "=" + text
  {
  }

  /** A rejection with `eid=3` (wrong arguments) yields error 3 with the device's text. */
  lemma WrongArgumentsExample(command: string, text: string)
    requires '&' !in text
    ensures CheckHeader(Header(command, "fail", "eid=3&text=" + text)) == Err(Device(HeosError(3, text)))
  {
    var h := Header(command, "fail", "eid=3&text=" + text);
    WrongArgumentsParts(text);
    ErrorKeysArePlain();
    ParseTwo("eid", "3", "text", text);
    I32RoundTrip(3);
  }

  /** A failed header without `eid` or `text` gets both defaults. */
  lemma ErrorDefaults(command: string)
    ensures ErrorFromHeader(Header(command, "fail", "")) == HeosError(-1, "Unknown error")
  {
    ParseEmptyMessage();
  }

  /** `send_command_parsed::<T>`: exchange, decode as `T`, then check the header. */
  function TypedExchange(l: Link, command: string, shape: Shape): (r: Sent<Envelope>)
    ensures r.link == Exchange(l, command).link
    ensures r.result.Ok? ==> r.link.connected
    ensures r.result.Ok? ==> IsSuccess(r.result.value.heos) && Fits(r.result.value.payload, shape)
    ensures r.result.Ok? ==> Exchange(l, command).result.Ok? && Exchange(l, command).result.value.json == Some(r.result.value)
    ensures r.result.Err? && r.result.error.Device? ==>
      exists env :: Exchange(l, command).result.Ok? && Exchange(l, command).result.value.json == Some(env)
        && !IsSuccess(env.heos) && r.result.error.error == ErrorFromHeader(env.heos)
    ensures var x := Exchange(l, command);
      x.result.Err? ==> r.result == Err(x.result.error)
    ensures var x := Exchange(l, command);
      x.result.Ok? && Decode(x.result.value, shape).Err? ==> r.result == Err(Decode(x.result.value, shape).error)
    ensures var x := Exchange(l, command);
      x.result.Ok? && Decode(x.result.value, shape).Ok? ==>
        var env := Decode(x.result.value, shape).value;
        r.result == if IsSuccess(env.heos) then Ok(env) else Err(Device(ErrorFromHeader(env.heos)))
  {
    var x := Exchange(l, command);
    match x.result
    case Err(e) => Sent(x.link, Err(e))
    case Ok(resp) =>
      match Decode(resp, shape)
      case Err(e) => Sent(x.link, Err(e))
      case Ok(env) =>
        match CheckHeader(env.heos)
        case Err(e) => Sent(x.link, Err(e))
        case Ok(_) => Sent(x.link, Ok(env))
  }

  /** `send_command_simple`: as the typed send with `T = ()`, returning the header only. */
  function SimpleExchange(l: Link, command: string): (r: Sent<Header>)
    ensures r.link == Exchange(l, command).link
    ensures r.result.Ok? ==> r.link.connected
    ensures r.result.Ok? ==> IsSuccess(r.result.value)
    ensures r.result.Ok? <==> TypedExchange(l, command, NoPayload).result.Ok?
    ensures r.result.Ok? ==> r.result.value == TypedExchange(l, command, NoPayload).result.value.heos
    ensures r.result.Err? ==> r.result.error == TypedExchange(l, command, NoPayload).result.error
  {
    var t := TypedExchange(l, command, NoPayload);
    match t.result
    case Err(e) => Sent(t.link, Err(e))
    case Ok(env) => Sent(t.link, Ok(env.heos))
  }

  // ------------------------------------------------------------------------
  // The client object
  // ------------------------------------------------------------------------

  class HeosClient {
    var config: HeosConfig
    var connected: bool
    var net: Network

    /** The connection flag and the network, as one value for the specifications. */
    function Session(): Link
      reads this
    {
      Link(connected, net)
    }

    /** `HeosClient::new`: the given configuration, not connected. */
    constructor (config: HeosConfig, net: Network)
      ensures this.config == config && !connected && this.net == net
    {
      this.config := config;
      this.connected := false;
      this.net := net;
    }

    /** `HeosClient::with_defaults`. */
    constructor WithDefaults(net: Network)
      ensures config == DefaultConfig && !connected && this.net == net
    {
      this.config := DefaultConfig;
      this.connected := false;
      this.net := net;
    }

    /** `Clone for HeosClient`: the same configuration and a connection of its own, not yet open. */
    constructor Clone(source: HeosClient, net: Network)
      ensures config == source.config && !connected && this.net == net
    {
      this.config := source.config;
      this.connected := false;
      this.net := net;
    }

    /** `set_config`: replaces the whole configuration and drops the connection. */
    method SetConfig(config: HeosConfig)
      modifies this
      ensures this.config == config && !connected && net == old(net)
    {
      this.config := config;
      Disconnect();
    }

    method PlayerId() returns (pid: I64)
      ensures pid == config.player_id
    {
      pid := config.player_id;
    }

    /** `set_player_id`: changes the player id and nothing else. */
    method SetPlayerId(pid: I64)
      modifies this
      ensures config == old(config).(player_id := pid)
      ensures connected == old(connected) && net == old(net)
    {
      config := config.(player_id := pid);
    }

    method Host() returns (host: string)
      ensures host == config.host
    {
      host := config.host;
    }

    /** `connect`. */
    method Connect() returns (r: Result<(), HeosFailure>)
      modifies this
      ensures Session() == Dial(old(Session())).link && r == Dial(old(Session())).result
      ensures config == old(config)
    {
      if net.dials == [] {
        return Err(Transport(Unreachable));
      }
      var outcome := net.dials[0];
      net := net.(dials := net.dials[1..]);
      match outcome
      case Accepted =>
        connected := true;
        r := Ok(());
      case Refused(why) =>
        r := Err(Transport(why));
    }

    /** `disconnect`: never fails, and a second call changes nothing. */
    method Disconnect()
      modifies this
      ensures !connected && config == old(config) && net == old(net)
    {
      connected := false;
    }

    method IsConnected() returns (b: bool)
      ensures b == connected
    {
      b := connected;
    }

    /** `ensure_connected`. */
    method EnsureConnected() returns (r: Result<(), HeosFailure>)
      modifies this
      ensures Session() == Ensure(old(Session())).link && r == Ensure(old(Session())).result
      ensures config == old(config)
    {
      var up := IsConnected();
      if !up {
        r := Connect();
      } else {
        r := Ok(());
      }
    }

    /** `send_command`. */
    method SendCommand(command: string) returns (r: Result<Response, HeosFailure>)
      modifies this
      ensures Session() == Exchange(old(Session()), command).link && r == Exchange(old(Session()), command).result
      ensures config == old(config)
    {
      var up := EnsureConnected();
      if up.Err? {
        return Err(up.error);
      }
      net := net.(sent := net.sent + [Frame(command)]);
      if net.replies == [] {
        return Ok(Response("", None));
      }
      var reply := net.replies[0];
      net := net.(replies := net.replies[1..]);
      match reply
      case Line(raw, json) =>
        r := Ok(Response(Trim(raw), json));
      case Broken(why) =>
        r := Err(Transport(why));
    }

    /** `send_command_parsed`. */
    method SendCommandParsed(command: string, shape: Shape) returns (r: Result<Envelope, HeosFailure>)
      modifies this
      ensures Session() == TypedExchange(old(Session()), command, shape).link
      ensures r == TypedExchange(old(Session()), command, shape).result
      ensures config == old(config)
    {
      var response :- SendCommand(command);
      var parsed :- Decode(response, shape);
      var _ :- CheckHeader(parsed.heos);
      r := Ok(parsed);
    }

    /** `send_command_simple`. */
    method SendCommandSimple(command: string) returns (r: Result<Header, HeosFailure>)
      modifies this
      ensures Session() == SimpleExchange(old(Session()), command).link
      ensures r == SimpleExchange(old(Session()), command).result
      ensures config == old(config)
    {
      var parsed :- SendCommandParsed(command, NoPayload);
      r := Ok(parsed.heos);
    }
  }
}
