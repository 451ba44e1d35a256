/**
 * The desktop shell's own logic on top of the client (main.rs): connecting
 * and choosing a player by name, pointing the client at a new host, and the
 * boolean mute commands. Failures reach the shell as their display text.
 */
module App {
  import opened Wrappers
  import opened Numerals
  import opened HeosTypes
  import opened Client
  import opened Commands

  /** `e.to_string()` of a client failure. */
  function FailureText(f: HeosFailure): (t: string)
    ensures f.Device? ==> t == HeosErrorText(f.error)
    ensures !f.Device? ==> t == f.reason
  {
    match f
    case Transport(why) => why
    case Protocol(why) => why
    case Device(e) => HeosErrorText(e)
    case Local(why) => why
  }

  /** `.map_err(|e| e.to_string())`. */
  function Report<T>(r: Result<T, HeosFailure>): (s: Result<T, string>)
    ensures s.Ok? <==> r.Ok?
    ensures r.Ok? ==> s.value == r.value
    ensures r.Err? ==> s.error == FailureText(r.error)
  {
    match r
    case Ok(v) => Ok(v)
    case Err(f) => Err(FailureText(f))
  }

  // ------------------------------------------------------------------------
  // Choosing a player
  // ------------------------------------------------------------------------

  /** `needle` occurs in `hay` starting at index `i`. */
  predicate InfixAt(hay: string, needle: string, i: nat) {
    i + |needle| <= |hay| && hay[i..i + |needle|] == needle
  }

  lemma InfixShift(hay: string, needle: string, j: nat)
    requires |hay| > 0
    ensures InfixAt(hay[1..], needle, j) <==> InfixAt(hay, needle, j + 1)
  {
    if j + |needle| <= |hay| - 1 {
      assert hay[1..][j..j + |needle|] == hay[j + 1..j + 1 + |needle|];
    }
  }

  /** `str::contains` with a string pattern; the empty pattern is everywhere. */
  function Contains(hay: string, needle: string): (b: bool)
    ensures b <==> exists i: nat | i <= |hay| :: InfixAt(hay, needle, i)
    decreases |hay|
  {
    if |needle| > |hay| then false
    else if hay[..|needle|] == needle then
      assert InfixAt(hay, needle, 0);
      true
    else
      var rest := Contains(hay[1..], needle);
      assert rest ==> exists i: nat | i <= |hay| :: InfixAt(hay, needle, i) by {
        if rest {
          var j: nat :| j <= |hay[1..]| && InfixAt(hay[1..], needle, j);
          InfixShift(hay, needle, j);
        }
      }
      assert (exists i: nat | i <= |hay| :: InfixAt(hay, needle, i)) ==> rest by {
        if exists i: nat | i <= |hay| :: InfixAt(hay, needle, i) {
          var i: nat :| i <= |hay| && InfixAt(hay, needle, i);
          assert i != 0;
          InfixShift(hay, needle, i - 1);
        }
      }
      rest
  }

  lemma ContainsExamples()
    ensures Contains("living room", "room")
    ensures Contains("kitchen", "")
  {
    assert InfixAt("living room", "room", 7);
    assert InfixAt("kitchen", "", 0);
  }

  /** The name filter: the lower-cased name contains the lower-cased query. */
  predicate NameMatches(p: Player, query: string) {
    Contains(Lower(p.name), Lower(query))
  }

  /** The index of the first player whose name matches `query` (`iter().find`). */
  function FindPlayer(players: seq<Player>, query: string): (r: Option<nat>)
    ensures r.Some? ==> r.value < |players| && NameMatches(players[r.value], query)
    ensures r.Some? ==> forall j | 0 <= j < r.value :: !NameMatches(players[j], query)
    ensures r.None? ==> forall j | 0 <= j < |players| :: !NameMatches(players[j], query)
  {
    FindPlayerFrom(players, query, 0)
  }

  /** The scan behind `FindPlayer`, from index `from` on. */
  function FindPlayerFrom(players: seq<Player>, query: string, from: nat): (r: Option<nat>)
    requires from <= |players|
    ensures r.Some? ==> from <= r.value < |players| && NameMatches(players[r.value], query)
    ensures r.Some? ==> forall j | from <= j < r.value :: !NameMatches(players[j], query)
    ensures r.None? ==> forall j | from <= j < |players| :: !NameMatches(players[j], query)
    decreases |players| - from
  {
    if from == |players| then None
    else if NameMatches(players[from], query) then Some(from)
    else FindPlayerFrom(players, query, from + 1)
  }

  /** The selection `heos_connect_and_discover` makes from the discovered players. */
  function SelectPlayer(players: seq<Player>, name: Option<string>): (r: Result<Player, string>)
    ensures players == [] ==> r == Err("No HEOS players found on the network")
    ensures players != [] && name.None? ==> r == Ok(players[0])
    ensures players != [] && name.Some? ==>
      (r.Ok? <==> exists i | 0 <= i < |players| :: NameMatches(players[i], name.value))
    ensures players != [] && name.Some? && r.Err? ==> r.error == "Player '" + name.value + "' not found"
    ensures name.Some? && r.Ok? ==>
      exists i | 0 <= i < |players| :: players[i] == r.value && NameMatches(players[i], name.value)
        && forall j | 0 <= j < i :: !NameMatches(players[j], name.value)
  {
    if players == [] then Err("No HEOS players found on the network")
    else
      match name
      case None => Ok(players[0])
      case Some(n) =>
        match FindPlayer(players, n)
        case Some(i) => Ok(players[i])
        case None => Err("Player '" + n + "' not found")
  }

  /** An empty name matches every player, so it selects the first. */
  lemma EmptyNameSelectsFirst(players: seq<Player>)
    requires players != []
    ensures SelectPlayer(players, Some("")) == Ok(players[0])
  {
    assert Lower("") == "";
    assert InfixAt(Lower(players[0].name), "", 0);
  }

  /** A player's own name selects it unless an earlier player's name contains it. */
  lemma FullNameSelects(players: seq<Player>, k: nat)
    requires k < |players|
    requires forall j | 0 <= j < k :: !NameMatches(players[j], players[k].name)
    ensures SelectPlayer(players, Some(players[k].name)) == Ok(players[k])
  {
    var n := players[k].name;
    assert InfixAt(Lower(n), Lower(n), 0);
    assert NameMatches(players[k], n);
    var r := SelectPlayer(players, Some(n));
    var i :| 0 <= i < |players| && players[i] == r.value && NameMatches(players[i], n)
      && forall j | 0 <= j < i :: !NameMatches(players[j], n);
    assert i == k;
  }

  /** The case of the requested name does not change which player is selected. */
  lemma SelectIgnoresCase(players: seq<Player>, n: string)
    ensures SelectPlayer(players, Some(Upper(n))).Ok? == SelectPlayer(players, Some(n)).Ok?
    ensures SelectPlayer(players, Some(n)).Ok? ==> SelectPlayer(players, Some(Upper(n))) == SelectPlayer(players, Some(n))
  {
    LowerOfUpper(n);
    assert forall p :: NameMatches(p, Upper(n)) == NameMatches(p, n);
    var u := SelectPlayer(players, Some(Upper(n)));
    var r := SelectPlayer(players, Some(n));
    if r.Ok? {
      var i :| 0 <= i < |players| && players[i] == r.value && NameMatches(players[i], n)
        && forall j | 0 <= j < i :: !NameMatches(players[j], n);
      var k :| 0 <= k < |players| && players[k] == u.value && NameMatches(players[k], Upper(n))
        && forall j | 0 <= j < k :: !NameMatches(players[j], Upper(n));
      assert i == k;
    }
  }

  // ------------------------------------------------------------------------
  // Shell commands
  // ------------------------------------------------------------------------

  /**
   * `heos_connect_and_discover` over a link: connect unless connected, list
   * the players, select one.
   */
  function Discover(l: Link, name: Option<string>): (d: (Link, Result<Player, string>))
    ensures Ensure(l).result.Err? ==> d == (Ensure(l).link, Err(FailureText(Ensure(l).result.error)))
    ensures d.1.Ok? ==> d.0.connected && d.0.net.sent == l.net.sent + [Frame(Cmd("player/get_players", []))]
    ensures l.connected ==> d.0.net.dials == l.net.dials
    ensures Ensure(l).result.Ok? ==>
      var g := TypedExchange(Ensure(l).link, Cmd("player/get_players", []), PlayersShape);
      var players := Then(g.result, PlayersOf);
      && d.0 == g.link
      && (players.Err? ==> d.1 == Err(FailureText(players.error)))
      && (players.Ok? ==> d.1 == SelectPlayer(players.value, name))
  {
    var e := Ensure(l);
    if e.result.Err? then (e.link, Err(FailureText(e.result.error)))
    else
      var g := TypedExchange(e.link, Cmd("player/get_players", []), PlayersShape);
      assert g.link == Exchange(e.link, Cmd("player/get_players", [])).link;
      var players := Then(g.result, PlayersOf);
      if players.Err? then (g.link, Err(FailureText(players.error)))
      else (g.link, SelectPlayer(players.value, name))
  }

  /** Discovery on a link that is already up never dials, whatever it finds. */
  lemma DiscoverReusesConnection(l: Link, name: Option<string>)
    requires l.connected
    ensures Discover(l, name).0.net.dials == l.net.dials
    ensures Discover(l, name).0.net.sent == l.net.sent || Discover(l, name).0.net.sent == l.net.sent + [Frame(Cmd("player/get_players", []))]
  {
  }

  /** `heos_connect_and_discover`: on success the chosen player becomes the client's player. */
  method HeosConnectAndDiscover(c: HeosClient, name: Option<string>) returns (r: Result<Player, string>)
    modifies c
    ensures var d := Discover(old(c.Session()), name); c.Session() == d.0 && r == d.1
    ensures r.Ok? ==> c.config == old(c.config).(player_id := r.value.pid)
    ensures r.Err? ==> c.config == old(c.config)
  {
    var up := c.IsConnected();
    if !up {
      var k := c.Connect();
      if k.Err? {
        return Err(FailureText(k.error));
      }
    }
    var players := GetPlayers(c);
    if players.Err? {
      return Err(FailureText(players.error));
    }
    r := SelectPlayer(players.value, name);
    if r.Ok? {
      c.SetPlayerId(r.value.pid);
    }
  }

  /** `heos_set_host`: the new host on the standard port, player 0, disconnected. */
  method HeosSetHost(c: HeosClient, host: string) returns (r: Result<(), string>)
    modifies c
    ensures r == Ok(())
    ensures c.config == HeosConfig(host, HeosPort, 0)
    ensures !c.connected && c.net == old(c.net)
  {
    c.SetConfig(HeosConfig(host, 1255, 0));
    r := Ok(());
  }

  /** The boolean the shell shows for a mute state. */
  function MutedFlag(m: MuteState): (b: bool)
    ensures b <==> m == MuteOn
  {
    m == MuteOn
  }

  /** The mute state the shell asks for from a boolean. */
  function MuteFromFlag(b: bool): (m: MuteState)
    ensures m == MuteOn <==> b
  {
    if b then MuteOn else MuteOff
  }

  lemma MuteFlagBijection(b: bool, m: MuteState)
    ensures MutedFlag(MuteFromFlag(b)) == b
    ensures MuteFromFlag(MutedFlag(m)) == m
  {
  }

  /** Asking for a flag and reading the echoed state back gives the same flag. */
  lemma MuteFlagEcho(pid: I64, b: bool)
    ensures var h := Header("player/get_mute", "success", Query(SetMuteCommand(pid, MuteFromFlag(b))));
      MuteOf(h).Ok? && MutedFlag(MuteOf(h).value) == b
  {
    MuteStateEcho(pid, MuteFromFlag(b));
  }

  method HeosGetMute(c: HeosClient) returns (r: Result<bool, string>)
    modifies c
    ensures c.config == old(c.config)
    ensures var s := SimpleExchange(old(c.Session()), Cmd("player/get_mute", [Pid(old(c.config.player_id))]));
      var m := Then(s.result, MuteOf);
      && c.Session() == s.link
      && (r.Ok? <==> m.Ok?)
      && (r.Ok? ==> r.value == MutedFlag(m.value))
      && (r.Err? ==> r.error == FailureText(m.error))
  {
    var mute := GetMuteCurrent(c);
    if mute.Err? {
      return Err(FailureText(mute.error));
    }
    r := Ok(mute.value == MuteOn);
  }

  method HeosSetMute(c: HeosClient, muted: bool) returns (r: Result<(), string>)
    modifies c
    ensures c.config == old(c.config)
    ensures var s := SimpleExchange(old(c.Session()), SetMuteCommand(old(c.config.player_id), MuteFromFlag(muted)));
      c.Session() == s.link && r == Report(Discard(s.result))
  {
    var state := if muted then MuteOn else MuteOff;
    var done := SetMuteCurrent(c, state);
    r := Report(done);
  }
}
