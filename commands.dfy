/**
 * The command surface of commands.rs: one method per HEOS command, each
 * building the command string from its typed arguments and going through the
 * client, with the client-side safety policy on volume. The decisions inside
 * the commands (clamps, the play/pause toggle, permissive play-mode decoding,
 * payload defaults) are pure functions with their own contracts.
 */
module Commands {
  import opened Wrappers
  import opened Numerals
  import opened HeosTypes
  import opened Client

  /** The hard volume ceiling; no command ever asks the device for more. */
  const MaxVolumeLimit: U8 := 75

  // Constants the browse and input commands use.
  const Spotify: I64 := 4
  const Favorites: I64 := 1028
  const OpticalIn1 := "inputs/optical_in_1"

  // ------------------------------------------------------------------------
  // Command strings
  // ------------------------------------------------------------------------

  /** `heos://<action>?k=v&k=v`, with no '?' when there are no parameters. */
  function Cmd(action: string, params: seq<(string, string)>): (r: string)
    ensures |r| >= 7 + |action| && r[..7 + |action|] == "heos://" + action
    ensures params == [] <==> |r| == 7 + |action|
    ensures params != [] ==> r[7 + |action|] == '?' && r[8 + |action|..] == EncodeMessage(params)
  {
    "heos://" + action + (if params == [] then "" else "?" + EncodeMessage(params))
  }

  function Pid(pid: I64): (string, string) {
    ("pid", IntToString(pid))
  }

  /** The query string of a command: everything after its first '?'. */
  function Query(command: string): string {
    match SplitOnce(command, '?')
    case Some((_, q)) => q
    case None => ""
  }

  /** The query of a command is the encoding of its parameters. */
  lemma CommandQuery(action: string, params: seq<(string, string)>)
    requires '?' !in action && params != []
    ensures Query(Cmd(action, params)) == EncodeMessage(params)
  {
    var head := "heos://" + action;
    assert '?' !in head by {
      assert forall k | 0 <= k < |head| :: head[k] == ("heos://" + action)[k];
    }
    assert Cmd(action, params) == head + ['?'] + EncodeMessage(params);
    SplitOnceAt(head, '?', EncodeMessage(params));
  }

  /** The parameters of a command read back from its text are the map of the parameters it was built from. */
  lemma CommandParameters(action: string, params: seq<(string, string)>)
    requires '?' !in action && params != [] && WellFormedEntries(params)
    ensures ParseMessage(Query(Cmd(action, params))) == Collect(params)
  {
    CommandQuery(action, params);
    ParseEncodeMessage(params);
  }

  /** Reads a two-parameter command back: both values, the second winning only on its own key. */
  lemma TwoParameters(action: string, k1: string, v1: string, k2: string, v2: string)
    requires '?' !in action
    requires '&' !in k1 && '=' !in k1 && '&' !in v1
    requires '&' !in k2 && '=' !in k2 && '&' !in v2
    ensures ParseMessage(Query(Cmd(action, [(k1, v1), (k2, v2)]))) == map[k1 := v1, k2 := v2]
  {
    CommandQuery(action, [(k1, v1), (k2, v2)]);
    EncodeTwo(k1, v1, k2, v2);
    ParseTwo(k1, v1, k2, v2);
  }

  lemma ThreeParameters(action: string, k1: string, v1: string, k2: string, v2: string, k3: string, v3: string)
    requires '?' !in action && k1 != k2 && k1 != k3 && k2 != k3
    requires '&' !in k1 && '=' !in k1 && '&' !in v1
    requires '&' !in k2 && '=' !in k2 && '&' !in v2
    requires '&' !in k3 && '=' !in k3 && '&' !in v3
    ensures ParseMessage(Query(Cmd(action, [(k1, v1), (k2, v2), (k3, v3)]))) == map[k1 := v1, k2 := v2, k3 := v3]
  {
    var ps := [(k1, v1), (k2, v2), (k3, v3)];
    assert WellFormedEntries(ps);
    CommandParameters(action, ps);
    CollectThree(k1, v1, k2, v2, k3, v3);
  }

  lemma CollectThree(k1: string, v1: string, k2: string, v2: string, k3: string, v3: string)
    ensures Collect([(k1, v1), (k2, v2), (k3, v3)]) == map[k1 := v1, k2 := v2, k3 := v3]
  {
    var ps := [(k1, v1), (k2, v2), (k3, v3)];
    assert ps[..2] == [(k1, v1), (k2, v2)];
    assert ps[..2][..1] == [(k1, v1)];
    assert ps[..2][..1][..0] == [];
    assert Collect(ps[..2][..1]) == map[k1 := v1];
    assert Collect(ps[..2]) == map[k1 := v1][k2 := v2];
  }

  /** The actions of the player commands hold no '?'. */
  lemma ActionsArePlain()
    ensures '?' !in "player/set_volume" && '?' !in "player/volume_up" && '?' !in "player/volume_down"
    ensures '?' !in "player/set_play_state" && '?' !in "player/set_mute" && '?' !in "player/set_play_mode"
  {
  }

  /** The parameter keys hold no separator, and the play-mode keys are distinct. */
  lemma KeysArePlain()
    ensures '&' !in "pid" && '=' !in "pid" && '&' !in "level" && '=' !in "level" && '&' !in "step" && '=' !in "step"
    ensures '&' !in "state" && '=' !in "state" && '&' !in "repeat" && '=' !in "repeat" && '&' !in "shuffle" && '=' !in "shuffle"
    ensures "pid" != "repeat" && "pid" != "shuffle" && "repeat" != "shuffle"
  {
  }

  function SetVolumeCommand(pid: I64, level: U8): string {
    Cmd("player/set_volume", [Pid(pid), ("level", NatToString(ClampVolume(level)))])
  }

  function VolumeUpCommand(pid: I64, step: U8): string {
    Cmd("player/volume_up", [Pid(pid), ("step", NatToString(step))])
  }

  function VolumeDownCommand(pid: I64, step: U8): string {
    Cmd("player/volume_down", [Pid(pid), ("step", NatToString(ClampStep(step)))])
  }

  function SetPlayStateCommand(pid: I64, state: PlayState): string {
    Cmd("player/set_play_state", [Pid(pid), ("state", PlayStateText(state))])
  }

  function SetMuteCommand(pid: I64, state: MuteState): string {
    Cmd("player/set_mute", [Pid(pid), ("state", MuteStateText(state))])
  }

  function SetPlayModeCommand(pid: I64, repeat: RepeatMode, shuffle: ShuffleMode): string {
    Cmd("player/set_play_mode", [Pid(pid), ("repeat", RepeatModeText(repeat)), ("shuffle", ShuffleModeText(shuffle))])
  }

  function OnOff(enable: bool): string {
    if enable then "on" else "off"
  }

  // ------------------------------------------------------------------------
  // Volume policy
  // ------------------------------------------------------------------------

  /** `level.min(MAX_VOLUME_LIMIT)`. */
  function ClampVolume(level: U8): (r: U8)
    ensures r <= MaxVolumeLimit
    ensures level <= MaxVolumeLimit ==> r == level
    ensures level > MaxVolumeLimit ==> r == MaxVolumeLimit
  {
    if level < MaxVolumeLimit then level else MaxVolumeLimit
  }

  /** `step.min(10).max(1)`. */
  function ClampStep(step: U8): (r: U8)
    ensures 1 <= r <= 10
    ensures 1 <= step <= 10 ==> r == step
    ensures step == 0 ==> r == 1
    ensures step > 10 ==> r == 10
  {
    var low := if step < 10 then step else 10;
    if low > 1 then low else 1
  }

  /** `u8::saturating_sub`. */
  function SaturatingSub(a: U8, b: U8): (r: U8)
    ensures a >= b ==> r == a - b
    ensures a < b ==> r == 0
  {
    if a >= b then a - b else 0
  }

  /**
   * The step `volume_up` sends from volume `current`, or None when it sends
   * nothing. The source's second early return (a safe step of 0) cannot be
   * taken: below the ceiling the room left is at least 1 and so is the clamped
   * step, so the model has only the first.
   */
  function VolumeUpStep(current: U8, step: U8): (r: Option<U8>)
    ensures r.None? <==> current >= MaxVolumeLimit
    ensures r.Some? ==> 1 <= r.value <= 10 && current + r.value <= MaxVolumeLimit
    ensures r.Some? ==> r.value <= ClampStep(step)
    ensures r.Some? ==> r.value == ClampStep(step) || current + r.value == MaxVolumeLimit
  {
    if current >= MaxVolumeLimit then None
    else
      var clamped := ClampStep(step);
      var room := SaturatingSub(MaxVolumeLimit, current);
      Some(if clamped < room then clamped else room)
  }

  /** On the wire, `set_volume` carries the player and a level that reads back as the clamped level. */
  lemma SetVolumeOnWire(pid: I64, level: U8)
    ensures var m := ParseMessage(Query(SetVolumeCommand(pid, level)));
      && "level" in m && ParseU8(m["level"]) == Some(ClampVolume(level))
      && ParseU8(m["level"]).value <= MaxVolumeLimit
      && "pid" in m && ParseI64(m["pid"]) == Some(pid)
  {
    IntTextIsPlain(pid);
    IntTextIsPlain(ClampVolume(level));
    ActionsArePlain();
    KeysArePlain();
    TwoParameters("player/set_volume", "pid", IntToString(pid), "level", NatToString(ClampVolume(level)));
    U8RoundTrip(ClampVolume(level));
    I64RoundTrip(pid);
  }

  /** On the wire, `volume_up` carries exactly the step it was given. */
  lemma VolumeUpOnWire(pid: I64, step: U8)
    ensures var m := ParseMessage(Query(VolumeUpCommand(pid, step)));
      "step" in m && ParseU8(m["step"]) == Some(step) && "pid" in m && ParseI64(m["pid"]) == Some(pid)
  {
    IntTextIsPlain(pid);
    IntTextIsPlain(step);
    ActionsArePlain();
    KeysArePlain();
    TwoParameters("player/volume_up", "pid", IntToString(pid), "step", NatToString(step));
    U8RoundTrip(step);
    I64RoundTrip(pid);
  }

  /** On the wire, `volume_down` carries a step in [1, 10]. */
  lemma VolumeDownOnWire(pid: I64, step: U8)
    ensures var m := ParseMessage(Query(VolumeDownCommand(pid, step)));
      && "step" in m && ParseU8(m["step"]) == Some(ClampStep(step))
      && 1 <= ParseU8(m["step"]).value <= 10
  {
    IntTextIsPlain(pid);
    IntTextIsPlain(ClampStep(step));
    ActionsArePlain();
    KeysArePlain();
    TwoParameters("player/volume_down", "pid", IntToString(pid), "step", NatToString(ClampStep(step)));
    U8RoundTrip(ClampStep(step));
  }

  // ------------------------------------------------------------------------
  // Reading answers
  // ------------------------------------------------------------------------

  /** `get_volume` after the header: the `level` field as a u8. */
  function LevelOf(h: Header): (r: Result<U8, HeosFailure>)
    ensures var m := ParseMessage(h.message);
      && ("level" !in m ==> r == Err(Local("No level in response")))
      && ("level" in m && ParseU8(m["level"]).None? ==> r == Err(Local("Invalid volume level")))
      && (r.Ok? ==> "level" in m && ParseU8(m["level"]) == Some(r.value))
  {
    match Lookup(ParseMessage(h.message), "level")
    case None => Err(Local("No level in response"))
    case Some(s) =>
      match ParseU8(s)
      case None => Err(Local("Invalid volume level"))
      case Some(v) => Ok(v)
  }

  /** A volume report `pid=<pid>&level=<level>` reads as that level. */
  lemma LevelOfReport(command: string, pid: I64, level: U8)
    ensures LevelOf(Header(command, "success", EncodeMessage([Pid(pid), ("level", NatToString(level))]))) == Ok(level)
  {
    IntTextIsPlain(pid);
    IntTextIsPlain(level);
    var ps := [Pid(pid), ("level", NatToString(level))];
    ParseEncodeMessage(ps);
    U8RoundTrip(level);
  }

  /** `get_play_state` after the header: the `state` field through `PlayState::from_str`. */
  function PlayStateOf(h: Header): (r: Result<PlayState, HeosFailure>)
    ensures var m := ParseMessage(h.message);
      && ("state" !in m ==> r == Err(Local("No state in response")))
      && ("state" in m ==> r == match ParsePlayState(m["state"]) case Ok(p) => Ok(p) case Err(e) => Err(Local(e)))
  {
    match Lookup(ParseMessage(h.message), "state")
    case None => Err(Local("No state in response"))
    case Some(s) =>
      match ParsePlayState(s)
      case Ok(p) => Ok(p)
      case Err(e) => Err(Local(e))
  }

  /** `get_mute` after the header: the `state` field through `MuteState::from_str`. */
  function MuteOf(h: Header): (r: Result<MuteState, HeosFailure>)
    ensures var m := ParseMessage(h.message);
      && ("state" !in m ==> r == Err(Local("No state in response")))
      && ("state" in m ==> r == match ParseMuteState(m["state"]) case Ok(s) => Ok(s) case Err(e) => Err(Local(e)))
  {
    match Lookup(ParseMessage(h.message), "state")
    case None => Err(Local("No state in response"))
    case Some(s) =>
      match ParseMuteState(s)
      case Ok(v) => Ok(v)
      case Err(e) => Err(Local(e))
  }

  /** A device that echoes the parameters of a `set_play_state` reports that state back. */
  lemma PlayStateEcho(pid: I64, p: PlayState)
    ensures PlayStateOf(Header("player/get_play_state", "success", Query(SetPlayStateCommand(pid, p)))) == Ok(p)
  {
    IntTextIsPlain(pid);
    ActionsArePlain();
    KeysArePlain();
    TwoParameters("player/set_play_state", "pid", IntToString(pid), "state", PlayStateText(p));
    PlayStateRoundTrip(p);
  }

  /** A device that echoes the parameters of a `set_mute` reports that state back. */
  lemma MuteStateEcho(pid: I64, m: MuteState)
    ensures MuteOf(Header("player/get_mute", "success", Query(SetMuteCommand(pid, m)))) == Ok(m)
  {
    IntTextIsPlain(pid);
    ActionsArePlain();
    KeysArePlain();
    TwoParameters("player/set_mute", "pid", IntToString(pid), "state", MuteStateText(m));
    MuteStateRoundTrip(m);
  }

  /** `toggle_play_pause`'s choice: Play becomes Pause, Pause and Stop become Play. */
  function Toggle(p: PlayState): (r: PlayState)
    ensures r == PlayState.Pause <==> p == PlayState.Play
    ensures r != PlayState.Stop
  {
    match p
    case Play => PlayState.Pause
    case Pause => PlayState.Play
    case Stop => PlayState.Play
  }

  lemma ToggleOnWire(pid: I64, p: PlayState)
    ensures var m := ParseMessage(Query(SetPlayStateCommand(pid, Toggle(p))));
      "state" in m && m["state"] == (if p == PlayState.Play then "pause" else "play")
  {
    IntTextIsPlain(pid);
    ActionsArePlain();
    KeysArePlain();
    TwoParameters("player/set_play_state", "pid", IntToString(pid), "state", PlayStateText(Toggle(p)));
  }

  /** The `repeat` field of `get_play_mode`: exact "on_one" and "on_all", anything else or nothing is Off. */
  function DecodeRepeat(v: Option<string>): (r: RepeatMode)
    ensures r != RepeatOff ==> v == Some(RepeatModeText(r))
    ensures v.None? ==> r == RepeatOff
  {
    match v
    case Some("on_one") => RepeatOne
    case Some("on_all") => RepeatAll
    case _ => RepeatOff
  }

  /** The `shuffle` field of `get_play_mode`: exact "on" is On, anything else or nothing is Off. */
  function DecodeShuffle(v: Option<string>): (r: ShuffleMode)
    ensures r == ShuffleOn <==> v == Some("on")
  {
    match v
    case Some("on") => ShuffleOn
    case _ => ShuffleOff
  }

  lemma DecodeModeRoundTrip(r: RepeatMode, s: ShuffleMode)
    ensures DecodeRepeat(Some(RepeatModeText(r))) == r
    ensures DecodeShuffle(Some(ShuffleModeText(s))) == s
  {
  }

  /** `get_play_mode` after the header; it cannot fail. */
  function PlayModeOf(h: Header): (r: (RepeatMode, ShuffleMode))
    ensures var m := ParseMessage(h.message);
      r.0 == DecodeRepeat(Lookup(m, "repeat")) && r.1 == DecodeShuffle(Lookup(m, "shuffle"))
  {
    var m := ParseMessage(h.message);
    (DecodeRepeat(Lookup(m, "repeat")), DecodeShuffle(Lookup(m, "shuffle")))
  }

  /** A device that echoes the parameters of `set_play_mode` is read back as the modes that were set. */
  lemma PlayModeEcho(pid: I64, repeat: RepeatMode, shuffle: ShuffleMode)
    ensures PlayModeOf(Header("player/get_play_mode", "success", Query(SetPlayModeCommand(pid, repeat, shuffle)))) == (repeat, shuffle)
  {
    var q := Query(SetPlayModeCommand(pid, repeat, shuffle));
    IntTextIsPlain(pid);
    ActionsArePlain();
    KeysArePlain();
    ThreeParameters("player/set_play_mode", "pid", IntToString(pid), "repeat", RepeatModeText(repeat), "shuffle", ShuffleModeText(shuffle));
    PlayModeOfReport(Header("player/get_play_mode", "success", q), repeat, shuffle);
  }

  /** A header whose message carries the texts of two modes reads back as those modes. */
  lemma PlayModeOfReport(h: Header, repeat: RepeatMode, shuffle: ShuffleMode)
    requires var m := ParseMessage(h.message);
      "repeat" in m && m["repeat"] == RepeatModeText(repeat) && "shuffle" in m && m["shuffle"] == ShuffleModeText(shuffle)
    ensures PlayModeOf(h) == (repeat, shuffle)
  {
    DecodeModeRoundTrip(repeat, shuffle);
  }

  /** Unknown values degrade to Off rather than failing. */
  lemma PlayModeExample()
    ensures PlayModeOf(Header("player/get_play_mode", "success", "repeat=bogus&shuffle=on")) == (RepeatOff, ShuffleOn)
  {
    PlayModeExampleParts();
    ParseTwo("repeat", "bogus", "shuffle", "on");
  }

  /** The message of the example, as its parts, none holding a separator. */
  lemma PlayModeExampleParts()
    ensures "repeat" + "=" + "bogus" + "&" + "shuffle" + "=" + "on" == "repeat=bogus&shuffle=on"
    ensures '&' !in "repeat" && '=' !in "repeat" && '&' !in "bogus" && '&' !in "shuffle" && '=' !in "shuffle" && '&' !in "on"
  {
  }

  // Payloads; an absent payload has a default except for `get_player_info`.

  function PlayersOf(env: Envelope): (r: Result<seq<Player>, HeosFailure>)
    ensures r.Ok?
    ensures env.payload.None? ==> r.value == []
    ensures env.payload.Some? && env.payload.value.PlayerList? ==> r.value == env.payload.value.players
  {
    match env.payload
    case Some(PlayerList(ps)) => Ok(ps)
    case _ => Ok([])
  }

  function PlayerInfoOf(env: Envelope): (r: Result<Player, HeosFailure>)
    ensures env.payload.None? ==> r == Err(Local("No player info returned"))
    ensures env.payload.Some? && env.payload.value.PlayerRecord? ==> r == Ok(env.payload.value.player)
  {
    match env.payload
    case Some(PlayerRecord(p)) => Ok(p)
    case _ => Err(Local("No player info returned"))
  }

  function MediaOf(env: Envelope): (r: Result<NowPlayingMedia, HeosFailure>)
    ensures r.Ok?
    ensures env.payload.None? ==> r.value == NoMedia
    ensures env.payload.Some? && env.payload.value.MediaRecord? ==> r.value == env.payload.value.media
  {
    match env.payload
    case Some(MediaRecord(m)) => Ok(m)
    case _ => Ok(NoMedia)
  }

  function SourcesOf(env: Envelope): (r: Result<seq<MusicSource>, HeosFailure>)
    ensures r.Ok?
    ensures env.payload.None? ==> r.value == []
    ensures env.payload.Some? && env.payload.value.SourceList? ==> r.value == env.payload.value.sources
  {
    match env.payload
    case Some(SourceList(ss)) => Ok(ss)
    case _ => Ok([])
  }

  // ------------------------------------------------------------------------
  // Commands
  // ------------------------------------------------------------------------

  /** `send_command_simple(cmd)?; Ok(())`, the body of every fire-and-forget command. */
  method Simple(c: HeosClient, command: string) returns (r: Result<(), HeosFailure>)
    modifies c
    ensures c.config == old(c.config)
    ensures var s := SimpleExchange(old(c.Session()), command); c.Session() == s.link && r == Discard(s.result)
  {
    var _ :- c.SendCommandSimple(command);
    r := Ok(());
  }

  method Heartbeat(c: HeosClient) returns (r: Result<(), HeosFailure>)
    modifies c
    ensures c.config == old(c.config)
    ensures var s := SimpleExchange(old(c.Session()), Cmd("system/heart_beat", [])); c.Session() == s.link && r == Discard(s.result)
  {
    r := Simple(c, Cmd("system/heart_beat", []));
  }

  method RegisterForChangeEvents(c: HeosClient, enable: bool) returns (r: Result<(), HeosFailure>)
    modifies c
    ensures c.config == old(c.config)
    ensures var s := SimpleExchange(old(c.Session()), Cmd("system/register_for_change_events", [("enable", OnOff(enable))]));
      c.Session() == s.link && r == Discard(s.result)
  {
    r := Simple(c, Cmd("system/register_for_change_events", [("enable", OnOff(enable))]));
  }

  method PrettifyJson(c: HeosClient, enable: bool) returns (r: Result<(), HeosFailure>)
    modifies c
    ensures c.config == old(c.config)
    ensures var s := SimpleExchange(old(c.Session()), Cmd("system/prettify_json_response", [("enable", OnOff(enable))]));
      c.Session() == s.link && r == Discard(s.result)
  {
    r := Simple(c, Cmd("system/prettify_json_response", [("enable", OnOff(enable))]));
  }

  method Reboot(c: HeosClient) returns (r: Result<(), HeosFailure>)
    modifies c
    ensures c.config == old(c.config)
    ensures var s := SimpleExchange(old(c.Session()), Cmd("system/reboot", [])); c.Session() == s.link && r == Discard(s.result)
  {
    r := Simple(c, Cmd("system/reboot", []));
  }

  method GetPlayers(c: HeosClient) returns (r: Result<seq<Player>, HeosFailure>)
    modifies c
    ensures c.config == old(c.config)
    ensures var s := TypedExchange(old(c.Session()), Cmd("player/get_players", []), PlayersShape);
      c.Session() == s.link && r == Then(s.result, PlayersOf)
  {
    var response :- c.SendCommandParsed(Cmd("player/get_players", []), PlayersShape);
    r := PlayersOf(response);
  }

  method GetPlayerInfo(c: HeosClient, pid: I64) returns (r: Result<Player, HeosFailure>)
    modifies c
    ensures c.config == old(c.config)
    ensures var s := TypedExchange(old(c.Session()), Cmd("player/get_player_info", [Pid(pid)]), PlayerShape);
      c.Session() == s.link && r == Then(s.result, PlayerInfoOf)
  {
    var response :- c.SendCommandParsed(Cmd("player/get_player_info", [Pid(pid)]), PlayerShape);
    r := PlayerInfoOf(response);
  }

  method GetPlayState(c: HeosClient, pid: I64) returns (r: Result<PlayState, HeosFailure>)
    modifies c
    ensures c.config == old(c.config)
    ensures var s := SimpleExchange(old(c.Session()), Cmd("player/get_play_state", [Pid(pid)]));
      c.Session() == s.link && r == Then(s.result, PlayStateOf)
  {
    var header :- c.SendCommandSimple(Cmd("player/get_play_state", [Pid(pid)]));
    r := PlayStateOf(header);
  }

  method GetPlayStateCurrent(c: HeosClient) returns (r: Result<PlayState, HeosFailure>)
    modifies c
    ensures c.config == old(c.config)
    ensures var s := SimpleExchange(old(c.Session()), Cmd("player/get_play_state", [Pid(old(c.config.player_id))]));
      c.Session() == s.link && r == Then(s.result, PlayStateOf)
  {
    var pid := c.PlayerId();
    r := GetPlayState(c, pid);
  }

  method SetPlayState(c: HeosClient, pid: I64, state: PlayState) returns (r: Result<(), HeosFailure>)
    modifies c
    ensures c.config == old(c.config)
    ensures var s := SimpleExchange(old(c.Session()), SetPlayStateCommand(pid, state)); c.Session() == s.link && r == Discard(s.result)
  {
    r := Simple(c, SetPlayStateCommand(pid, state));
  }

  method SetPlayStateCurrent(c: HeosClient, state: PlayState) returns (r: Result<(), HeosFailure>)
    modifies c
    ensures c.config == old(c.config)
    ensures var s := SimpleExchange(old(c.Session()), SetPlayStateCommand(old(c.config.player_id), state));
      c.Session() == s.link && r == Discard(s.result)
  {
    var pid := c.PlayerId();
    r := SetPlayState(c, pid, state);
  }

  method Play(c: HeosClient) returns (r: Result<(), HeosFailure>)
    modifies c
    ensures c.config == old(c.config)
    ensures var s := SimpleExchange(old(c.Session()), SetPlayStateCommand(old(c.config.player_id), PlayState.Play));
      c.Session() == s.link && r == Discard(s.result)
  {
    r := SetPlayStateCurrent(c, PlayState.Play);
  }

  method Pause(c: HeosClient) returns (r: Result<(), HeosFailure>)
    modifies c
    ensures c.config == old(c.config)
    ensures var s := SimpleExchange(old(c.Session()), SetPlayStateCommand(old(c.config.player_id), PlayState.Pause));
      c.Session() == s.link && r == Discard(s.result)
  {
    r := SetPlayStateCurrent(c, PlayState.Pause);
  }

  method Stop(c: HeosClient) returns (r: Result<(), HeosFailure>)
    modifies c
    ensures c.config == old(c.config)
    ensures var s := SimpleExchange(old(c.Session()), SetPlayStateCommand(old(c.config.player_id), PlayState.Stop));
      c.Session() == s.link && r == Discard(s.result)
  {
    r := SetPlayStateCurrent(c, PlayState.Stop);
  }

  /**
   * `toggle_play_pause` over a link: query the state of `pid`, then send the
   * toggled state; a failed query sends nothing more.
   */
  function ToggleExchange(l: Link, pid: I64): (s: Sent<PlayState>)
    ensures var q := SimpleExchange(l, Cmd("player/get_play_state", [Pid(pid)]));
      && (Then(q.result, PlayStateOf).Err? ==> s.link == q.link && s.result == Err(Then(q.result, PlayStateOf).error))
      && (Then(q.result, PlayStateOf).Ok? ==>
            var u := SimpleExchange(q.link, SetPlayStateCommand(pid, Toggle(Then(q.result, PlayStateOf).value)));
            && s.link == u.link
            && s.link.net.sent == q.link.net.sent + [Frame(SetPlayStateCommand(pid, Toggle(Then(q.result, PlayStateOf).value)))]
            && (s.result.Ok? <==> u.result.Ok?)
            && (s.result.Err? ==> s.result.error == u.result.error))
      && (s.result.Ok? ==>
            && Then(q.result, PlayStateOf).Ok?
            && s.result.value == Toggle(Then(q.result, PlayStateOf).value)
            && s.link.net.sent == q.link.net.sent + [Frame(SetPlayStateCommand(pid, s.result.value))])
  {
    var q := SimpleExchange(l, Cmd("player/get_play_state", [Pid(pid)]));
    match Then(q.result, PlayStateOf)
    case Err(e) => Sent(q.link, Err(e))
    case Ok(current) =>
      var u := SimpleExchange(q.link, SetPlayStateCommand(pid, Toggle(current)));
      Sent(u.link, if u.result.Ok? then Ok(Toggle(current)) else Err(u.result.error))
  }

  /** Playing becomes paused and anything else becomes playing; a toggle never asks for Stop. */
  lemma ToggleNeverStops(l: Link, pid: I64)
    ensures var s := ToggleExchange(l, pid); s.result.Ok? ==> s.result.value != PlayState.Stop
    ensures var q := SimpleExchange(l, Cmd("player/get_play_state", [Pid(pid)]));
      var s := ToggleExchange(l, pid);
      s.result.Ok? ==> (s.result.value == PlayState.Pause <==> Then(q.result, PlayStateOf) == Ok(PlayState.Play))
  {
  }

  method TogglePlayPause(c: HeosClient) returns (r: Result<PlayState, HeosFailure>)
    modifies c
    ensures c.config == old(c.config)
    ensures var s := ToggleExchange(old(c.Session()), old(c.config.player_id)); c.Session() == s.link && r == s.result
  {
    var current :- GetPlayStateCurrent(c);
    var next := Toggle(current);
    var _ :- SetPlayStateCurrent(c, next);
    r := Ok(next);
  }

  method GetNowPlaying(c: HeosClient, pid: I64) returns (r: Result<NowPlayingMedia, HeosFailure>)
    modifies c
    ensures c.config == old(c.config)
    ensures var s := TypedExchange(old(c.Session()), Cmd("player/get_now_playing_media", [Pid(pid)]), MediaShape);
      c.Session() == s.link && r == Then(s.result, MediaOf)
  {
    var response :- c.SendCommandParsed(Cmd("player/get_now_playing_media", [Pid(pid)]), MediaShape);
    r := MediaOf(response);
  }

  method GetNowPlayingCurrent(c: HeosClient) returns (r: Result<NowPlayingMedia, HeosFailure>)
    modifies c
    ensures c.config == old(c.config)
    ensures var s := TypedExchange(old(c.Session()), Cmd("player/get_now_playing_media", [Pid(old(c.config.player_id))]), MediaShape);
      c.Session() == s.link && r == Then(s.result, MediaOf)
  {
    var pid := c.PlayerId();
    r := GetNowPlaying(c, pid);
  }

  method GetVolume(c: HeosClient, pid: I64) returns (r: Result<U8, HeosFailure>)
    modifies c
    ensures c.config == old(c.config)
    ensures var s := SimpleExchange(old(c.Session()), Cmd("player/get_volume", [Pid(pid)]));
      c.Session() == s.link && r == Then(s.result, LevelOf)
  {
    var header :- c.SendCommandSimple(Cmd("player/get_volume", [Pid(pid)]));
    r := LevelOf(header);
  }

  method GetVolumeCurrent(c: HeosClient) returns (r: Result<U8, HeosFailure>)
    modifies c
    ensures c.config == old(c.config)
    ensures var s := SimpleExchange(old(c.Session()), Cmd("player/get_volume", [Pid(old(c.config.player_id))]));
      c.Session() == s.link && r == Then(s.result, LevelOf)
  {
    var pid := c.PlayerId();
    r := GetVolume(c, pid);
  }

  /** `set_volume`: one frame at most, whose level is never above the ceiling. */
  method SetVolume(c: HeosClient, pid: I64, level: U8) returns (r: Result<(), HeosFailure>)
    modifies c
    ensures c.config == old(c.config)
    ensures var s := SimpleExchange(old(c.Session()), SetVolumeCommand(pid, level)); c.Session() == s.link && r == Discard(s.result)
    ensures c.net.sent == old(c.net.sent) || c.net.sent == old(c.net.sent) + [Frame(SetVolumeCommand(pid, level))]
  {
    r := Simple(c, SetVolumeCommand(pid, level));
  }

  method SetVolumeCurrent(c: HeosClient, level: U8) returns (r: Result<(), HeosFailure>)
    modifies c
    ensures c.config == old(c.config)
    ensures var s := SimpleExchange(old(c.Session()), SetVolumeCommand(old(c.config.player_id), level));
      c.Session() == s.link && r == Discard(s.result)
  {
    var pid := c.PlayerId();
    r := SetVolume(c, pid, level);
  }

  /** The volume query `volume_up` starts with: `get_volume` over a link. */
  function QueryVolume(l: Link, pid: I64): Sent<U8> {
    var q := SimpleExchange(l, Cmd("player/get_volume", [Pid(pid)]));
    Sent(q.link, Then(q.result, LevelOf))
  }

  /**
   * `volume_up` over a link: query the volume of `pid`; at or above the
   * ceiling succeed without sending more; otherwise send one safe step.
   */
  function VolumeUpExchange(l: Link, pid: I64, step: U8): (s: Sent<()>)
    ensures var q := QueryVolume(l, pid);
      && (q.result.Err? ==> s.link == q.link && s.result == Err(q.result.error))
      && (q.result.Ok? && q.result.value >= MaxVolumeLimit ==> s.link == q.link && s.result == Ok(()))
      && (q.result.Ok? && q.result.value < MaxVolumeLimit ==>
            var u := SimpleExchange(q.link, VolumeUpCommand(pid, VolumeUpStep(q.result.value, step).value));
            s.link == u.link && s.result == Discard(u.result))
  {
    var q := QueryVolume(l, pid);
    match q.result
    case Err(e) => Sent(q.link, Err(e))
    case Ok(current) =>
      match VolumeUpStep(current, step)
      case None => Sent(q.link, Ok(()))
      case Some(safe) =>
        var u := SimpleExchange(q.link, VolumeUpCommand(pid, safe));
        Sent(u.link, Discard(u.result))
  }

  /**
   * The safety promise of `volume_up`: a failed query or a volume at the
   * ceiling sends nothing more; otherwise exactly one frame follows the query,
   * carrying the safe step, which is in [1, 10] and does not take the reported
   * volume past the ceiling.
   */
  lemma VolumeUpStaysUnderCeiling(l: Link, pid: I64, step: U8)
    ensures var q := QueryVolume(l, pid);
      var s := VolumeUpExchange(l, pid, step);
      q.result.Err? || q.result.value >= MaxVolumeLimit ==> s.link.net.sent == q.link.net.sent
    ensures var q := QueryVolume(l, pid);
      var s := VolumeUpExchange(l, pid, step);
      q.result.Ok? && q.result.value < MaxVolumeLimit ==>
        && VolumeUpStep(q.result.value, step).Some?
        && var k := VolumeUpStep(q.result.value, step).value;
        && 1 <= k <= 10 && q.result.value + k <= MaxVolumeLimit
        && s.link.net.sent == q.link.net.sent + [Frame(VolumeUpCommand(pid, k))]
  {
    var q := QueryVolume(l, pid);
    if q.result.Ok? && q.result.value < MaxVolumeLimit {
      assert q.link.connected;
    }
  }

  method VolumeUp(c: HeosClient, pid: I64, step: U8) returns (r: Result<(), HeosFailure>)
    modifies c
    ensures c.config == old(c.config)
    ensures var s := VolumeUpExchange(old(c.Session()), pid, step); c.Session() == s.link && r == s.result
  {
    var current :- GetVolume(c, pid);
    match VolumeUpStep(current, step)
    case None =>
      r := Ok(());
    case Some(safe) =>
      r := Simple(c, VolumeUpCommand(pid, safe));
  }

  method VolumeUpCurrent(c: HeosClient, step: U8) returns (r: Result<(), HeosFailure>)
    modifies c
    ensures c.config == old(c.config)
    ensures var s := VolumeUpExchange(old(c.Session()), old(c.config.player_id), step); c.Session() == s.link && r == s.result
  {
    var pid := c.PlayerId();
    r := VolumeUp(c, pid, step);
  }

  /** `volume_down`: no query and no ceiling, a step clamped to [1, 10]. */
  method VolumeDown(c: HeosClient, pid: I64, step: U8) returns (r: Result<(), HeosFailure>)
    modifies c
    ensures c.config == old(c.config)
    ensures var s := SimpleExchange(old(c.Session()), VolumeDownCommand(pid, step)); c.Session() == s.link && r == Discard(s.result)
  {
    r := Simple(c, VolumeDownCommand(pid, step));
  }

  method VolumeDownCurrent(c: HeosClient, step: U8) returns (r: Result<(), HeosFailure>)
    modifies c
    ensures c.config == old(c.config)
    ensures var s := SimpleExchange(old(c.Session()), VolumeDownCommand(old(c.config.player_id), step));
      c.Session() == s.link && r == Discard(s.result)
  {
    var pid := c.PlayerId();
    r := VolumeDown(c, pid, step);
  }

  method GetMute(c: HeosClient, pid: I64) returns (r: Result<MuteState, HeosFailure>)
    modifies c
    ensures c.config == old(c.config)
    ensures var s := SimpleExchange(old(c.Session()), Cmd("player/get_mute", [Pid(pid)]));
      c.Session() == s.link && r == Then(s.result, MuteOf)
  {
    var header :- c.SendCommandSimple(Cmd("player/get_mute", [Pid(pid)]));
    r := MuteOf(header);
  }

  method GetMuteCurrent(c: HeosClient) returns (r: Result<MuteState, HeosFailure>)
    modifies c
    ensures c.config == old(c.config)
    ensures var s := SimpleExchange(old(c.Session()), Cmd("player/get_mute", [Pid(old(c.config.player_id))]));
      c.Session() == s.link && r == Then(s.result, MuteOf)
  {
    var pid := c.PlayerId();
    r := GetMute(c, pid);
  }

  method SetMute(c: HeosClient, pid: I64, state: MuteState) returns (r: Result<(), HeosFailure>)
    modifies c
    ensures c.config == old(c.config)
    ensures var s := SimpleExchange(old(c.Session()), SetMuteCommand(pid, state)); c.Session() == s.link && r == Discard(s.result)
  {
    r := Simple(c, SetMuteCommand(pid, state));
  }

  method SetMuteCurrent(c: HeosClient, state: MuteState) returns (r: Result<(), HeosFailure>)
    modifies c
    ensures c.config == old(c.config)
    ensures var s := SimpleExchange(old(c.Session()), SetMuteCommand(old(c.config.player_id), state));
      c.Session() == s.link && r == Discard(s.result)
  {
    var pid := c.PlayerId();
    r := SetMute(c, pid, state);
  }

  method ToggleMute(c: HeosClient, pid: I64) returns (r: Result<(), HeosFailure>)
    modifies c
    ensures c.config == old(c.config)
    ensures var s := SimpleExchange(old(c.Session()), Cmd("player/toggle_mute", [Pid(pid)])); c.Session() == s.link && r == Discard(s.result)
  {
    r := Simple(c, Cmd("player/toggle_mute", [Pid(pid)]));
  }

  method ToggleMuteCurrent(c: HeosClient) returns (r: Result<(), HeosFailure>)
    modifies c
    ensures c.config == old(c.config)
    ensures var s := SimpleExchange(old(c.Session()), Cmd("player/toggle_mute", [Pid(old(c.config.player_id))]));
      c.Session() == s.link && r == Discard(s.result)
  {
    var pid := c.PlayerId();
    r := ToggleMute(c, pid);
  }

  method PlayNext(c: HeosClient, pid: I64) returns (r: Result<(), HeosFailure>)
    modifies c
    ensures c.config == old(c.config)
    ensures var s := SimpleExchange(old(c.Session()), Cmd("player/play_next", [Pid(pid)])); c.Session() == s.link && r == Discard(s.result)
  {
    r := Simple(c, Cmd("player/play_next", [Pid(pid)]));
  }

  method PlayNextCurrent(c: HeosClient) returns (r: Result<(), HeosFailure>)
    modifies c
    ensures c.config == old(c.config)
    ensures var s := SimpleExchange(old(c.Session()), Cmd("player/play_next", [Pid(old(c.config.player_id))]));
      c.Session() == s.link && r == Discard(s.result)
  {
    var pid := c.PlayerId();
    r := PlayNext(c, pid);
  }

  method PlayPrevious(c: HeosClient, pid: I64) returns (r: Result<(), HeosFailure>)
    modifies c
    ensures c.config == old(c.config)
    ensures var s := SimpleExchange(old(c.Session()), Cmd("player/play_previous", [Pid(pid)])); c.Session() == s.link && r == Discard(s.result)
  {
    r := Simple(c, Cmd("player/play_previous", [Pid(pid)]));
  }

  method PlayPreviousCurrent(c: HeosClient) returns (r: Result<(), HeosFailure>)
    modifies c
    ensures c.config == old(c.config)
    ensures var s := SimpleExchange(old(c.Session()), Cmd("player/play_previous", [Pid(old(c.config.player_id))]));
      c.Session() == s.link && r == Discard(s.result)
  {
    var pid := c.PlayerId();
    r := PlayPrevious(c, pid);
  }

  /** `get_play_mode`: fails only when the exchange or the header does. */
  method GetPlayMode(c: HeosClient, pid: I64) returns (r: Result<(RepeatMode, ShuffleMode), HeosFailure>)
    modifies c
    ensures c.config == old(c.config)
    ensures var s := SimpleExchange(old(c.Session()), Cmd("player/get_play_mode", [Pid(pid)]));
      && c.Session() == s.link
      && (r.Ok? <==> s.result.Ok?)
      && (r.Ok? ==> r.value == PlayModeOf(s.result.value))
      && (r.Err? ==> r.error == s.result.error)
  {
    var header :- c.SendCommandSimple(Cmd("player/get_play_mode", [Pid(pid)]));
    r := Ok(PlayModeOf(header));
  }

  method SetPlayMode(c: HeosClient, pid: I64, repeat: RepeatMode, shuffle: ShuffleMode) returns (r: Result<(), HeosFailure>)
    modifies c
    ensures c.config == old(c.config)
    ensures var s := SimpleExchange(old(c.Session()), SetPlayModeCommand(pid, repeat, shuffle));
      c.Session() == s.link && r == Discard(s.result)
  {
    r := Simple(c, SetPlayModeCommand(pid, repeat, shuffle));
  }

  method ClearQueue(c: HeosClient, pid: I64) returns (r: Result<(), HeosFailure>)
    modifies c
    ensures c.config == old(c.config)
    ensures var s := SimpleExchange(old(c.Session()), Cmd("player/clear_queue", [Pid(pid)])); c.Session() == s.link && r == Discard(s.result)
  {
    r := Simple(c, Cmd("player/clear_queue", [Pid(pid)]));
  }

  method ClearQueueCurrent(c: HeosClient) returns (r: Result<(), HeosFailure>)
    modifies c
    ensures c.config == old(c.config)
    ensures var s := SimpleExchange(old(c.Session()), Cmd("player/clear_queue", [Pid(old(c.config.player_id))]));
      c.Session() == s.link && r == Discard(s.result)
  {
    var pid := c.PlayerId();
    r := ClearQueue(c, pid);
  }

  method GetMusicSources(c: HeosClient) returns (r: Result<seq<MusicSource>, HeosFailure>)
    modifies c
    ensures c.config == old(c.config)
    ensures var s := TypedExchange(old(c.Session()), Cmd("browse/get_music_sources", []), SourcesShape);
      c.Session() == s.link && r == Then(s.result, SourcesOf)
  {
    var response :- c.SendCommandParsed(Cmd("browse/get_music_sources", []), SourcesShape);
    r := SourcesOf(response);
  }

  method PlayInput(c: HeosClient, pid: I64, input: string) returns (r: Result<(), HeosFailure>)
    modifies c
    ensures c.config == old(c.config)
    ensures var s := SimpleExchange(old(c.Session()), Cmd("browse/play_input", [Pid(pid), ("input", input)]));
      c.Session() == s.link && r == Discard(s.result)
  {
    r := Simple(c, Cmd("browse/play_input", [Pid(pid), ("input", input)]));
  }

  method PlayInputCurrent(c: HeosClient, input: string) returns (r: Result<(), HeosFailure>)
    modifies c
    ensures c.config == old(c.config)
    ensures var s := SimpleExchange(old(c.Session()), Cmd("browse/play_input", [Pid(old(c.config.player_id)), ("input", input)]));
      c.Session() == s.link && r == Discard(s.result)
  {
    var pid := c.PlayerId();
    r := PlayInput(c, pid, input);
  }

  method PlayTv(c: HeosClient) returns (r: Result<(), HeosFailure>)
    modifies c
    ensures c.config == old(c.config)
    ensures var s := SimpleExchange(old(c.Session()), Cmd("browse/play_input", [Pid(old(c.config.player_id)), ("input", OpticalIn1)]));
      c.Session() == s.link && r == Discard(s.result)
  {
    r := PlayInputCurrent(c, OpticalIn1);
  }

  method PlayPreset(c: HeosClient, pid: I64, preset: U8) returns (r: Result<(), HeosFailure>)
    modifies c
    ensures c.config == old(c.config)
    ensures var s := SimpleExchange(old(c.Session()), Cmd("browse/play_preset", [Pid(pid), ("preset", NatToString(preset))]));
      c.Session() == s.link && r == Discard(s.result)
  {
    r := Simple(c, Cmd("browse/play_preset", [Pid(pid), ("preset", NatToString(preset))]));
  }

  method PlayPresetCurrent(c: HeosClient, preset: U8) returns (r: Result<(), HeosFailure>)
    modifies c
    ensures c.config == old(c.config)
    ensures var s := SimpleExchange(old(c.Session()), Cmd("browse/play_preset", [Pid(old(c.config.player_id)), ("preset", NatToString(preset))]));
      c.Session() == s.link && r == Discard(s.result)
  {
    var pid := c.PlayerId();
    r := PlayPreset(c, pid, preset);
  }

  method PlayUrl(c: HeosClient, pid: I64, url: string) returns (r: Result<(), HeosFailure>)
    modifies c
    ensures c.config == old(c.config)
    ensures var s := SimpleExchange(old(c.Session()), Cmd("browse/play_stream", [Pid(pid), ("url", url)]));
      c.Session() == s.link && r == Discard(s.result)
  {
    r := Simple(c, Cmd("browse/play_stream", [Pid(pid), ("url", url)]));
  }

  method PlayUrlCurrent(c: HeosClient, url: string) returns (r: Result<(), HeosFailure>)
    modifies c
    ensures c.config == old(c.config)
    ensures var s := SimpleExchange(old(c.Session()), Cmd("browse/play_stream", [Pid(old(c.config.player_id)), ("url", url)]));
      c.Session() == s.link && r == Discard(s.result)
  {
    var pid := c.PlayerId();
    r := PlayUrl(c, pid, url);
  }

  /** `browse_source`: the raw trimmed line, undecoded. */
  method BrowseSource(c: HeosClient, sid: I64) returns (r: Result<string, HeosFailure>)
    modifies c
    ensures c.config == old(c.config)
    ensures var s := Exchange(old(c.Session()), Cmd("browse/browse", [("sid", IntToString(sid))]));
      && c.Session() == s.link
      && (r.Ok? <==> s.result.Ok?)
      && (r.Ok? ==> r.value == s.result.value.text)
      && (r.Err? ==> r.error == s.result.error)
  {
    var response :- c.SendCommand(Cmd("browse/browse", [("sid", IntToString(sid))]));
    r := Ok(response.text);
  }

  method BrowseSpotify(c: HeosClient) returns (r: Result<string, HeosFailure>)
    modifies c
    ensures c.config == old(c.config)
    ensures var s := Exchange(old(c.Session()), Cmd("browse/browse", [("sid", IntToString(Spotify))]));
      && c.Session() == s.link
      && (r.Ok? <==> s.result.Ok?)
      && (r.Ok? ==> r.value == s.result.value.text)
      && (r.Err? ==> r.error == s.result.error)
  {
    r := BrowseSource(c, Spotify);
  }

  method BrowseFavorites(c: HeosClient) returns (r: Result<string, HeosFailure>)
    modifies c
    ensures c.config == old(c.config)
    ensures var s := Exchange(old(c.Session()), Cmd("browse/browse", [("sid", IntToString(Favorites))]));
      && c.Session() == s.link
      && (r.Ok? <==> s.result.Ok?)
      && (r.Ok? ==> r.value == s.result.value.text)
      && (r.Err? ==> r.error == s.result.error)
  {
    r := BrowseSource(c, Favorites);
  }
}
