# HEOS CLI protocol client, modelled in Dafny

This project models the client side of the HEOS CLI protocol described below:
- framing a `heos://group/command?k=v&...` string and sending it on a TCP session to port 1255;
- reading back one JSON line per command;
- checking its `heos` header and turning a failed header into a HEOS error with code and text;
- decoding the `key=value&...` message field;
- the command surface built on that: player, volume, mute, play mode, queue, sources and inputs.

It also covers a slice of the desktop shell: connect-and-discover, which connects unless already connected, lists the players and chooses one by a case-insensitive part of its name. It also covers setting the host and the boolean mute commands.

Modules, in dependency order:

- `Wrappers` (wrappers.dfy). `Option` and `Result`, with `:-` playing the part of Rust's `?`.
- `Numerals` (numerals.dfy). Decimal text of integers as `Display` writes it. Parsing as `str::parse` does for `u8`, `i32` and `i64`:
  - an optional `+`, and `-` only for signed types;
  - no empty digit string;
  - no overflow.
- `HeosTypes` (types.dfy). The configuration, the response header, the message parser (split on `&`, cut each piece at its first `=`, drop pieces without `=`, the last key wins), the enumerations with their wire text and parsers, the player, media and source records, and the device error with its display text.
- `Client` (client.dfy). The connection and the network as a scripted oracle:
  - a `Network` holds the outcomes of future dials, the lines the device will answer with, and the frames written so far;
  - pure step functions (`Dial`, `Ensure`, `Exchange`, `TypedExchange`, `SimpleExchange`) say what one call does to a `Link` (connected flag plus network);
  - the `HeosClient` class keeps `config`, `connected` and `net` as fields, and each of its methods is proved equal to the corresponding step function.
- `Commands` (commands.dfy). One method per client command over a `HeosClient`, plus the pure decisions they make:
  - the volume clamp to 75 and the step clamp to [1, 10];
  - the `volume_up` safe step;
  - the play/pause toggle;
  - the permissive repeat/shuffle decoding;
  - the payload defaults.

  Each multi-step command (`toggle_play_pause`, `volume_up`) is specified by a pure composite of exchanges with its safety lemma.
- `App` (app.dfy). Error display text, the substring test, player selection, and the four shell commands.

I/O is modelled like this:
- A dial either is accepted or fails with a reason. An empty dial script fails with "connection refused".
- A reply is either a line or a broken stream. The line carries its raw text and, when it is a well-formed envelope, its decoded JSON.
- No reply left means end of stream. As with `read_line`, that reads an empty line, which is not JSON.

## Model

| member | source | states |
|---|---|---|
| Wrappers.Then | src/ui/src-tauri/src/heos/client.rs:117-118 | an error short-circuits (`?`), a success value feeds the next step |
| Wrappers.Discard | src/ui/src-tauri/src/heos/commands.rs:22-25 | `x?; Ok(())`: succeeds exactly when `x` does, keeping the error |
| Numerals.DigitChar | src/ui/src-tauri/src/heos/commands.rs:72 | the digit character of a value below 10, whose offset from '0' is that value |
| Numerals.NatToString | src/ui/src-tauri/src/heos/commands.rs:172 | a u8 or non-negative number's `Display` text: non-empty, digits only, no leading zero, denoting the number |
| Numerals.IntToString | src/ui/src-tauri/src/heos/commands.rs:72 | an i64's `Display` text: digits with a leading '-' exactly when negative |
| Numerals.ParseUnsigned | src/ui/src-tauri/src/heos/commands.rs:160 | unsigned `str::parse` in both directions: a success is at most the bound and is the value of a non-empty digit string optionally preceded by '+', and every such string within the bound is accepted |
| Numerals.ParseSigned | src/ui/src-tauri/src/heos/client.rs:123 | signed `str::parse` in both directions: a success is within [min, max]; after a '-' it is minus a non-empty digit string, and every such string not below min is accepted; without a '-' it is exactly the unsigned parse |
| Numerals.ParseU8 | src/ui/src-tauri/src/heos/commands.rs:160 | `parse::<u8>`: the unsigned parse with bound 255 |
| Numerals.ParseI32 | src/ui/src-tauri/src/heos/client.rs:123 | `parse::<i32>`: the signed parse over the i32 range |
| Numerals.ParseI64 | src/ui/src-tauri/src/heos/commands.rs:72 | specification helper reading a printed pid back: the signed parse over the i64 range |
| Numerals.UnsignedRoundTrip | src/ui/src-tauri/src/heos/commands.rs:172 | parsing the decimal text of a number up to the bound gives it back |
| Numerals.SignedRoundTrip | src/ui/src-tauri/src/heos/client.rs:123 | parsing the decimal text of a number in range gives it back, negatives included |
| Numerals.U8RoundTrip | src/ui/src-tauri/src/heos/commands.rs:156-160 | a u8 written into a message reads back as itself |
| Numerals.I32RoundTrip | src/ui/src-tauri/src/heos/client.rs:123 | an i32 error code written into a message reads back as itself |
| Numerals.I64RoundTrip | src/ui/src-tauri/src/heos/commands.rs:72 | a player id written into a command reads back as itself |
| Numerals.ParseU8Accepts | src/ui/src-tauri/src/heos/commands.rs:160 | "+7" and "050" parse as the u8 values 7 and 50 |
| Numerals.ParseU8Refuses | src/ui/src-tauri/src/heos/commands.rs:160 | "", "+", "-1" and "256" are not u8 values |
| Numerals.ParseI32Examples | src/ui/src-tauri/src/heos/client.rs:123 | "-3" is the i32 value -3; "-" and "x" are not i32 values |
| HeosTypes.IsSuccessIsExact | src/ui/src-tauri/src/heos/types.rs:43-45 | the success test is exact and case-sensitive: "fail", "Success" and "SUCCESS" do not succeed |
| HeosTypes.IsSuccess | src/ui/src-tauri/src/heos/types.rs:43-45 | `is_success`: the header's result is "success" |
| HeosTypes.Split | src/ui/src-tauri/src/heos/types.rs:51 | `split('&')`: at least one piece, no piece holds the separator, the pieces joined give the input |
| HeosTypes.SplitOnce | src/ui/src-tauri/src/heos/types.rs:53-57 | `splitn(2, '=')`: none exactly when there is no '='; otherwise a key without '=' and the rest, rejoined to the input |
| HeosTypes.SplitOnceAt | src/ui/src-tauri/src/heos/types.rs:53-57 | a piece cuts at its first separator "key sep rest" when the key has none |
| HeosTypes.SplitWithoutSep | src/ui/src-tauri/src/heos/types.rs:51 | a string without the separator splits into itself alone |
| HeosTypes.SplitAppend | src/ui/src-tauri/src/heos/types.rs:51 | splitting `a sep b` gives the pieces of `a` followed by those of `b` |
| HeosTypes.SplitJoin | src/ui/src-tauri/src/heos/types.rs:51 | joining separator-free pieces and splitting again gives the pieces back |
| HeosTypes.Pairs | src/ui/src-tauri/src/heos/types.rs:52-58 | the `filter_map`: no more pairs than pieces, and every key is free of '=' |
| HeosTypes.PairsAppend | src/ui/src-tauri/src/heos/types.rs:52-58 | the filter distributes over concatenation of pieces |
| HeosTypes.Collect | src/ui/src-tauri/src/heos/types.rs:59 | `collect` into a HashMap: the keys are those of the pairs, and a key's value is that of its last occurrence |
| HeosTypes.CollectFromPairs | src/ui/src-tauri/src/heos/types.rs:59 | every entry of the collected map is one of the pairs |
| HeosTypes.PairsKeepPlain | src/ui/src-tauri/src/heos/types.rs:52-58 | pieces without '&' give keys and values without '&' |
| HeosTypes.ParseMessage | src/ui/src-tauri/src/heos/types.rs:49-60 | `parse_message`: every key is free of '&' and '=', and every value free of '&' |
| HeosTypes.EncodeMessage | src/ui/src-tauri/src/heos/commands.rs:319-322 | the `k=v&k=v` query text: empty for no entries, and for well-formed entries its '&'-pieces are exactly the `key=value` texts |
| HeosTypes.EntryTexts | src/ui/src-tauri/src/heos/commands.rs:319-322 | each entry becomes `key=value`, one text per entry |
| HeosTypes.PairsOfEntryTexts | src/ui/src-tauri/src/heos/types.rs:52-58 | reading `key=value` texts back gives the entries when keys hold no '=' |
| HeosTypes.ParseEncodeMessage | src/ui/src-tauri/src/heos/types.rs:49-60 | parsing an encoded `k=v&...` message gives the map of its entries, later keys winning |
| HeosTypes.ParseEmptyMessage | src/ui/src-tauri/src/heos/types.rs:38-39 | an empty (defaulted) message parses to the empty map |
| HeosTypes.ParseDropsMalformed | src/ui/src-tauri/src/heos/types.rs:55-56 | a piece without '=' is dropped, at either end of the message |
| HeosTypes.ParseLastWins | src/ui/src-tauri/src/heos/types.rs:59 | appending `&k=v` to a message overrides only `k` |
| HeosTypes.ParseSingle | src/ui/src-tauri/src/heos/types.rs:49-60 | a message `k=v` with no '&' anywhere and no '=' in `k` parses to the one-entry map `k := v` |
| HeosTypes.ParseTwo | src/ui/src-tauri/src/heos/types.rs:49-60 | a message `k1=v1&k2=v2` with no '&' anywhere and no '=' in the keys parses to those two entries, the second winning on equal keys |
| HeosTypes.EncodeTwo | src/ui/src-tauri/src/heos/commands.rs:172 | a two-parameter query is `k1=v1&k2=v2` |
| HeosTypes.ParseMessageExample | src/ui/src-tauri/src/heos/client.rs:176-186 | "pid=123&level=50" gives pid 123 and level 50 |
| HeosTypes.ParseKeepsLaterEquals | src/ui/src-tauri/src/heos/types.rs:53 | "url=a=b" keeps "a=b" as the value |
| HeosTypes.Lookup | src/ui/src-tauri/src/heos/commands.rs:158 | `get`: present exactly when the key is in the map, with its value |
| HeosTypes.Lower | src/ui/src-tauri/src/heos/types.rs:107 | `to_lowercase` (ASCII): same length, each character folded |
| HeosTypes.Upper | src/ui/src-tauri/src/heos/types.rs:107 | specification helper for stating the case-insensitive parses: same length, each ASCII letter raised |
| HeosTypes.LowerOfUpper | src/ui/src-tauri/src/heos/types.rs:107 | folding ignores an earlier change of case |
| HeosTypes.ParsePlayState | src/ui/src-tauri/src/heos/types.rs:103-114 | a success is the state whose text equals the folded input; a failure is "Unknown play state: " plus the input, and no state's text matches |
| HeosTypes.PlayStateText | src/ui/src-tauri/src/heos/types.rs:93-100 | `Display for PlayState`: a non-empty lower-case word, without '&' or '=' |
| HeosTypes.PlayStateRoundTrip | src/ui/src-tauri/src/heos/types.rs:93-114 | `from_str(to_string(p)) == p`, also from the upper-case text |
| HeosTypes.ParsePlayStateExactly | src/ui/src-tauri/src/heos/types.rs:103-114 | parsing succeeds with p if and only if the folded input is p's text |
| HeosTypes.ParseMuteState | src/ui/src-tauri/src/heos/types.rs:132-142 | as for play state, with "Unknown mute state: " |
| HeosTypes.MuteStateText | src/ui/src-tauri/src/heos/types.rs:123-130 | `Display for MuteState`: a non-empty lower-case word, without '&' or '=' |
| HeosTypes.MuteStateRoundTrip | src/ui/src-tauri/src/heos/types.rs:123-142 | `from_str(to_string(m)) == m`, also from the upper-case text |
| HeosTypes.ParseMuteStateExactly | src/ui/src-tauri/src/heos/types.rs:132-142 | parsing succeeds with m if and only if the folded input is m's text |
| HeosTypes.ModeTextsInjective | src/ui/src-tauri/src/heos/types.rs:153-177 | distinct repeat modes, and distinct shuffle modes, have distinct texts |
| HeosTypes.RepeatModeText | src/ui/src-tauri/src/heos/types.rs:153-161 | `Display for RepeatMode`: non-empty lower-case letters and '_', without '&' or '=' |
| HeosTypes.ShuffleModeText | src/ui/src-tauri/src/heos/types.rs:170-177 | `Display for ShuffleMode`: a non-empty lower-case word, without '&' or '=' |
| HeosTypes.HeosErrorText | src/ui/src-tauri/src/heos/types.rs:322-326 | the display text is "HEOS Error ", then a code text that reads back as the error's code, then ": " and the message |
| Client.Frame | src/ui/src-tauri/src/heos/client.rs:97 | the frame is the command followed by CRLF |
| Client.FrameInjective | src/ui/src-tauri/src/heos/client.rs:97 | distinct commands give distinct frames |
| Client.TrimStart | src/ui/src-tauri/src/heos/client.rs:106 | a suffix, with only whitespace removed, not starting with whitespace |
| Client.TrimEnd | src/ui/src-tauri/src/heos/client.rs:106 | a prefix, with only whitespace removed, not ending with whitespace |
| Client.Trim | src/ui/src-tauri/src/heos/client.rs:106 | `trim`: an infix surrounded by whitespace, neither end of which is whitespace |
| Client.TrimFramedLine | src/ui/src-tauri/src/heos/client.rs:104-106 | a line read with its CRLF trims to the line when it has no whitespace at its ends |
| Client.Dial | src/ui/src-tauri/src/heos/client.rs:50-62 | `connect`: succeeds exactly on an accepted dial, consumes one dial, connects only on success, writes and reads nothing |
| Client.Ensure | src/ui/src-tauri/src/heos/client.rs:82-87 | `ensure_connected`: no dial when connected, otherwise `connect`; succeeds exactly when connected afterwards |
| Client.Exchange | src/ui/src-tauri/src/heos/client.rs:90-107 | `send_command`: without a connection nothing is written and the connect error is returned; with one the CRLF frame is written and one reply consumed: a line gives its trimmed text with its decoding, a broken stream the transport error, an exhausted script (EOF) the empty response; never dials on a live connection |
| Client.ExchangeReadsFramedLine | src/ui/src-tauri/src/heos/client.rs:97-106 | on a live connection a CRLF-framed reply without edge whitespace comes back as exactly its line, consuming that reply and writing the command's frame |
| Client.Decode | src/ui/src-tauri/src/heos/client.rs:117-118 | decoding succeeds exactly on an envelope whose payload fits the expected type; failures are protocol errors |
| Client.ErrorFromHeader | src/ui/src-tauri/src/heos/client.rs:122-131 | the code is `eid` as i32, else -1; the text is `text`, else "Unknown error" |
| Client.CheckHeader | src/ui/src-tauri/src/heos/client.rs:121-134 | passes a successful header unchanged, otherwise the device error of that header |
| Client.ErrorFromReportedHeader | src/ui/src-tauri/src/heos/client.rs:122-131 | `eid=<c>&text=<t>` gives exactly error (c, t) |
| Client.WrongArgumentsExample | src/ui/src-tauri/src/heos/client.rs:121-131 | a failed header whose message is "eid=3&text=" followed by any text without '&' gives error 3 with exactly that text |
| Client.ErrorDefaults | src/ui/src-tauri/src/heos/client.rs:123-127 | a failed header without message gives error -1 "Unknown error" |
| Client.TypedExchange | src/ui/src-tauri/src/heos/client.rs:110-135 | `send_command_parsed`, every outcome: a transport error passes through, a line that does not decode gives that protocol error, a decoded failed header gives the device error of `ErrorFromHeader`, and a decoded successful header gives the envelope |
| Client.SimpleExchange | src/ui/src-tauri/src/heos/client.rs:138-159 | `send_command_simple`: the typed send with no payload, returning the successful header |
| Client.HeosClient.constructor | src/ui/src-tauri/src/heos/client.rs:20-25 | the given configuration, not connected |
| Client.HeosClient.WithDefaults | src/ui/src-tauri/src/heos/client.rs:28-30 | the default configuration 192.168.1.2:1255, player 0, not connected |
| Client.HeosClient.Clone | src/ui/src-tauri/src/heos/client.rs:162-169 | the same configuration and a connection of its own, not open |
| Client.HeosClient.SetConfig | src/ui/src-tauri/src/heos/client.rs:33-37 | the new configuration, disconnected, the network untouched |
| Client.HeosClient.PlayerId | src/ui/src-tauri/src/heos/client.rs:40-42 | the configured player id |
| Client.HeosClient.SetPlayerId | src/ui/src-tauri/src/heos/client.rs:45-47 | only the player id changes |
| Client.HeosClient.Host | src/ui/src-tauri/src/heos/client.rs:65-67 | the configured host |
| Client.HeosClient.Connect | src/ui/src-tauri/src/heos/client.rs:50-62 | the new session and result are those of `Dial`; the configuration is kept |
| Client.HeosClient.Disconnect | src/ui/src-tauri/src/heos/client.rs:70-73 | disconnected, nothing else changed |
| Client.HeosClient.IsConnected | src/ui/src-tauri/src/heos/client.rs:76-79 | the connected flag |
| Client.HeosClient.EnsureConnected | src/ui/src-tauri/src/heos/client.rs:82-87 | the new session and result are those of `Ensure` |
| Client.HeosClient.SendCommand | src/ui/src-tauri/src/heos/client.rs:90-107 | the new session and result are those of `Exchange` |
| Client.HeosClient.SendCommandParsed | src/ui/src-tauri/src/heos/client.rs:110-135 | the new session and result are those of `TypedExchange` |
| Client.HeosClient.SendCommandSimple | src/ui/src-tauri/src/heos/client.rs:138-159 | the new session and result are those of `SimpleExchange` |
| Commands.CommandQuery | src/ui/src-tauri/src/heos/commands.rs:319-322 | the text after the first '?' of a built command with parameters is exactly its encoded parameters |
| Commands.Cmd | src/ui/src-tauri/src/heos/commands.rs:319-322 | `heos://<action>`, then, exactly when there are parameters, '?' followed by their encoding |
| Commands.SetVolumeCommand | src/ui/src-tauri/src/heos/commands.rs:170-172 | `set_volume` for the player with the clamped level; what it carries is read back by `SetVolumeOnWire` |
| Commands.VolumeUpCommand | src/ui/src-tauri/src/heos/commands.rs:196 | `volume_up` for the player with the given step; read back by `VolumeUpOnWire` |
| Commands.VolumeDownCommand | src/ui/src-tauri/src/heos/commands.rs:208-210 | `volume_down` for the player with the clamped step; read back by `VolumeDownOnWire` |
| Commands.SetPlayStateCommand | src/ui/src-tauri/src/heos/commands.rs:101 | `set_play_state` for the player with the state's text; read back by `PlayStateEcho` |
| Commands.SetMuteCommand | src/ui/src-tauri/src/heos/commands.rs:238 | `set_mute` for the player with the state's text; read back by `MuteStateEcho` |
| Commands.SetPlayModeCommand | src/ui/src-tauri/src/heos/commands.rs:319-322 | `set_play_mode` for the player with the repeat and shuffle texts; read back by `PlayModeEcho` |
| Commands.CommandParameters | src/ui/src-tauri/src/heos/commands.rs:319-322 | the query of a built command parses back to the map of its parameters |
| Commands.TwoParameters | src/ui/src-tauri/src/heos/commands.rs:172 | a two-parameter command reads back as those two values |
| Commands.ThreeParameters | src/ui/src-tauri/src/heos/commands.rs:319-322 | a three-parameter command with distinct keys reads back as those three values |
| Commands.ClampVolume | src/ui/src-tauri/src/heos/commands.rs:171 | at most 75; the level itself when at most 75, else 75 |
| Commands.ClampStep | src/ui/src-tauri/src/heos/commands.rs:190 | within [1, 10]; the step itself when in range; 0 gives 1, above 10 gives 10 |
| Commands.SaturatingSub | src/ui/src-tauri/src/heos/commands.rs:192 | the difference when non-negative, else 0 |
| Commands.VolumeUpStep | src/ui/src-tauri/src/heos/commands.rs:186-195 | nothing is sent exactly at or above 75; a sent step is in [1, 10], at most the clamped step, never takes the volume past 75, and is the clamped step unless it lands exactly on 75 |
| Commands.SetVolumeOnWire | src/ui/src-tauri/src/heos/commands.rs:170-175 | the sent level reads back as the clamped level, at most 75, with the player id |
| Commands.VolumeUpOnWire | src/ui/src-tauri/src/heos/commands.rs:196 | the sent step reads back as the safe step, with the player id |
| Commands.VolumeDownOnWire | src/ui/src-tauri/src/heos/commands.rs:208-213 | the sent step reads back within [1, 10] |
| Commands.LevelOf | src/ui/src-tauri/src/heos/commands.rs:157-160 | "No level in response" without `level`, "Invalid volume level" when it is not a u8, else that u8 |
| Commands.LevelOfReport | src/ui/src-tauri/src/heos/commands.rs:155-161 | a report `pid=..&level=<v>` reads as v |
| Commands.PlayStateOf | src/ui/src-tauri/src/heos/commands.rs:83-86 | "No state in response" without `state`, else the play-state parse, its error kept |
| Commands.MuteOf | src/ui/src-tauri/src/heos/commands.rs:224-227 | "No state in response" without `state`, else the mute-state parse, its error kept |
| Commands.PlayStateEcho | src/ui/src-tauri/src/heos/commands.rs:81-104 | reading back the parameters of a `set_play_state` as a `get_play_state` report gives the state that was set |
| Commands.MuteStateEcho | src/ui/src-tauri/src/heos/commands.rs:222-241 | reading back the parameters of a `set_mute` as a `get_mute` report gives the state that was set |
| Commands.Toggle | src/ui/src-tauri/src/heos/commands.rs:132-135 | pause exactly when playing, and never stop |
| Commands.ToggleOnWire | src/ui/src-tauri/src/heos/commands.rs:130-138 | the toggled state is sent as "pause" when playing, else "play" |
| Commands.DecodeRepeat | src/ui/src-tauri/src/heos/commands.rs:297-301 | only the exact texts "on_one" and "on_all" give a non-off mode; nothing gives off |
| Commands.DecodeShuffle | src/ui/src-tauri/src/heos/commands.rs:303-306 | on exactly for the text "on" |
| Commands.DecodeModeRoundTrip | src/ui/src-tauri/src/heos/commands.rs:297-306 | each mode's own text decodes to it |
| Commands.PlayModeOf | src/ui/src-tauri/src/heos/commands.rs:294-308 | the modes are the decodings of the `repeat` and `shuffle` fields |
| Commands.PlayModeEcho | src/ui/src-tauri/src/heos/commands.rs:289-325 | reading back the query of `set_play_mode` gives the modes that were set |
| Commands.PlayModeOfReport | src/ui/src-tauri/src/heos/commands.rs:294-308 | a header whose message carries two mode texts reads back as those modes |
| Commands.PlayModeExample | src/ui/src-tauri/src/heos/commands.rs:297-306 | "repeat=bogus&shuffle=on" gives repeat off and shuffle on |
| Commands.PlayersOf | src/ui/src-tauri/src/heos/commands.rs:66 | always a success; the player list, empty when no payload |
| Commands.PlayerInfoOf | src/ui/src-tauri/src/heos/commands.rs:74-76 | the player, or "No player info returned" without payload |
| Commands.MediaOf | src/ui/src-tauri/src/heos/commands.rs:145 | always a success; the media, all fields absent when no payload |
| Commands.SourcesOf | src/ui/src-tauri/src/heos/commands.rs:351 | always a success; the sources, empty when no payload |
| Commands.Simple | src/ui/src-tauri/src/heos/commands.rs:35-36 | `send_command_simple(cmd)?; Ok(())`: the session is the simple send's and the result is its outcome with the header dropped; configuration kept |
| Commands.Heartbeat | src/ui/src-tauri/src/heos/commands.rs:22-25 | `system/heart_beat` through the simple send; configuration kept |
| Commands.RegisterForChangeEvents | src/ui/src-tauri/src/heos/commands.rs:29-37 | `enable=on` or `enable=off` through the simple send |
| Commands.PrettifyJson | src/ui/src-tauri/src/heos/commands.rs:41-46 | `prettify_json_response` with `enable=on/off` through the simple send |
| Commands.Reboot | src/ui/src-tauri/src/heos/commands.rs:50-53 | `system/reboot` through the simple send |
| Commands.GetPlayers | src/ui/src-tauri/src/heos/commands.rs:63-67 | the typed send for a player list, defaulting to none |
| Commands.GetPlayerInfo | src/ui/src-tauri/src/heos/commands.rs:71-77 | the typed send for one player, failing without payload |
| Commands.GetPlayState | src/ui/src-tauri/src/heos/commands.rs:81-87 | the simple send, then `PlayStateOf` |
| Commands.GetPlayStateCurrent | src/ui/src-tauri/src/heos/commands.rs:90-92 | the same for the configured player |
| Commands.SetPlayState | src/ui/src-tauri/src/heos/commands.rs:96-104 | `set_play_state` with the state's text |
| Commands.SetPlayStateCurrent | src/ui/src-tauri/src/heos/commands.rs:107-112 | the same for the configured player |
| Commands.Play | src/ui/src-tauri/src/heos/commands.rs:115-117 | sets play on the configured player |
| Commands.Pause | src/ui/src-tauri/src/heos/commands.rs:120-122 | sets pause on the configured player |
| Commands.Stop | src/ui/src-tauri/src/heos/commands.rs:125-127 | sets stop on the configured player |
| Commands.ToggleExchange | src/ui/src-tauri/src/heos/commands.rs:130-138 | a failed query sends nothing more and is returned; after a good query the `set_play_state` frame of the toggled state is always sent, and the result succeeds, with the toggled state, exactly when that send does |
| Commands.ToggleNeverStops | src/ui/src-tauri/src/heos/commands.rs:132-135 | a toggle never asks for stop, and asks for pause exactly when the player was playing |
| Commands.TogglePlayPause | src/ui/src-tauri/src/heos/commands.rs:130-138 | session and result are those of `ToggleExchange` on the configured player |
| Commands.GetNowPlaying | src/ui/src-tauri/src/heos/commands.rs:142-146 | the typed send for media, defaulting to no media |
| Commands.GetNowPlayingCurrent | src/ui/src-tauri/src/heos/commands.rs:149-151 | the same for the configured player |
| Commands.GetVolume | src/ui/src-tauri/src/heos/commands.rs:155-161 | the simple send, then `LevelOf` |
| Commands.GetVolumeCurrent | src/ui/src-tauri/src/heos/commands.rs:164-166 | the same for the configured player |
| Commands.SetVolume | src/ui/src-tauri/src/heos/commands.rs:170-175 | one `set_volume` frame at most, with the clamped level |
| Commands.SetVolumeCurrent | src/ui/src-tauri/src/heos/commands.rs:178-180 | the same for the configured player |
| Commands.VolumeUpExchange | src/ui/src-tauri/src/heos/commands.rs:184-199 | a failed query is returned; at or above 75 it succeeds with nothing more sent; below 75 it is the simple send of `volume_up` with `VolumeUpStep`'s step, its error kept |
| Commands.VolumeUpStaysUnderCeiling | src/ui/src-tauri/src/heos/commands.rs:184-199 | a failed query or a volume at the ceiling sends nothing more; below it exactly one frame follows the query, with `VolumeUpStep`'s step k, 1 <= k <= 10 and volume plus k at most 75 |
| Commands.VolumeUp | src/ui/src-tauri/src/heos/commands.rs:184-199 | session and result are those of `VolumeUpExchange` |
| Commands.VolumeUpCurrent | src/ui/src-tauri/src/heos/commands.rs:202-204 | the same for the configured player |
| Commands.VolumeDown | src/ui/src-tauri/src/heos/commands.rs:208-213 | `volume_down` with the step clamped to [1, 10] and no query |
| Commands.VolumeDownCurrent | src/ui/src-tauri/src/heos/commands.rs:216-218 | the same for the configured player |
| Commands.GetMute | src/ui/src-tauri/src/heos/commands.rs:222-228 | the simple send, then `MuteOf` |
| Commands.GetMuteCurrent | src/ui/src-tauri/src/heos/commands.rs:231-233 | the same for the configured player |
| Commands.SetMute | src/ui/src-tauri/src/heos/commands.rs:237-241 | `set_mute` with the state's text |
| Commands.SetMuteCurrent | src/ui/src-tauri/src/heos/commands.rs:244-246 | the same for the configured player |
| Commands.ToggleMute | src/ui/src-tauri/src/heos/commands.rs:250-254 | `toggle_mute` through the simple send |
| Commands.ToggleMuteCurrent | src/ui/src-tauri/src/heos/commands.rs:257-259 | the same for the configured player |
| Commands.PlayNext | src/ui/src-tauri/src/heos/commands.rs:263-267 | `play_next` through the simple send |
| Commands.PlayNextCurrent | src/ui/src-tauri/src/heos/commands.rs:270-272 | the same for the configured player |
| Commands.PlayPrevious | src/ui/src-tauri/src/heos/commands.rs:276-280 | `play_previous` through the simple send |
| Commands.PlayPreviousCurrent | src/ui/src-tauri/src/heos/commands.rs:283-285 | the same for the configured player |
| Commands.GetPlayMode | src/ui/src-tauri/src/heos/commands.rs:289-309 | fails exactly when the simple send does; otherwise the decoded modes |
| Commands.SetPlayMode | src/ui/src-tauri/src/heos/commands.rs:313-325 | `set_play_mode` with the repeat and shuffle texts |
| Commands.ClearQueue | src/ui/src-tauri/src/heos/commands.rs:329-333 | `clear_queue` through the simple send |
| Commands.ClearQueueCurrent | src/ui/src-tauri/src/heos/commands.rs:336-338 | the same for the configured player |
| Commands.GetMusicSources | src/ui/src-tauri/src/heos/commands.rs:348-352 | the typed send for a source list, defaulting to none |
| Commands.PlayInput | src/ui/src-tauri/src/heos/commands.rs:356-360 | `play_input` with the input name as given |
| Commands.PlayInputCurrent | src/ui/src-tauri/src/heos/commands.rs:363-365 | the same for the configured player |
| Commands.PlayTv | src/ui/src-tauri/src/heos/commands.rs:368-370 | plays `inputs/optical_in_1` on the configured player |
| Commands.PlayPreset | src/ui/src-tauri/src/heos/commands.rs:374-378 | `play_preset` with the preset number |
| Commands.PlayPresetCurrent | src/ui/src-tauri/src/heos/commands.rs:381-383 | the same for the configured player |
| Commands.PlayUrl | src/ui/src-tauri/src/heos/commands.rs:387-391 | `play_stream` with the URL as given |
| Commands.PlayUrlCurrent | src/ui/src-tauri/src/heos/commands.rs:394-396 | the same for the configured player |
| Commands.BrowseSource | src/ui/src-tauri/src/heos/commands.rs:400-403 | the raw `send_command` on `browse/browse?sid=<sid>`: fails exactly when the send does, with its error, and otherwise returns the response's trimmed line undecoded |
| Commands.BrowseSpotify | src/ui/src-tauri/src/heos/commands.rs:406-408 | browses source id 4 |
| Commands.BrowseFavorites | src/ui/src-tauri/src/heos/commands.rs:411-413 | browses source id 1028 |
| App.FailureText | src/ui/src-tauri/src/main.rs:59 | a device error shows as its HEOS error text, any other failure as its reason |
| App.Report | src/ui/src-tauri/src/main.rs:142 | `map_err(to_string)`: success kept, failure as its text |
| App.Contains | src/ui/src-tauri/src/main.rs:73 | `contains` holds exactly when the needle occurs at some index |
| App.ContainsExamples | src/ui/src-tauri/src/main.rs:73 | "room" occurs in "living room"; the empty needle occurs everywhere |
| App.FindPlayer | src/ui/src-tauri/src/main.rs:71-75 | the first index whose folded name contains the folded query, or none when no name does |
| App.FindPlayerFrom | src/ui/src-tauri/src/main.rs:71-75 | the `iter().find` scan from an index: the first matching index at or after it, or none when no later name matches |
| App.SelectPlayer | src/ui/src-tauri/src/main.rs:67-79 | "No HEOS players found on the network" for none; the first player without a name; with a name, the first match, or "Player '<name>' not found" exactly when none matches |
| App.EmptyNameSelectsFirst | src/ui/src-tauri/src/main.rs:71-75 | an empty name selects the first player |
| App.FullNameSelects | src/ui/src-tauri/src/main.rs:71-75 | a player's full name selects it unless an earlier name contains it |
| App.SelectIgnoresCase | src/ui/src-tauri/src/main.rs:73 | upper-casing the requested name selects the same player |
| App.Discover | src/ui/src-tauri/src/main.rs:53-86 | a failed connect is reported with nothing sent; otherwise the player list is read and a failure to read it is reported, and a list that is read gives exactly `SelectPlayer`'s choice (empty-list error, first player, first match); a success has sent exactly the `get_players` frame; a live connection is never redialled |
| App.DiscoverReusesConnection | src/ui/src-tauri/src/main.rs:60-62 | on a live connection no dial is used and at most the player query is sent |
| App.HeosConnectAndDiscover | src/ui/src-tauri/src/main.rs:53-86 | session and result are those of `Discover`; on success the chosen player's id becomes the configured one, on failure the configuration is kept |
| App.HeosSetHost | src/ui/src-tauri/src/main.rs:34-43 | configuration (host, 1255, 0), disconnected, succeeds |
| App.MutedFlag | src/ui/src-tauri/src/main.rs:142 | true exactly for mute on |
| App.MuteFromFlag | src/ui/src-tauri/src/main.rs:148 | mute on exactly for true |
| App.MuteFlagBijection | src/ui/src-tauri/src/main.rs:139-150 | the two mappings are inverse |
| App.MuteFlagEcho | src/ui/src-tauri/src/main.rs:139-150 | the flag set, read back from the echoed state, is the same flag |
| App.HeosGetMute | src/ui/src-tauri/src/main.rs:139-143 | the mute query on the configured player, shown as a flag or as error text |
| App.HeosSetMute | src/ui/src-tauri/src/main.rs:146-150 | sets the mute state of the flag on the configured player, error as text |

## Left out

- TCP itself is a script of dial outcomes and reply lines. Not modelled: address parsing, the connect, read and write timeouts, and partial reads. A failure of `addr.parse` or of setting a timeout is one more refused dial.
- A write or flush error is modelled as a broken reply after the frame is recorded as sent, since the model has no partial writes. In both cases the client keeps its stream, as the code does: nothing in `send_command` clears it on an I/O error.
- The "Not connected" error of `send_command` is not modelled. It cannot occur in one thread, because `ensure_connected` has just succeeded. The `Mutex` around the stream and concurrent use of the client are not modelled either.
- JSON is not parsed. Each reply line carries the envelope it decodes to, or none. `serde` is modelled only by which payload shapes fit which request, with a missing payload decoding to none.
- `HeosEvent`, `AddCriteria`, and the tables of source ids, input names and error codes are left out. They are data no modelled operation reads. The only exceptions are Spotify (4), Favorites (1028) and `inputs/optical_in_1`.
- HeosTypes.Lower: ASCII-only folding standing in for Rust's Unicode `to_lowercase`, because Dafny has no Unicode case tables. The same applies to the case-insensitive parsers and to player name matching.
- Client.Trim: the whitespace set is Unicode White_Space, written out. Stripping Unicode grapheme clusters is not part of `trim`, so nothing is lost.
- The remaining Tauri command wrappers of main.rs (`tick`, `heos_connect` and the one-call passthroughs) are not modelled. They only lock the client and map errors to text, as `Report` does. The hardware controller, the frontend and the application start-up are not part of this model.
- Commands.VolumeUpStep: the source's second early return, for a safe step of 0, cannot be taken once the volume is below 75. The model proves that a step is at least 1 rather than keeping the dead branch.
- The doc comment of `MAX_VOLUME_LIMIT` speaks of 50 %, while the value is 75. The model follows the value.
