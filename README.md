# aioheos in Dafny

This project models the protocol engine of aioheos, an asyncio client for
Denon/Marantz HEOS speakers, together with the device state that engine keeps.
The HEOS CLI is a line protocol. Each request is one
`heos://command?k=v&k=v` line ending in CRLF. Each reply is a JSON object
`{"heos": {"command", "result", "message"}, "payload"}`. Its `message` is a
"ministring" of `&`-separated `k=v` tokens.

The modules:

- `Wrappers` holds `Option`, `Outcome` and `Result`. A Python exception is an
  `Outcome`/`Result` value: the library's own `AioHeosException`, or one
  `BuiltinError` that stands for every built-in exception.
- `Text` gives Python's `str.split`, `str.join`, `startswith`, ASCII `lower()`,
  `int()` and `str()` on integers, and the pieces of the two URL regular
  expressions.
- `Dicts` holds Python dicts as association lists in insertion order.
  Assigning to a present key replaces its value in place; assigning to a new
  key appends it.
- `PyValue` holds `Json`, the values the library handles (None, bool, int,
  str, list, dict), with `bool()`, `str()`, subscripting, iteration and `int()`.
- `Protocol` holds the command names and the request line `send_command`
  writes. It also has the ministring parser `_parse_message`, the
  controller's classification of a decoded reply, the dispatch table, and
  `_url_to_addr`.
- `Heos` holds the controller `AioHeosController` and its `AioHeosPlayer` /
  `AioHeosGroup` objects, as the classes `Heos.Controller` and `Heos.Player`.
  - The transport writer is the controller's `outbox`.
  - The players and groups registries are sequences of heap references. An
    update in place and a newly appended object can therefore be told apart.
  - Each player's fields are also viewed as one `PlayerState` value. Every
    property setter is specified by a `With*` function on that value. A reply
    handler is a sequence of assignments that stops at the first one that
    raises (`PlayerState.Run`).
  - The new-device callback is a ghost log of the objects handed to it. The
    state-change callback is a flag plus a ghost count of its runs.
- `Legacy` is the older single-player client `AioHeos`. Its effect on its
  flat fields is specified by pure functions over a `State` value
  (`Handle`, `DispatchEffect`, `Process`). The class's methods are proved
  equal to them.
- `Upnp` holds the HTTP header and status-line writers, `_parse_uri`, the
  SSDP M-SEARCH request (section 1.2.2 of the UPnP Device Architecture 1.0),
  and the reading of a search reply (section 1.2.3 there). It also has the
  SOAP bodies of the AVTransport:1 `SetAVTransportURI` and `Play` actions,
  and the answer of the one-shot content server.

Several places in the code differ from what the names suggest. The model
follows the code, and the contracts say so:

- The controller drops a reply whose message starts with
  "command under process" before it checks for failure. The legacy client
  checks for failure first and drops only that exact text.
- `_parse_groups` works on the registry itself rather than a copy. A known
  gid therefore raises in `list.remove`, and a successful reply marks every
  group offline.
- `_set_play_state` builds the exception for an unaccepted state but never
  raises it, so the state is sent anyway.
- The now-playing-changed event asks about the default player, not the
  event's pid.
- Ids are stored as `str(pid)` but looked up by the pid as the reply gives
  it. An integer pid therefore never finds its own object.
- `AioHeosPlayer.set_mute` always raises. `play_source` raises whenever a
  music-source catalogue is loaded, and does nothing with an empty one.
- The legacy dispatcher calls `_parse_system_signin` with one argument, so
  a sign-in reply never sets `_logged_in`.

## Model

| member | source | states |
|---|---|---|
| Dicts.LookupAssign | aioheos/aioheosupnp.py:50-52 | after `d[k] = v`, `k` maps to `v` and every other key keeps its value |
| Dicts.AssignKeys | aioheos/aioheosupnp.py:113-115 | assignment never duplicates a key; a present key keeps its place, a new key goes last |
| PyValue.ToIntOfStr | aioheos/aioheoscontroller.py:535-538 | `int(str(i)) == i`: the decimal text of an integer reads back as that integer |
| Protocol.DefaultPidFilled | aioheos/aioheoscontroller.py:225-227 | a non-empty message whose pid is missing gets the player id appended as its last key; a falsy pid is replaced where it stands; a truthy pid and an empty message are left alone; no other key changes, and keys stay unique |
| Protocol.ParseMessage | aioheos/aioheoscontroller.py:236-249 | the parsing loop computes exactly the dict its tokens assign in order (`MessageMap`), the empty message giving `{}` |
| Protocol.TokenForms | aioheos/aioheoscontroller.py:241-247 | `k=v` parses to `k -> "v"`, a bare `k` to `k -> True`, and a token with two or more `=` to nothing |
| Protocol.AbsorbHasKey | aioheos/aioheoscontroller.py:240-247 | a key is in the parsed dict exactly when some token assigns it |
| Protocol.AbsorbLastValue | aioheos/aioheoscontroller.py:240-247 | a key holds the value of the last token that assigns it |
| Protocol.AbsorbUnique | aioheos/aioheoscontroller.py:240-247 | a parsed message never holds a key twice |
| Protocol.QueryRoundTrip | aioheos/aioheoscontroller.py:222-249 | parsing the query of a request line gives back every key, in order, mapped to the text of its value, when no key or value text holds `&` or `=` |
| Protocol.Clamp | aioheos/aioheoscontroller.py:530-533 | the level sent is in [0, 100], equals the input when it is in range, and is 0 below and 100 above |
| Protocol.GroupPidTextJoin | aioheos/aioheoscontroller.py:638-643 | the set_group pid text is the leader and then each member, in list order, joined by commas |
| Protocol.GroupPidTextSplit | aioheos/aioheoscontroller.py:638-643 | splitting the pid text at its commas gives the leader and then the members back, when no id text holds a comma |
| Protocol.Classify | aioheos/aioheoscontroller.py:321-343 | a reply without a command is malformed; one whose message starts with "command under process" is dropped even when it failed; otherwise `result == 'fail'` is a failure carrying the parsed message; every other reply is delivered with its command, its parsed message (`{}` when only a payload came, None when neither did) and its payload |
| Protocol.SearchAddr | aioheos/aioheoscontroller.py:159-164 | an address found is a non-empty run of characters other than `:` and `/` |
| Protocol.UrlToAddrOfUrl | aioheos/aioheoscontroller.py:159-164 | the address of a one-line `http(s)://host:...` or `http(s)://host/...` URL is exactly its host |
| Heos.SettersNotifyOnce | aioheos/aioheosplayer.py:67-182 | the volume setter sets the level and `online`; the play-state setter sets `online` to `bool(value)`, so None means offline; the position setter stamps the update time; each of the volume, duration, position, mute, play-state, four media and player-info setters runs the callback exactly once when one is set, and the media-id, sid, source-name and qid setters and `reset_now_playing` never run it |
| Heos.ClearedKeepsTheRest | aioheos/aioheosplayer.py:192-198 | `reset_now_playing` sets exactly the five media fields to None and leaves every other field as it was |
| Heos.RunStopsAtRaise | aioheos/aioheoscontroller.py:669-700 | once a handler's statement has raised, the statements after it never run and the earlier assignments stay |
| Heos.IdIndex | aioheos/aioheoscontroller.py:485-490 | the index found is the first whose id text equals the pid, and there is none exactly when no id equals it |
| Heos.FindPlayer | aioheos/aioheoscontroller.py:485-498 | the lookup gives the first object whose id equals the pid as given, and None exactly when no id equals it |
| Heos.RegisterGrows | aioheos/aioheoscontroller.py:433-447 | registering a reply never shrinks the registry, keeps every known id in its place, and adds at most one object per entry |
| Heos.KnownIdUpdatesInPlace | aioheos/aioheoscontroller.py:437-441 | an entry whose id is already registered replaces that object's info in place and leaves the ids as they were; a players reply carries on, a groups reply raises after the update |
| Heos.NewIdAppends | aioheos/aioheoscontroller.py:442-447 | an entry with a new id appends exactly one object, last, under `str(id)` |
| Heos.RegisterKeepsIdsUnique | aioheos/aioheoscontroller.py:433-469 | when every id in a reply is a text, registration keeps the registry's ids distinct |
| Heos.IntegerIdRegisteredTwice | aioheos/aioheoscontroller.py:485-490 | an integer pid never matches the `str(pid)` stored for it, so a second reply naming it appends a second object under the same id text |
| Heos.Player.constructor | aioheos/aioheosplayer.py:15-34 | a new player's id is `str(pid)` and its state is the pristine one: offline, volume, position and duration 0, every media field None, no callback |
| Heos.Player.Group | aioheos/aioheosgroup.py:13-17 | a new group keeps its entry with "pid" overwritten by the gid, so its id is `str(gid)`, and starts in the same pristine state as a player |
| Heos.Player.SetStateChangeCallback | aioheos/aioheosplayer.py:43-46 | setting or clearing the callback changes nothing else |
| Heos.Player.NotifyListeners | aioheos/aioheosplayer.py:293-296 | the callback runs once when one is set and not at all otherwise |
| Heos.Player.UpdateVolume | aioheos/aioheosplayer.py:67-71 | the volume setter's new state: level stored, online, one notification |
| Heos.Player.UpdateDuration | aioheos/aioheosplayer.py:83-87 | the duration setter's new state: duration stored, one notification |
| Heos.Player.UpdateCurrentPosition | aioheos/aioheosplayer.py:93-98 | the position setter's new state: position stored, update time stamped, one notification |
| Heos.Player.UpdateMute | aioheos/aioheosplayer.py:104-108 | the mute setter's new state: mute stored, one notification |
| Heos.Player.UpdatePlayState | aioheos/aioheosplayer.py:114-118 | the play-state setter's new state: state stored, online iff the state is truthy, one notification |
| Heos.Player.UpdateMediaArtist | aioheos/aioheosplayer.py:125-129 | the artist setter's new state: artist stored, one notification |
| Heos.Player.UpdateMediaAlbum | aioheos/aioheosplayer.py:135-139 | the album setter's new state: album stored, one notification |
| Heos.Player.UpdateMediaTitle | aioheos/aioheosplayer.py:145-149 | the title setter's new state: title stored, one notification |
| Heos.Player.UpdateMediaImageUrl | aioheos/aioheosplayer.py:155-159 | the image-url setter's new state: url stored, one notification |
| Heos.Player.UpdateMediaId | aioheos/aioheosplayer.py:165-167 | the media-id setter stores the id and does not notify |
| Heos.Player.UpdatePlayerInfo | aioheos/aioheosplayer.py:179-182 | the info setter's new state: info stored, one notification |
| Heos.Player.UpdateSid | aioheos/aioheosplayer.py:271-273 | the sid setter stores the sid and does not notify |
| Heos.Player.UpdateSourceName | aioheos/aioheosplayer.py:280-282 | the source-name setter stores the name and does not notify |
| Heos.Player.UpdateQid | aioheos/aioheosplayer.py:289-291 | the qid setter stores the qid and does not notify |
| Heos.Player.ResetNowPlaying | aioheos/aioheosplayer.py:192-198 | the five media fields become None, nothing else changes and nobody is notified |
| Heos.Player.ToggleMute | aioheos/aioheosplayer.py:184-186 | sends toggle_mute for this player's id |
| Heos.Player.SetMute | aioheos/aioheosplayer.py:188-190 | always raises (two arguments passed to a one-argument method) and sends nothing |
| Heos.Player.SetVolume | aioheos/aioheosplayer.py:249-251 | sends set_volume for this player with the level clamped to [0, 100] |
| Heos.Player.VolumeLevelUp | aioheos/aioheosplayer.py:207-209 | sends set_volume with the stored level plus the step, clamped to [0, 100] |
| Heos.Player.VolumeLevelDown | aioheos/aioheosplayer.py:211-213 | sends set_volume with the stored level minus the step, clamped to [0, 100] |
| Heos.Player.CreateGroup | aioheos/aioheosplayer.py:261-264 | sends set_group with this player as leader and every other listed device, in order, as a member |
| Heos.Followers | aioheos/aioheosplayer.py:261-264 | a device is a follower exactly when it is listed and is not the leader |
| Heos.FollowersAppend | aioheos/aioheosplayer.py:261-264 | filtering out the leader distributes over concatenation, so the followers keep the devices' order |
| Heos.Player.RecreateGroup | aioheos/aioheosgroup.py:19-25 | sends one set_group whose pid text is the group's id followed by its listed members other than itself, in order; a missing `players` list or member pid raises and sends nothing |
| Heos.KeptMembers | aioheos/aioheosgroup.py:21-24 | the kept members exist exactly when every listed entry has a pid; none of them has the group's own id text, and there are no more of them than entries |
| Heos.KeptMembersListed | aioheos/aioheosgroup.py:21-24 | a pid is kept exactly when some listed entry carries it and its text differs from the group's own id text |
| Heos.KeptMembersAppend | aioheos/aioheosgroup.py:21-24 | the kept members of a concatenation are those of the first part followed by those of the second, so the filter keeps the listed order |
| Heos.Player.PlaySource | aioheos/aioheosplayer.py:243-247 | raises whenever a source catalogue is loaded (it subscripts a sid with 'name'), and does nothing with an empty one |
| Heos.NowPlayingFields | aioheos/aioheoscontroller.py:567-588 | a now-playing-media reply sets the five media fields and qid from the payload (None where absent), takes the sid only when present, keeps volume, mute and play state, sets qid only when it does not raise, and raises exactly when the catalogue lookup of a given sid fails; a payload that is not a dict raises with the media fields already cleared |
| Heos.Favourite | aioheos/aioheoscontroller.py:708-714 | recording the "Favorites" source never changes the catalogue and only appends to the outbox (its browse request) |
| Heos.BrowseKeepsKeys | aioheos/aioheoscontroller.py:702-714 | rebuilding the catalogue keeps one hashable key per source, and the outbox only grows |
| Heos.BrowseCataloguesEach | aioheos/aioheoscontroller.py:702-714 | after a complete music-sources reply every listed source is catalogued under its sid |
| Heos.BrowseCataloguesOnly | aioheos/aioheoscontroller.py:702-714 | the rebuilt catalogue holds only sids the reply listed |
| Heos.BrowseEntry | aioheos/aioheoscontroller.py:705-714 | one source entry is catalogued under its sid (a present sid keeps its place), the catalogue is left alone when the sid is missing or unhashable, which raises, and the outbox only grows |
| Heos.BrowseStopsAtRaise | aioheos/aioheoscontroller.py:705-714 | once an entry has raised, later entries change neither the catalogue nor the outbox |
| Heos.FavouriteNamesMarked | aioheos/aioheoscontroller.py:723-731 | every favourite name get_music_sources lists carries the "Favorites__" mark, and removing it gives the favourite's own name |
| Heos.FirstPid | aioheos/aioheoscontroller.py:433-436 | the default pid is taken only from the first item of a non-empty list |
| Heos.Reraised | aioheos/aioheoscontroller.py:344-349 | the library's own exception passes through unchanged, any built-in one becomes 'Problem parsing command.', and success stays success |
| Heos.FirstReady | aioheos/aioheoscontroller.py:123-157 | the first round whose check succeeds, every earlier one failing |
| Heos.RoundsRun | aioheos/aioheoscontroller.py:123-157 | a polling loop runs between 1 and 20 rounds, stops at the first check that succeeds, and runs all 20 only if none succeeds earlier |
| Heos.Controller.constructor | aioheos/aioheoscontroller.py:96-121 | a new controller needs a login iff a username was given; there are no registries yet (None), no player id, an empty catalogue and empty favourites |
| Heos.Controller.SetNewDeviceCallback | aioheos/aioheoscontroller.py:401-403 | sets or clears the new-device callback |
| Heos.Controller.SendCommand | aioheos/aioheoscontroller.py:222-233 | writes exactly `heos://command`, the `?k=v&...` query only for a non-empty message with the default pid filled in, and CRLF; a line that is not ASCII raises and writes nothing |
| Heos.Controller.RequestPlayers | aioheos/aioheoscontroller.py:422-424 | sends get_players with no parameters |
| Heos.Controller.Login | aioheos/aioheoscontroller.py:426-431 | sends sign_in with the username and password |
| Heos.Controller.RequestGroups | aioheos/aioheoscontroller.py:634-636 | sends get_groups with no parameters |
| Heos.Controller.SetGroup | aioheos/aioheoscontroller.py:638-643 | the loop builds the leader-then-members pid text and sends it with set_group |
| Heos.Controller.ToggleMute | aioheos/aioheoscontroller.py:645-647 | sends toggle_mute for the pid |
| Heos.Controller.SetMute | aioheos/aioheoscontroller.py:649-654 | sends set_mute with state "on" for a truthy mute and "off" otherwise |
| Heos.Controller.RequestMusicSources | aioheos/aioheoscontroller.py:656-658 | sends get_music_sources for the range 0,29 |
| Heos.Controller.SetVolume | aioheos/aioheoscontroller.py:530-533 | sends set_volume with the level clamped to [0, 100] |
| Heos.Controller.SetPlayState | aioheos/aioheoscontroller.py:540-548 | sends set_play_state for any state, accepted or not, to the pid or else the default player |
| Heos.Controller.RequestNowPlayingMedia | aioheos/aioheoscontroller.py:562-565 | sends get_now_playing_media for the pid or else the default player |
| Heos.Controller.GetPlayer | aioheos/aioheoscontroller.py:485-490 | raises before players are known, else gives the first player whose id equals the pid, or None |
| Heos.Controller.GetGroup | aioheos/aioheoscontroller.py:492-498 | raises before groups are known, else gives the first group whose id equals the pid, or None |
| Heos.Controller.Find | aioheos/aioheoscontroller.py:485-490 | the search loop finds what `FindPlayer` specifies |
| Heos.Controller.UpdatePlayerAndGroup | aioheos/aioheoscontroller.py:512-538 | the assignment goes to the player with the pid and then to the group with that id, if any; a raise before the player's update changes nothing; a missing group registry raises after it |
| Heos.Controller.ParsePlayState | aioheos/aioheoscontroller.py:512-515 | the reply's state goes to the player and to the group with that pid (see UpdatePlayerAndGroup) |
| Heos.Controller.ParseMuteState | aioheos/aioheoscontroller.py:521-524 | the reply's mute state goes to the player and to the group with that pid |
| Heos.Controller.ParseVolume | aioheos/aioheoscontroller.py:535-538 | the reply's level goes to the player and to the group with that pid |
| Heos.Controller.ParsePlayerVolumeChanged | aioheos/aioheoscontroller.py:669-672 | mute and then volume on the player only, stopping at the first raise; an unknown player raises |
| Heos.Controller.ParseGroupVolumeChanged | aioheos/aioheoscontroller.py:674-678 | mute and then volume on the group; an unknown gid changes nothing and does not raise |
| Heos.Controller.ParseNowPlayingProgress | aioheos/aioheoscontroller.py:697-700 | position (stamped) and then duration on the player, stopping at the first raise |
| Heos.Controller.ParseNowPlayingMedia | aioheos/aioheoscontroller.py:567-588 | the player's new state is what `NowPlaying` specifies (see NowPlayingFields); an unknown player raises |
| Heos.Controller.HandleError | aioheos/aioheoscontroller.py:251-259 | eid "2" marks the named player's play state None and raises 'player offline'; any other eid raises with the message and changes nothing; a missing eid, pid or player raises a built-in error |
| Heos.Controller.ParseSystemSignIn | aioheos/aioheoscontroller.py:474-475 | after a sign-in reply no login is needed |
| Heos.Controller.ParseBrowseBrowse | aioheos/aioheoscontroller.py:716-721 | the payload becomes the favourites exactly when the message's sid reads as the favourites sid; a message without a sid raises |
| Heos.Controller.ParseBrowseMusicSource | aioheos/aioheoscontroller.py:702-714 | the catalogue is emptied and rebuilt entry by entry as `Browse` specifies, a "Favorites" source being recorded and browsed; the registries stay valid |
| Heos.Controller.BrowseAll | aioheos/aioheoscontroller.py:705-714 | the loop over the entries reaches exactly the catalogue, favourites sid and outbox `Browse` gives, and stops at the first raise |
| Heos.Controller.GetMusicSources | aioheos/aioheoscontroller.py:723-731 | the result is the catalogue's source names followed by the marked favourite names, or a raise where a name is missing |
| Heos.Controller.RegisterOne | aioheos/aioheoscontroller.py:437-447 | one entry against a registry: a known id has that very object's info replaced, an unknown id appends one fresh object that the new-device callback receives, a missing id raises; the registry's (id, info) view moves as `RegisterEntry` says |
| Heos.Controller.RegisterAll | aioheos/aioheoscontroller.py:436-466 | registering a reply keeps the old objects (only their info changes), appends fresh pristine objects, hands each new one to the callback, and moves the (id, info) view as `Register` says |
| Heos.Controller.MarkOffline | aioheos/aioheoscontroller.py:467-469 | every group in the list gets play state None (offline), and ids and infos stay |
| Heos.Controller.ParsePlayers | aioheos/aioheoscontroller.py:433-447 | the default pid becomes the first entry's; the players registry then grows as `Register` says, never shrinks, keeps its objects, and only their info changes; a payload without a first pid raises and changes nothing |
| Heos.Controller.ParseGroups | aioheos/aioheoscontroller.py:449-469 | the groups are registered as `Register` says (a known gid raises); when no entry raises every group, old and new, is marked offline; a payload that cannot be iterated raises |
| Heos.Controller.Dispatch | aioheos/aioheoscontroller.py:261-319 | ignored and unknown commands change nothing; every other command has exactly the effect and outcome of the handler the table names (`Handled`): players and groups are registered as `Register` says, the catalogue is rebuilt as `Browse` says, a browse reply stores the favourites for the favourites sid, a play-state, mute or volume reply updates the player and then the group with that pid, the volume-changed and progress events run their steps on the one player or group, a now-playing reply sets the player as `NowPlaying` says; sign-in clears the login need; the change events and set_group re-request what changed; in every case the controller fields the handler does not assign and the objects it does not update stay as they were |
| Heos.Controller.ParseFailure | aioheos/aioheoscontroller.py:331-347 | a failed reply always raises one of the library's own exceptions: 'Problem parsing command.' for a missing eid, pid or player, the device error for an eid other than "2", 'player offline' for eid "2" after the named player's play state is cleared; no other player or group changes and the registries stay valid |
| Heos.Controller.ParseCommand | aioheos/aioheoscontroller.py:321-349 | a reply without a command raises 'Problem parsing command.'; an acknowledgement changes nothing; a failure always raises, eid "2" marking the named player offline first and leaving every other player and group as it was; unhandled commands change nothing; a handled reply has its handler's effect (`Handled`), and the handler's outcome leaves through `Reraised`: a built-in exception becomes 'Problem parsing command.', the library's own passes through; the registries stay valid |
| Heos.Controller.EnsurePlayer | aioheos/aioheoscontroller.py:123-130 | one get_players request per round, rounds running until the player id is known and at most 20, with a sleep after each failed round |
| Heos.Controller.EnsureGroup | aioheos/aioheoscontroller.py:132-139 | one groups request, then at most 20 checks for a non-empty group list with a sleep after each failed one |
| Heos.Controller.EnsureLogin | aioheos/aioheoscontroller.py:141-148 | one sign-in request, whose failure propagates, then at most 20 checks that no login is needed |
| Heos.Controller.EnsureFavouritesLoaded | aioheos/aioheoscontroller.py:150-156 | at most 20 checks for non-empty favourites, with a sleep after each failed one |
| Heos.Controller.Poll | aioheos/aioheoscontroller.py:132-156 | the check-then-sleep loop sleeps once per failed check before the first success, 20 times when none succeeds |
| Legacy.ClampLevel | aioheos/aioheos.py:365-371 | the two ifs give a level in [0, 100] equal to the clamp of the input; a level in range is sent unchanged, int or float |
| Legacy.SendEffect | aioheos/aioheos.py:167-177 | the legacy writer sends the same line as the controller's: it succeeds iff that line is ASCII, appends exactly it, and changes nothing else |
| Legacy.Read | aioheos/aioheos.py:225-247 | failure is checked first; then a payload wins over a message; only the exact text "command under process" is dropped; neither payload nor message is its own case; the callback's one argument is the payload or else the parsed message |
| Legacy.FailureCheckedFirst | aioheos/aioheos.py:229-230 | a failed reply is a failure for the legacy client even when the controller would drop it as an acknowledgement |
| Legacy.AcknowledgementExactOnly | aioheos/aioheos.py:233-235 | a message that only starts with the acknowledgement text is dispatched by the legacy client although the controller drops it |
| Legacy.ReadAgreesWithClassify | aioheos/aioheos.py:231-236 | on every other reply with content the two clients hand on the same command, and the legacy argument is the payload or else the parsed message |
| Legacy.ProcessRaisesHeosOnly | aioheos/aioheos.py:225-247 | every raise out of `_parse_command` is an AioHeosException: the reply's own failure text, the missing content, or 'Problem parsing command.' |
| Legacy.UnhandledChangesNothing | aioheos/aioheos.py:195-223 | a reply that reaches no callback (including the ignored prettify reply) changes no state |
| Legacy.HandleKeepsLogin | aioheos/aioheos.py:195-223 | no callback called through the dispatcher touches `_logged_in` |
| Legacy.ProcessNeverLogsIn | aioheos/aioheos.py:327-328 | a sign-in reply fails with 'Problem parsing command.' and leaves the state as it was, so no reply ever logs in |
| Legacy.ProcessSendsOnlyOnNowPlayingChanged | aioheos/aioheos.py:510-512 | only the now-playing-changed event sends anything: one get_now_playing_media line for the player id |
| Legacy.HandleSendsOnlyOnNowPlayingChanged | aioheos/aioheos.py:510-512 | among the callbacks only the now-playing-changed one sends, and one line at most |
| Legacy.PlayersReplyReplacesList | aioheos/aioheos.py:323-325 | a players reply replaces the whole list and the player id becomes its first pid; without one it raises with the list already replaced |
| Legacy.ProgressStoresInts | aioheos/aioheos.py:514-517 | a progress event stores the position as an int and stamps it, then the duration; a bad duration raises with position and stamp already set |
| Legacy.VolumeChangedStoresFloat | aioheos/aioheos.py:503-505 | for any message, the volume-changed event sets mute and then the level converted to a float (an integer level as its value, a text level as the integer it spells); a missing mute raises with nothing changed, a missing or unconvertible level raises with only the mute stored |
| Legacy.VolumeChangedEventStoresFloat | aioheos/aioheos.py:503-505 | on the event as the device sends it, mute followed by a text level, both are stored and the event passes |
| Legacy.VolumeReplyKeepsText | aioheos/aioheos.py:373-374 | a message-only volume reply stores the level as the text it arrived in, so a following volume step raises instead of sending |
| Legacy.AioHeos.constructor | aioheos/aioheos.py:62-86 | a new client knows nothing, has volume 0 and is not logged in |
| Legacy.AioHeos.SendCommand | aioheos/aioheos.py:167-177 | the method's effect is exactly `SendEffect` |
| Legacy.AioHeos.RequestPlayers | aioheos/aioheos.py:315-317 | sends get_players with no parameters |
| Legacy.AioHeos.Login | aioheos/aioheos.py:319-321 | sends sign_in with the username and password |
| Legacy.AioHeos.RequestNowPlayingMedia | aioheos/aioheos.py:407-409 | sends get_now_playing_media for the player id |
| Legacy.AioHeos.SetVolume | aioheos/aioheos.py:365-371 | sends set_volume with the level clamped by two ifs, int or float as given |
| Legacy.AioHeos.VolumeLevelUp | aioheos/aioheos.py:380-382 | sends the clamped stored level plus the step; a text or None level raises and sends nothing |
| Legacy.AioHeos.VolumeLevelDown | aioheos/aioheos.py:384-386 | sends the clamped stored level minus the step; a text or None level raises and sends nothing |
| Legacy.AioHeos.ParsePlayers | aioheos/aioheos.py:323-325 | the fields after a players reply are those `Handle` gives |
| Legacy.AioHeos.ParsePlayState | aioheos/aioheos.py:343-344 | the play state becomes the payload's state; a missing state raises and changes nothing |
| Legacy.AioHeos.ParseMuteState | aioheos/aioheos.py:354-355 | the mute state becomes the payload's state; a missing state raises and changes nothing |
| Legacy.AioHeos.ParseVolume | aioheos/aioheos.py:373-374 | the stored level becomes the message's level as given |
| Legacy.AioHeos.ParseNowPlayingMedia | aioheos/aioheos.py:411-416 | the five media fields become the payload's values (None where absent); a payload that is not a dict raises and changes nothing |
| Legacy.AioHeos.ParsePlayerVolumeChanged | aioheos/aioheos.py:503-505 | mute, then the level as a float; a bad level raises with mute already set |
| Legacy.AioHeos.ParsePlayerStateChanged | aioheos/aioheos.py:507-508 | the play state becomes the message's state |
| Legacy.AioHeos.ParsePlayerNowPlayingChanged | aioheos/aioheos.py:510-512 | re-requests the now-playing media of the player id |
| Legacy.AioHeos.ParsePlayerNowPlayingProgress | aioheos/aioheos.py:514-517 | position (stamped with the given time) and then duration, as ints |
| Legacy.AioHeos.ParseSystemSignIn | aioheos/aioheos.py:327-328 | called with one argument it raises and changes nothing |
| Legacy.AioHeos.Dispatcher | aioheos/aioheos.py:195-223 | runs the one callback the table names with the single argument, and nothing for any other command |
| Legacy.AioHeos.ParseCommand | aioheos/aioheos.py:225-247 | the client's new fields and outcome are exactly `Process`'s |
| Upnp.HeaderLines | aioheos/aioheosupnp.py:57-62 | one `key: value` line per header, in insertion order |
| Upnp.HeaderBlockLines | aioheos/aioheosupnp.py:57-62 | a non-empty header text is the header lines joined by CRLF with a final CRLF |
| Upnp.HeaderBlockJoin | aioheos/aioheosupnp.py:57-62 | the header text is the header lines, each followed by CRLF |
| Upnp.WriteHeaders | aioheos/aioheosupnp.py:57-62 | the accumulating loop writes exactly the header text |
| Upnp.Http.constructor | aioheos/aioheosupnp.py:46-48 | a new client helper has no headers |
| Upnp.Http.AddHeader | aioheos/aioheosupnp.py:50-52 | a present key gets the new value in place, a new key goes last |
| Upnp.Http.AddUserAgentHeader | aioheos/aioheosupnp.py:54-55 | the user_agent header is set to the client's name |
| Upnp.Http.GetHeaders | aioheos/aioheosupnp.py:57-62 | returns the header text of the current headers |
| Upnp.HttpResponse.constructor | aioheos/aioheosupnp.py:100-111 | a new response holds its status and the Server and then Date headers |
| Upnp.HttpResponse.AddHeader | aioheos/aioheosupnp.py:113-115 | a present key gets the new value in place, a new key goes last |
| Upnp.HttpResponse.GetHeaders | aioheos/aioheosupnp.py:117-122 | returns the header text of the current headers |
| Upnp.HttpResponse.GetStatus | aioheos/aioheosupnp.py:124-126 | returns the status line |
| Upnp.StatusLine | aioheos/aioheosupnp.py:124-126 | for any status the line is `HTTP/1.1 `, the status, and ` OK` CRLF |
| Upnp.UriAt | aioheos/aioheosupnp.py:64-74 | a match has a non-empty host free of `:` and `/`, and a port that is a non-empty digit text or else the integer 80 |
| Upnp.SearchUri | aioheos/aioheosupnp.py:64-74 | the leftmost match has a non-empty host free of `:` and `/`, and a digit port or else the integer 80 |
| Upnp.UriAtNoPort | aioheos/aioheosupnp.py:64-74 | a URL without a port matches with its host, the integer port 80 and its path |
| Upnp.UriAtWithPort | aioheos/aioheosupnp.py:64-74 | a URL with a digit port matches with its host, that port text and its path |
| Upnp.ParseUriOfUrl | aioheos/aioheosupnp.py:64-74 | a one-line http(s) URL splits into the host, the port digits (the integer 80 when there are none) and the rest as path, exactly as it was written |
| Upnp.MSearchLinesBack | aioheos/aioheosupnp.py:179-190 | split at CRLF, the M-SEARCH text gives back its lines `M-SEARCH * HTTP/1.1`, `Host: h:p`, `Man: "ssdp:discover"`, `ST: target`, `MX: 3`, and the text ends with the blank line that closes the request |
| Upnp.ReplyHeadersStopsAt | aioheos/aioheosupnp.py:200-205 | once a line fails to split into exactly a name and a value (it holds `": "` twice), the reading of the whole reply fails, whatever follows |
| Upnp.HeaderLineBack | aioheos/aioheosupnp.py:200-205 | a header line splits back into its name and value |
| Upnp.ReplyHeadersOfLines | aioheos/aioheosupnp.py:196-205 | the status line and the written header lines read back as the headers with lowercased names |
| Upnp.ReplyHeadersOfReply | aioheos/aioheosupnp.py:196-205 | a whole reply written as status line, header text and blank line reads back as the lowercased headers |
| Upnp.DatagramOfReply | aioheos/aioheosupnp.py:194-212 | a 200 reply is understood: its location is taken exactly when its `st` header is the search target, and a missing `st` or location raises |
| Upnp.DiscoverProtocol.constructor | aioheos/aioheosupnp.py:160-165 | a new discovery has sent nothing, holds no result and is open |
| Upnp.DiscoverProtocol.ConnectionMade | aioheos/aioheosupnp.py:167-192 | sends the M-SEARCH text once when it is ASCII, and raises without sending otherwise |
| Upnp.DiscoverProtocol.DatagramReceived | aioheos/aioheosupnp.py:194-212 | only a 200 reply whose `st` is the search target settles the result with its location and closes the transport; a second settling raises; anything else changes nothing |
| Upnp.SetAvTransportUriBodyHoldsUri | aioheos/aioheosupnp.py:300-311 | the SetAVTransportURI body addresses instance 0 and holds the uri verbatim, unescaped, between the CurrentURI tags |
| Upnp.PlayBodyAtSpeedOne | aioheos/aioheosupnp.py:316-331 | the Play body addresses instance 0 at speed 1 |
| Upnp.PlayContentServer.constructor | aioheos/aioheosupnp.py:348-352 | a new server has written nothing and is open |
| Upnp.PlayContentServer.DataReceived | aioheos/aioheosupnp.py:357-368 | whatever the request, writes the response head and then the content, and closes |
| Upnp.LoweredContentHeaders | aioheos/aioheosupnp.py:357-368 | read with lowercased names, the answer's headers are server, date, content-length (the decimal length) and content-type, in the order they were added |
| Upnp.ContentHeadersReadable | aioheos/aioheosupnp.py:357-368 | the answer's header lines split back into name and value when the date and content type hold no CR and no `": "` |
| Upnp.ContentHeadReadsBack | aioheos/aioheosupnp.py:357-368 | the answer's head is a 200 reply whose headers read back as Server, Date, the content length and the content type, and whose Content-Length reads back as the length |

## Left out

- Network I/O: opening the HEOS connection and its retry loops with their 5 s and 30 s back-off, the background read loop, task creation and cancellation, the callback wrapper and `close`. These are sockets and concurrency.
- JSON decoding: replies are taken as already decoded `Envelope` values. Their `command`, `result` and `message` fields are taken to be texts. A reply where one of them is a number or a list cannot be represented; `_parse_command` turns such a reply into 'Problem parsing command.'. The UTF-8 decoding of SSDP datagrams is also not modelled; a datagram is a text.
- The writer being None before a connection: `send_command` always has a writer here.
- UPnP I/O: `_get_ipaddress`, `Http.request`, `_soapaction`, `query_renderer` (lxml XPath), `discover`, `discover_mediarenderer`, `_play_uri`, `play_content`, `main`, and the SSDP socket options. These are sockets, aiohttp and lxml. The SOAP bodies they would post, the M-SEARCH text and the content server's bytes are modelled.
- The encoding of response headers to bytes in `data_received`: the head is kept as text next to the content bytes.
- Wall-clock time: the time stamped by the progress handlers and the HTTP Date header are parameters (`now`, `date`) or a ghost count of stamps.
- The sleeps of `ensure_*`: what the read loop changes while one sleeps is a parameter (`later`), the check each later round would see.
- Logging everywhere, `test.py` (a manual demo script) and `setup.py` (packaging).
- Legacy.FloatOf: `float()` is modelled only on values that give an integral float; a text with a fraction or an exponent is treated as raising.
- Heos.IntField: the controller's `float()` of volume levels (aioheos/aioheoscontroller.py:536, 672, 678) is modelled as `int()` on integers and integral texts, so a level text with a fraction raises in the model where `float()` accepts it. Floating point is out of scope. The progress handler's `int()` (aioheos/aioheoscontroller.py:699-700) is modelled as written.
- Legacy.AioHeos.ParsePlayerVolumeChanged: the float it stores is tagged `FloatValue(n)` and holds only integral values, for the same reason.
- `str()` of lists and dicts is one placeholder text, and `lower()` is ASCII only. `int()` does not accept surrounding whitespace or underscores. `True == 1` as a dict key is not modelled.
- The pass-through senders that only call `send_command` with a fixed message are not modelled one by one; `Heos.Controller.SendCommand` covers their wire text. In the controller these are `request_player_info`, `request_play_state`, `request_mute_state`, `request_volume`, `stop`/`play`/`pause`, `request_queue`, `clear_queue`, `request_play_next`, `_parse_play_next`, `request_play_previous`, `play_queue`, `play_stream`, `play_favourite`, `request_browse_source`, `register_for_change_events` and `register_pretty_json`. The player's `request_update`, `stop`/`play`/`pause`/`play_next`/`play_prev`/`play_favorite`/`play_stream` and the legacy client's equivalents are left out for the same reason.
- The plain getters (`get_players`, `get_groups`, `get_favourites`, `source_list`, `favourites_list` and the property getters) return a field as it is.
- The legacy `ensure_player`, `_url_to_addr` and `play_content`: they are the controller's versions, or I/O.
- The legacy `ensure_login` (aioheos/aioheos.py:99-106) is not modelled as a method. It differs from the controller's: it sends sign_in and then polls `_logged_in`, not `not _need_login`. No reply ever sets `_logged_in` (`Legacy.ProcessNeverLogsIn`, `Legacy.HandleKeepsLogin`), so the legacy wait always runs all 20 rounds with a sleep after each; the sleeps are I/O.
- Heos.Controller.ParsePlayers: a callback's own effects are not modelled; what is stated is which objects it receives, in order. The state-change callback is likewise a count of runs.
- Heos.Controller.ParseGroups: the state of old objects is stated as "only info and the notification count changed" (or "marked offline"), not as the exact number of notifications.
- Heos.RegisterKeepsIdsUnique: registry ids are proved distinct only when every pid in a reply is a text; integer pids break this, as `Heos.IntegerIdRegisteredTwice` shows.
- Aliasing of the caller's dict: `send_command` filling in the pid and the group constructor overwriting "pid" mutate the dict the caller passed. The model states the resulting message and info as values, not the caller's copy.
