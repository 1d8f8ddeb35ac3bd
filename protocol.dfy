/** The HEOS CLI text protocol as the controller and the legacy client speak it:
    the command names, the `heos://command?k=v&k=v` request line, the parser of
    the "ministring" carried in a reply's message field, the classification of a
    decoded reply envelope, the dispatch table, and the device address taken
    from a discovered description URL. */
module Protocol {
  import opened Wrappers
  import opened Dicts
  import opened PyValue
  import Text

  // ---------------------------------------------------------------- command names

  const GetPlayersCommand := "player/get_players"
  const GetPlayStateCommand := "player/get_play_state"
  const SetPlayStateCommand := "player/set_play_state"
  const GetMuteStateCommand := "player/get_mute"
  const SetMuteStateCommand := "player/set_mute"
  const GetVolumeCommand := "player/get_volume"
  const SetVolumeCommand := "player/set_volume"
  const GetNowPlayingMediaCommand := "player/get_now_playing_media"
  const ToggleMuteCommand := "player/toggle_mute"
  const GetGroupsCommand := "group/get_groups"
  const SetGroupCommand := "group/set_group"
  const PlayerVolumeChangedEvent := "event/player_volume_changed"
  const PlayerStateChangedEvent := "event/player_state_changed"
  const PlayersChangedEvent := "event/players_changed"
  const NowPlayingChangedEvent := "event/player_now_playing_changed"
  const NowPlayingProgressEvent := "event/player_now_playing_progress"
  const QueueChangedEvent := "event/player_queue_changed"
  const UserChangedEvent := "event/user_changed"
  const SourcesChangedEvent := "event/sources_changed"
  const GroupsChangedEvent := "event/groups_changed"
  const GroupVolumeChangedEvent := "event/group_volume_changed"
  const RepeatModeChangedEvent := "event/repeat_mode_changed"
  const ShuffleModeChangedEvent := "event/shuffle_mode_changed"
  const PrettifyCommand := "system/prettify_json_response"
  const RegisterForEventsCommand := "system/register_for_change_events"
  const SignInCommand := "system/sign_in"
  const MusicSourcesCommand := "browse/get_music_sources"
  const BrowseCommand := "browse/browse"

  /** A command's parameters, or a parsed ministring: a dict in insertion order. */
  type Message = seq<(string, Json)>

  // ---------------------------------------------------------------- request line

  /** The `k=v` text of each entry, in order, with str() of the value. */
  function QueryPairs(message: Message): (r: seq<string>)
    ensures |r| == |message|
  {
    seq(|message|, i requires 0 <= i < |message| => message[i].0 + "=" + Str(message[i].1))
  }

  /** The line send_command writes: the query part only for a non-empty message. */
  function RequestLine(command: string, message: Message): string {
    "heos://" + command
    + (if |message| > 0 then "?" + Text.Join(QueryPairs(message), "&") else "")
    + "\r\n"
  }

  /** The parameters send_command actually sends: a non-empty message whose pid is
      missing or falsy receives the controller's player id. */
  function WithDefaultPid(message: Message, playerId: Json): Message {
    if |message| > 0 && !Truthy(Lookup(message, "pid").GetOr(JNull)) then
      Assign(message, "pid", playerId)
    else
      message
  }

  /** The default pid is filled in only where it is missing or falsy: a missing
      pid is appended as the last key, a falsy one is replaced where it stands,
      a truthy one (and an empty message) is left alone; no other key changes. */
  lemma DefaultPidFilled(message: Message, playerId: Json)
    requires UniqueKeys(message)
    ensures UniqueKeys(WithDefaultPid(message, playerId))
    ensures |message| == 0 || Truthy(Lookup(message, "pid").GetOr(JNull))
            ==> WithDefaultPid(message, playerId) == message
    ensures |message| > 0 && Lookup(message, "pid").None?
            ==> WithDefaultPid(message, playerId) == message + [("pid", playerId)]
    ensures |message| > 0 && !Truthy(Lookup(message, "pid").GetOr(JNull))
            ==> Lookup(WithDefaultPid(message, playerId), "pid") == Some(playerId)
                && Keys(WithDefaultPid(message, playerId))
                   == Keys(message) + (if Lookup(message, "pid").None? then ["pid"] else [])
    ensures forall k :: k != "pid" ==> Lookup(WithDefaultPid(message, playerId), k) == Lookup(message, k)
  {
    if |message| > 0 && !Truthy(Lookup(message, "pid").GetOr(JNull)) {
      AssignKeys(message, "pid", playerId);
      LookupAssign(message, "pid", playerId, "pid");
      forall k | k != "pid"
        ensures Lookup(WithDefaultPid(message, playerId), k) == Lookup(message, k)
      {
        LookupAssign(message, "pid", playerId, k);
      }
    }
  }

  // ---------------------------------------------------------------- ministring parser

  /** One `&`-separated token: `k=v` gives k -> "v", a bare `k` gives k -> True,
      a token with more than one `=` gives nothing. */
  function ParseToken(token: string): Option<(string, Json)> {
    var parts := Text.Split(token, "=");
    if |parts| == 2 then Some((parts[0], JStr(parts[1])))
    else if |parts| == 1 then Some((parts[0], JBool(true)))
    else None
  }

  /** The dict built by assigning the tokens' entries in order. */
  function Absorb(tokens: seq<string>): Message
    decreases |tokens|
  {
    if tokens == [] then []
    else
      var d := Absorb(tokens[..|tokens| - 1]);
      match ParseToken(tokens[|tokens| - 1])
      case Some(kv) => Assign(d, kv.0, kv.1)
      case None => d
  }

  /** _parse_message: an empty message gives the empty dict. */
  function MessageMap(message: string): Message {
    if message == "" then [] else Absorb(Text.Split(message, "&"))
  }

  /** The parser's loop over the `&`-separated tokens. */
  method ParseMessage(message: string) returns (result: Message)
    ensures result == MessageMap(message)
  {
    result := [];
    if message != "" {
      var elems := Text.Split(message, "&");
      for i := 0 to |elems|
        invariant result == Absorb(elems[..i])
      {
        assert elems[..i + 1][..i] == elems[..i];
        var parts := Text.Split(elems[i], "=");
        if |parts| == 2 {
          result := Assign(result, parts[0], JStr(parts[1]));
        } else if |parts| == 1 {
          result := Assign(result, parts[0], JBool(true));
        }
      }
      assert elems[..|elems|] == elems;
    }
  }

  /** Token `token` assigns key k. */
  predicate SetsKey(token: string, k: string) {
    ParseToken(token).Some? && ParseToken(token).value.0 == k
  }

  /** The last token decides its own key and leaves the others as before. */
  lemma AbsorbStep(tokens: seq<string>, k: string)
    requires tokens != []
    ensures Lookup(Absorb(tokens), k)
            == if SetsKey(tokens[|tokens| - 1], k) then Some(ParseToken(tokens[|tokens| - 1]).value.1)
               else Lookup(Absorb(tokens[..|tokens| - 1]), k)
  {
    var d := Absorb(tokens[..|tokens| - 1]);
    match ParseToken(tokens[|tokens| - 1])
    case Some(kv) => LookupAssign(d, kv.0, kv.1, k);
    case None =>
  }

  /** A key is present exactly when some token assigns it. */
  lemma {:induction false} AbsorbHasKey(tokens: seq<string>, k: string)
    ensures Lookup(Absorb(tokens), k).Some? <==> exists i :: 0 <= i < |tokens| && SetsKey(tokens[i], k)
    decreases |tokens|
  {
    if tokens != [] {
      var n := |tokens|;
      var init := tokens[..n - 1];
      AbsorbStep(tokens, k);
      AbsorbHasKey(init, k);
      if !SetsKey(tokens[n - 1], k) {
        if i :| 0 <= i < n && SetsKey(tokens[i], k) {
          assert SetsKey(init[i], k);
        }
        if i :| 0 <= i < n - 1 && SetsKey(init[i], k) {
          assert SetsKey(tokens[i], k);
        }
      }
    }
  }

  /** A present key holds the value of the last token that assigns it. */
  lemma {:induction false} AbsorbLastValue(tokens: seq<string>, k: string, i: nat)
    requires i < |tokens| && SetsKey(tokens[i], k)
    requires forall j :: i < j < |tokens| ==> !SetsKey(tokens[j], k)
    ensures Lookup(Absorb(tokens), k) == Some(ParseToken(tokens[i]).value.1)
    decreases |tokens|
  {
    var n := |tokens|;
    AbsorbStep(tokens, k);
    if i < n - 1 {
      var init := tokens[..n - 1];
      assert !SetsKey(tokens[n - 1], k);
      assert init[i] == tokens[i];
      assert forall j :: i < j < |init| ==> init[j] == tokens[j];
      AbsorbLastValue(init, k, i);
    }
  }

  /** A parsed message never holds a key twice. */
  lemma {:induction false} AbsorbUnique(tokens: seq<string>)
    ensures UniqueKeys(Absorb(tokens))
    decreases |tokens|
  {
    if tokens != [] {
      AbsorbUnique(tokens[..|tokens| - 1]);
      match ParseToken(tokens[|tokens| - 1])
      case Some(kv) => AssignKeys(Absorb(tokens[..|tokens| - 1]), kv.0, kv.1);
      case None =>
    }
  }

  /** How each kind of token parses: `k=v` to a text, `k` to True, and a token with
      two or more `=` to nothing. */
  lemma TokenForms(k: string, v: string, w: string)
    requires '=' !in k && '=' !in v
    ensures ParseToken(k + "=" + v) == Some((k, JStr(v)))
    ensures ParseToken(k) == Some((k, JBool(true)))
    ensures ParseToken(k + "=" + v + "=" + w).None?
  {
    NoEquals(k);
    NoEquals(v);
    Text.SplitAfterPiece(k, "=", v);
    ThreePieces(k, v, w);
  }

  lemma ThreePieces(k: string, v: string, w: string)
    requires '=' !in k && '=' !in v
    ensures |Text.Split(k + "=" + v + "=" + w, "=")| >= 3
  {
    Text.SplitAfterPiece(v, "=", w);
    assert k + "=" + v + "=" + w == k + "=" + (v + "=" + w);
    Text.SplitAfterPiece(k, "=", v + "=" + w);
  }

  lemma NoEquals(s: string)
    requires '=' !in s
    ensures Text.Split(s, "=") == [s]
  {
    Text.NoFirstCharNoOccurrence(s, "=");
    Text.SplitNoOccurrence(s, "=");
  }

  /** Text free of the two delimiters of a query. */
  predicate Plain(s: string) {
    '&' !in s && '=' !in s
  }

  /** Each key mapped to the text of its value. */
  function Stringified(message: Message): (r: Message)
    ensures |r| == |message|
  {
    seq(|message|, i requires 0 <= i < |message| => (message[i].0, JStr(Str(message[i].1))))
  }

  lemma {:induction false} AbsorbQuery(message: Message)
    requires UniqueKeys(message)
    requires forall i :: 0 <= i < |message| ==> Plain(message[i].0) && Plain(Str(message[i].1))
    ensures Absorb(QueryPairs(message)) == Stringified(message)
    decreases |message|
  {
    if message != [] {
      var n := |message|;
      var init := message[..n - 1];
      assert QueryPairs(message)[..n - 1] == QueryPairs(init);
      AbsorbQuery(init);
      var k := message[n - 1].0;
      var s := Str(message[n - 1].1);
      TokenForms(k, s, "");
      assert IndexOf(Stringified(init), k).None?;
      assert Stringified(init) + [(k, JStr(s))] == Stringified(message);
    }
  }

  /** Parsing the query text of a request line gives back every key, in order,
      with the text of its value, when no key or value text holds `&` or `=`. */
  lemma QueryRoundTrip(message: Message)
    requires |message| > 0 && UniqueKeys(message)
    requires forall i :: 0 <= i < |message| ==> Plain(message[i].0) && Plain(Str(message[i].1))
    ensures MessageMap(Text.Join(QueryPairs(message), "&")) == Stringified(message)
  {
    var pairs := QueryPairs(message);
    forall i | 0 <= i < |pairs|
      ensures "&"[0] !in pairs[i]
    {
      assert pairs[i] == message[i].0 + "=" + Str(message[i].1);
    }
    Text.SplitJoin(pairs, "&");
    AbsorbQuery(message);
  }

  // ---------------------------------------------------------------- parameter texts

  /** min(100, max(0, level)). */
  function Clamp(level: int): (r: int)
    ensures 0 <= r <= 100
    ensures 0 <= level <= 100 ==> r == level
    ensures level < 0 ==> r == 0
    ensures level > 100 ==> r == 100
  {
    var atLeastZero := if level < 0 then 0 else level;
    if atLeastZero > 100 then 100 else atLeastZero
  }

  /** The pid text of set_group: str(leader), then "," and str(member) per member. */
  function GroupPidText(leader: Json, members: seq<Json>): string
    decreases |members|
  {
    if members == [] then Str(leader)
    else GroupPidText(leader, members[..|members| - 1]) + "," + Str(members[|members| - 1])
  }

  function StrAll(xs: seq<Json>): (r: seq<string>)
    ensures |r| == |xs|
  {
    seq(|xs|, i requires 0 <= i < |xs| => Str(xs[i]))
  }

  lemma StrAllSnoc(xs: seq<Json>)
    requires |xs| > 0
    ensures StrAll(xs) == StrAll(xs[..|xs| - 1]) + [Str(xs[|xs| - 1])]
  {
  }

  /** The pid text is the leader followed by the members, in order, joined by commas. */
  lemma {:induction false} GroupPidTextJoin(leader: Json, members: seq<Json>)
    ensures GroupPidText(leader, members) == Text.Join([Str(leader)] + StrAll(members), ",")
    decreases |members|
  {
    if members != [] {
      var n := |members|;
      var init := members[..n - 1];
      GroupPidTextJoin(leader, init);
      StrAllSnoc(members);
      assert [Str(leader)] + StrAll(members) == ([Str(leader)] + StrAll(init)) + [Str(members[n - 1])];
      Text.JoinSnoc([Str(leader)] + StrAll(init), Str(members[n - 1]), ",");
    }
  }

  /** Splitting the pid text at its commas gives the leader and then the members,
      in list order, when no id text holds a comma. */
  lemma GroupPidTextSplit(leader: Json, members: seq<Json>)
    requires ',' !in Str(leader)
    requires forall i :: 0 <= i < |members| ==> ',' !in Str(members[i])
    ensures Text.Split(GroupPidText(leader, members), ",") == [Str(leader)] + StrAll(members)
  {
    GroupPidTextJoin(leader, members);
    var parts := [Str(leader)] + StrAll(members);
    forall i | 0 <= i < |parts|
      ensures ","[0] !in parts[i]
    {
      if i > 0 {
        assert parts[i] == Str(members[i - 1]);
      }
    }
    Text.SplitJoin(parts, ",");
  }

  // ---------------------------------------------------------------- replies

  /** A decoded reply `{"heos": {"command", "result", "message"}, "payload"}`;
      None for a key the reply lacks. The three heos fields are taken to be
      texts. */
  datatype Envelope = Envelope(
    command: Option<string>,
    result: Option<string>,
    message: Option<string>,
    payload: Option<Json>)

  /** What an AioHeosException says. */
  datatype Reason =
    | PlayerOffline(pid: Json)         // 'Player <pid> is offline'
    | DeviceError(message: Json)       // the parsed message of a failed reply
    | NoMessageOrPayload               // 'No message or payload in reply. ...'
    | ProblemParsingCommand            // 'Problem parsing command.'
    | ProblemParsing(inner: Reason)    // 'Problem parsing (<inner>)'

  /** An exception: the library's own, or any built-in one (KeyError, TypeError,
      AttributeError, ValueError, IndexError, UnicodeEncodeError). */
  datatype Error = HeosException(reason: Reason) | BuiltinError

  const CommandUnderProcess := "command under process"

  /** What the controller does with a reply. */
  datatype Route =
    | Malformed                                           // no command: KeyError
    | Interim                                             // an acknowledgement: dropped
    | Failed(parsed: Message)                             // result == 'fail'
    | Deliver(command: string, message: Json, payload: Json)

  /** The controller's classification of a reply (_parse_command): the interim
      acknowledgement is recognised before the failure check. */
  function Classify(e: Envelope): (r: Route)
    ensures e.command.None? <==> r.Malformed?
    ensures r.Interim? <==> e.command.Some? && e.message.Some?
                            && Text.StartsWith(e.message.value, CommandUnderProcess)
    ensures r.Failed? <==> e.command.Some? && e.result == Some("fail")
                           && !(e.message.Some? && Text.StartsWith(e.message.value, CommandUnderProcess))
    ensures r.Failed? ==> r.parsed == if e.message.Some? then MessageMap(e.message.value) else []
    ensures r.Deliver? ==> r.command == e.command.value && r.payload == e.payload.GetOr(JNull)
    ensures r.Deliver? ==> r.message == if e.message.Some? then JObj(MessageMap(e.message.value))
                                        else if e.payload.Some? then JObj([]) else JNull
  {
    if e.command.None? then Malformed
    else if e.message.Some? && Text.StartsWith(e.message.value, CommandUnderProcess) then Interim
    else
      var message := if e.message.Some? then MessageMap(e.message.value) else [];
      if e.result == Some("fail") then Failed(message)
      else if e.payload.Some? then Deliver(e.command.value, JObj(message), e.payload.value)
      else if e.message.Some? then Deliver(e.command.value, JObj(message), JNull)
      else Deliver(e.command.value, JNull, JNull)
  }

  // ---------------------------------------------------------------- dispatch table

  /** The controller's reply and event handlers. */
  datatype Handler =
    | OnPlayers | OnGroups | OnSetGroup | OnPlayState | OnMuteState | OnVolume
    | OnNowPlayingMedia | OnPlayerVolumeChanged | OnGroupVolumeChanged
    | OnPlayerStateChanged | OnPlayersChanged | OnNowPlayingChanged
    | OnNowPlayingProgress | OnGroupsChanged | OnSignIn | OnMusicSources | OnBrowse

  /** The dispatcher's table: the handler registered for a command. */
  function HandlerFor(command: string): Option<Handler> {
    if command == GetPlayersCommand then Some(OnPlayers)
    else if command == GetGroupsCommand then Some(OnGroups)
    else if command == SetGroupCommand then Some(OnSetGroup)
    else if command == GetPlayStateCommand || command == SetPlayStateCommand then Some(OnPlayState)
    else if command == GetMuteStateCommand || command == SetMuteStateCommand then Some(OnMuteState)
    else if command == GetVolumeCommand || command == SetVolumeCommand then Some(OnVolume)
    else if command == GetNowPlayingMediaCommand then Some(OnNowPlayingMedia)
    else if command == PlayerVolumeChangedEvent then Some(OnPlayerVolumeChanged)
    else if command == GroupVolumeChangedEvent then Some(OnGroupVolumeChanged)
    else if command == PlayerStateChangedEvent then Some(OnPlayerStateChanged)
    else if command == PlayersChangedEvent then Some(OnPlayersChanged)
    else if command == NowPlayingChangedEvent then Some(OnNowPlayingChanged)
    else if command == NowPlayingProgressEvent then Some(OnNowPlayingProgress)
    else if command == GroupsChangedEvent then Some(OnGroupsChanged)
    else if command == SignInCommand then Some(OnSignIn)
    else if command == MusicSourcesCommand then Some(OnMusicSources)
    else if command == BrowseCommand then Some(OnBrowse)
    else None
  }

  /** Commands the dispatcher names as ignored: like unknown ones, they reach no handler. */
  const IgnoredCommands := [PrettifyCommand, RegisterForEventsCommand, QueueChangedEvent,
                            SourcesChangedEvent, UserChangedEvent, ShuffleModeChangedEvent,
                            RepeatModeChangedEvent]

  // ---------------------------------------------------------------- device address

  /** The match of `https?://([^:/]+)[:/].*$` starting at index i, if any: its host group. */
  function AddrAt(url: string, i: nat): (r: Option<string>)
    ensures r.Some? ==> |r.value| > 0 && forall m :: 0 <= m < |r.value| ==> Text.IsHostChar(r.value[m])
  {
    match Text.SchemeEnd(url, i)
    case None => None
    case Some(j) =>
      var k := Text.HostEnd(url, j);
      if j < k < |url| && Text.RestOfLine(url, k + 1) then Some(url[j..k]) else None
  }

  /** re.search: the leftmost starting index at which the pattern matches. */
  function SearchAddr(url: string, i: nat): (r: Option<string>)
    ensures r.Some? ==> |r.value| > 0 && forall m :: 0 <= m < |r.value| ==> Text.IsHostChar(r.value[m])
    decreases |url| + 1 - i
  {
    if i > |url| then None
    else match AddrAt(url, i)
      case Some(host) => Some(host)
      case None => SearchAddr(url, i + 1)
  }

  /** _url_to_addr: the host part of the first `http(s)://host[:/]...` in the text. */
  function UrlToAddr(url: string): (r: Option<string>) {
    SearchAddr(url, 0)
  }

  /** The host of a one-line http or https URL is what stands between the scheme
      and the first `:` or `/`. */
  lemma UrlToAddrOfUrl(scheme: string, host: string, sep: char, rest: string)
    requires scheme == "http://" || scheme == "https://"
    requires |host| > 0 && forall m :: 0 <= m < |host| ==> Text.IsHostChar(host[m])
    requires sep == ':' || sep == '/'
    requires '\n' !in rest
    ensures UrlToAddr(scheme + host + [sep] + rest) == Some(host)
  {
    var url := scheme + host + [sep] + rest;
    var j := |scheme|;
    var k := j + |host|;
    if scheme == "http://" {
      assert url[4] == ':';
      assert url[0..7] == "http://";
    } else {
      assert url[0..8] == "https://";
    }
    assert Text.SchemeEnd(url, 0) == Some(j);
    assert forall m :: j <= m < k ==> url[m] == host[m - j];
    assert url[k] == sep;
    assert Text.HostEnd(url, j) == k;
    assert forall m :: k + 1 <= m < |url| ==> url[m] == rest[m - k - 1];
    assert url[j..k] == host;
  }
}
