/** The legacy single-player client AioHeos: the same request line and
    ministring parser as the controller, but its own order of classifying a
    reply, a dispatcher that hands every handler one argument, and state kept in
    flat fields. The effect of a reply on the state is specified by pure
    functions over a State value, and the class's methods are proved against them. */
module Legacy {
  import opened Wrappers
  import opened Dicts
  import opened PyValue
  import opened Protocol
  import Text

  // ---------------------------------------------------------------- volume levels

  /** A level set_volume may send: an int, or the float n.0 (float() of an
      integral text, plus an int step, stays integral). */
  datatype Level = Int(n: int) | Float(n: int)

  /** What _volume_level holds: a value taken from a reply as it is, or the
      float stored by the volume-changed event. */
  datatype Stored = Plain(value: Json) | FloatValue(n: int)

  /** float(v) for the values that convert to an integral float; None where
      Python raises (None, lists, dicts, non-numeric text). */
  function FloatOf(v: Json): Option<int> {
    match v
    case JInt(i) => Some(i)
    case JBool(b) => Some(if b then 1 else 0)
    case JStr(s) => Text.ParseInt(s)
    case _ => None
  }

  /** `_volume_level + step`: int and bool levels give an int, a float gives a
      float; anything else (a text level, None) raises TypeError. */
  function AddStep(level: Stored, step: int): Option<Level> {
    match level
    case FloatValue(n) => Some(Float(n + step))
    case Plain(v) =>
      match v
      case JInt(i) => Some(Int(i + step))
      case JBool(b) => Some(Int((if b then 1 else 0) + step))
      case _ => None
  }

  /** set_volume's two ifs: above 100 becomes the int 100, below 0 the int 0,
      and a level in range is sent as it is, int or float. */
  function ClampLevel(l: Level): (r: Level)
    ensures 0 <= r.n <= 100 && r.n == Clamp(l.n)
    ensures 0 <= l.n <= 100 ==> r == l
    ensures !(0 <= l.n <= 100) ==> r.Int?
  {
    var upper := if l.n > 100 then Int(100) else l;
    if upper.n < 0 then Int(0) else upper
  }

  /** The value put in the message: str() of a float in [0, 100] is its digits
      followed by ".0", so it is carried as that text. */
  function LevelValue(l: Level): Json {
    match l
    case Int(n) => JInt(n)
    case Float(n) => JStr(Text.IntToDecimal(n) + ".0")
  }

  // ---------------------------------------------------------------- state

  datatype Media = Media(artist: Json, album: Json, title: Json, imageUrl: Json, id: Json)

  /** The client's fields; positionUpdatedAt holds the time given to the
      progress handler. */
  datatype State = State(
    players: Json,
    playerId: Json,
    playState: Json,
    muteState: Json,
    volumeLevel: Stored,
    currentPosition: int,
    positionUpdatedAt: Option<int>,
    duration: int,
    media: Media,
    loggedIn: bool,
    outbox: seq<string>)

  /** A new client: nothing known, volume 0, not logged in. */
  const Initial := State(JNull, JNull, JNull, JNull, Plain(JInt(0)), 0, None, 0,
                         Media(JNull, JNull, JNull, JNull, JNull), false, [])

  /** The state after an operation and how it ended. */
  datatype Effect = Effect(state: State, r: Outcome<Error>)

  /** send_command: a non-empty message without a truthy pid gets the player
      id; the line is written only when it is ASCII (else UnicodeEncodeError). */
  function SendEffect(s: State, command: string, message: Message): (e: Effect)
    ensures e.r.Pass? <==> Text.IsAscii(RequestLine(command, WithDefaultPid(message, s.playerId)))
    ensures e.r.Pass? ==> e.state.outbox == s.outbox + [RequestLine(command, WithDefaultPid(message, s.playerId))]
    ensures e.r.Fail? ==> e.state == s && e.r == Fail(BuiltinError)
    ensures e.state == s.(outbox := e.state.outbox)
  {
    var line := RequestLine(command, WithDefaultPid(message, s.playerId));
    if Text.IsAscii(line) then Effect(s.(outbox := s.outbox + [line]), Pass)
    else Effect(s, Fail(BuiltinError))
  }

  // ---------------------------------------------------------------- handlers

  /** The legacy dispatcher's callbacks. */
  datatype Callback =
    | Players | PlayState | MuteState | Volume | NowPlayingMedia
    | PlayerVolumeChanged | PlayerStateChanged | NowPlayingChanged
    | NowPlayingProgress | SystemSignIn

  /** The legacy dispatcher's table; the prettify reply is named as ignored
      and, like every other command, reaches no callback. */
  function CallbackFor(command: string): Option<Callback> {
    if command == GetPlayersCommand then Some(Players)
    else if command == GetPlayStateCommand || command == SetPlayStateCommand then Some(PlayState)
    else if command == GetMuteStateCommand || command == SetMuteStateCommand then Some(MuteState)
    else if command == GetVolumeCommand || command == SetVolumeCommand then Some(Volume)
    else if command == GetNowPlayingMediaCommand then Some(NowPlayingMedia)
    else if command == PlayerVolumeChangedEvent then Some(PlayerVolumeChanged)
    else if command == PlayerStateChangedEvent then Some(PlayerStateChanged)
    else if command == NowPlayingChangedEvent then Some(NowPlayingChanged)
    else if command == NowPlayingProgressEvent then Some(NowPlayingProgress)
    else if command == SignInCommand then Some(SystemSignIn)
    else None
  }

  /** payload[0]['pid']: only a non-empty list whose first item is a dict with
      a pid gives one (a dict payload raises KeyError, a text TypeError). */
  function FirstPid(payload: Json): Option<Json> {
    if payload.JArr? && |payload.items| > 0 then Subscript(payload.items[0], "pid") else None
  }

  /** What one callback does to the state, given its single argument; a raise
      keeps the assignments made before it. */
  function Handle(s: State, c: Callback, arg: Json, now: int): Effect {
    match c
    case Players =>
      var replaced := s.(players := arg);
      var pid := FirstPid(arg);
      if pid.None? then Effect(replaced, Fail(BuiltinError))
      else Effect(replaced.(playerId := pid.value), Pass)
    case PlayState => Assigned(s, Subscript(arg, "state"), v => s.(playState := v))
    case MuteState => Assigned(s, Subscript(arg, "state"), v => s.(muteState := v))
    case Volume => Assigned(s, Subscript(arg, "level"), v => s.(volumeLevel := Plain(v)))
    case NowPlayingMedia =>
      if !arg.JObj? then Effect(s, Fail(BuiltinError))
      else
        var f := arg.fields;
        Effect(s.(media := Media(Lookup(f, "artist").GetOr(JNull), Lookup(f, "album").GetOr(JNull),
                                 Lookup(f, "song").GetOr(JNull), Lookup(f, "image_url").GetOr(JNull),
                                 Lookup(f, "mid").GetOr(JNull))), Pass)
    case PlayerVolumeChanged =>
      var mute := Subscript(arg, "mute");
      if mute.None? then Effect(s, Fail(BuiltinError))
      else
        var muted := s.(muteState := mute.value);
        var level := Subscript(arg, "level");
        if level.None? || FloatOf(level.value).None? then Effect(muted, Fail(BuiltinError))
        else Effect(muted.(volumeLevel := FloatValue(FloatOf(level.value).value)), Pass)
    case PlayerStateChanged => Assigned(s, Subscript(arg, "state"), v => s.(playState := v))
    case NowPlayingChanged =>
      SendEffect(s, GetNowPlayingMediaCommand, [("pid", s.playerId)])
    case NowPlayingProgress =>
      var pos := Subscript(arg, "cur_pos");
      if pos.None? || ToInt(pos.value).None? then Effect(s, Fail(BuiltinError))
      else
        var stamped := s.(currentPosition := ToInt(pos.value).value, positionUpdatedAt := Some(now));
        var duration := Subscript(arg, "duration");
        if duration.None? || ToInt(duration.value).None? then Effect(stamped, Fail(BuiltinError))
        else Effect(stamped.(duration := ToInt(duration.value).value), Pass)
    case SystemSignIn =>
      // the handler takes two arguments and is called with one: TypeError
      Effect(s, Fail(BuiltinError))
  }

  /** `field = arg[key]`: KeyError (or TypeError) when the value is missing. */
  function Assigned(s: State, value: Option<Json>, update: Json -> State): Effect {
    if value.None? then Effect(s, Fail(BuiltinError)) else Effect(update(value.value), Pass)
  }

  /** _dispatcher: the callback for the command, or nothing. */
  function DispatchEffect(s: State, command: string, arg: Json, now: int): Effect {
    match CallbackFor(command)
    case None => Effect(s, Pass)
    case Some(c) => Handle(s, c, arg, now)
  }

  // ---------------------------------------------------------------- replies

  /** How the legacy client reads a reply. */
  datatype Reading =
    | NoCommand                               // KeyError on the command
    | Failure(text: Option<string>)           // result == 'fail'
    | Acknowledged                            // exactly 'command under process'
    | Empty                                   // neither payload nor message
    | Handled(command: string, arg: Json)     // the one argument for the callback

  /** _parse_command's order: the failure check first, then the payload, then
      the message, where only the exact acknowledgement text is dropped. */
  function Read(e: Envelope): (r: Reading)
    ensures r.NoCommand? <==> e.command.None?
    ensures r.Failure? <==> e.command.Some? && e.result == Some("fail")
    ensures r.Failure? ==> r.text == e.message
    ensures r.Acknowledged? <==> e.command.Some? && e.result != Some("fail") && e.payload.None?
                                 && e.message == Some(CommandUnderProcess)
    ensures r.Empty? <==> e.command.Some? && e.result != Some("fail") && e.payload.None? && e.message.None?
    ensures r.Handled? ==> r.command == e.command.value
    ensures r.Handled? && e.payload.Some? ==> r.arg == e.payload.value
    ensures r.Handled? && e.payload.None? ==> r.arg == JObj(MessageMap(e.message.value))
  {
    if e.command.None? then NoCommand
    else if e.result == Some("fail") then Failure(e.message)
    else if e.payload.Some? then Handled(e.command.value, e.payload.value)
    else if e.message.Some? then
      if e.message.value == CommandUnderProcess then Acknowledged
      else Handled(e.command.value, JObj(MessageMap(e.message.value)))
    else Empty
  }

  /** The whole of _parse_command on a reply: every raise leaves it as an
      AioHeosException, a callback's raise as 'Problem parsing command.'. */
  function Process(s: State, e: Envelope, now: int): Effect {
    match Read(e)
    case NoCommand => Effect(s, Fail(HeosException(ProblemParsingCommand)))
    case Failure(text) =>
      if text.None? then Effect(s, Fail(HeosException(ProblemParsingCommand)))
      else Effect(s, Fail(HeosException(ProblemParsing(DeviceError(JStr(text.value))))))
    case Acknowledged => Effect(s, Pass)
    case Empty => Effect(s, Fail(HeosException(ProblemParsing(NoMessageOrPayload))))
    case Handled(command, arg) =>
      var d := DispatchEffect(s, command, arg, now);
      Effect(d.state, if d.r.Fail? then Fail(HeosException(ProblemParsingCommand)) else Pass)
  }

  // ---------------------------------------------------------------- properties

  /** Unlike the controller, the legacy client checks for failure first: a
      failed reply is a failure even when its message starts with the
      acknowledgement, which the controller drops. */
  lemma FailureCheckedFirst(e: Envelope)
    requires e.command.Some? && e.result == Some("fail")
    ensures Read(e) == Failure(e.message)
    ensures Classify(e).Interim? <==> e.message.Some? && Text.StartsWith(e.message.value, CommandUnderProcess)
    ensures !Classify(e).Interim? ==> Classify(e).Failed?
  {
  }

  /** The controller drops every message that starts with the acknowledgement;
      the legacy client drops only the exact text and hands a longer one to the
      callback. */
  lemma AcknowledgementExactOnly(e: Envelope, m: string)
    requires e.command.Some? && e.result != Some("fail") && e.payload.None? && e.message == Some(m)
    requires Text.StartsWith(m, CommandUnderProcess)
    ensures Classify(e).Interim?
    ensures Read(e).Acknowledged? <==> m == CommandUnderProcess
    ensures m != CommandUnderProcess ==> Read(e) == Handled(e.command.value, JObj(MessageMap(m)))
  {
  }

  /** On any other reply with content the two agree: the legacy callback's one
      argument is the controller's payload when there is one, and the
      controller's parsed message otherwise. */
  lemma ReadAgreesWithClassify(e: Envelope)
    requires e.command.Some? && e.result != Some("fail")
    requires e.message.Some? ==> !Text.StartsWith(e.message.value, CommandUnderProcess)
    requires e.payload.Some? || e.message.Some?
    ensures Classify(e).Deliver? && Read(e).Handled?
    ensures Read(e) == Handled(Classify(e).command,
                               if e.payload.Some? then Classify(e).payload else Classify(e).message)
  {
    if e.message.Some? {
      assert e.message.value != CommandUnderProcess by {
        assert CommandUnderProcess[..|CommandUnderProcess|] == CommandUnderProcess;
      }
    }
  }

  /** Every raise out of _parse_command is an AioHeosException: the reply's own
      failure text, the missing content, or 'Problem parsing command.'. */
  lemma ProcessRaisesHeosOnly(s: State, e: Envelope, now: int)
    ensures var p := Process(s, e, now);
      p.r.Fail? ==> p.r.error.HeosException?
                    && (p.r.error.reason == ProblemParsingCommand
                        || p.r.error.reason == ProblemParsing(NoMessageOrPayload)
                        || (e.message.Some? && p.r.error.reason == ProblemParsing(DeviceError(JStr(e.message.value)))))
  {
  }

  /** A reply that is not handed to a callback changes nothing. */
  lemma UnhandledChangesNothing(s: State, e: Envelope, now: int)
    requires !Read(e).Handled? || CallbackFor(Read(e).command).None?
    ensures Process(s, e, now).state == s
    ensures Process(s, e, now).r.Pass? <==> Read(e).Acknowledged? || Read(e).Handled?
  {
  }

  /** No callback touches logged_in. */
  lemma HandleKeepsLogin(s: State, c: Callback, arg: Json, now: int)
    ensures Handle(s, c, arg, now).state.loggedIn == s.loggedIn
  {
  }

  /** Signing in through the dispatcher always fails, so no reply ever sets
      logged_in. */
  lemma ProcessNeverLogsIn(s: State, e: Envelope, now: int)
    ensures Process(s, e, now).state.loggedIn == s.loggedIn
    ensures Read(e).Handled? && Read(e).command == SignInCommand
            ==> Process(s, e, now) == Effect(s, Fail(HeosException(ProblemParsingCommand)))
  {
    if Read(e).Handled? && CallbackFor(Read(e).command).Some? {
      HandleKeepsLogin(s, CallbackFor(Read(e).command).value, Read(e).arg, now);
    }
  }

  /** Only the now-playing-changed event sends anything, and then one line at most. */
  lemma ProcessSendsOnlyOnNowPlayingChanged(s: State, e: Envelope, now: int)
    ensures var out := Process(s, e, now).state.outbox;
      out == s.outbox
      || (Read(e).Handled? && Read(e).command == NowPlayingChangedEvent
          && out == s.outbox + [RequestLine(GetNowPlayingMediaCommand, [("pid", s.playerId)])])
  {
    var r := Read(e);
    if r.Handled? {
      match CallbackFor(r.command)
      case None =>
      case Some(c) =>
        HandleSendsOnlyOnNowPlayingChanged(s, c, r.arg, now);
        assert c == NowPlayingChanged ==> r.command == NowPlayingChangedEvent;
    }
  }

  /** The callback behind ProcessSendsOnlyOnNowPlayingChanged. */
  lemma HandleSendsOnlyOnNowPlayingChanged(s: State, c: Callback, arg: Json, now: int)
    ensures var out := Handle(s, c, arg, now).state.outbox;
      out == s.outbox
      || (c == NowPlayingChanged && out == s.outbox + [RequestLine(GetNowPlayingMediaCommand, [("pid", s.playerId)])])
  {
    if c == NowPlayingChanged {
      var m: Message := [("pid", s.playerId)];
      if !Truthy(s.playerId) {
        assert Assign(m, "pid", s.playerId) == m;
      }
    }
  }

  /** A players reply replaces the whole list, and the player id becomes the
      pid of its first entry; without one the list is still replaced. */
  lemma PlayersReplyReplacesList(s: State, payload: Json, now: int)
    ensures var h := Handle(s, Players, payload, now);
      && h.state.players == payload
      && (h.r.Pass? <==> FirstPid(payload).Some?)
      && h.state.playerId == (if FirstPid(payload).Some? then FirstPid(payload).value else s.playerId)
      && h.state == s.(players := payload, playerId := h.state.playerId)
  {
  }

  /** A progress event stores position and duration as ints and stamps the
      position; a bad duration leaves position and stamp already updated. */
  lemma ProgressStoresInts(s: State, message: Json, now: int)
    requires var pos := Subscript(message, "cur_pos"); pos.Some? && ToInt(pos.value).Some?
    ensures var h := Handle(s, NowPlayingProgress, message, now);
      && h.state.currentPosition == ToInt(Subscript(message, "cur_pos").value).value
      && h.state.positionUpdatedAt == Some(now)
      && (h.r.Pass? <==> Subscript(message, "duration").Some? && ToInt(Subscript(message, "duration").value).Some?)
      && (h.r.Pass? ==> h.state.duration == ToInt(Subscript(message, "duration").value).value)
  {
  }

  /** The volume-changed event sets mute and then the volume, as a float, for
      any message: an integer level is stored as its value, a text level as
      the integer it spells. A missing mute raises with nothing changed; a
      missing or unconvertible level raises with only the mute stored. */
  lemma VolumeChangedStoresFloat(s: State, message: Json, now: int)
    ensures var h := Handle(s, PlayerVolumeChanged, message, now);
      var mute := Subscript(message, "mute"); var level := Subscript(message, "level");
      && (mute.None? ==> h == Effect(s, Fail(BuiltinError)))
      && (mute.Some? && level.Some? && FloatOf(level.value).Some? ==>
            h == Effect(s.(muteState := mute.value, volumeLevel := FloatValue(FloatOf(level.value).value)), Pass))
      && (mute.Some? && (level.None? || FloatOf(level.value).None?) ==>
            h == Effect(s.(muteState := mute.value), Fail(BuiltinError)))
      && (mute.Some? && level.Some? && level.value.JInt? ==>
            h == Effect(s.(muteState := mute.value, volumeLevel := FloatValue(level.value.i)), Pass))
      && (mute.Some? && level.Some? && level.value.JStr? ==>
            (h.r.Pass? <==> Text.ParseInt(level.value.s).Some?)
            && (h.r.Pass? ==> h.state.volumeLevel == FloatValue(Text.ParseInt(level.value.s).value)))
  {
  }

  /** On the event as the device sends it, mute and a text level, the level is
      looked up past the mute. */
  lemma VolumeChangedEventStoresFloat(s: State, mute: Json, level: string, now: int)
    requires Text.ParseInt(level).Some?
    ensures var h := Handle(s, PlayerVolumeChanged, JObj([("mute", mute), ("level", JStr(level))]), now);
      h == Effect(s.(muteState := mute, volumeLevel := FloatValue(Text.ParseInt(level).value)), Pass)
  {
    var fields := [("mute", mute), ("level", JStr(level))];
    assert fields[1..] == [("level", JStr(level))];
    assert IndexOf(fields, "level") == Some(1);
    VolumeChangedStoresFloat(s, JObj(fields), now);
  }

  /** A message-only volume reply keeps the level as the text it was sent in,
      so a volume step after it raises TypeError instead of sending. */
  lemma VolumeReplyKeepsText(s: State, level: string, now: int)
    requires '&' !in level && '=' !in level
    ensures MessageMap("level=" + level) == [("level", JStr(level))]
    ensures var h := Handle(s, Volume, JObj(MessageMap("level=" + level)), now);
      h == Effect(s.(volumeLevel := Plain(JStr(level))), Pass) && AddStep(h.state.volumeLevel, 10).None?
  {
    var token := "level=" + level;
    assert token == "level" + "=" + level;
    Text.NoFirstCharNoOccurrence(token, "&");
    Text.SplitNoOccurrence(token, "&");
    Text.SplitAfterPiece("level", "=", level);
    Text.NoFirstCharNoOccurrence(level, "=");
    Text.SplitNoOccurrence(level, "=");
    assert Text.Split(token, "&") == [token];
    assert Text.Split(token, "=") == ["level", level];
    assert ParseToken(token) == Some(("level", JStr(level)));
    assert [token][..0] == [];
    assert Absorb([token]) == Assign([], "level", JStr(level));
  }

  // ---------------------------------------------------------------- the client

  class AioHeos {
    const username: Json
    const password: Json
    var players: Json
    var playerId: Json
    var playState: Json
    var muteState: Json
    var volumeLevel: Stored
    var currentPosition: int
    var positionUpdatedAt: Option<int>
    var duration: int
    var media: Media
    var loggedIn: bool
    var outbox: seq<string>

    function Snapshot(): State
      reads this
    {
      State(players, playerId, playState, muteState, volumeLevel, currentPosition,
            positionUpdatedAt, duration, media, loggedIn, outbox)
    }

    constructor (username: Json, password: Json)
      ensures this.username == username && this.password == password
      ensures Snapshot() == Initial
    {
      this.username, this.password := username, password;
      players, playerId, playState, muteState := JNull, JNull, JNull, JNull;
      volumeLevel, currentPosition, positionUpdatedAt := Plain(JInt(0)), 0, None;
      duration, media, loggedIn, outbox := 0, Media(JNull, JNull, JNull, JNull, JNull), false, [];
    }

    // ------------------------------------------------------------ senders

    method SendCommand(command: string, message: Message) returns (r: Outcome<Error>)
      modifies `outbox
      ensures Effect(Snapshot(), r) == SendEffect(old(Snapshot()), command, message)
    {
      var sent := message;
      if |message| > 0 {
        if !Truthy(Lookup(message, "pid").GetOr(JNull)) {
          sent := Assign(message, "pid", playerId);
        }
      }
      var line := RequestLine(command, sent);
      if Text.IsAscii(line) {
        outbox := outbox + [line];
        r := Pass;
      } else {
        r := Fail(BuiltinError);
      }
    }

    method RequestPlayers() returns (r: Outcome<Error>)
      modifies `outbox
      ensures Effect(Snapshot(), r) == SendEffect(old(Snapshot()), GetPlayersCommand, [])
    {
      r := SendCommand(GetPlayersCommand, []);
    }

    method Login() returns (r: Outcome<Error>)
      modifies `outbox
      ensures Effect(Snapshot(), r) == SendEffect(old(Snapshot()), SignInCommand, [("un", username), ("pw", password)])
    {
      r := SendCommand(SignInCommand, [("un", username), ("pw", password)]);
    }

    method RequestNowPlayingMedia() returns (r: Outcome<Error>)
      modifies `outbox
      ensures Effect(Snapshot(), r) == SendEffect(old(Snapshot()), GetNowPlayingMediaCommand, [("pid", playerId)])
    {
      r := SendCommand(GetNowPlayingMediaCommand, [("pid", playerId)]);
    }

    /** set_volume: the level sent is clamped to [0, 100] by two ifs. */
    method SetVolume(volumeLevel: Level) returns (r: Outcome<Error>)
      modifies `outbox
      ensures Effect(Snapshot(), r)
              == SendEffect(old(Snapshot()), SetVolumeCommand, [("pid", playerId), ("level", LevelValue(ClampLevel(volumeLevel)))])
    {
      var level := volumeLevel;
      if level.n > 100 {
        level := Int(100);
      }
      if level.n < 0 {
        level := Int(0);
      }
      r := SendCommand(SetVolumeCommand, [("pid", playerId), ("level", LevelValue(level))]);
    }

    /** volume_level_up: the current level plus the step, clamped and sent. */
    method VolumeLevelUp(step: int) returns (r: Outcome<Error>)
      modifies `outbox
      ensures match AddStep(volumeLevel, step)
              case None => r == Fail(BuiltinError) && outbox == old(outbox)
              case Some(l) =>
                Effect(Snapshot(), r)
                == SendEffect(old(Snapshot()), SetVolumeCommand, [("pid", playerId), ("level", LevelValue(ClampLevel(l)))])
    {
      var level := AddStep(volumeLevel, step);
      if level.None? {
        return Fail(BuiltinError);
      }
      r := SetVolume(level.value);
    }

    /** volume_level_down: the current level minus the step, clamped and sent. */
    method VolumeLevelDown(step: int) returns (r: Outcome<Error>)
      modifies `outbox
      ensures match AddStep(volumeLevel, -step)
              case None => r == Fail(BuiltinError) && outbox == old(outbox)
              case Some(l) =>
                Effect(Snapshot(), r)
                == SendEffect(old(Snapshot()), SetVolumeCommand, [("pid", playerId), ("level", LevelValue(ClampLevel(l)))])
    {
      var level := AddStep(volumeLevel, -step);
      if level.None? {
        return Fail(BuiltinError);
      }
      r := SetVolume(level.value);
    }

    // ------------------------------------------------------------ callbacks

    method ParsePlayers(payload: Json) returns (r: Outcome<Error>)
      modifies this
      ensures Effect(Snapshot(), r) == Handle(old(Snapshot()), Players, payload, 0)
    {
      players := payload;
      var pid := FirstPid(payload);
      if pid.None? {
        return Fail(BuiltinError);
      }
      playerId := pid.value;
      r := Pass;
    }

    method ParsePlayState(payload: Json) returns (r: Outcome<Error>)
      modifies this
      ensures Effect(Snapshot(), r) == Handle(old(Snapshot()), PlayState, payload, 0)
    {
      var state := Subscript(payload, "state");
      if state.None? {
        return Fail(BuiltinError);
      }
      playState := state.value;
      r := Pass;
    }

    method ParseMuteState(payload: Json) returns (r: Outcome<Error>)
      modifies this
      ensures Effect(Snapshot(), r) == Handle(old(Snapshot()), MuteState, payload, 0)
    {
      var state := Subscript(payload, "state");
      if state.None? {
        return Fail(BuiltinError);
      }
      muteState := state.value;
      r := Pass;
    }

    method ParseVolume(message: Json) returns (r: Outcome<Error>)
      modifies this
      ensures Effect(Snapshot(), r) == Handle(old(Snapshot()), Volume, message, 0)
    {
      var level := Subscript(message, "level");
      if level.None? {
        return Fail(BuiltinError);
      }
      volumeLevel := Plain(level.value);
      r := Pass;
    }

    /** _parse_now_playing_media: five .get() calls, which need a dict. */
    method ParseNowPlayingMedia(payload: Json) returns (r: Outcome<Error>)
      modifies this
      ensures Effect(Snapshot(), r) == Handle(old(Snapshot()), NowPlayingMedia, payload, 0)
    {
      if !payload.JObj? {
        return Fail(BuiltinError);
      }
      var f := payload.fields;
      media := media.(artist := Lookup(f, "artist").GetOr(JNull));
      media := media.(album := Lookup(f, "album").GetOr(JNull));
      media := media.(title := Lookup(f, "song").GetOr(JNull));
      media := media.(imageUrl := Lookup(f, "image_url").GetOr(JNull));
      media := media.(id := Lookup(f, "mid").GetOr(JNull));
      r := Pass;
    }

    method ParsePlayerVolumeChanged(message: Json) returns (r: Outcome<Error>)
      modifies this
      ensures Effect(Snapshot(), r) == Handle(old(Snapshot()), PlayerVolumeChanged, message, 0)
    {
      var mute := Subscript(message, "mute");
      if mute.None? {
        return Fail(BuiltinError);
      }
      muteState := mute.value;
      var level := Subscript(message, "level");
      if level.None? {
        return Fail(BuiltinError);
      }
      var n := FloatOf(level.value);
      if n.None? {
        return Fail(BuiltinError);
      }
      volumeLevel := FloatValue(n.value);
      r := Pass;
    }

    method ParsePlayerStateChanged(message: Json) returns (r: Outcome<Error>)
      modifies this
      ensures Effect(Snapshot(), r) == Handle(old(Snapshot()), PlayerStateChanged, message, 0)
    {
      var state := Subscript(message, "state");
      if state.None? {
        return Fail(BuiltinError);
      }
      playState := state.value;
      r := Pass;
    }

    /** _parse_player_now_playing_changed: asks for what changed. */
    method ParsePlayerNowPlayingChanged(message: Json) returns (r: Outcome<Error>)
      modifies this
      ensures Effect(Snapshot(), r) == Handle(old(Snapshot()), NowPlayingChanged, message, 0)
    {
      r := RequestNowPlayingMedia();
    }

    /** _parse_player_now_playing_progress; `now` stands for the wall-clock time. */
    method ParsePlayerNowPlayingProgress(message: Json, now: int) returns (r: Outcome<Error>)
      modifies this
      ensures Effect(Snapshot(), r) == Handle(old(Snapshot()), NowPlayingProgress, message, now)
    {
      var pos := Subscript(message, "cur_pos");
      if pos.None? {
        return Fail(BuiltinError);
      }
      var position := ToInt(pos.value);
      if position.None? {
        return Fail(BuiltinError);
      }
      currentPosition := position.value;
      positionUpdatedAt := Some(now);
      var total := Subscript(message, "duration");
      if total.None? {
        return Fail(BuiltinError);
      }
      var length := ToInt(total.value);
      if length.None? {
        return Fail(BuiltinError);
      }
      duration := length.value;
      r := Pass;
    }

    /** _parse_system_signin takes a payload and a message; the dispatcher
        passes one argument, so the call raises TypeError before the body runs. */
    method ParseSystemSignIn(payload: Json) returns (r: Outcome<Error>)
      ensures Effect(Snapshot(), r) == Handle(Snapshot(), SystemSignIn, payload, 0)
    {
      r := Fail(BuiltinError);
    }

    // ------------------------------------------------------------ replies

    /** _dispatcher: the callback registered for the command, called with one argument. */
    method Dispatcher(command: string, arg: Json, now: int) returns (r: Outcome<Error>)
      modifies this
      ensures Effect(Snapshot(), r) == DispatchEffect(old(Snapshot()), command, arg, now)
    {
      var c := CallbackFor(command);
      if c.None? {
        return Pass;
      }
      var callback := c.value;
      if callback == Players {
        r := ParsePlayers(arg);
      } else if callback == PlayState {
        r := ParsePlayState(arg);
      } else if callback == MuteState {
        r := ParseMuteState(arg);
      } else if callback == Volume {
        r := ParseVolume(arg);
      } else if callback == NowPlayingMedia {
        r := ParseNowPlayingMedia(arg);
      } else if callback == PlayerVolumeChanged {
        r := ParsePlayerVolumeChanged(arg);
      } else if callback == PlayerStateChanged {
        r := ParsePlayerStateChanged(arg);
      } else if callback == NowPlayingChanged {
        r := ParsePlayerNowPlayingChanged(arg);
      } else if callback == NowPlayingProgress {
        r := ParsePlayerNowPlayingProgress(arg, now);
      } else {
        r := ParseSystemSignIn(arg);
      }
    }

    /** _parse_command on a decoded reply; `now` is handed to the progress callback. */
    method ParseCommand(e: Envelope, now: int) returns (r: Outcome<Error>)
      modifies this
      ensures Effect(Snapshot(), r) == Process(old(Snapshot()), e, now)
    {
      if e.command.None? {
        return Fail(HeosException(ProblemParsingCommand));
      }
      var command := e.command.value;
      if e.result == Some("fail") {
        if e.message.None? {
          return Fail(HeosException(ProblemParsingCommand));
        }
        return Fail(HeosException(ProblemParsing(DeviceError(JStr(e.message.value)))));
      }
      var outcome: Outcome<Error>;
      if e.payload.Some? {
        outcome := Dispatcher(command, e.payload.value, now);
      } else if e.message.Some? {
        if e.message.value == CommandUnderProcess {
          return Pass;
        }
        var message := ParseMessage(e.message.value);
        outcome := Dispatcher(command, JObj(message), now);
      } else {
        return Fail(HeosException(ProblemParsing(NoMessageOrPayload)));
      }
      r := if outcome.Fail? then Fail(HeosException(ProblemParsingCommand)) else Pass;
    }
  }
}
