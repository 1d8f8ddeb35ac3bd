/** The controller of a HEOS system and the player and group objects it keeps
    (aioheoscontroller.py, aioheosplayer.py, aioheosgroup.py). The three live in
    one module because each player holds a reference to its controller. The
    transport writer is the controller's outbox; callbacks are counted, not run. */
module Heos {
  import opened Wrappers
  import opened Dicts
  import opened PyValue
  import opened Protocol
  import Text

  // ================================================================ player state

  /** Everything a player object holds that can change, as one value; the
      update time of the position is a count of stamps, and the change callback
      is whether one is set plus how many times it has run. */
  datatype PlayerState = PlayerState(
    playerInfo: Json,
    sid: Json,
    sourceName: Json,
    qid: Json,
    online: bool,
    playState: Json,
    muteState: Json,
    volumeLevel: int,
    currentPosition: int,
    positionStamps: nat,
    duration: int,
    mediaArtist: Json,
    mediaAlbum: Json,
    mediaTitle: Json,
    mediaImageUrl: Json,
    mediaId: Json,
    hasCallback: bool,
    notifications: nat)
  {
    /** notify_listeners: the callback runs once when one is set. */
    function Notified(): PlayerState {
      this.(notifications := if hasCallback then notifications + 1 else notifications)
    }

    // The property setters, each as the state it leaves.

    function WithVolume(value: int): PlayerState {
      this.(volumeLevel := value, online := true).Notified()
    }

    function WithDuration(value: int): PlayerState {
      this.(duration := value).Notified()
    }

    function WithPosition(value: int): PlayerState {
      this.(currentPosition := value, positionStamps := positionStamps + 1).Notified()
    }

    function WithMute(value: Json): PlayerState {
      this.(muteState := value).Notified()
    }

    function WithPlayState(value: Json): PlayerState {
      this.(playState := value, online := Truthy(value)).Notified()
    }

    function WithMediaArtist(value: Json): PlayerState {
      this.(mediaArtist := value).Notified()
    }

    function WithMediaAlbum(value: Json): PlayerState {
      this.(mediaAlbum := value).Notified()
    }

    function WithMediaTitle(value: Json): PlayerState {
      this.(mediaTitle := value).Notified()
    }

    function WithMediaImageUrl(value: Json): PlayerState {
      this.(mediaImageUrl := value).Notified()
    }

    function WithMediaId(value: Json): PlayerState {
      this.(mediaId := value)
    }

    function WithPlayerInfo(value: Json): PlayerState {
      this.(playerInfo := value).Notified()
    }

    function WithSid(value: Json): PlayerState {
      this.(sid := value)
    }

    function WithSourceName(value: Json): PlayerState {
      this.(sourceName := value)
    }

    function WithQid(value: Json): PlayerState {
      this.(qid := value)
    }

    /** reset_now_playing: the five media fields become None. */
    function Cleared(): PlayerState {
      this.(mediaArtist := JNull, mediaAlbum := JNull, mediaTitle := JNull,
            mediaImageUrl := JNull, mediaId := JNull)
    }

    function Apply(u: Update): PlayerState {
      match u
      case ResetMedia => Cleared()
      case Volume(n) => WithVolume(n)
      case Duration(n) => WithDuration(n)
      case Position(n) => WithPosition(n)
      case Mute(v) => WithMute(v)
      case PlayState(v) => WithPlayState(v)
      case MediaArtist(v) => WithMediaArtist(v)
      case MediaAlbum(v) => WithMediaAlbum(v)
      case MediaTitle(v) => WithMediaTitle(v)
      case MediaImageUrl(v) => WithMediaImageUrl(v)
      case MediaId(v) => WithMediaId(v)
      case PlayerInfo(v) => WithPlayerInfo(v)
      case Sid(v) => WithSid(v)
      case SourceName(v) => WithSourceName(v)
      case Qid(v) => WithQid(v)
    }

    /** A handler's statements run in order on one player; the first that raises
        stops the handler and leaves the assignments before it in place. */
    function Run(steps: seq<Step>): Partial<PlayerState>
      decreases |steps|
    {
      if steps == [] then Partial(this, true)
      else Advance(Run(steps[..|steps| - 1]), steps[|steps| - 1])
    }
  }

  /** One more statement after the ones so far. */
  function Advance(so: Partial<PlayerState>, step: Step): Partial<PlayerState> {
    if !so.ok then so
    else match step
      case Do(u) => Partial(so.value.Apply(u), true)
      case Skip => so
      case Raise => Partial(so.value, false)
  }

  lemma RunPrefix(s: PlayerState, steps: seq<Step>, k: nat)
    requires k < |steps|
    ensures s.Run(steps[..k + 1]) == Advance(s.Run(steps[..k]), steps[k])
  {
    assert steps[..k + 1][..k] == steps[..k];
  }

  /** The state of a freshly constructed player or group. */
  function NewPlayerState(info: Json): PlayerState {
    PlayerState(info, JNull, JNull, JNull, false, JNull, JNull, 0, 0, 0, 0,
                JNull, JNull, JNull, JNull, JNull, false, 0)
  }

  /** Replacing a pristine state's info gives the pristine state of the new info. */
  lemma PristineWithInfo(s: PlayerState, info: Json)
    requires s == NewPlayerState(s.playerInfo)
    ensures s.WithPlayerInfo(info) == NewPlayerState(info)
  {
  }

  /** The writing setters change only their own fields (online too, for volume
      and play state), and each runs the callback exactly once when one is set;
      the media id, sid, source name and qid setters never run it. */
  lemma SettersNotifyOnce(s: PlayerState, n: int, v: Json)
    ensures s.WithVolume(n) == s.(volumeLevel := n, online := true, notifications := s.WithVolume(n).notifications)
    ensures s.WithPlayState(v).online == Truthy(v)
    ensures s.WithPlayState(JNull).online == false
    ensures s.WithPosition(n).positionStamps == s.positionStamps + 1
    ensures s.WithVolume(n).notifications == s.WithDuration(n).notifications == s.WithPosition(n).notifications
            == s.WithMute(v).notifications == s.WithPlayState(v).notifications
            == s.WithMediaArtist(v).notifications == s.WithMediaAlbum(v).notifications
            == s.WithMediaTitle(v).notifications == s.WithMediaImageUrl(v).notifications
            == s.WithPlayerInfo(v).notifications
            == s.notifications + (if s.hasCallback then 1 else 0)
    ensures s.WithMediaId(v).notifications == s.WithSid(v).notifications == s.WithSourceName(v).notifications
            == s.WithQid(v).notifications == s.Cleared().notifications == s.notifications
  {
  }

  /** reset_now_playing clears exactly the five media fields and keeps the rest. */
  lemma ClearedKeepsTheRest(s: PlayerState)
    ensures var c := s.Cleared();
      c.mediaArtist == c.mediaAlbum == c.mediaTitle == c.mediaImageUrl == c.mediaId == JNull
      && c.(mediaArtist := s.mediaArtist, mediaAlbum := s.mediaAlbum, mediaTitle := s.mediaTitle,
            mediaImageUrl := s.mediaImageUrl, mediaId := s.mediaId) == s
  {
  }

  /** Once a statement has raised, the statements after it never run. */
  lemma {:induction false} RunStopsAtRaise(s: PlayerState, steps: seq<Step>, k: nat)
    requires k <= |steps| && !s.Run(steps[..k]).ok
    ensures s.Run(steps) == s.Run(steps[..k])
    decreases |steps| - k
  {
    if k < |steps| {
      var init := steps[..|steps| - 1];
      assert init[..k] == steps[..k];
      RunStopsAtRaise(s, init, k);
    } else {
      assert steps[..k] == steps;
    }
  }

  /** One property assignment on a player, as the reply handlers make them. */
  datatype Update =
    | ResetMedia
    | Volume(n: int)
    | Duration(n: int)
    | Position(n: int)
    | Mute(v: Json)
    | PlayState(v: Json)
    | MediaArtist(v: Json)
    | MediaAlbum(v: Json)
    | MediaTitle(v: Json)
    | MediaImageUrl(v: Json)
    | MediaId(v: Json)
    | PlayerInfo(v: Json)
    | Sid(v: Json)
    | SourceName(v: Json)
    | Qid(v: Json)

  /** One statement of a handler: an assignment, a branch not taken, or an
      evaluation that raises (a missing key, a failed conversion). */
  datatype Step = Do(u: Update) | Skip | Raise

  datatype Partial<T> = Partial(value: T, ok: bool)

  // ================================================================ registries

  function Members(registry: Option<seq<Player>>): seq<Player> {
    if registry.Some? then registry.value else []
  }

  /** The ids of a registry's objects, in order. */
  function Ids(ps: seq<Player>): (ids: seq<string>)
    ensures |ids| == |ps|
    ensures forall i :: 0 <= i < |ps| ==> ids[i] == ps[i].playerId
  {
    seq(|ps|, i requires 0 <= i < |ps| => ps[i].playerId)
  }

  /** The first position whose id equals the pid as given (Python's ==): ids are
      texts, so a pid that is not a text equals none of them. */
  function IdIndex(ids: seq<string>, pid: Json): (r: Option<nat>)
    ensures r.Some? ==> r.value < |ids| && JStr(ids[r.value]) == pid
    ensures r.Some? ==> forall j :: 0 <= j < r.value ==> JStr(ids[j]) != pid
    ensures r.None? ==> forall j :: 0 <= j < |ids| ==> JStr(ids[j]) != pid
  {
    if ids == [] then None
    else if JStr(ids[0]) == pid then Some(0)
    else match IdIndex(ids[1..], pid)
      case None => None
      case Some(i) => Some(i + 1)
  }

  /** get_player / get_group: the first object whose id equals the pid. */
  function FindPlayer(ps: seq<Player>, pid: Json): (r: Option<Player>)
    ensures r.Some? ==> r.value in ps && JStr(r.value.playerId) == pid
    ensures r.None? <==> forall i :: 0 <= i < |ps| ==> JStr(ps[i].playerId) != pid
    ensures forall i :: 0 <= i < |ps| && JStr(ps[i].playerId) == pid
                        && (forall j :: 0 <= j < i ==> JStr(ps[j].playerId) != pid)
                        ==> r == Some(ps[i])
  {
    match IdIndex(Ids(ps), pid)
    case Some(i) => Some(ps[i])
    case None => None
  }

  /** A registry as its (id, player_info) pairs, in order. */
  function View(ps: seq<Player>): (v: seq<(string, Json)>)
    reads set p | p in ps
    ensures |v| == |ps|
    ensures forall i :: 0 <= i < |ps| ==> v[i] == (ps[i].playerId, ps[i].playerInfo)
  {
    seq(|ps|, i requires 0 <= i < |ps| reads ps => (ps[i].playerId, ps[i].playerInfo))
  }

  lemma KeysOfView(ps: seq<Player>, v: seq<(string, Json)>)
    requires |v| == |ps| && forall i :: 0 <= i < |ps| ==> v[i].0 == ps[i].playerId
    ensures Keys(v) == Ids(ps)
  {
  }

  /** The key that names a registry entry: "pid" for players, "gid" for groups. */
  function IdKey(group: bool): string {
    if group then "gid" else "pid"
  }

  /** The info a new object keeps: a group's entry has its "pid" overwritten
      with its "gid" first. */
  function NewInfo(entry: Json, id: Json, group: bool): Json {
    if group && entry.JObj? then JObj(Assign(entry.fields, "pid", id)) else entry
  }

  /** One entry of a players or groups reply against the registry's (id, info)
      pairs: a known id has its object's info replaced where it stands (for a
      group, list.remove then raises); an unknown id appends a new object under
      str(id); an entry without its id key raises. */
  function RegisterEntry(view: seq<(string, Json)>, entry: Json, group: bool): Partial<seq<(string, Json)>> {
    match Subscript(entry, IdKey(group))
    case None => Partial(view, false)
    case Some(id) =>
      match IdIndex(Keys(view), id)
      case Some(i) => Partial(view[i := (view[i].0, entry)], !group)
      case None => Partial(view + [(Str(id), NewInfo(entry, id, group))], true)
  }

  /** The entries of a reply registered in order, up to the first that raises. */
  function Register(view: seq<(string, Json)>, entries: seq<Json>, group: bool): Partial<seq<(string, Json)>>
    decreases |entries|
  {
    if entries == [] then Partial(view, true)
    else
      var before := Register(view, entries[..|entries| - 1], group);
      if !before.ok then before else RegisterEntry(before.value, entries[|entries| - 1], group)
  }

  /** Registering one more entry after a prefix that has not raised. */
  lemma RegisterSnoc(view: seq<(string, Json)>, entries: seq<Json>, group: bool, i: nat)
    requires i < |entries| && Register(view, entries[..i], group).ok
    ensures Register(view, entries[..i + 1], group) == RegisterEntry(Register(view, entries[..i], group).value, entries[i], group)
  {
    assert entries[..i + 1][..i] == entries[..i];
  }

  lemma {:induction false} RegisterStopsAtRaise(view: seq<(string, Json)>, entries: seq<Json>, group: bool, k: nat)
    requires k <= |entries| && !Register(view, entries[..k], group).ok
    ensures Register(view, entries, group) == Register(view, entries[..k], group)
    decreases |entries| - k
  {
    if k < |entries| {
      var init := entries[..|entries| - 1];
      assert init[..k] == entries[..k];
      RegisterStopsAtRaise(view, init, group, k);
    } else {
      assert entries[..k] == entries;
    }
  }

  /** A registry never shrinks and its known ids keep their places; it grows by
      at most one object per entry. */
  lemma {:induction false} RegisterGrows(view: seq<(string, Json)>, entries: seq<Json>, group: bool)
    ensures var r := Register(view, entries, group).value;
      |view| <= |r| <= |view| + |entries| && Keys(r)[..|view|] == Keys(view)
    decreases |entries|
  {
    if entries != [] {
      var init := entries[..|entries| - 1];
      RegisterGrows(view, init, group);
      var before := Register(view, init, group).value;
      var r := Register(view, entries, group).value;
      assert Keys(r)[..|before|] == Keys(before);
      assert Keys(r)[..|view|] == Keys(before)[..|view|];
    }
  }

  /** An entry whose id is a text already registered updates that object in
      place: the ids stay as they were and the id now maps to the entry. A player
      reply carries on; a group reply raises after the update. */
  lemma KnownIdUpdatesInPlace(view: seq<(string, Json)>, entry: Json, group: bool, id: string)
    requires Subscript(entry, IdKey(group)) == Some(JStr(id)) && id in Keys(view)
    ensures var r := RegisterEntry(view, entry, group);
      Keys(r.value) == Keys(view) && Lookup(r.value, id) == Some(entry) && r.ok == !group
  {
    var k :| 0 <= k < |Keys(view)| && Keys(view)[k] == id;
    var i := IdIndex(Keys(view), JStr(id));
    assert i.Some?;
    var r := view[i.value := (view[i.value].0, entry)];
    assert Keys(r) == Keys(view);
    assert r[i.value].0 == id;
    assert forall j :: 0 <= j < i.value ==> r[j].0 == Keys(view)[j] != id;
    assert IndexOf(r, id) == Some(i.value);
  }

  /** An entry whose id is new appends exactly one object, last, under str(id). */
  lemma NewIdAppends(view: seq<(string, Json)>, entry: Json, group: bool, id: Json)
    requires Subscript(entry, IdKey(group)) == Some(id) && forall k :: 0 <= k < |view| ==> JStr(view[k].0) != id
    ensures RegisterEntry(view, entry, group) == Partial(view + [(Str(id), NewInfo(entry, id, group))], true)
  {
    assert IdIndex(Keys(view), id).None?;
  }

  /** When every id in a reply is a text, registering it keeps the ids distinct. */
  lemma {:induction false} RegisterKeepsIdsUnique(view: seq<(string, Json)>, entries: seq<Json>, group: bool)
    requires UniqueKeys(view)
    requires forall i :: 0 <= i < |entries| && Subscript(entries[i], IdKey(group)).Some?
                         ==> Subscript(entries[i], IdKey(group)).value.JStr?
    ensures UniqueKeys(Register(view, entries, group).value)
    decreases |entries|
  {
    if entries != [] {
      var init := entries[..|entries| - 1];
      RegisterKeepsIdsUnique(view, init, group);
      var before := Register(view, init, group);
      var entry := entries[|entries| - 1];
      if before.ok {
        match Subscript(entry, IdKey(group))
        case None =>
        case Some(id) =>
          match IdIndex(Keys(before.value), id)
          case Some(i) =>
            var r := before.value[i := (before.value[i].0, entry)];
            assert forall j :: 0 <= j < |r| ==> r[j].0 == before.value[j].0;
          case None =>
            assert id.JStr? && Str(id) == id.s;
            assert forall j :: 0 <= j < |before.value| ==> Keys(before.value)[j] == before.value[j].0;
            assert forall j :: 0 <= j < |before.value| ==> before.value[j].0 != id.s;
      }
    }
  }

  /** Ids are stored as str(pid) but looked up by the pid as given, so an
      integer pid never finds its own object: a second reply naming an integer
      pid appends another object under the same id text. */
  lemma IntegerIdRegisteredTwice(view: seq<(string, Json)>, entry: Json, group: bool, n: int)
    requires Subscript(entry, IdKey(group)) == Some(JInt(n))
    ensures var r := RegisterEntry(view, entry, group);
      r == Partial(view + [(Str(JInt(n)), NewInfo(entry, JInt(n), group))], true)
      && (Str(JInt(n)) in Keys(view) ==> !UniqueKeys(r.value))
  {
    NewIdAppends(view, entry, group, JInt(n));
    var r := RegisterEntry(view, entry, group).value;
    if Str(JInt(n)) in Keys(view) {
      var k :| 0 <= k < |view| && view[k].0 == Str(JInt(n));
      assert r[k].0 == r[|view|].0;
    }
  }

  predicate Distinct(ps: seq<Player>) {
    forall i, j :: 0 <= i < j < |ps| ==> ps[i] != ps[j]
  }

  /** The states of a registry's objects, in order. */
  ghost function States(ps: seq<Player>): (r: seq<PlayerState>)
    reads set p | p in ps
    ensures |r| == |ps|
    ensures forall i :: 0 <= i < |ps| ==> r[i] == ps[i].State()
  {
    seq(|ps|, i requires 0 <= i < |ps| reads ps => ps[i].State())
  }

  /** Each state is as it was or has had its info replaced by `entry`. */
  predicate InfoReplaced(before: seq<PlayerState>, after: seq<PlayerState>, entry: Json) {
    && |before| == |after|
    && forall k :: 0 <= k < |after| ==> after[k] == before[k] || after[k] == before[k].WithPlayerInfo(entry)
  }

  /** Only the info and the count of callback runs may differ. */
  predicate OnlyInfoChanged(before: seq<PlayerState>, after: seq<PlayerState>) {
    && |before| == |after|
    && forall k :: 0 <= k < |after| ==>
         after[k] == before[k].(playerInfo := after[k].playerInfo, notifications := after[k].notifications)
  }

  /** Every state is that of an object just built from its info. */
  predicate Pristine(states: seq<PlayerState>) {
    forall k :: 0 <= k < |states| ==> states[k] == NewPlayerState(states[k].playerInfo)
  }

  /** Replacing infos keeps "only the info changed" and keeps pristine states
      pristine, over any part of the registry. */
  lemma InfoReplacedParts(a: seq<PlayerState>, b: seq<PlayerState>, c: seq<PlayerState>, entry: Json, n: nat)
    requires InfoReplaced(b, c, entry) && n <= |b|
    ensures OnlyInfoChanged(a, b[..n]) ==> OnlyInfoChanged(a, c[..n])
    ensures Pristine(b[n..]) ==> Pristine(c[n..])
  {
    if Pristine(b[n..]) {
      forall k | 0 <= k < |c[n..]|
        ensures c[n..][k] == NewPlayerState(c[n..][k].playerInfo)
      {
        assert c[n..][k] == c[n + k] && b[n..][k] == b[n + k];
        if c[n + k] != b[n + k] {
          PristineWithInfo(b[n + k], entry);
        }
      }
    }
  }

  /** One registration step: infos replaced in the registry and pristine states
      appended keep both halves' invariants. */
  lemma StepParts(a: seq<PlayerState>, b: seq<PlayerState>, c: seq<PlayerState>, tail: seq<PlayerState>,
                  d: seq<PlayerState>, entry: Json, n: nat)
    requires InfoReplaced(b, c, entry) && n <= |b|
    requires OnlyInfoChanged(a, b[..n]) && Pristine(b[n..]) && Pristine(tail)
    requires |c| <= |d| && d[..|c|] == c && d[|c|..] == tail
    ensures OnlyInfoChanged(a, d[..n]) && Pristine(d[n..])
    ensures c == b ==> d[..n] == b[..n]
  {
    InfoReplacedParts(a, b, c, entry, n);
    assert d == c + tail;
    assert d[..n] == c[..n];
    assert d[n..] == c[n..] + tail;
  }

  /** Every state has been marked offline (play state None). */
  predicate Offline(before: seq<PlayerState>, after: seq<PlayerState>) {
    && |before| == |after|
    && forall k :: 0 <= k < |after| ==> after[k] == before[k].WithPlayState(JNull)
  }

  /** Marking offline holds on both parts of a registry, and leaves pristine
      states as they were. */
  lemma OfflineParts(a: seq<PlayerState>, b: seq<PlayerState>, n: nat)
    requires Offline(a, b) && n <= |a|
    ensures Offline(a[..n], b[..n]) && Offline(a[n..], b[n..])
    ensures Pristine(a[n..]) ==> b[n..] == a[n..]
  {
    if Pristine(a[n..]) {
      assert forall k :: n <= k < |a| ==> a[k] == a[n..][k - n];
    }
  }

  /** What a registry that grew from `ps0` to `pre` and then to `ps` has added,
      appended to a log that already holds the first addition. */
  lemma AppendedTail<T>(log: seq<T>, logged: seq<T>, ps0: seq<T>, pre: seq<T>, ps: seq<T>)
    requires |ps0| <= |pre| <= |ps| && ps[..|pre|] == pre
    requires logged == log + pre[|ps0|..]
    ensures logged + ps[|pre|..] == log + ps[|ps0|..]
  {
    assert ps[|ps0|..] == pre[|ps0|..] + ps[|pre|..];
  }

  /** The states of a registry that grew from `ps0`, split at the old length. */
  lemma SlicedStates(ps0: seq<Player>, ps: seq<Player>)
    requires |ps0| <= |ps| && ps[..|ps0|] == ps0
    ensures States(ps)[..|ps0|] == States(ps0)
    ensures States(ps)[|ps0|..] == States(ps[|ps0|..])
  {
  }

  function Touch(p: Option<Player>): set<Player> {
    if p.Some? then {p.value} else {}
  }

  // ================================================================ player

  class Player {
    const controller: Controller
    const playerId: string
    /** Constructed as an AioHeosGroup. */
    const isGroup: bool
    var playerInfo: Json
    var sid: Json
    var sourceName: Json
    var qid: Json
    var online: bool
    var playState: Json
    var muteState: Json
    var volumeLevel: int
    var currentPosition: int
    ghost var positionStamps: nat
    var duration: int
    var mediaArtist: Json
    var mediaAlbum: Json
    var mediaTitle: Json
    var mediaImageUrl: Json
    var mediaId: Json
    var hasCallback: bool
    ghost var notifications: nat

    ghost function State(): PlayerState
      reads this
    {
      PlayerState(playerInfo, sid, sourceName, qid, online, playState, muteState, volumeLevel,
                  currentPosition, positionStamps, duration, mediaArtist, mediaAlbum, mediaTitle,
                  mediaImageUrl, mediaId, hasCallback, notifications)
    }

    /** AioHeosPlayer(controller, player_json): the id is str() of the entry's pid. */
    constructor (controller: Controller, playerJson: Json)
      requires Subscript(playerJson, "pid").Some?
      ensures this.controller == controller && !isGroup
      ensures playerId == Str(Subscript(playerJson, "pid").value)
      ensures State() == NewPlayerState(playerJson)
    {
      this.controller := controller;
      isGroup := false;
      playerInfo := playerJson;
      playerId := Str(Subscript(playerJson, "pid").value);
      sid, sourceName, qid := JNull, JNull, JNull;
      online := false;
      playState, muteState := JNull, JNull;
      volumeLevel, currentPosition, positionStamps, duration := 0, 0, 0, 0;
      mediaArtist, mediaAlbum, mediaTitle, mediaImageUrl, mediaId := JNull, JNull, JNull, JNull, JNull;
      hasCallback := false;
      notifications := 0;
    }

    /** AioHeosGroup(controller, group_json): the entry's "pid" is overwritten with
        its "gid" before the player constructor runs, so the id is str(gid). */
    constructor Group(controller: Controller, groupJson: Json)
      requires Subscript(groupJson, "gid").Some?
      ensures this.controller == controller && isGroup
      ensures playerId == Str(Subscript(groupJson, "gid").value)
      ensures State() == NewPlayerState(JObj(Assign(groupJson.fields, "pid", Subscript(groupJson, "gid").value)))
    {
      var gid := Subscript(groupJson, "gid").value;
      var info := JObj(Assign(groupJson.fields, "pid", gid));
      LookupAssign(groupJson.fields, "pid", gid, "pid");
      this.controller := controller;
      isGroup := true;
      playerInfo := info;
      playerId := Str(Subscript(info, "pid").value);
      sid, sourceName, qid := JNull, JNull, JNull;
      online := false;
      playState, muteState := JNull, JNull;
      volumeLevel, currentPosition, positionStamps, duration := 0, 0, 0, 0;
      mediaArtist, mediaAlbum, mediaTitle, mediaImageUrl, mediaId := JNull, JNull, JNull, JNull, JNull;
      hasCallback := false;
      notifications := 0;
    }

    /** state_change_callback = callback (set or cleared). */
    method SetStateChangeCallback(present: bool)
      modifies `hasCallback
      ensures State() == old(State()).(hasCallback := present)
    {
      hasCallback := present;
    }

    method NotifyListeners()
      modifies `notifications
      ensures State() == old(State()).Notified()
    {
      if hasCallback {
        notifications := notifications + 1;
      }
    }

    method UpdateVolume(value: int)
      modifies this
      ensures State() == old(State()).WithVolume(value)
    {
      volumeLevel := value;
      online := true;
      NotifyListeners();
    }

    method UpdateDuration(value: int)
      modifies this
      ensures State() == old(State()).WithDuration(value)
    {
      duration := value;
      NotifyListeners();
    }

    method UpdateCurrentPosition(value: int)
      modifies this
      ensures State() == old(State()).WithPosition(value)
    {
      currentPosition := value;
      positionStamps := positionStamps + 1;
      NotifyListeners();
    }

    method UpdateMute(value: Json)
      modifies this
      ensures State() == old(State()).WithMute(value)
    {
      muteState := value;
      NotifyListeners();
    }

    method UpdatePlayState(value: Json)
      modifies this
      ensures State() == old(State()).WithPlayState(value)
    {
      playState := value;
      online := Truthy(value);
      NotifyListeners();
    }

    method UpdateMediaArtist(value: Json)
      modifies this
      ensures State() == old(State()).WithMediaArtist(value)
    {
      mediaArtist := value;
      NotifyListeners();
    }

    method UpdateMediaAlbum(value: Json)
      modifies this
      ensures State() == old(State()).WithMediaAlbum(value)
    {
      mediaAlbum := value;
      NotifyListeners();
    }

    method UpdateMediaTitle(value: Json)
      modifies this
      ensures State() == old(State()).WithMediaTitle(value)
    {
      mediaTitle := value;
      NotifyListeners();
    }

    method UpdateMediaImageUrl(value: Json)
      modifies this
      ensures State() == old(State()).WithMediaImageUrl(value)
    {
      mediaImageUrl := value;
      NotifyListeners();
    }

    method UpdateMediaId(value: Json)
      modifies this
      ensures State() == old(State()).WithMediaId(value)
    {
      mediaId := value;
    }

    method UpdatePlayerInfo(value: Json)
      modifies this
      ensures State() == old(State()).WithPlayerInfo(value)
    {
      playerInfo := value;
      NotifyListeners();
    }

    method UpdateSid(value: Json)
      modifies this
      ensures State() == old(State()).WithSid(value)
    {
      sid := value;
    }

    method UpdateSourceName(value: Json)
      modifies this
      ensures State() == old(State()).WithSourceName(value)
    {
      sourceName := value;
    }

    method UpdateQid(value: Json)
      modifies this
      ensures State() == old(State()).WithQid(value)
    {
      qid := value;
    }

    method ResetNowPlaying()
      modifies this
      ensures State() == old(State()).Cleared()
    {
      mediaArtist := JNull;
      mediaAlbum := JNull;
      mediaTitle := JNull;
      mediaImageUrl := JNull;
      mediaId := JNull;
    }

    method Apply(u: Update)
      modifies this
      ensures State() == old(State()).Apply(u)
    {
      match u
      case ResetMedia => ResetNowPlaying();
      case Volume(n) => UpdateVolume(n);
      case Duration(n) => UpdateDuration(n);
      case Position(n) => UpdateCurrentPosition(n);
      case Mute(v) => UpdateMute(v);
      case PlayState(v) => UpdatePlayState(v);
      case MediaArtist(v) => UpdateMediaArtist(v);
      case MediaAlbum(v) => UpdateMediaAlbum(v);
      case MediaTitle(v) => UpdateMediaTitle(v);
      case MediaImageUrl(v) => UpdateMediaImageUrl(v);
      case MediaId(v) => UpdateMediaId(v);
      case PlayerInfo(v) => UpdatePlayerInfo(v);
      case Sid(v) => UpdateSid(v);
      case SourceName(v) => UpdateSourceName(v);
      case Qid(v) => UpdateQid(v);
    }

    /** Runs a handler's statements on this player. */
    method Run(steps: seq<Step>) returns (ok: bool)
      modifies this
      ensures old(State()).Run(steps) == Partial(State(), ok)
    {
      for i := 0 to |steps|
        invariant old(State()).Run(steps[..i]) == Partial(State(), true)
      {
        assert steps[..i + 1][..i] == steps[..i];
        match steps[i]
        case Do(u) => Apply(u);
        case Skip =>
        case Raise =>
          RunStopsAtRaise(old(State()), steps, i + 1);
          return false;
      }
      assert steps[..|steps|] == steps;
      ok := true;
    }

    method ToggleMute() returns (r: Outcome<Error>)
      modifies controller`outbox
      ensures controller.Sent(old(controller.outbox), ToggleMuteCommand, [("pid", JStr(playerId))], r)
    {
      r := controller.ToggleMute(JStr(playerId));
    }

    /** set_mute passes two arguments to the controller's one-argument
        toggle_mute, so it always raises TypeError and sends nothing. */
    method SetMute(mute: Json) returns (r: Outcome<Error>)
      ensures r == Fail(BuiltinError)
    {
      r := Fail(BuiltinError);
    }

    method SetVolume(volume: int) returns (r: Outcome<Error>)
      modifies controller`outbox
      ensures controller.Sent(old(controller.outbox), SetVolumeCommand,
                              [("pid", JStr(playerId)), ("level", JInt(Clamp(volume)))], r)
    {
      r := controller.SetVolume(volume, JStr(playerId));
    }

    method VolumeLevelUp(step: int) returns (r: Outcome<Error>)
      modifies controller`outbox
      ensures controller.Sent(old(controller.outbox), SetVolumeCommand,
                              [("pid", JStr(playerId)), ("level", JInt(Clamp(volumeLevel + step)))], r)
    {
      r := SetVolume(volumeLevel + step);
    }

    method VolumeLevelDown(step: int) returns (r: Outcome<Error>)
      modifies controller`outbox
      ensures controller.Sent(old(controller.outbox), SetVolumeCommand,
                              [("pid", JStr(playerId)), ("level", JInt(Clamp(volumeLevel - step)))], r)
    {
      r := SetVolume(volumeLevel - step);
    }

    /** create_group: this player leads, every other listed device follows. */
    method CreateGroup(devices: seq<Json>) returns (r: Outcome<Error>)
      modifies controller`outbox
      ensures controller.Sent(old(controller.outbox), SetGroupCommand,
                              [("pid", JStr(GroupPidText(JStr(playerId), Followers(devices, playerId))))], r)
    {
      var slaveIds := Followers(devices, playerId);
      r := controller.SetGroup(JStr(playerId), slaveIds);
    }

    /** recreate_group: regroup the members listed in this group's info. */
    method RecreateGroup() returns (r: Outcome<Error>)
      requires isGroup
      modifies controller`outbox
      ensures match OtherMembers(playerInfo, playerId)
              case None => r == Fail(BuiltinError) && controller.outbox == old(controller.outbox)
              case Some(ids) => controller.Sent(old(controller.outbox), SetGroupCommand,
                                                [("pid", JStr(GroupPidText(JStr(playerId), ids)))], r)
    {
      var listed := Subscript(playerInfo, "players");
      if listed.None? {
        return Fail(BuiltinError);
      }
      var entries := Iterate(listed.value);
      if entries.None? {
        return Fail(BuiltinError);
      }
      var memberIds: seq<Json> := [];
      for i := 0 to |entries.value|
        invariant KeptMembers(entries.value[..i], playerId) == Some(memberIds)
      {
        assert entries.value[..i + 1][..i] == entries.value[..i];
        var pid := Subscript(entries.value[i], "pid");
        if pid.None? {
          KeptMembersFailsAt(entries.value, playerId, i);
          return Fail(BuiltinError);
        }
        if Str(pid.value) != playerId {
          memberIds := memberIds + [pid.value];
        }
      }
      assert entries.value[..|entries.value|] == entries.value;
      r := controller.SetGroup(JStr(playerId), memberIds);
    }

    /** play_source iterates the catalogue's keys (source ids) and subscripts each
        with 'name', which raises TypeError on the first one. */
    method PlaySource(source: Json) returns (r: Outcome<Error>)
      requires controller.Valid()
      ensures r == if |controller.musicSources| == 0 then Pass else Fail(BuiltinError)
    {
      var sids := Keys(controller.musicSources);
      if |sids| > 0 {
        // Catalogue keys are hashable, so never a dict: sid['name'] raises on the first one.
        assert Subscript(sids[0], "name").None?;
        return Fail(BuiltinError);
      }
      r := Pass;
    }
  }

  /** The devices other than the leader, in their order. */
  function Followers(devices: seq<Json>, leader: string): (r: seq<Json>)
    ensures forall x :: x in r <==> x in devices && x != JStr(leader)
  {
    if devices == [] then []
    else (if devices[0] != JStr(leader) then [devices[0]] else []) + Followers(devices[1..], leader)
  }

  /** Filtering keeps order: the followers of a concatenation are the followers
      of each part, in turn. */
  lemma {:induction false} FollowersAppend(a: seq<Json>, b: seq<Json>, leader: string)
    ensures Followers(a + b, leader) == Followers(a, leader) + Followers(b, leader)
    decreases |a|
  {
    if a != [] {
      assert (a + b)[0] == a[0];
      assert (a + b)[1..] == a[1..] + b;
      FollowersAppend(a[1..], b, leader);
    } else {
      assert a + b == b;
    }
  }

  /** The pids of the listed members whose str() differs from the group's id,
      in order; None when an entry has no pid. */
  function KeptMembers(entries: seq<Json>, ownId: string): (r: Option<seq<Json>>)
    ensures r.Some? <==> forall i :: 0 <= i < |entries| ==> Subscript(entries[i], "pid").Some?
    ensures r.Some? ==> forall x :: x in r.value ==> Str(x) != ownId
    ensures r.Some? ==> |r.value| <= |entries|
    decreases |entries|
  {
    if entries == [] then Some([])
    else
      var init := entries[..|entries| - 1];
      assert forall i :: 0 <= i < |init| ==> init[i] == entries[i];
      match KeptMembers(init, ownId)
      case None => None
      case Some(kept) =>
        match Subscript(entries[|entries| - 1], "pid")
        case None => None
        case Some(pid) => Some(if Str(pid) != ownId then kept + [pid] else kept)
  }

  /** Some listed entry carries the pid x, and x's text is not the group's own id. */
  predicate ListedOther(entries: seq<Json>, ownId: string, x: Json) {
    exists i :: 0 <= i < |entries| && Subscript(entries[i], "pid") == Some(x) && Str(x) != ownId
  }

  /** The member filter keeps exactly the listed pids whose text is not the
      group's own id. */
  lemma {:induction false} KeptMembersListed(entries: seq<Json>, ownId: string)
    requires KeptMembers(entries, ownId).Some?
    ensures forall x :: x in KeptMembers(entries, ownId).value <==> ListedOther(entries, ownId, x)
    decreases |entries|
  {
    if entries != [] {
      var init := entries[..|entries| - 1];
      assert forall i :: 0 <= i < |init| ==> init[i] == entries[i];
      KeptMembersListed(init, ownId);
      var kept, pid := KeptMembersSnoc(entries, ownId);
      forall x
        ensures x in KeptMembers(entries, ownId).value <==> ListedOther(entries, ownId, x)
      {
        ListedSnoc(entries, ownId, x, kept, pid, KeptMembers(entries, ownId).value);
      }
    }
  }

  /** The inductive step of KeptMembersListed for one pid x: `kept` holds x
      exactly when all entries but the last list it, and `result` adds the last
      entry's pid to `kept` unless its text is the group's own id. */
  lemma ListedSnoc(entries: seq<Json>, ownId: string, x: Json, kept: seq<Json>, pid: Json, result: seq<Json>)
    requires entries != [] && Subscript(entries[|entries| - 1], "pid") == Some(pid)
    requires result == if Str(pid) != ownId then kept + [pid] else kept
    requires x in kept <==> ListedOther(entries[..|entries| - 1], ownId, x)
    ensures x in result <==> ListedOther(entries, ownId, x)
  {
    if x in result {
      KeptListed(entries, ownId, x, kept, pid);
    }
    if ListedOther(entries, ownId, x) {
      ListedKept(entries, ownId, x, kept, pid);
    }
  }

  /** A pid the step keeps is listed. */
  lemma KeptListed(entries: seq<Json>, ownId: string, x: Json, kept: seq<Json>, pid: Json)
    requires entries != [] && Subscript(entries[|entries| - 1], "pid") == Some(pid)
    requires x in kept ==> ListedOther(entries[..|entries| - 1], ownId, x)
    requires x in kept || (x == pid && Str(pid) != ownId)
    ensures ListedOther(entries, ownId, x)
  {
    var i := |entries| - 1;
    if x in kept {
      var init := entries[..|entries| - 1];
      i :| 0 <= i < |init| && Subscript(init[i], "pid") == Some(x) && Str(x) != ownId;
      assert init[i] == entries[i];
    }
    assert Subscript(entries[i], "pid") == Some(x) && Str(x) != ownId;
  }

  /** A listed pid is one the step keeps. */
  lemma ListedKept(entries: seq<Json>, ownId: string, x: Json, kept: seq<Json>, pid: Json)
    requires entries != [] && Subscript(entries[|entries| - 1], "pid") == Some(pid)
    requires ListedOther(entries[..|entries| - 1], ownId, x) ==> x in kept
    requires ListedOther(entries, ownId, x)
    ensures x in kept || (x == pid && Str(pid) != ownId)
  {
    var i :| 0 <= i < |entries| && Subscript(entries[i], "pid") == Some(x) && Str(x) != ownId;
    if i < |entries| - 1 {
      var init := entries[..|entries| - 1];
      assert init[i] == entries[i];
      assert ListedOther(init, ownId, x);
    }
  }

  /** One unfolding of KeptMembers: the last entry's pid is appended to what
      the other entries keep unless its text is the group's own id. */
  lemma KeptMembersSnoc(entries: seq<Json>, ownId: string) returns (kept: seq<Json>, pid: Json)
    requires entries != [] && KeptMembers(entries, ownId).Some?
    ensures KeptMembers(entries[..|entries| - 1], ownId) == Some(kept)
    ensures Subscript(entries[|entries| - 1], "pid") == Some(pid)
    ensures KeptMembers(entries, ownId).value == if Str(pid) != ownId then kept + [pid] else kept
  {
    kept, pid := KeptMembers(entries[..|entries| - 1], ownId).value, Subscript(entries[|entries| - 1], "pid").value;
  }

  /** The member filter keeps order: the kept pids of a concatenation are
      those of each part, in turn. */
  lemma {:induction false} KeptMembersAppend(a: seq<Json>, b: seq<Json>, ownId: string)
    requires KeptMembers(a, ownId).Some? && KeptMembers(b, ownId).Some?
    ensures KeptMembers(a + b, ownId) == Some(KeptMembers(a, ownId).value + KeptMembers(b, ownId).value)
    decreases |b|
  {
    if b == [] {
      assert a + b == a;
      assert KeptMembers(b, ownId) == Some([]);
      assert KeptMembers(a, ownId).value + [] == KeptMembers(a, ownId).value;
    } else {
      var init, last := b[..|b| - 1], b[|b| - 1];
      assert (a + b)[..|a + b| - 1] == a + init;
      assert (a + b)[|a + b| - 1] == last;
      assert forall i :: 0 <= i < |init| ==> init[i] == b[i];
      var ka, kb := KeptMembers(a, ownId).value, KeptMembers(init, ownId).value;
      var pid := Subscript(last, "pid").value;
      KeptMembersAppend(a, init, ownId);
      assert KeptMembers(a + init, ownId) == Some(ka + kb);
      if Str(pid) != ownId {
        assert ka + kb + [pid] == ka + (kb + [pid]);
      }
    }
  }

  lemma KeptMembersFailsAt(entries: seq<Json>, ownId: string, i: nat)
    requires i < |entries| && Subscript(entries[i], "pid").None?
    ensures KeptMembers(entries[..i + 1], ownId).None?
  {
    assert entries[..i + 1][i] == entries[i];
  }

  /** The members recreate_group lists: from info["players"]; None where that
      lookup or the iteration raises. */
  function OtherMembers(info: Json, ownId: string): Option<seq<Json>> {
    match Subscript(info, "players")
    case None => None
    case Some(listed) =>
      match Iterate(listed)
      case None => None
      case Some(entries) => KeptMembers(entries, ownId)
  }

  // ================================================================ reply contents

  /** An assignment whose right-hand side was computed, or None when computing
      it raised. */
  function Assigning<T>(value: Option<T>, make: T -> Update): Option<Update> {
    if value.Some? then Some(make(value.value)) else None
  }

  function StepOf(u: Option<Update>): Step {
    if u.Some? then Do(u.value) else Raise
  }

  /** int(message[key]); None where it raises. The progress handler calls
      int() as written. The level handlers call float(), which this models as
      int() on integers and integral texts: a level text with a fraction
      raises here. */
  function IntField(message: Json, key: string): Option<int> {
    match Subscript(message, key)
    case None => None
    case Some(v) => ToInt(v)
  }

  /** What a handler's failure surfaces as: a built-in exception. */
  function Raised(ok: bool): Outcome<Error> {
    if ok then Pass else Fail(BuiltinError)
  }

  /** The assignment of a play-state reply, or None where reading it raises. */
  function PlayStateUpdate(message: Json): Option<Update> {
    Assigning(Subscript(message, "state"), v => PlayState(v))
  }

  /** The assignment of a mute reply, or None where reading it raises. */
  function MuteUpdate(message: Json): Option<Update> {
    Assigning(Subscript(message, "state"), v => Mute(v))
  }

  /** The assignment of a volume reply, or None where reading it raises. */
  function VolumeUpdate(message: Json): Option<Update> {
    Assigning(IntField(message, "level"), n => Volume(n))
  }

  /** A volume-changed event: mute, then volume. */
  function VolumeChangedSteps(message: Json): seq<Step> {
    [StepOf(Assigning(Subscript(message, "mute"), v => Mute(v))),
     StepOf(VolumeUpdate(message))]
  }

  /** A now-playing-progress event: position, then duration. */
  function ProgressSteps(message: Json): seq<Step> {
    [StepOf(Assigning(IntField(message, "cur_pos"), n => Position(n))),
     StepOf(Assigning(IntField(message, "duration"), n => Duration(n)))]
  }

  /** The name of the catalogue's source for a sid, or 'unknown'; None where
      the lookup raises (an unhashable sid, a source without a name). */
  function SourceNameOf(sources: seq<(Json, Json)>, sid: Json): Option<Json> {
    if !Hashable(sid) then None
    else Subscript(Lookup(sources, sid).GetOr(JObj([("name", JStr("unknown"))])), "name")
  }

  /** d.get(key) on a dict's fields. */
  function Get(fields: seq<(string, Json)>, key: string): Json {
    Lookup(fields, key).GetOr(JNull)
  }

  /** A now-playing-media reply on the player it names: the media fields are
      cleared, then set from the payload's artist, album, song, image_url and
      mid; sid, and with it the source name when a catalogue is loaded, only when
      the payload has one; then qid. A payload that is not a dict raises at the
      first .get, a catalogue lookup that fails raises before qid. */
  function NowPlaying(s: PlayerState, payload: Json, sources: seq<(Json, Json)>): Partial<PlayerState> {
    var cleared := s.Cleared();
    if !payload.JObj? then Partial(cleared, false)
    else
      var f := payload.fields;
      var media := cleared.WithMediaArtist(Get(f, "artist")).WithMediaAlbum(Get(f, "album"))
                          .WithMediaTitle(Get(f, "song")).WithMediaImageUrl(Get(f, "image_url"))
                          .WithMediaId(Get(f, "mid"));
      match Lookup(f, "sid")
      case None => Partial(media.WithQid(Get(f, "qid")), true)
      case Some(sid) =>
        var withSid := media.WithSid(sid);
        if |sources| == 0 then Partial(withSid.WithQid(Get(f, "qid")), true)
        else match SourceNameOf(sources, sid)
          case None => Partial(withSid, false)
          case Some(name) => Partial(withSid.WithSourceName(name).WithQid(Get(f, "qid")), true)
  }

  /** What a now-playing-media reply leaves on the player: the five media
      fields and qid are the payload's values (None where absent), sid is the
      payload's when present and is otherwise kept, and volume, mute and play
      state are untouched; the media fields are cleared even when it raises. */
  lemma NowPlayingFields(s: PlayerState, payload: Json, sources: seq<(Json, Json)>)
    ensures var r := NowPlaying(s, payload, sources);
      && r.value.volumeLevel == s.volumeLevel && r.value.muteState == s.muteState
      && r.value.playState == s.playState && r.value.online == s.online
      && (!payload.JObj? ==> r == Partial(s.Cleared(), false))
      && (payload.JObj? ==>
            var f := payload.fields;
            && r.value.mediaArtist == Get(f, "artist") && r.value.mediaAlbum == Get(f, "album")
            && r.value.mediaTitle == Get(f, "song") && r.value.mediaImageUrl == Get(f, "image_url")
            && r.value.mediaId == Get(f, "mid")
            && r.value.sid == (if Lookup(f, "sid").Some? then Lookup(f, "sid").value else s.sid)
            && (r.ok <==> Lookup(f, "sid").None? || |sources| == 0 || SourceNameOf(sources, Lookup(f, "sid").value).Some?)
            && (r.ok ==> r.value.qid == Get(f, "qid")))
  {
  }

  /** The music-source catalogue, the favourites sid and the outbox, which a
      music-sources reply rebuilds. */
  datatype Catalogue = Catalogue(sources: seq<(Json, Json)>, favouritesSid: Json, outbox: seq<string>)

  /** The sid a source is stored under; None where source['sid'] raises or the
      sid cannot be a dict key. */
  function SourceSid(entry: Json): (r: Option<Json>)
    ensures r.Some? ==> Hashable(r.value) && Subscript(entry, "sid") == r
  {
    match Subscript(entry, "sid")
    case None => None
    case Some(sid) => if Hashable(sid) then Some(sid) else None
  }

  /** The request that browses the favourites source. */
  function FavouritesRequest(sid: Json, playerId: Json): string {
    RequestLine(BrowseCommand, WithDefaultPid([("sid", sid)], playerId))
  }

  /** After a source is stored: a source named 'Favorites' becomes the
      favourites source and is browsed; a source without a name raises. */
  function Favourite(c: Catalogue, entry: Json, sid: Json, playerId: Json): (r: Partial<Catalogue>)
    ensures r.value.sources == c.sources
    ensures |c.outbox| <= |r.value.outbox| && r.value.outbox[..|c.outbox|] == c.outbox
  {
    match Subscript(entry, "name")
    case None => Partial(c, false)
    case Some(name) =>
      if name == JStr("TuneIn") || name != JStr("Favorites") then Partial(c, true)
      else if Text.IsAscii(FavouritesRequest(sid, playerId)) then
        Partial(c.(favouritesSid := sid, outbox := c.outbox + [FavouritesRequest(sid, playerId)]), true)
      else Partial(c.(favouritesSid := sid), false)
  }

  /** One source of a music-sources reply, stored under its sid. */
  function BrowseEntry(c: Catalogue, entry: Json, playerId: Json): (r: Partial<Catalogue>)
    ensures r.ok ==> SourceSid(entry).Some?
    ensures r.value.sources == if SourceSid(entry).Some? then Assign(c.sources, SourceSid(entry).value, entry) else c.sources
    ensures |c.outbox| <= |r.value.outbox| && r.value.outbox[..|c.outbox|] == c.outbox
  {
    match SourceSid(entry)
    case None => Partial(c, false)
    case Some(sid) => Favourite(c.(sources := Assign(c.sources, sid, entry)), entry, sid, playerId)
  }

  function Browse(c: Catalogue, entries: seq<Json>, playerId: Json): Partial<Catalogue>
    decreases |entries|
  {
    if entries == [] then Partial(c, true)
    else
      var before := Browse(c, entries[..|entries| - 1], playerId);
      if !before.ok then before else BrowseEntry(before.value, entries[|entries| - 1], playerId)
  }

  lemma {:induction false} BrowseStopsAtRaise(c: Catalogue, entries: seq<Json>, playerId: Json, k: nat)
    requires k <= |entries| && !Browse(c, entries[..k], playerId).ok
    ensures Browse(c, entries, playerId) == Browse(c, entries[..k], playerId)
    decreases |entries| - k
  {
    if k < |entries| {
      var init := entries[..|entries| - 1];
      assert init[..k] == entries[..k];
      BrowseStopsAtRaise(c, init, playerId, k);
    } else {
      assert entries[..k] == entries;
    }
  }

  predicate CatalogueKeys(sources: seq<(Json, Json)>) {
    UniqueKeys(sources) && forall i :: 0 <= i < |sources| ==> Hashable(sources[i].0)
  }

  /** Rebuilding the catalogue keeps one hashable key per source, and the
      outbox only grows. */
  lemma {:induction false} BrowseKeepsKeys(c: Catalogue, entries: seq<Json>, playerId: Json)
    requires CatalogueKeys(c.sources)
    ensures var r := Browse(c, entries, playerId).value;
      CatalogueKeys(r.sources) && |c.outbox| <= |r.outbox| && r.outbox[..|c.outbox|] == c.outbox
    decreases |entries|
  {
    if entries != [] {
      var init := entries[..|entries| - 1];
      var last := entries[|entries| - 1];
      BrowseKeepsKeys(c, init, playerId);
      var before := Browse(c, init, playerId).value;
      match SourceSid(last)
      case None =>
      case Some(sid) =>
        AssignKeys(before.sources, sid, last);
        var r := Assign(before.sources, sid, last);
        assert forall i :: 0 <= i < |r| ==> r[i].0 == Keys(r)[i];
        assert forall i :: 0 <= i < |before.sources| ==> before.sources[i].0 == Keys(before.sources)[i];
    }
  }

  /** Storing one more source keeps every earlier source catalogued. */
  lemma CataloguedAfterAssign(init: seq<Json>, last: Json, before: seq<(Json, Json)>, sid: Json)
    requires forall i :: 0 <= i < |init| ==>
               Subscript(init[i], "sid").Some? && Lookup(before, Subscript(init[i], "sid").value).Some?
    requires Subscript(last, "sid") == Some(sid)
    ensures var entries := init + [last];
      forall i :: 0 <= i < |entries| ==>
        Subscript(entries[i], "sid").Some? && Lookup(Assign(before, sid, last), Subscript(entries[i], "sid").value).Some?
  {
    var entries := init + [last];
    forall i | 0 <= i < |entries|
      ensures Subscript(entries[i], "sid").Some? && Lookup(Assign(before, sid, last), Subscript(entries[i], "sid").value).Some?
    {
      if i < |init| {
        assert entries[i] == init[i];
        LookupAssign(before, sid, last, Subscript(init[i], "sid").value);
      } else {
        LookupAssign(before, sid, last, sid);
      }
    }
  }

  /** After a complete music-sources reply every listed source is catalogued
      under its sid. */
  lemma {:induction false} BrowseCataloguesEach(c: Catalogue, entries: seq<Json>, playerId: Json)
    ensures var r := Browse(c, entries, playerId);
      r.ok ==> forall i :: 0 <= i < |entries| ==>
                 Subscript(entries[i], "sid").Some? && Lookup(r.value.sources, Subscript(entries[i], "sid").value).Some?
    decreases |entries|
  {
    if entries != [] {
      var init := entries[..|entries| - 1];
      var last := entries[|entries| - 1];
      BrowseCataloguesEach(c, init, playerId);
      CataloguedStep(init, last, Browse(c, init, playerId), Browse(c, entries, playerId), playerId);
      assert init + [last] == entries;
    }
  }

  /** The step of BrowseCataloguesEach: one more entry stored after a prefix
      whose sources are all catalogued. */
  lemma CataloguedStep(init: seq<Json>, last: Json, before: Partial<Catalogue>, r: Partial<Catalogue>, playerId: Json)
    requires before.ok ==> forall i :: 0 <= i < |init| ==>
               Subscript(init[i], "sid").Some? && Lookup(before.value.sources, Subscript(init[i], "sid").value).Some?
    requires r == if !before.ok then before else BrowseEntry(before.value, last, playerId)
    ensures r.ok ==> var entries := init + [last];
      forall i :: 0 <= i < |entries| ==>
        Subscript(entries[i], "sid").Some? && Lookup(r.value.sources, Subscript(entries[i], "sid").value).Some?
  {
    if r.ok {
      var sid := SourceSid(last).value;
      CataloguedAfterAssign(init, last, before.value.sources, sid);
    }
  }

  /** The rebuilt catalogue holds only sources the reply listed. */
  lemma {:induction false} BrowseCataloguesOnly(c: Catalogue, entries: seq<Json>, playerId: Json)
    requires c.sources == []
    ensures var r := Browse(c, entries, playerId).value;
      forall k :: Lookup(r.sources, k).Some? ==> exists i :: 0 <= i < |entries| && Subscript(entries[i], "sid") == Some(k)
    decreases |entries|
  {
    if entries != [] {
      var init := entries[..|entries| - 1];
      var last := entries[|entries| - 1];
      BrowseCataloguesOnly(c, init, playerId);
      var before := Browse(c, init, playerId);
      var r := Browse(c, entries, playerId).value;
      forall k | Lookup(r.sources, k).Some?
        ensures exists i :: 0 <= i < |entries| && Subscript(entries[i], "sid") == Some(k)
      {
        if before.ok && SourceSid(last).Some? {
          LookupAssign(before.value.sources, SourceSid(last).value, last, k);
        }
        if Lookup(before.value.sources, k).Some? {
          var i :| 0 <= i < |init| && Subscript(init[i], "sid") == Some(k);
          assert entries[i] == init[i];
        } else {
          assert Subscript(entries[|entries| - 1], "sid") == Some(k);
        }
      }
    }
  }

  /** get_music_sources, first part: each catalogued source's name, in
      catalogue order; None when a source has no name. */
  function SourceNames(sources: seq<(Json, Json)>): Option<seq<Json>> {
    if forall i :: 0 <= i < |sources| ==> Subscript(sources[i].1, "name").Some? then
      Some(seq(|sources|, i requires 0 <= i < |sources| && Subscript(sources[i].1, "name").Some?
                         => Subscript(sources[i].1, "name").value))
    else None
  }

  /** get_music_sources, second part: "Favorites__" before each favourite's
      name; None when a favourite has no name or the name is not a text. */
  function FavouriteNames(favourites: seq<Json>): Option<seq<Json>> {
    if forall i :: 0 <= i < |favourites| ==> IsNamed(favourites[i]) then
      Some(seq(|favourites|, i requires 0 <= i < |favourites| && IsNamed(favourites[i])
                            => JStr("Favorites__" + Subscript(favourites[i], "name").value.s)))
    else None
  }

  predicate IsNamed(entry: Json) {
    Subscript(entry, "name").Some? && Subscript(entry, "name").value.JStr?
  }

  function MusicSourceNames(sources: seq<(Json, Json)>, favourites: Json): Result<seq<Json>, Error> {
    match SourceNames(sources)
    case None => Err(BuiltinError)
    case Some(names) =>
      match Iterate(favourites)
      case None => Err(BuiltinError)
      case Some(favs) =>
        match FavouriteNames(favs)
        case None => Err(BuiltinError)
        case Some(marked) => Ok(names + marked)
  }

  /** Every name get_music_sources lists for a favourite carries the
      "Favorites__" mark, and removing the mark gives the favourite's name. */
  lemma FavouriteNamesMarked(favourites: seq<Json>)
    requires FavouriteNames(favourites).Some?
    ensures var names := FavouriteNames(favourites).value;
      |names| == |favourites|
      && forall i :: 0 <= i < |names| ==> names[i].JStr? && Text.StartsWith(names[i].s, "Favorites__")
                                           && JStr(names[i].s[11..]) == Subscript(favourites[i], "name").value
  {
  }

  /** payload[0]['pid'] for the players reply; None where it raises. */
  function FirstPid(payload: Json): (r: Option<Json>)
    ensures r.Some? ==> payload.JArr? && |payload.items| > 0 && Subscript(payload.items[0], "pid") == r
  {
    if payload.JArr? && |payload.items| > 0 then Subscript(payload.items[0], "pid") else None
  }

  // ================================================================ controller

  /** An exception leaving _parse_command: the library's own passes through,
      any other is replaced by 'Problem parsing command.'. */
  function Reraised(o: Outcome<Error>): (r: Outcome<Error>)
    ensures r.Pass? <==> o.Pass?
    ensures r.Fail? ==> r.error.HeosException?
    ensures o.Fail? && o.error.HeosException? ==> r == o
    ensures o == Fail(BuiltinError) ==> r == Fail(HeosException(ProblemParsingCommand))
  {
    if o.Fail? && o.error.BuiltinError? then Fail(HeosException(ProblemParsingCommand)) else o
  }

  // ---------------------------------------------------------------- polling

  /** The number of rounds of the ensure_* loops. */
  const Rounds := 20

  /** The position of the first check that succeeds, or |seen| when none does. */
  function FirstReady(seen: seq<bool>): (i: nat)
    ensures i <= |seen|
    ensures i < |seen| ==> seen[i]
    ensures forall j :: 0 <= j < i ==> !seen[j]
  {
    if seen == [] then 0
    else if seen[0] then 0
    else 1 + FirstReady(seen[1..])
  }

  /** How many rounds a polling loop runs when its checks would see `seen`:
      up to and including the first that succeeds, and never more than Rounds. */
  function RoundsRun(seen: seq<bool>): (n: nat)
    requires |seen| == Rounds
    ensures 1 <= n <= Rounds
    ensures forall j :: 0 <= j < n - 1 ==> !seen[j]
    ensures n < Rounds ==> seen[n - 1]
    ensures (exists j :: 0 <= j < Rounds && seen[j]) ==> seen[n - 1]
  {
    var i := FirstReady(seen);
    if i < Rounds then i + 1 else Rounds
  }

  /** `count` copies of a line. */
  function Repeat(line: string, count: nat): (r: seq<string>)
    ensures |r| == count
    ensures forall j :: 0 <= j < count ==> r[j] == line
  {
    if count == 0 then [] else Repeat(line, count - 1) + [line]
  }

  class Controller {
    var username: Json
    var password: Json
    var needLogin: bool
    var hasNewDeviceCallback: bool
    var players: Option<seq<Player>>
    var groups: Option<seq<Player>>
    var playerId: Json
    var outbox: seq<string>
    /** The music-source catalogue: sid -> source entry, in insertion order. */
    var musicSources: seq<(Json, Json)>
    var favourites: Json
    var favouritesSid: Json
    /** The objects handed to the new-device callback, in order. */
    ghost var newDevices: seq<Player>

    ghost predicate Valid()
      reads `players, `groups, `musicSources
    {
      RegistryValid() && CatalogueKeys(musicSources)
    }

    /** The players and the groups are two disjoint lists of distinct objects
        of this controller, of their own kind. */
    ghost predicate RegistryValid()
      reads `players, `groups
    {
      && Distinct(Members(players)) && Distinct(Members(groups))
      && (forall p :: p in Members(players) ==> p !in Members(groups))
      && (forall p :: p in Members(players) ==> p.controller == this && !p.isGroup)
      && (forall g :: g in Members(groups) ==> g.controller == this && g.isGroup)
    }

    ghost function Objects(): set<Player>
      reads this
    {
      set p | p in Members(players) + Members(groups)
    }

    constructor (username: Json, password: Json, hasNewDeviceCallback: bool)
      ensures Valid()
      ensures this.username == username && this.password == password
      ensures needLogin == Truthy(username)
      ensures this.hasNewDeviceCallback == hasNewDeviceCallback
      ensures players.None? && groups.None? && playerId == JNull
      ensures outbox == [] && musicSources == [] && favourites == JArr([]) && favouritesSid == JNull
      ensures newDevices == []
    {
      this.username := username;
      this.password := password;
      needLogin := Truthy(username);
      this.hasNewDeviceCallback := hasNewDeviceCallback;
      players := None;
      groups := None;
      playerId := JNull;
      outbox := [];
      favourites := JArr([]);
      favouritesSid := JNull;
      musicSources := [];
      newDevices := [];
    }

    /** new_device_callback(callback). */
    method SetNewDeviceCallback(present: bool)
      modifies `hasNewDeviceCallback
      ensures hasNewDeviceCallback == present
    {
      hasNewDeviceCallback := present;
    }

    /** The outbox after send_command(command, message) starting from `before`,
        and that call's outcome: the line is written unless it is not ASCII. */
    ghost predicate Sent(before: seq<string>, command: string, message: Message, r: Outcome<Error>)
      reads this
    {
      var line := RequestLine(command, WithDefaultPid(message, playerId));
      if Text.IsAscii(line) then outbox == before + [line] && r == Pass
      else outbox == before && r == Fail(BuiltinError)
    }

    method SendCommand(command: string, message: Message) returns (r: Outcome<Error>)
      modifies `outbox
      ensures Sent(old(outbox), command, message, r)
    {
      var sent := message;
      if |message| > 0 {
        if !Truthy(Lookup(message, "pid").GetOr(JNull)) {
          sent := Assign(message, "pid", playerId);
        }
      }
      var line := RequestLine(command, sent);
      if Text.IsAscii(line) {
        outbox := outbox + [line];
        r := Pass;
      } else {
        r := Fail(BuiltinError);
      }
    }

    method RequestPlayers() returns (r: Outcome<Error>)
      modifies `outbox
      ensures Sent(old(outbox), GetPlayersCommand, [], r)
    {
      r := SendCommand(GetPlayersCommand, []);
    }

    method RequestGroups() returns (r: Outcome<Error>)
      modifies `outbox
      ensures Sent(old(outbox), GetGroupsCommand, [], r)
    {
      r := SendCommand(GetGroupsCommand, []);
    }

    method Login() returns (r: Outcome<Error>)
      modifies `outbox
      ensures Sent(old(outbox), SignInCommand, [("un", username), ("pw", password)], r)
    {
      r := SendCommand(SignInCommand, [("un", username), ("pw", password)]);
    }

    method RequestMusicSources() returns (r: Outcome<Error>)
      modifies `outbox
      ensures Sent(old(outbox), MusicSourcesCommand, [("range", JStr("0,29"))], r)
    {
      r := SendCommand(MusicSourcesCommand, [("range", JStr("0,29"))]);
    }

    method ToggleMute(pid: Json) returns (r: Outcome<Error>)
      modifies `outbox
      ensures Sent(old(outbox), ToggleMuteCommand, [("pid", pid)], r)
    {
      r := SendCommand(ToggleMuteCommand, [("pid", pid)]);
    }

    method SetMute(pid: Json, mute: Json) returns (r: Outcome<Error>)
      modifies `outbox
      ensures Sent(old(outbox), SetMuteStateCommand,
                   [("pid", pid), ("state", JStr(if Truthy(mute) then "on" else "off"))], r)
    {
      r := SendCommand(SetMuteStateCommand, [("pid", pid), ("state", JStr(if Truthy(mute) then "on" else "off"))]);
    }

    /** set_volume: the level sent is clamped to [0, 100]. */
    method SetVolume(volumeLevel: int, pid: Json) returns (r: Outcome<Error>)
      modifies `outbox
      ensures Sent(old(outbox), SetVolumeCommand, [("pid", pid), ("level", JInt(Clamp(volumeLevel)))], r)
    {
      var atLeastZero := if volumeLevel < 0 then 0 else volumeLevel;
      var volume := if atLeastZero > 100 then 100 else atLeastZero;
      r := SendCommand(SetVolumeCommand, [("pid", pid), ("level", JInt(volume))]);
    }

    /** _set_play_state: an unaccepted state is sent all the same (the exception
        for it is built and dropped); a falsy pid means the default player. */
    method SetPlayState(state: Json, pid: Json) returns (r: Outcome<Error>)
      modifies `outbox
      ensures Sent(old(outbox), SetPlayStateCommand,
                   [("pid", if Truthy(pid) then pid else playerId), ("state", state)], r)
    {
      r := SendCommand(SetPlayStateCommand, [("pid", if Truthy(pid) then pid else playerId), ("state", state)]);
    }

    method RequestNowPlayingMedia(pid: Json) returns (r: Outcome<Error>)
      modifies `outbox
      ensures Sent(old(outbox), GetNowPlayingMediaCommand, [("pid", if Truthy(pid) then pid else playerId)], r)
    {
      r := SendCommand(GetNowPlayingMediaCommand, [("pid", if Truthy(pid) then pid else playerId)]);
    }

    /** set_group: the pid text is the leader, then ",member" per member. */
    method SetGroup(leaderPid: Json, memberPids: seq<Json>) returns (r: Outcome<Error>)
      modifies `outbox
      ensures Sent(old(outbox), SetGroupCommand, [("pid", JStr(GroupPidText(leaderPid, memberPids)))], r)
    {
      var members := Str(leaderPid);
      for i := 0 to |memberPids|
        invariant members == GroupPidText(leaderPid, memberPids[..i])
      {
        assert memberPids[..i + 1][..i] == memberPids[..i];
        members := members + "," + Str(memberPids[i]);
      }
      assert memberPids[..|memberPids|] == memberPids;
      r := SendCommand(SetGroupCommand, [("pid", JStr(members))]);
    }

    method GetPlayer(pid: Json) returns (r: Result<Option<Player>, Error>)
      ensures r == if players.None? then Err(BuiltinError) else Ok(FindPlayer(players.value, pid))
    {
      if players.None? {
        return Err(BuiltinError);
      }
      r := Find(players.value, pid);
    }

    method GetGroup(pid: Json) returns (r: Result<Option<Player>, Error>)
      ensures r == if groups.None? then Err(BuiltinError) else Ok(FindPlayer(groups.value, pid))
    {
      if groups.None? {
        return Err(BuiltinError);
      }
      r := Find(groups.value, pid);
    }

    /** The search loop shared by get_player and get_group. */
    static method Find(ps: seq<Player>, pid: Json) returns (r: Result<Option<Player>, Error>)
      ensures r == Ok(FindPlayer(ps, pid))
    {
      for i := 0 to |ps|
        invariant forall j :: 0 <= j < i ==> JStr(ps[j].playerId) != pid
      {
        if JStr(ps[i].playerId) == pid {
          return Ok(Some(ps[i]));
        }
      }
      r := Ok(None);
    }

    function PlayerAt(pid: Option<Json>): Option<Player>
      reads this
    {
      if pid.Some? && players.Some? then FindPlayer(players.value, pid.value) else None
    }

    function GroupAt(pid: Option<Json>): Option<Player>
      reads this
    {
      if pid.Some? && groups.Some? then FindPlayer(groups.value, pid.value) else None
    }

    /** The player and the group a reply with this pid may update. */
    function Targets(pid: Option<Json>): set<Player>
      reads this
    {
      Touch(PlayerAt(pid)) + Touch(GroupAt(pid))
    }

    /** The effect of a play-state, mute or volume reply: the assignment goes to
        the player with the pid and then to the group with that id, if any. A
        raise before the player's update (a missing key, an unknown player, no
        registry) changes nothing; a missing group registry raises after it. */
    twostate predicate UpdatedPlayerAndGroup(pid: Option<Json>, u: Option<Update>, new d: Outcome<Error>)
      reads this, Targets(pid)
    {
      var p := old(PlayerAt(pid)); var g := old(GroupAt(pid));
      && unchanged(this)
      && if u.None? || p.None? then d == Fail(BuiltinError) && unchanged(old(Targets(pid)))
      else
        && p.value.State() == old(p.value.State()).Apply(u.value)
        && d == (if groups.None? then Fail(BuiltinError) else Pass)
        && (g.Some? ==> g.value.State() == old(g.value.State()).Apply(u.value))
    }

    method UpdatePlayerAndGroup(pid: Option<Json>, u: Option<Update>) returns (r: Outcome<Error>)
      requires Valid()
      modifies Targets(pid)
      ensures UpdatedPlayerAndGroup(pid, u, r)
    {
      if u.None? || pid.None? {
        return Fail(BuiltinError);
      }
      var found := GetPlayer(pid.value);
      if found.Err? || found.value.None? {
        return Fail(BuiltinError);
      }
      var player := found.value.value;
      player.Apply(u.value);
      var group := GetGroup(pid.value);
      if group.Err? {
        return Fail(BuiltinError);
      }
      if group.value.Some? {
        group.value.value.Apply(u.value);
      }
      r := Pass;
    }

    /** _parse_play_state (and _parse_player_state_changed, which differs only
        in which of two raises comes first). */
    method ParsePlayState(message: Json) returns (r: Outcome<Error>)
      requires Valid()
      modifies Targets(Subscript(message, "pid"))
      ensures UpdatedPlayerAndGroup(Subscript(message, "pid"), PlayStateUpdate(message), r)
    {
      r := UpdatePlayerAndGroup(Subscript(message, "pid"), PlayStateUpdate(message));
    }

    method ParseMuteState(message: Json) returns (r: Outcome<Error>)
      requires Valid()
      modifies Targets(Subscript(message, "pid"))
      ensures UpdatedPlayerAndGroup(Subscript(message, "pid"), MuteUpdate(message), r)
    {
      r := UpdatePlayerAndGroup(Subscript(message, "pid"), MuteUpdate(message));
    }

    method ParseVolume(message: Json) returns (r: Outcome<Error>)
      requires Valid()
      modifies Targets(Subscript(message, "pid"))
      ensures UpdatedPlayerAndGroup(Subscript(message, "pid"), VolumeUpdate(message), r)
    {
      r := UpdatePlayerAndGroup(Subscript(message, "pid"), VolumeUpdate(message));
    }

    /** _parse_player_volume_changed: mute, then volume, on the player only. */
    method ParsePlayerVolumeChanged(message: Json) returns (r: Outcome<Error>)
      modifies Touch(PlayerAt(Subscript(message, "pid")))
      ensures match PlayerAt(Subscript(message, "pid"))
              case None => r == Fail(BuiltinError)
              case Some(p) =>
                var run := old(p.State()).Run(VolumeChangedSteps(message));
                p.State() == run.value && r == Raised(run.ok)
    {
      var pid := Subscript(message, "pid");
      if pid.None? {
        return Fail(BuiltinError);
      }
      var found := GetPlayer(pid.value);
      if found.Err? || found.value.None? {
        return Fail(BuiltinError);
      }
      var ok := found.value.value.Run(VolumeChangedSteps(message));
      r := Raised(ok);
    }

    /** _parse_group_volume_changed: mute, then volume, on the group; an
        unknown gid changes nothing. */
    method ParseGroupVolumeChanged(message: Json) returns (r: Outcome<Error>)
      modifies Touch(GroupAt(Subscript(message, "gid")))
      ensures Subscript(message, "gid").None? || groups.None? ==> r == Fail(BuiltinError)
      ensures Subscript(message, "gid").Some? && groups.Some? && GroupAt(Subscript(message, "gid")).None? ==> r == Pass
      ensures match GroupAt(Subscript(message, "gid"))
              case None => true
              case Some(g) =>
                var run := old(g.State()).Run(VolumeChangedSteps(message));
                g.State() == run.value && r == Raised(run.ok)
    {
      var gid := Subscript(message, "gid");
      if gid.None? {
        return Fail(BuiltinError);
      }
      var found := GetGroup(gid.value);
      if found.Err? {
        return Fail(BuiltinError);
      }
      if found.value.None? {
        return Pass;
      }
      var ok := found.value.value.Run(VolumeChangedSteps(message));
      r := Raised(ok);
    }

    /** _parse_player_now_playing_progress: position (stamped), then duration. */
    method ParseNowPlayingProgress(message: Json) returns (r: Outcome<Error>)
      modifies Touch(PlayerAt(Subscript(message, "pid")))
      ensures match PlayerAt(Subscript(message, "pid"))
              case None => r == Fail(BuiltinError)
              case Some(p) =>
                var run := old(p.State()).Run(ProgressSteps(message));
                p.State() == run.value && r == Raised(run.ok)
    {
      var pid := Subscript(message, "pid");
      if pid.None? {
        return Fail(BuiltinError);
      }
      var found := GetPlayer(pid.value);
      if found.Err? || found.value.None? {
        return Fail(BuiltinError);
      }
      var ok := found.value.value.Run(ProgressSteps(message));
      r := Raised(ok);
    }

    /** _parse_now_playing_media on the player the message names. */
    method ParseNowPlayingMedia(payload: Json, message: Json) returns (r: Outcome<Error>)
      modifies Touch(PlayerAt(Subscript(message, "pid")))
      ensures match PlayerAt(Subscript(message, "pid"))
              case None => r == Fail(BuiltinError)
              case Some(p) =>
                var run := NowPlaying(old(p.State()), payload, musicSources);
                p.State() == run.value && r == Raised(run.ok)
    {
      var pid := Subscript(message, "pid");
      if pid.None? {
        return Fail(BuiltinError);
      }
      var found := GetPlayer(pid.value);
      if found.Err? || found.value.None? {
        return Fail(BuiltinError);
      }
      var player := found.value.value;
      player.ResetNowPlaying();
      if !payload.JObj? {
        return Fail(BuiltinError);
      }
      var f := payload.fields;
      player.UpdateMediaArtist(Get(f, "artist"));
      player.UpdateMediaAlbum(Get(f, "album"));
      player.UpdateMediaTitle(Get(f, "song"));
      player.UpdateMediaImageUrl(Get(f, "image_url"));
      player.UpdateMediaId(Get(f, "mid"));
      var sid := Lookup(f, "sid");
      if sid.Some? {
        player.UpdateSid(sid.value);
        if |musicSources| > 0 {
          var name := SourceNameOf(musicSources, player.sid);
          if name.None? {
            return Fail(BuiltinError);
          }
          player.UpdateSourceName(name.value);
        }
      }
      player.UpdateQid(Get(f, "qid"));
      r := Pass;
    }

    /** _handle_error: eid "2" marks the named player offline and raises
        'player offline'; any other eid raises with the message. */
    method HandleError(message: Message) returns (r: Outcome<Error>)
      modifies Touch(PlayerAt(Lookup(message, "pid")))
      ensures match Lookup(message, "eid")
              case None => r == Fail(BuiltinError) && unchanged(Touch(PlayerAt(Lookup(message, "pid"))))
              case Some(eid) =>
                if eid != JStr("2") then
                  r == Fail(HeosException(DeviceError(JObj(message)))) && unchanged(Touch(PlayerAt(Lookup(message, "pid"))))
                else match PlayerAt(Lookup(message, "pid"))
                  case None => r == Fail(BuiltinError)
                  case Some(p) =>
                    p.State() == old(p.State()).WithPlayState(JNull)
                    && r == Fail(HeosException(PlayerOffline(Lookup(message, "pid").value)))
    {
      var eid := Lookup(message, "eid");
      if eid.None? {
        return Fail(BuiltinError);
      }
      if eid.value == JStr("2") {
        var pid := Lookup(message, "pid");
        if pid.None? {
          return Fail(BuiltinError);
        }
        var found := GetPlayer(pid.value);
        if found.Err? || found.value.None? {
          return Fail(BuiltinError);
        }
        found.value.value.UpdatePlayState(JNull);
        r := Fail(HeosException(PlayerOffline(pid.value)));
      } else {
        r := Fail(HeosException(DeviceError(JObj(message))));
      }
    }

    /** _parse_system_signin. */
    method ParseSystemSignIn()
      modifies `needLogin
      ensures !needLogin
    {
      needLogin := false;
    }

    /** _parse_browse_browse: the payload becomes the favourites when the
        message's sid reads as the favourites source's sid. */
    method ParseBrowseBrowse(payload: Json, message: Json) returns (r: Outcome<Error>)
      modifies `favourites
      ensures Subscript(message, "sid").None? ==> r == Fail(BuiltinError) && favourites == old(favourites)
      ensures Subscript(message, "sid").Some? ==>
                r == Pass && favourites == if Str(Subscript(message, "sid").value) == Str(favouritesSid)
                                           then payload else old(favourites)
    {
      var sid := Subscript(message, "sid");
      if sid.None? {
        return Fail(BuiltinError);
      }
      if Str(sid.value) == Str(favouritesSid) {
        favourites := payload;
      }
      r := Pass;
    }

    /** _parse_browse_music_source: the catalogue is rebuilt from the reply. */
    method ParseBrowseMusicSource(payload: Json) returns (r: Outcome<Error>)
      requires Valid()
      modifies `musicSources, `favouritesSid, `outbox
      ensures Valid()
      ensures Iterate(payload).None? ==>
                r == Fail(BuiltinError) && musicSources == [] && favouritesSid == old(favouritesSid) && outbox == old(outbox)
      ensures Iterate(payload).Some? ==>
                var run := Browse(Catalogue([], old(favouritesSid), old(outbox)), Iterate(payload).value, playerId);
                Catalogue(musicSources, favouritesSid, outbox) == run.value && r == Raised(run.ok)
    {
      musicSources := [];
      var entries := Iterate(payload);
      if entries.None? {
        return Fail(BuiltinError);
      }
      r := BrowseAll(entries.value);
    }

    /** The loop of _parse_browse_music_source over the reply's entries, from
        an empty catalogue. */
    method BrowseAll(entries: seq<Json>) returns (r: Outcome<Error>)
      requires musicSources == []
      modifies `musicSources, `favouritesSid, `outbox
      ensures CatalogueKeys(musicSources)
      ensures var run := Browse(Catalogue([], old(favouritesSid), old(outbox)), entries, playerId);
                Catalogue(musicSources, favouritesSid, outbox) == run.value && r == Raised(run.ok)
    {
      ghost var start := Catalogue([], favouritesSid, outbox);
      for i := 0 to |entries|
        invariant Browse(start, entries[..i], playerId) == Partial(Catalogue(musicSources, favouritesSid, outbox), true)
        invariant CatalogueKeys(musicSources)
      {
        var source := entries[i];
        assert entries[..i + 1][..i] == entries[..i];
        BrowseKeepsKeys(start, entries[..i + 1], playerId);
        var sid := SourceSid(source);
        if sid.None? {
          BrowseStopsAtRaise(start, entries, playerId, i + 1);
          return Fail(BuiltinError);
        }
        musicSources := Assign(musicSources, sid.value, source);
        var name := Subscript(source, "name");
        if name.None? {
          BrowseStopsAtRaise(start, entries, playerId, i + 1);
          return Fail(BuiltinError);
        }
        if name.value == JStr("TuneIn") {
        } else if name.value == JStr("Favorites") {
          favouritesSid := sid.value;
          var sent := SendCommand(BrowseCommand, [("sid", sid.value)]);
          if sent.Fail? {
            BrowseStopsAtRaise(start, entries, playerId, i + 1);
            return sent;
          }
        }
      }
      assert entries[..|entries|] == entries;
      r := Pass;
    }

    /** get_music_sources: the catalogue's source names, then the favourites'
        names marked "Favorites__". */
    method GetMusicSources() returns (r: Result<seq<Json>, Error>)
      ensures r == MusicSourceNames(musicSources, favourites)
    {
      var names: seq<Json> := [];
      for i := 0 to |musicSources|
        invariant |names| == i
        invariant forall j :: 0 <= j < i ==> Subscript(musicSources[j].1, "name") == Some(names[j])
      {
        var name := Subscript(musicSources[i].1, "name");
        if name.None? {
          return Err(BuiltinError);
        }
        names := names + [name.value];
      }
      assert SourceNames(musicSources).Some?;
      assert SourceNames(musicSources).value == names;
      var favs := Iterate(favourites);
      if favs.None? {
        return Err(BuiltinError);
      }
      var marked: seq<Json> := [];
      for i := 0 to |favs.value|
        invariant |marked| == i
        invariant forall j :: 0 <= j < i ==>
                    IsNamed(favs.value[j]) && marked[j] == JStr("Favorites__" + Subscript(favs.value[j], "name").value.s)
      {
        var name := Subscript(favs.value[i], "name");
        if name.None? || !name.value.JStr? {
          return Err(BuiltinError);
        }
        marked := marked + [JStr("Favorites__" + name.value.s)];
      }
      assert FavouriteNames(favs.value).Some?;
      assert FavouriteNames(favs.value).value == marked;
      r := Ok(names + marked);
    }

    /** A new object for an entry whose id is not registered, appended last
        and handed to the new-device callback when one is set. */
    method AppendNew(ps: seq<Player>, entry: Json, group: bool) returns (ps': seq<Player>)
      requires Distinct(ps) && Subscript(entry, IdKey(group)).Some?
      modifies this`newDevices
      ensures Distinct(ps') && |ps'| == |ps| + 1 && ps'[..|ps|] == ps
      ensures var made := ps'[|ps|];
        && fresh(made) && made.controller == this && made.isGroup == group
        && made.State() == NewPlayerState(made.playerInfo)
      ensures var id := Subscript(entry, IdKey(group)).value;
        View(ps') == View(ps) + [(Str(id), NewInfo(entry, id, group))]
      ensures newDevices == old(newDevices) + (if hasNewDeviceCallback then [ps'[|ps|]] else [])
    {
      var made: Player;
      if group {
        made := new Player.Group(this, entry);
      } else {
        made := new Player(this, entry);
      }
      ps' := ps + [made];
      if hasNewDeviceCallback {
        newDevices := newDevices + [made];
      }
    }

    /** The object at k, whose id the entry names, gets the entry as its info. */
    static method UpdateKnown(ps: seq<Player>, k: nat, entry: Json)
      requires Distinct(ps) && k < |ps|
      modifies ps[k]
      ensures View(ps) == old(View(ps))[k := (ps[k].playerId, entry)]
      ensures InfoReplaced(old(States(ps)), States(ps), entry)
    {
      ps[k].UpdatePlayerInfo(entry);
      assert forall j :: 0 <= j < |ps| && j != k ==> ps[j] != ps[k];
    }

    /** One entry of a players or groups reply against a registry (see
        RegisterEntry): an entry without an id raises; a known id has its
        object's info replaced in place, and for a group the step then raises;
        an unknown id gets a fresh object appended, which the new-device
        callback receives. */
    method RegisterOne(ps: seq<Player>, entry: Json, group: bool) returns (ps': seq<Player>, ok: bool)
      requires Distinct(ps)
      modifies this`newDevices, set p | p in ps
      ensures Distinct(ps') && |ps| <= |ps'| <= |ps| + 1 && ps'[..|ps|] == ps
      ensures |ps| < |ps'| ==>
                var made := ps'[|ps|];
                fresh(made) && made.controller == this && made.isGroup == group
                && made.State() == NewPlayerState(made.playerInfo)
      ensures RegisterEntry(old(View(ps)), entry, group) == Partial(View(ps'), ok)
      ensures newDevices == old(newDevices) + (if hasNewDeviceCallback then ps'[|ps|..] else [])
      ensures InfoReplaced(old(States(ps)), States(ps), entry)
      ensures group && ok ==> States(ps) == old(States(ps))
    {
      if Subscript(entry, IdKey(group)).None? {
        return ps, false;
      }
      var id := Subscript(entry, IdKey(group)).value;
      ghost var view := View(ps);
      KeysOfView(ps, view);
      var found := Find(ps, id);
      if found.value.None? {
        assert IdIndex(Keys(view), id).None?;
        ps' := AppendNew(ps, entry, group);
        ok := true;
        assert ps'[|ps|..] == [ps'[|ps|]];
      } else {
        var k := IdIndex(Ids(ps), id).value;
        assert IdIndex(Keys(view), id) == Some(k);
        UpdateKnown(ps, k, entry);
        ps', ok := ps, !group;
        assert ps'[|ps|..] == [];
      }
    }

    /** The last loop of _parse_groups: every group in the list goes offline. */
    static method MarkOffline(gs: seq<Player>)
      requires Distinct(gs)
      modifies set g | g in gs
      ensures Offline(old(States(gs)), States(gs))
      ensures View(gs) == old(View(gs))
    {
      for j := 0 to |gs|
        invariant forall k :: 0 <= k < j ==> gs[k].State() == old(gs[k].State()).WithPlayState(JNull)
        invariant forall k :: j <= k < |gs| ==> gs[k].State() == old(gs[k].State())
        invariant View(gs) == old(View(gs))
      {
        gs[j].UpdatePlayState(JNull);
      }
    }

    /** RegisterOne on a registry that grew from `ps0`, whose objects started
        from the states `start`: the objects of `ps0` still differ from their
        start only in info (not at all, for groups that have not raised), and
        the objects added since stay pristine. */
    method RegisterStep(ghost ps0: seq<Player>, ghost start: seq<PlayerState>, ps: seq<Player>, entry: Json, group: bool)
      returns (ps': seq<Player>, ok: bool)
      requires Distinct(ps) && |ps0| <= |ps| && ps[..|ps0|] == ps0
      requires Pristine(States(ps)[|ps0|..]) && OnlyInfoChanged(start, States(ps)[..|ps0|])
      requires group ==> States(ps)[..|ps0|] == start
      modifies this`newDevices, set p | p in ps
      ensures Distinct(ps') && |ps| <= |ps'| && ps'[..|ps|] == ps
      ensures forall j :: |ps| <= j < |ps'| ==> fresh(ps'[j]) && ps'[j].controller == this && ps'[j].isGroup == group
      ensures Pristine(States(ps')[|ps0|..]) && OnlyInfoChanged(start, States(ps')[..|ps0|])
      ensures group && ok ==> States(ps')[..|ps0|] == start
      ensures RegisterEntry(old(View(ps)), entry, group) == Partial(View(ps'), ok)
      ensures newDevices == old(newDevices) + (if hasNewDeviceCallback then ps'[|ps|..] else [])
    {
      ghost var before := States(ps);
      ps', ok := RegisterOne(ps, entry, group);
      if |ps| < |ps'| {
        forall j | |ps| <= j < |ps'|
          ensures fresh(ps'[j]) && ps'[j].controller == this && ps'[j].isGroup == group
        {
          assert j == |ps|;
        }
      }
      SlicedStates(ps, ps');
      assert Pristine(States(ps'[|ps|..])) by {
        if |ps| < |ps'| {
          assert ps'[|ps|..] == [ps'[|ps|]];
        }
      }
      StepParts(start, before, States(ps), States(ps'[|ps|..]), States(ps'), entry, |ps0|);
    }

    /** The registration loop _parse_players and _parse_groups share, over the
        registry list `ps0`: entries are registered in order until one raises
        (see Register); new objects are appended and handed to the new-device
        callback. */
    method RegisterAll(ps0: seq<Player>, entries: seq<Json>, group: bool) returns (ps: seq<Player>, ok: bool)
      requires Distinct(ps0)
      modifies this`newDevices, set p | p in ps0
      ensures Distinct(ps) && |ps0| <= |ps| && ps[..|ps0|] == ps0
      ensures forall j :: |ps0| <= j < |ps| ==> fresh(ps[j]) && ps[j].controller == this && ps[j].isGroup == group
      ensures Pristine(States(ps[|ps0|..]))
      ensures Register(old(View(ps0)), entries, group) == Partial(View(ps), ok)
      ensures newDevices == old(newDevices) + (if hasNewDeviceCallback then ps[|ps0|..] else [])
      ensures OnlyInfoChanged(old(States(ps0)), States(ps0))
      ensures group && ok ==> States(ps0) == old(States(ps0))
    {
      ps, ok := RegisterLoop(ps0, entries, group);
      SlicedStates(ps0, ps);
    }

    /** The loop of RegisterAll, its outcome stated on the grown registry. */
    method RegisterLoop(ps0: seq<Player>, entries: seq<Json>, group: bool) returns (ps: seq<Player>, ok: bool)
      requires Distinct(ps0)
      modifies this`newDevices, set p | p in ps0
      ensures Distinct(ps) && |ps0| <= |ps| && ps[..|ps0|] == ps0
      ensures forall j :: |ps0| <= j < |ps| ==> fresh(ps[j]) && ps[j].controller == this && ps[j].isGroup == group
      ensures Pristine(States(ps)[|ps0|..]) && OnlyInfoChanged(old(States(ps0)), States(ps)[..|ps0|])
      ensures group && ok ==> States(ps)[..|ps0|] == old(States(ps0))
      ensures Register(old(View(ps0)), entries, group) == Partial(View(ps), ok)
      ensures newDevices == old(newDevices) + (if hasNewDeviceCallback then ps[|ps0|..] else [])
    {
      ghost var initial := View(ps0);
      ghost var start := States(ps0);
      ps := ps0;
      for i := 0 to |entries|
        invariant Distinct(ps) && |ps0| <= |ps| && ps[..|ps0|] == ps0
        invariant forall j :: |ps0| <= j < |ps| ==> fresh(ps[j]) && ps[j].controller == this && ps[j].isGroup == group
        invariant Pristine(States(ps)[|ps0|..]) && OnlyInfoChanged(start, States(ps)[..|ps0|])
        invariant group ==> States(ps)[..|ps0|] == start
        invariant Register(initial, entries[..i], group) == Partial(View(ps), true)
        invariant newDevices == old(newDevices) + (if hasNewDeviceCallback then ps[|ps0|..] else [])
      {
        ghost var pre := ps;
        ghost var devices := newDevices;
        ghost var preView := View(ps);
        var stepOk;
        ps, stepOk := RegisterStep(ps0, start, ps, entries[i], group);
        forall j | |ps0| <= j < |ps|
          ensures fresh(ps[j]) && ps[j].controller == this && ps[j].isGroup == group
        {
          if j < |pre| {
            assert ps[j] == pre[j];
          }
        }
        RegisterSnoc(initial, entries, group, i);
        assert Register(initial, entries[..i + 1], group) == Partial(View(ps), stepOk);
        if hasNewDeviceCallback {
          AppendedTail(old(newDevices), devices, ps0, pre, ps);
        }
        if !stepOk {
          RegisterStopsAtRaise(initial, entries, group, i + 1);
          return ps, false;
        }
      }
      assert entries[..|entries|] == entries;
      ok := true;
    }

    /** Stores a players list that extends the registry's with new players. */
    method StorePlayers(ps: seq<Player>)
      requires Valid()
      requires Distinct(ps) && |Members(players)| <= |ps| && ps[..|Members(players)|] == Members(players)
      requires forall j :: |Members(players)| <= j < |ps| ==>
                 ps[j].controller == this && !ps[j].isGroup && ps[j] !in Members(groups)
      modifies this`players
      ensures players == Some(ps) && Valid()
    {
      ghost var before := Members(players);
      players := Some(ps);
      forall j | 0 <= j < |ps|
        ensures ps[j].controller == this && !ps[j].isGroup && ps[j] !in Members(groups)
      {
        if j < |before| {
          assert ps[j] == before[j];
        }
      }
    }

    /** Stores a groups list that extends the registry's with new groups. */
    method StoreGroups(gs: seq<Player>)
      requires Valid()
      requires Distinct(gs) && |Members(groups)| <= |gs| && gs[..|Members(groups)|] == Members(groups)
      requires forall j :: |Members(groups)| <= j < |gs| ==>
                 gs[j].controller == this && gs[j].isGroup && gs[j] !in Members(players)
      modifies this`groups
      ensures groups == Some(gs) && Valid()
    {
      ghost var before := Members(groups);
      groups := Some(gs);
      forall j | 0 <= j < |gs|
        ensures gs[j].controller == this && gs[j].isGroup && gs[j] !in Members(players)
      {
        if j < |before| {
          assert gs[j] == before[j];
        }
      }
    }

    /** The effect of _parse_players: the default pid becomes the first
        entry's, then the entries are registered as `Register` says: old
        objects stay in place with only their info replaced, fresh pristine
        ones are appended and handed to the callback. Without a first pid it
        raises and nothing changes. */
    twostate predicate PlayersParsed(payload: Json, new d: Outcome<Error>)
      reads this, Members(players)
    {
      && (FirstPid(payload).None? ==>
            d == Fail(BuiltinError) && players == old(players) && playerId == old(playerId)
            && newDevices == old(newDevices) && unchanged(set p | p in Members(players)))
      && (FirstPid(payload).Some? ==>
            var before := old(Members(players));
            var run := Register(old(View(Members(players))), payload.items, false);
            && playerId == FirstPid(payload).value
            && players.Some? && View(players.value) == run.value && d == Raised(run.ok)
            && |before| <= |players.value| && players.value[..|before|] == before
            && (forall j :: |before| <= j < |players.value| ==> fresh(players.value[j]))
            && Pristine(States(players.value[|before|..]))
            && newDevices == old(newDevices) + (if hasNewDeviceCallback then players.value[|before|..] else [])
            && OnlyInfoChanged(old(States(before)), States(before)))
    }

    /** _parse_players: the default pid becomes the first entry's, then the
        entries are registered as players (see RegisterAll). */
    method ParsePlayers(payload: Json) returns (r: Outcome<Error>)
      requires Valid()
      modifies this`players, this`playerId, this`newDevices, set p | p in Members(players)
      ensures Valid()
      ensures PlayersParsed(payload, r)
    {
      if FirstPid(payload).None? {
        return Fail(BuiltinError);
      }
      playerId := Subscript(payload.items[0], "pid").value;
      r := RegisterPlayers(payload.items);
    }

    /** The registration half of _parse_players, stored as the players list. */
    method RegisterPlayers(entries: seq<Json>) returns (r: Outcome<Error>)
      requires Valid()
      modifies this`players, this`newDevices, set p | p in Members(players)
      ensures Valid()
      ensures var before := old(Members(players));
                var run := Register(old(View(Members(players))), entries, false);
                && players.Some? && View(players.value) == run.value && r == Raised(run.ok)
                && |before| <= |players.value| && players.value[..|before|] == before
                && (forall j :: |before| <= j < |players.value| ==> fresh(players.value[j]))
                && Pristine(States(players.value[|before|..]))
                && newDevices == old(newDevices) + (if hasNewDeviceCallback then players.value[|before|..] else [])
                && OnlyInfoChanged(old(States(before)), States(before))
    {
      var before := Members(players);
      var ps, ok := RegisterAll(before, entries, false);
      StorePlayers(ps);
      r := Raised(ok);
    }

    /** The effect of _parse_groups: the entries are registered as groups as
        `Register` says; when none raises, every group, old and new, is
        marked offline, and otherwise old groups have at most their info
        replaced. */
    twostate predicate GroupsParsed(payload: Json, new d: Outcome<Error>)
      reads this, Members(groups)
    {
      var before := old(Members(groups));
      var run := match Iterate(payload)
                 case None => Partial(old(View(Members(groups))), false)
                 case Some(entries) => Register(old(View(Members(groups))), entries, true);
      && groups.Some? && View(groups.value) == run.value && d == Raised(run.ok)
      && |before| <= |groups.value| && groups.value[..|before|] == before
      && (forall j :: |before| <= j < |groups.value| ==> fresh(groups.value[j]))
      && Pristine(States(groups.value[|before|..]))
      && newDevices == old(newDevices) + (if hasNewDeviceCallback then groups.value[|before|..] else [])
      && (run.ok ==> Offline(old(States(before)), States(before)))
      && (!run.ok ==> OnlyInfoChanged(old(States(before)), States(before)))
    }

    /** _parse_groups: the entries are registered as groups (see RegisterAll);
        since the copy meant to collect vanished groups is the registry itself, a
        known gid raises (list.remove of a dict), and when no entry raises every
        group, old and new, is marked offline. */
    method ParseGroups(payload: Json) returns (r: Outcome<Error>)
      requires Valid()
      modifies this`groups, this`newDevices, set g | g in Members(groups)
      ensures Valid()
      ensures GroupsParsed(payload, r)
    {
      var before := Members(groups);
      var entries := Iterate(payload);
      if entries.None? {
        groups := Some(before);
        return Fail(BuiltinError);
      }
      r := RegisterGroups(entries.value);
      if r.Fail? {
        return;
      }
      var gs := groups.value;
      ghost var registered := States(gs);
      SlicedStates(before, gs);
      MarkOffline(gs);
      OfflineParts(registered, States(gs), |before|);
      SlicedStates(before, gs);
    }

    /** The registration half of _parse_groups, stored as the groups list. */
    method RegisterGroups(entries: seq<Json>) returns (r: Outcome<Error>)
      requires Valid()
      modifies this`groups, this`newDevices, set g | g in Members(groups)
      ensures Valid()
      ensures var before := old(Members(groups));
        var run := Register(old(View(Members(groups))), entries, true);
        && groups.Some? && View(groups.value) == run.value && r == Raised(run.ok)
        && |before| <= |groups.value| && groups.value[..|before|] == before
        && (forall j :: |before| <= j < |groups.value| ==> fresh(groups.value[j]))
        && Pristine(States(groups.value[|before|..]))
        && newDevices == old(newDevices) + (if hasNewDeviceCallback then groups.value[|before|..] else [])
        && OnlyInfoChanged(old(States(before)), States(before))
        && (run.ok ==> States(before) == old(States(before)))
    {
      var before := Members(groups);
      var gs, ok := RegisterAll(before, entries, true);
      StoreGroups(gs);
      r := Raised(ok);
    }

    // ------------------------------------------------------------ dispatch

    /** What the handler h of _dispatcher's table does with a reply, and the
        outcome d it ends with; each case is that handler's own contract,
        including what it leaves as it was: the controller fields it does not
        assign, and every object it does not update. */
    twostate predicate Handled(h: Handler, message: Json, payload: Json, new d: Outcome<Error>)
      reads this, Objects()
    {
      if Notice(h) then NoticeHandled(h, d)
      else if PlayerReply(h) then PlayerReplyHandled(h, message, payload, d)
      else ReplyHandled(h, message, payload, d)
    }

    /** `Handled` for the replies that register players or groups, or
        rebuild the catalogue or the favourites. */
    twostate predicate ReplyHandled(h: Handler, message: Json, payload: Json, new d: Outcome<Error>)
      reads this, Objects()
    {
      match h
      case OnPlayers =>
        && unchanged(this`username, this`password, this`needLogin,
              this`hasNewDeviceCallback, this`groups, this`outbox, this`musicSources,
              this`favourites, this`favouritesSid)
        && PlayersParsed(payload, d) && unchanged(old(Members(groups)))
      case OnGroups =>
        && unchanged(this`username, this`password, this`needLogin,
              this`hasNewDeviceCallback, this`players, this`playerId, this`outbox,
              this`musicSources, this`favourites, this`favouritesSid)
        && GroupsParsed(payload, d) && unchanged(old(Members(players)))
      case OnMusicSources =>
        && unchanged(this`username, this`password, this`needLogin,
              this`hasNewDeviceCallback, this`players, this`groups, this`playerId,
              this`favourites, this`newDevices)
        && unchanged(old(Objects()))
        && (Iterate(payload).None? ==>
              d == Fail(BuiltinError) && musicSources == [] && favouritesSid == old(favouritesSid) && outbox == old(outbox))
        && (Iterate(payload).Some? ==>
              var run := Browse(Catalogue([], old(favouritesSid), old(outbox)), Iterate(payload).value, playerId);
              Catalogue(musicSources, favouritesSid, outbox) == run.value && d == Raised(run.ok))
      case OnBrowse =>
        && unchanged(this`username, this`password, this`needLogin,
              this`hasNewDeviceCallback, this`players, this`groups, this`playerId,
              this`outbox, this`musicSources, this`favouritesSid, this`newDevices)
        && unchanged(old(Objects()))
        && (Subscript(message, "sid").None? ==> d == Fail(BuiltinError) && favourites == old(favourites))
        && (Subscript(message, "sid").Some? ==>
              d == Pass && favourites == if Str(Subscript(message, "sid").value) == Str(favouritesSid)
                                         then payload else old(favourites))
      case OnPlayState | OnPlayerStateChanged | OnMuteState | OnVolume | OnNowPlayingMedia
         | OnPlayerVolumeChanged | OnGroupVolumeChanged | OnNowPlayingProgress | OnSignIn
         | OnPlayersChanged | OnSetGroup | OnGroupsChanged | OnNowPlayingChanged => false
    }

    /** `Handled` for the replies about one player or group: the
        controller and every other object stay as they were. */
    twostate predicate PlayerReplyHandled(h: Handler, message: Json, payload: Json, new d: Outcome<Error>)
      reads this, Objects()
    {
      if h == OnPlayState || h == OnPlayerStateChanged || h == OnMuteState || h == OnVolume
      then StateReplyHandled(h, message, d)
      else EventReplyHandled(h, message, payload, d)
    }

    /** The replies that carry one field for the player and its group. */
    twostate predicate StateReplyHandled(h: Handler, message: Json, new d: Outcome<Error>)
      reads this, Objects()
    {
      match h
      case OnPlayState | OnPlayerStateChanged =>
        && UpdatedPlayerAndGroup(Subscript(message, "pid"), PlayStateUpdate(message), d)
        && unchanged(old(Objects() - Targets(Subscript(message, "pid"))))
      case OnMuteState =>
        && UpdatedPlayerAndGroup(Subscript(message, "pid"), MuteUpdate(message), d)
        && unchanged(old(Objects() - Targets(Subscript(message, "pid"))))
      case OnVolume =>
        && UpdatedPlayerAndGroup(Subscript(message, "pid"), VolumeUpdate(message), d)
        && unchanged(old(Objects() - Targets(Subscript(message, "pid"))))
      case _ => false
    }

    /** The event replies and the now-playing media reply, which change one
        player or group through its handler's steps. */
    twostate predicate EventReplyHandled(h: Handler, message: Json, payload: Json, new d: Outcome<Error>)
      reads this, Objects()
    {
      match h
      case OnNowPlayingMedia =>
        && unchanged(this) && unchanged(old(Objects() - Touch(PlayerAt(Subscript(message, "pid")))))
        && (match old(PlayerAt(Subscript(message, "pid")))
           case None => d == Fail(BuiltinError)
           case Some(p) =>
             var run := NowPlaying(old(p.State()), payload, musicSources);
             p.State() == run.value && d == Raised(run.ok))
      case OnPlayerVolumeChanged =>
        && unchanged(this) && unchanged(old(Objects() - Touch(PlayerAt(Subscript(message, "pid")))))
        && (match old(PlayerAt(Subscript(message, "pid")))
           case None => d == Fail(BuiltinError)
           case Some(p) =>
             var run := old(p.State()).Run(VolumeChangedSteps(message));
             p.State() == run.value && d == Raised(run.ok))
      case OnGroupVolumeChanged =>
        && unchanged(this) && unchanged(old(Objects() - Touch(GroupAt(Subscript(message, "gid")))))
        && (Subscript(message, "gid").None? || groups.None? ==> d == Fail(BuiltinError))
        && (Subscript(message, "gid").Some? && groups.Some? && GroupAt(Subscript(message, "gid")).None? ==> d == Pass)
        && (match old(GroupAt(Subscript(message, "gid")))
           case None => true
           case Some(g) =>
             var run := old(g.State()).Run(VolumeChangedSteps(message));
             g.State() == run.value && d == Raised(run.ok))
      case OnNowPlayingProgress =>
        && unchanged(this) && unchanged(old(Objects() - Touch(PlayerAt(Subscript(message, "pid")))))
        && (match old(PlayerAt(Subscript(message, "pid")))
           case None => d == Fail(BuiltinError)
           case Some(p) =>
             var run := old(p.State()).Run(ProgressSteps(message));
             p.State() == run.value && d == Raised(run.ok))
      case _ => false
    }

    /** `Handled` for the change events and the sign-in, which ignore the
        message: no object changes. */
    twostate predicate NoticeHandled(h: Handler, new d: Outcome<Error>)
      reads this, Objects()
    {
      match h
      case OnSignIn =>
        && unchanged(this`username, this`password, this`hasNewDeviceCallback,
              this`players, this`groups, this`playerId, this`outbox, this`musicSources,
              this`favourites, this`favouritesSid, this`newDevices)
        && unchanged(old(Objects()))
        && d == Pass && !needLogin
      case OnPlayersChanged =>
        && unchanged(this`username, this`password, this`needLogin,
              this`hasNewDeviceCallback, this`players, this`groups, this`playerId,
              this`musicSources, this`favourites, this`favouritesSid, this`newDevices)
        && unchanged(old(Objects()))
        && Sent(old(outbox), GetPlayersCommand, [], d)
      case OnSetGroup | OnGroupsChanged =>
        && unchanged(this`username, this`password, this`needLogin,
              this`hasNewDeviceCallback, this`players, this`groups, this`playerId,
              this`musicSources, this`favourites, this`favouritesSid, this`newDevices)
        && unchanged(old(Objects()))
        && Sent(old(outbox), GetGroupsCommand, [], d)
      case OnNowPlayingChanged =>
        && unchanged(this`username, this`password, this`needLogin,
              this`hasNewDeviceCallback, this`players, this`groups, this`playerId,
              this`musicSources, this`favourites, this`favouritesSid, this`newDevices)
        && unchanged(old(Objects()))
        && Sent(old(outbox), GetNowPlayingMediaCommand, [("pid", playerId)], d)
      case OnPlayers | OnGroups | OnMusicSources | OnBrowse | OnPlayState
         | OnPlayerStateChanged | OnMuteState | OnVolume | OnNowPlayingMedia
         | OnPlayerVolumeChanged | OnGroupVolumeChanged | OnNowPlayingProgress => false
    }

    /** _dispatcher: the handler the table names for the command runs, with
        the effect and outcome `Handled` gives; an ignored or unknown command
        reaches none and changes nothing. */
    method Dispatch(command: string, message: Json, payload: Json) returns (r: Outcome<Error>)
      requires Valid()
      modifies this, Objects()
      ensures Valid()
      ensures HandlerFor(command).None? ==> r == Pass && unchanged(this) && unchanged(Objects())
      ensures HandlerFor(command).Some? ==> Handled(HandlerFor(command).value, message, payload, r)
    {
      var handler := HandlerFor(command);
      if handler.None? {
        return Pass;
      }
      if Notice(handler.value) {
        r := DispatchNotice(handler.value);
      } else if PlayerReply(handler.value) {
        r := DispatchPlayerReply(handler.value, message, payload);
      } else if handler.value == OnPlayers || handler.value == OnGroups {
        r := DispatchRegistryReply(handler.value, message, payload);
      } else {
        r := DispatchCatalogueReply(handler.value, message, payload);
      }
    }

    /** The handlers that answer a change event with a request, or record a
        sign-in, without reading the message. */
    static predicate Notice(h: Handler) {
      h == OnSetGroup || h == OnGroupsChanged || h == OnPlayersChanged || h == OnNowPlayingChanged || h == OnSignIn
    }

    /** The change events of _dispatcher: each asks again for what changed. */
    method DispatchNotice(h: Handler) returns (r: Outcome<Error>)
      requires Notice(h)
      modifies `outbox, `needLogin
      ensures NoticeHandled(h, r)
    {
      match h
      case OnSetGroup | OnGroupsChanged => r := RequestGroups();
      case OnPlayersChanged => r := RequestPlayers();
      case OnNowPlayingChanged => r := RequestNowPlayingMedia(JNull);
      case OnSignIn =>
        ParseSystemSignIn();
        r := Pass;
    }

    /** The handlers that parse a reply about one player or group. */
    static predicate PlayerReply(h: Handler) {
      || h == OnPlayState || h == OnPlayerStateChanged || h == OnMuteState || h == OnVolume
      || h == OnNowPlayingMedia || h == OnPlayerVolumeChanged || h == OnGroupVolumeChanged
      || h == OnNowPlayingProgress
    }

    /** The replies of _dispatcher that register players or groups: each is
        parsed by its handler. */
    method DispatchRegistryReply(h: Handler, message: Json, payload: Json) returns (r: Outcome<Error>)
      requires Valid() && (h == OnPlayers || h == OnGroups)
      modifies this, Objects()
      ensures Valid()
      ensures ReplyHandled(h, message, payload, r)
    {
      if h == OnPlayers {
        r := ParsePlayers(payload);
      } else {
        r := ParseGroups(payload);
      }
    }

    /** The replies of _dispatcher that rebuild the catalogue or the
        favourites: each is parsed by its handler. */
    method DispatchCatalogueReply(h: Handler, message: Json, payload: Json) returns (r: Outcome<Error>)
      requires Valid() && (h == OnMusicSources || h == OnBrowse)
      modifies this
      ensures Valid()
      ensures ReplyHandled(h, message, payload, r)
    {
      if h == OnMusicSources {
        r := DispatchMusicSources(message, payload);
      } else {
        r := DispatchBrowse(message, payload);
      }
    }

    /** The music-sources reply of _dispatcher. */
    method DispatchMusicSources(message: Json, payload: Json) returns (r: Outcome<Error>)
      requires Valid()
      modifies this
      ensures Valid()
      ensures ReplyHandled(OnMusicSources, message, payload, r)
    {
      r := ParseBrowseMusicSource(payload);
    }

    /** The browse reply of _dispatcher. */
    method DispatchBrowse(message: Json, payload: Json) returns (r: Outcome<Error>)
      requires Valid()
      modifies this
      ensures Valid()
      ensures ReplyHandled(OnBrowse, message, payload, r)
    {
      r := ParseBrowseBrowse(payload, message);
    }

    /** The replies of _dispatcher about one player or group. */
    method DispatchPlayerReply(h: Handler, message: Json, payload: Json) returns (r: Outcome<Error>)
      requires Valid() && PlayerReply(h)
      modifies Objects()
      ensures Valid()
      ensures PlayerReplyHandled(h, message, payload, r)
    {
      if h == OnPlayState || h == OnPlayerStateChanged || h == OnMuteState || h == OnVolume {
        r := DispatchStateReply(h, message, payload);
      } else {
        r := DispatchEventReply(h, message, payload);
      }
    }

    /** The play-state, mute and volume replies: the player and its group. */
    method DispatchStateReply(h: Handler, message: Json, payload: Json) returns (r: Outcome<Error>)
      requires Valid() && (h == OnPlayState || h == OnPlayerStateChanged || h == OnMuteState || h == OnVolume)
      modifies Objects()
      ensures Valid()
      ensures PlayerReplyHandled(h, message, payload, r)
    {
      match h
      case OnPlayState | OnPlayerStateChanged => r := ParsePlayState(message);
      case OnMuteState => r := ParseMuteState(message);
      case OnVolume => r := ParseVolume(message);
    }

    /** The now-playing reply and the volume-changed and progress events: one
        player or one group. */
    method DispatchEventReply(h: Handler, message: Json, payload: Json) returns (r: Outcome<Error>)
      requires Valid() && (h == OnNowPlayingMedia || h == OnPlayerVolumeChanged
                           || h == OnGroupVolumeChanged || h == OnNowPlayingProgress)
      modifies Objects()
      ensures Valid()
      ensures PlayerReplyHandled(h, message, payload, r)
    {
      match h
      case OnNowPlayingMedia => r := ParseNowPlayingMedia(payload, message);
      case OnPlayerVolumeChanged => r := ParsePlayerVolumeChanged(message);
      case OnGroupVolumeChanged => r := ParseGroupVolumeChanged(message);
      case OnNowPlayingProgress => r := ParseNowPlayingProgress(message);
    }

    /** The failure branch of _parse_command: _handle_error's outcome, with a
        built-in exception it raises leaving as 'Problem parsing command.'. */
    method ParseFailure(m: Message) returns (r: Outcome<Error>, ghost handled: Outcome<Error>)
      requires Valid()
      modifies Objects()
      ensures Valid()
      ensures var eid := Lookup(m, "eid");
              var p := PlayerAt(Lookup(m, "pid"));
              && r.Fail? && r.error.HeosException?
              && (eid.None? ==> r == Fail(HeosException(ProblemParsingCommand)) && unchanged(Objects()))
              && (eid.Some? && eid.value != JStr("2") ==>
                    r == Fail(HeosException(DeviceError(JObj(m)))) && unchanged(Objects()))
              && (eid == Some(JStr("2")) && p.None? ==>
                    r == Fail(HeosException(ProblemParsingCommand)) && unchanged(Objects()))
              && (eid == Some(JStr("2")) && p.Some? ==>
                    r == Fail(HeosException(PlayerOffline(Lookup(m, "pid").value)))
                    && p.value.State() == old(p.value.State()).WithPlayState(JNull) && !p.value.State().online
                    && unchanged(old(Objects()) - {p.value}))
    {
      ghost var p := PlayerAt(Lookup(m, "pid"));
      var failed := HandleError(m);
      r, handled := Reraised(failed), failed;
      if p.Some? {
        assert unchanged(old(Objects()) - Touch(p));
      }
    }

    /** _parse_command on a decoded reply: an acknowledgement is dropped, a
        failure always raises (eid "2" marking the player offline first), any
        other reply is dispatched to its handler, whose own outcome is
        `handled`: a built-in exception it raises leaves as 'Problem parsing
        command.', the library's own passes through. */
    method ParseCommand(e: Envelope) returns (r: Outcome<Error>, ghost handled: Outcome<Error>)
      requires Valid()
      modifies this, Objects()
      ensures Valid()
      ensures r.Fail? ==> r.error.HeosException?
      ensures Classify(e).Malformed? ==>
                r == Fail(HeosException(ProblemParsingCommand)) && unchanged(this) && unchanged(Objects())
      ensures Classify(e).Interim? ==> r == Pass && unchanged(this) && unchanged(Objects())
      ensures Classify(e).Failed? ==>
                var m := Classify(e).parsed;
                var eid := Lookup(m, "eid");
                var p := PlayerAt(Lookup(m, "pid"));
                && r.Fail? && unchanged(this)
                && (eid.None? ==> r == Fail(HeosException(ProblemParsingCommand)) && unchanged(Objects()))
                && (eid.Some? && eid.value != JStr("2") ==>
                      r == Fail(HeosException(DeviceError(JObj(m)))) && unchanged(Objects()))
                && (eid == Some(JStr("2")) && p.None? ==> r == Fail(HeosException(ProblemParsingCommand)))
                && (eid == Some(JStr("2")) && p.Some? ==>
                      r == Fail(HeosException(PlayerOffline(Lookup(m, "pid").value)))
                      && p.value.State() == old(p.value.State()).WithPlayState(JNull) && !p.value.State().online
                      && unchanged(old(Objects()) - {p.value}))
                && (eid == Some(JStr("2")) && p.None? ==> unchanged(Objects()))
      ensures Classify(e).Deliver? && HandlerFor(Classify(e).command).None? ==>
                r == Pass && unchanged(this) && unchanged(Objects())
      ensures Classify(e).Deliver? && HandlerFor(Classify(e).command).Some? ==>
                && Handled(HandlerFor(Classify(e).command).value, Classify(e).message, Classify(e).payload, handled)
                && r == Reraised(handled)
    {
      var route := Classify(e);
      if route.Malformed? {
        return Fail(HeosException(ProblemParsingCommand)), Fail(HeosException(ProblemParsingCommand));
      }
      if route.Interim? {
        return Pass, Pass;
      }
      if route.Failed? {
        r, handled := ParseFailure(route.parsed);
        return;
      }
      var dispatched := Dispatch(route.command, route.message, route.payload);
      r, handled := Reraised(dispatched), dispatched;
    }

    // ------------------------------------------------------------ waiting

    /** ensure_player: at most Rounds rounds of "request the players, stop once
        a player id is known, sleep". `later` holds what the read loop, which
        runs during each sleep, has made of the player id by the next check. */
    method EnsurePlayer(later: seq<bool>) returns (sleeps: nat)
      requires |later| == Rounds - 1
      modifies `outbox
      ensures var n := RoundsRun([Truthy(playerId)] + later);
        && outbox == old(outbox) + Repeat(RequestLine(GetPlayersCommand, []), n)
        && sleeps == if ([Truthy(playerId)] + later)[n - 1] then n - 1 else n
    {
      ghost var seen := [Truthy(playerId)] + later;
      var line := RequestLine(GetPlayersCommand, []);
      assert Text.IsAscii(line);
      sleeps := 0;
      for i := 0 to Rounds
        invariant sleeps == i && outbox == old(outbox) + Repeat(line, i)
        invariant forall j :: 0 <= j < i ==> !seen[j]
      {
        var _ := RequestPlayers();
        var ready := if i == 0 then Truthy(playerId) else later[i - 1];
        if ready {
          assert FirstReady(seen) == i;
          return;
        }
        sleeps := sleeps + 1;
      }
    }

    /** ensure_group: one groups request, then at most Rounds checks for a
        non-empty group list with a sleep after each failed one. */
    method EnsureGroup(later: seq<bool>) returns (sleeps: nat, sent: Outcome<Error>)
      requires |later| == Rounds - 1
      modifies `outbox
      ensures Sent(old(outbox), GetGroupsCommand, [], sent)
      ensures var seen := [Members(groups) != []] + later;
        sleeps == if seen[RoundsRun(seen) - 1] then RoundsRun(seen) - 1 else Rounds
    {
      sent := RequestGroups();
      sleeps := Poll(Members(groups) != [], later);
    }

    /** ensure_login: one sign-in request (whose failure propagates), then at
        most Rounds checks that no login is needed any more. */
    method EnsureLogin(later: seq<bool>) returns (sleeps: nat, sent: Outcome<Error>)
      requires |later| == Rounds - 1
      modifies `outbox
      ensures Sent(old(outbox), SignInCommand, [("un", username), ("pw", password)], sent)
      ensures sent.Fail? ==> sleeps == 0
      ensures sent.Pass? ==>
                var seen := [!needLogin] + later;
                sleeps == if seen[RoundsRun(seen) - 1] then RoundsRun(seen) - 1 else Rounds
    {
      sent := Login();
      if sent.Fail? {
        return 0, sent;
      }
      sleeps := Poll(!needLogin, later);
    }

    /** ensure_favourites_loaded: at most Rounds checks for a non-empty
        favourites list, with a sleep after each failed one. */
    method EnsureFavouritesLoaded(later: seq<bool>) returns (sleeps: nat)
      requires |later| == Rounds - 1
      ensures var seen := [Truthy(favourites)] + later;
        sleeps == if seen[RoundsRun(seen) - 1] then RoundsRun(seen) - 1 else Rounds
    {
      sleeps := Poll(Truthy(favourites), later);
    }

    /** The waiting loop of ensure_group, ensure_login and
        ensure_favourites_loaded: check, stop once ready, else sleep. */
    static method Poll(now: bool, later: seq<bool>) returns (sleeps: nat)
      requires |later| == Rounds - 1
      ensures var seen := [now] + later;
        sleeps == if seen[RoundsRun(seen) - 1] then RoundsRun(seen) - 1 else Rounds
    {
      ghost var seen := [now] + later;
      sleeps := 0;
      for i := 0 to Rounds
        invariant sleeps == i
        invariant forall j :: 0 <= j < i ==> !seen[j]
      {
        var ready := if i == 0 then now else later[i - 1];
        if ready {
          assert FirstReady(seen) == i;
          return;
        }
        sleeps := sleeps + 1;
      }
      assert FirstReady(seen) == Rounds;
    }
  }
}
