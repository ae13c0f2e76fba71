/** The decision logic of the lobby demo (`SteamLobbyExample`): the
    `+connect_lobby` command-line scan, the rebuilt match list, the search
    filters, lobby creation and its deferred type, and the guard on
    starting a game server. Matchmaking calls are returned as a trace of
    `Call`s; SDK queries (lobby ownership, member counts, the persona
    name) are inputs. */
module Lobby {
  import opened Common
  import opened TextParsing

  /** The launch option Steam adds when a player joins a friend's lobby. */
  const ConnectLobbyFlag: string := "+connect_lobby"

  /** `DistanceFilter` of the demo's search settings. */
  datatype DistanceFilter = Close | Default | Far | WorldWide

  /** The demo's `LobbyType`, whose values are 0, 1 and 2. */
  datatype LobbyType = Public | FriendsOnly | Private {
    function Ordinal(): int {
      match this
      case Public => 0
      case FriendsOnly => 1
      case Private => 2
    }
  }

  /** The SDK's `ELobbyDistanceFilter`. */
  datatype SdkDistance = DistanceClose | DistanceDefault | DistanceFar | DistanceWorldwide

  /** The SDK's `ELobbyType`. */
  datatype SdkLobbyType = LobbyPrivate | LobbyFriendsOnly | LobbyPublic | LobbyInvisible

  /** Calls into matchmaking and into the engine's network start. */
  datatype Call =
    | JoinLobby(lobby: u64)
    | AddSlotsAvailableFilter(slots: int)
    | AddStringFilter(key: string, value: string)
    | AddDistanceFilter(distance: SdkDistance)
    | RequestLobbyList
    | CreateLobbyCall(kind: SdkLobbyType, maxMembers: int)
    | SetLobbyData(lobby: u64, key: string, value: string)
    | SetLobbyJoinable(lobby: u64, joinable: bool)
    | SetLobbyType(lobby: u64, kind: SdkLobbyType)
    | StartAsHost(port: int)

  /** The demo's serialized settings and the state it keeps between calls.
      `lobbyType` is an `int` because the `CreateLobby(int)` overload casts
      any integer to the enum. */
  datatype LobbyDemo = LobbyDemo(
    autoStartServer: bool,
    numberOfSlots: int,
    gameName: string,
    searchDistance: DistanceFilter,
    minimumSlotsAvailable: int,
    port: int,
    currentLobby: u64,
    lobbyType: int)

  datatype LobbyStep = LobbyStep(next: LobbyDemo, calls: seq<Call>)

  /** One entry of a lobby list result: `GetLobbyByIndex(i)` and the
      `GetNumLobbyMembers` answer for it. */
  datatype Listing = Listing(lobby: u64, members: int)

  // ---------------------------------------------------------------------
  // The command-line scan

  /** `arg.ToLower() == "+connect_lobby"`. */
  predicate IsConnectLobbyFlag(arg: string) {
    LowerEquals(arg, ConnectLobbyFlag)
  }

  /** `i` is the first position the scan inspects that holds the flag; the
      last argument is never inspected, having no successor. */
  ghost predicate FirstFlagAt(args: seq<string>, i: int) {
    && 0 <= i < |args| - 1
    && IsConnectLobbyFlag(args[i])
    && forall j :: 0 <= j < i ==> !IsConnectLobbyFlag(args[j])
  }

  /** An argument naming a lobby worth joining: a `ulong` other than 0. */
  predicate IsLobbyId(arg: string) {
    var parsed := ParseULong(arg);
    parsed.Some? && parsed.value > 0
  }

  /** The lobby joined once the flag is found: the next argument, when it
      parses as a positive id. */
  function JoinAfterFlag(next: string): (join: Option<u64>)
    ensures join.Some? <==> IsLobbyId(next)
    ensures join.Some? ==> ParseULong(next) == join
  {
    var parsed := ParseULong(next);
    if parsed.Some? && parsed.value > 0 then parsed else None
  }

  /** The scan in `InitLobbyCallbacks`: the first flag ends the scan, and
      the lobby after it is joined only when it parses as a positive id. */
  method LobbyToJoin(args: seq<string>) returns (join: Option<u64>)
    ensures join.Some? ==> exists i :: FirstFlagAt(args, i) && ParseULong(args[i + 1]) == join && join.value > 0
    ensures join.None? ==> forall i :: FirstFlagAt(args, i) ==> !IsLobbyId(args[i + 1])
  {
    join := None;
    if |args| >= 2 {
      var i := 0;
      while i < |args| - 1
        invariant 0 <= i <= |args| - 1
        invariant forall j :: 0 <= j < i ==> !IsConnectLobbyFlag(args[j])
      {
        if IsConnectLobbyFlag(args[i]) {
          join := JoinAfterFlag(args[i + 1]);
          FlagAnswers(args, i);
          return;
        }
        i := i + 1;
      }
    }
    NoFlagNoFirst(args);
  }

  /** Once a first flag is found, `JoinAfterFlag` of its successor answers
      the scan. */
  lemma FlagAnswers(args: seq<string>, i: int)
    requires 0 <= i < |args| - 1 && IsConnectLobbyFlag(args[i])
    requires forall j :: 0 <= j < i ==> !IsConnectLobbyFlag(args[j])
    ensures var join := JoinAfterFlag(args[i + 1]);
      join.Some? ==> exists k :: FirstFlagAt(args, k) && ParseULong(args[k + 1]) == join && join.value > 0
    ensures JoinAfterFlag(args[i + 1]).None? ==> forall k :: FirstFlagAt(args, k) ==> !IsLobbyId(args[k + 1])
  {
    FirstFlagIsUnique(args, i);
    var join := JoinAfterFlag(args[i + 1]);
    if join.Some? {
      assert FirstFlagAt(args, i) && ParseULong(args[i + 1]) == join && join.value > 0;
    } else {
      assert !IsLobbyId(args[i + 1]);
      forall k | FirstFlagAt(args, k)
        ensures !IsLobbyId(args[k + 1])
      {
        assert args[k + 1] == args[i + 1];
      }
    }
  }

  /** A flag with none before it is the only first flag. */
  lemma FirstFlagIsUnique(args: seq<string>, i: int)
    requires 0 <= i < |args| - 1 && IsConnectLobbyFlag(args[i])
    requires forall j :: 0 <= j < i ==> !IsConnectLobbyFlag(args[j])
    ensures FirstFlagAt(args, i)
    ensures forall k :: FirstFlagAt(args, k) ==> k == i
  {
  }

  /** Without a flag among the inspected arguments there is no first one. */
  lemma NoFlagNoFirst(args: seq<string>)
    requires forall j :: 0 <= j < |args| - 1 ==> !IsConnectLobbyFlag(args[j])
    ensures forall k :: !FirstFlagAt(args, k)
  {
  }

  // ---------------------------------------------------------------------
  // The match list

  predicate Occupied(e: Listing) {
    e.members != 0
  }

  /** `i` is the first index at which `lobby` is listed with members. */
  ghost predicate FirstOccupiedAt(listing: seq<Listing>, lobby: u64, i: int) {
    && 0 <= i < |listing|
    && listing[i].lobby == lobby && Occupied(listing[i])
    && forall j :: 0 <= j < i ==> !(listing[j].lobby == lobby && Occupied(listing[j]))
  }

  /** `lobby` is listed with members somewhere in `listing`. */
  ghost predicate ListedWithMembers(listing: seq<Listing>, lobby: u64) {
    exists i :: FirstOccupiedAt(listing, lobby, i)
  }

  /** The list `OnLobbyMatchListReceived` rebuilds from scratch: each lobby
      listed with members, once, in the order it is first listed with
      members, and nothing else. */
  method MatchList(listing: seq<Listing>) returns (matches: seq<u64>)
    ensures |matches| <= |listing|
    ensures forall a, b :: 0 <= a < b < |matches| ==> matches[a] != matches[b]
    ensures forall i :: 0 <= i < |listing| && Occupied(listing[i]) ==> listing[i].lobby in matches
    ensures forall k :: 0 <= k < |matches| ==> ListedWithMembers(listing, matches[k])
    ensures forall a, b, ia, ib ::
              0 <= a < b < |matches| && FirstOccupiedAt(listing, matches[a], ia) && FirstOccupiedAt(listing, matches[b], ib)
              ==> ia < ib
  {
    matches := [];
    ghost var firsts: seq<int> := [];
    var i := 0;
    while i < |listing|
      invariant 0 <= i <= |listing|
      invariant |firsts| == |matches| <= i
      invariant forall k :: 0 <= k < |matches| ==> FirstOccupiedAt(listing, matches[k], firsts[k]) && firsts[k] < i
      invariant forall a, b :: 0 <= a < b < |firsts| ==> firsts[a] < firsts[b]
      invariant forall j :: 0 <= j < i && Occupied(listing[j]) ==> listing[j].lobby in matches
    {
      var e := listing[i];
      if e.lobby !in matches && Occupied(e) {
        assert FirstOccupiedAt(listing, e.lobby, i);
        matches := matches + [e.lobby];
        firsts := firsts + [i];
      }
      i := i + 1;
    }
    FirstOccupiedUnique(listing);
    forall k | 0 <= k < |matches|
      ensures ListedWithMembers(listing, matches[k])
    {
      assert FirstOccupiedAt(listing, matches[k], firsts[k]);
    }
  }

  /** A lobby has at most one first occupied index. */
  lemma FirstOccupiedUnique(listing: seq<Listing>)
    ensures forall lobby, i, j :: FirstOccupiedAt(listing, lobby, i) && FirstOccupiedAt(listing, lobby, j) ==> i == j
  {
  }

  // ---------------------------------------------------------------------
  // Searching, creating and hosting

  /** Inverse of `DistanceRequest`: the demo filter an SDK filter stands for. */
  function FilterOf(f: SdkDistance): DistanceFilter {
    match f
    case DistanceClose => Close
    case DistanceDefault => Default
    case DistanceFar => Far
    case DistanceWorldwide => WorldWide
  }

  /** The distance filter a search adds, if any. */
  function DistanceRequest(d: DistanceFilter): (r: Option<SdkDistance>)
    ensures r.Some? ==> FilterOf(r.value) == d && r.value != DistanceDefault
    ensures r.None? <==> d == Default
    ensures r == Some(DistanceClose) <==> d == Close
    ensures r == Some(DistanceFar) <==> d == Far
    ensures r == Some(DistanceWorldwide) <==> d == WorldWide
  {
    match d
    case Close => Some(DistanceClose)
    case Default => None
    case Far => Some(DistanceFar)
    case WorldWide => Some(DistanceWorldwide)
  }

  /** `SearchPublicLobbies`: marks the lobby type public, adds the slots and
      game-name filters, a distance filter unless the setting is `Default`,
      and requests the list. */
  function SearchPublicLobbies(d: LobbyDemo): (st: LobbyStep)
    ensures st.next == d.(lobbyType := Public.Ordinal())
    ensures |st.calls| >= 3
    ensures st.calls[0] == AddSlotsAvailableFilter(d.minimumSlotsAvailable)
    ensures st.calls[1] == AddStringFilter("GameName", d.gameName)
    ensures st.calls[|st.calls| - 1] == RequestLobbyList
    ensures |st.calls| == 4 <==> d.searchDistance != Default
    ensures |st.calls| == 4 ==> st.calls[2].AddDistanceFilter? && Some(st.calls[2].distance) == DistanceRequest(d.searchDistance)
    ensures |st.calls| <= 4
  {
    var distance := match DistanceRequest(d.searchDistance)
      case None => []
      case Some(f) => [AddDistanceFilter(f)];
    LobbyStep(d.(lobbyType := Public.Ordinal()),
              [AddSlotsAvailableFilter(d.minimumSlotsAvailable), AddStringFilter("GameName", d.gameName)]
              + distance + [RequestLobbyList])
  }

  /** `CreateLobby(LobbyType)`: the wanted type is remembered and the lobby
      is always created private. */
  function CreateLobby(d: LobbyDemo, kind: LobbyType): (st: LobbyStep)
    ensures st.next == d.(lobbyType := kind.Ordinal())
    ensures st.calls == [CreateLobbyCall(LobbyPrivate, d.numberOfSlots)]
  {
    LobbyStep(d.(lobbyType := kind.Ordinal()), [CreateLobbyCall(LobbyPrivate, d.numberOfSlots)])
  }

  /** `CreateLobby(int)`: as `CreateLobby(LobbyType)`, with the integer
      stored as it is, in range or not. */
  function CreateLobbyFromInt(d: LobbyDemo, kind: int): (st: LobbyStep)
    ensures st.next == d.(lobbyType := kind)
    ensures st.calls == [CreateLobbyCall(LobbyPrivate, d.numberOfSlots)]
  {
    LobbyStep(d.(lobbyType := kind), [CreateLobbyCall(LobbyPrivate, d.numberOfSlots)])
  }

  /** The SDK type the stored lobby type selects; a value outside the enum
      matches no case of the switch. */
  function LobbyTypeRequest(kind: int): (r: Option<SdkLobbyType>)
    ensures r.Some? <==> 0 <= kind <= 2
    ensures r == Some(LobbyPublic) <==> kind == Public.Ordinal()
    ensures r == Some(LobbyFriendsOnly) <==> kind == FriendsOnly.Ordinal()
    ensures r == Some(LobbyPrivate) <==> kind == Private.Ordinal()
  {
    if kind == 0 then Some(LobbyPublic)
    else if kind == 1 then Some(LobbyFriendsOnly)
    else if kind == 2 then Some(LobbyPrivate)
    else None
  }

  /** `StartGameServer`: a host starts only when this player owns the
      current lobby and no network is running. */
  function StartGameServer(d: LobbyDemo, ownsLobby: bool, networkRunning: bool): (calls: seq<Call>)
    ensures calls != [] <==> ownsLobby && !networkRunning
    ensures calls != [] ==> calls == [StartAsHost(d.port)]
  {
    if !ownsLobby then []
    else if networkRunning then []
    else [StartAsHost(d.port)]
  }

  /** `OnLobbyCreated`: names and opens the new lobby, makes it current,
      sets the remembered type when it is one of the enum's values, and
      starts the server when auto-start is on. */
  function OnLobbyCreated(d: LobbyDemo, lobby: u64, personaName: string,
                          ownsLobby: bool, networkRunning: bool): (st: LobbyStep)
    ensures st.next == d.(currentLobby := lobby)
    ensures |st.calls| >= 3
    ensures st.calls[..3] == [SetLobbyData(lobby, "GameName", d.gameName),
                              SetLobbyData(lobby, "LobbyName", personaName + "'s lobby."),
                              SetLobbyJoinable(lobby, true)]
    ensures (exists k :: 0 <= k < |st.calls| && st.calls[k].SetLobbyType?) <==> 0 <= d.lobbyType <= 2
    ensures forall k :: 0 <= k < |st.calls| && st.calls[k].SetLobbyType? ==>
              st.calls[k] == SetLobbyType(lobby, LobbyTypeRequest(d.lobbyType).value)
    ensures StartAsHost(d.port) in st.calls <==> d.autoStartServer && ownsLobby && !networkRunning
    ensures |st.calls| == 3 + (if 0 <= d.lobbyType <= 2 then 1 else 0)
                            + (if d.autoStartServer && ownsLobby && !networkRunning then 1 else 0)
    ensures 0 <= d.lobbyType <= 2 ==> st.calls[3] == SetLobbyType(lobby, LobbyTypeRequest(d.lobbyType).value)
    ensures d.autoStartServer && ownsLobby && !networkRunning ==> st.calls[|st.calls| - 1] == StartAsHost(d.port)
  {
    var named := [SetLobbyData(lobby, "GameName", d.gameName),
                  SetLobbyData(lobby, "LobbyName", personaName + "'s lobby."),
                  SetLobbyJoinable(lobby, true)];
    var typed := match LobbyTypeRequest(d.lobbyType)
      case None => []
      case Some(kind) => [SetLobbyType(lobby, kind)];
    var started := if d.autoStartServer then StartGameServer(d, ownsLobby, networkRunning) else [];
    var calls := named + typed + started;
    assert typed != [] ==> calls[3] == typed[0];
    assert forall k :: 0 <= k < |calls| && calls[k].SetLobbyType? ==> 3 <= k < 3 + |typed| && calls[k] == typed[k - 3];
    LobbyStep(d.(currentLobby := lobby), calls)
  }

  /** The SDK lobby type each of the demo's lobby types stands for. */
  function SdkTypeOf(kind: LobbyType): SdkLobbyType {
    match kind
    case Public => LobbyPublic
    case FriendsOnly => LobbyFriendsOnly
    case Private => LobbyPrivate
  }

  /** Creating a lobby of any declared type and receiving its creation
      callback first creates it private and then sets exactly that type. */
  lemma CreatedLobbyGetsRequestedType(d: LobbyDemo, kind: LobbyType, lobby: u64, personaName: string,
                                      ownsLobby: bool, networkRunning: bool)
    ensures var created := CreateLobby(d, kind);
            var callback := OnLobbyCreated(created.next, lobby, personaName, ownsLobby, networkRunning);
            && created.calls[0].kind == LobbyPrivate
            && SetLobbyType(lobby, SdkTypeOf(kind)) in callback.calls
  {
  }

  /** A lobby created through the integer overload with a value outside the
      enum is never given a type, so it stays private. */
  lemma OutOfRangeTypeStaysPrivate(d: LobbyDemo, kind: int, lobby: u64, personaName: string,
                                   ownsLobby: bool, networkRunning: bool)
    requires kind < 0 || kind > 2
    ensures var created := CreateLobbyFromInt(d, kind);
            var callback := OnLobbyCreated(created.next, lobby, personaName, ownsLobby, networkRunning);
            && created.calls == [CreateLobbyCall(LobbyPrivate, d.numberOfSlots)]
            && forall k :: 0 <= k < |callback.calls| ==> !callback.calls[k].SetLobbyType?
  {
  }

  /** The lobby type is shared between searching and creating: a search
      started before the creation callback arrives turns the lobby public,
      whatever type was asked for. */
  lemma SearchBeforeCallbackMakesLobbyPublic(d: LobbyDemo, kind: LobbyType, lobby: u64, personaName: string,
                                             ownsLobby: bool, networkRunning: bool)
    ensures var searched := SearchPublicLobbies(CreateLobby(d, kind).next).next;
            OnLobbyCreated(searched, lobby, personaName, ownsLobby, networkRunning).calls[3]
              == SetLobbyType(lobby, LobbyPublic)
  {
  }

  /** With auto-start set, the creation callback ends with exactly the calls
      `StartGameServer` makes; without it, no host is started. */
  lemma AutoStartIsStartGameServer(d: LobbyDemo, lobby: u64, personaName: string,
                                   ownsLobby: bool, networkRunning: bool)
    ensures var calls := OnLobbyCreated(d, lobby, personaName, ownsLobby, networkRunning).calls;
            var typed := if 0 <= d.lobbyType <= 2 then 1 else 0;
            calls[3 + typed..] == if d.autoStartServer then StartGameServer(d, ownsLobby, networkRunning) else []
  {
  }
}
