/**
 * The per-instance tracker AutoBalanceMapInfo: how many non-GM players the instance
 * holds and the highest player level seen in it, kept up to date by the player-enter,
 * player-leave and level-change hooks.
 */
module MapTracker {
  import opened Numbers
  import opened Settings

  /** What the hooks read of a player. */
  datatype Player = Player(level: Uint8, isGameMaster: bool, inCombat: bool)

  /** What the hooks read of the map: its player list and whether its entry is a dungeon. */
  datatype MapView = MapView(players: seq<Player>, isDungeon: bool)

  /** The tracker's two fields as a value. */
  datatype MapState = MapState(playerCount: Uint32, mapLevel: Uint8)

  /** Tracked: the hook updated the tracker; Ignored: it returned early; NullPlayer: the
   *  hook dereferenced a null player (undefined behaviour in the source). */
  datatype Outcome = Tracked | Ignored | NullPlayer

  datatype Transition = Transition(state: MapState, outcome: Outcome)

  /** The engine's count of players on the map that are not game masters. */
  function CountExceptGMs(players: seq<Player>): (n: nat)
    ensures n <= |players|
  {
    if players == [] then 0
    else CountExceptGMs(players[..|players| - 1]) + (if players[|players| - 1].isGameMaster then 0 else 1)
  }

  /** A non-GM player on the list is counted, so the count is at least 1. */
  lemma {:induction false} CountIncludesPresentPlayer(players: seq<Player>, p: Player)
    requires p in players && !p.isGameMaster
    ensures CountExceptGMs(players) >= 1
  {
    var last := players[|players| - 1];
    if last != p {
      assert p in players[..|players| - 1] by {
        var j :| 0 <= j < |players| && players[j] == p;
        assert j < |players| - 1;
        assert players[..|players| - 1][j] == p;
      }
      CountIncludesPresentPlayer(players[..|players| - 1], p);
    }
  }

  function Max(a: Uint8, b: Uint8): (m: Uint8)
    ensures m >= a && m >= b && (m == a || m == b)
  {
    if a < b then b else a
  }

  /** OnPlayerEnterAll on the tracker's value. */
  function AfterEnter(cfg: Config, s: MapState, m: MapView, player: Option<Player>): (r: Transition)
    ensures r.outcome == Tracked <==> cfg.enabled && player.Some? && !player.value.isGameMaster
    ensures r.outcome != Tracked ==> r.state == s
    ensures cfg.enabled && player.None? ==> r.outcome == NullPlayer
    ensures r.outcome == Tracked ==>
      && r.state.playerCount == ToUint32(CountExceptGMs(m.players))
      && r.state.mapLevel >= s.mapLevel
      && r.state.mapLevel >= player.value.level
      && (r.state.mapLevel == s.mapLevel || r.state.mapLevel == player.value.level)
  {
    if !cfg.enabled then Transition(s, Ignored)
    else if player.None? then Transition(s, NullPlayer)
    else if player.value.isGameMaster then Transition(s, Ignored)
    else
      Transition(MapState(ToUint32(CountExceptGMs(m.players)), Max(s.mapLevel, player.value.level)), Tracked)
  }

  predicate SomeoneInCombat(players: seq<Player>) {
    exists i :: 0 <= i < |players| && players[i].inCombat
  }

  /** OnPlayerLeaveAll on the tracker's value. */
  function AfterLeave(cfg: Config, s: MapState, m: MapView, player: Option<Player>): (r: Transition)
    ensures r.outcome == Tracked <==> cfg.enabled && player.Some? && !player.value.isGameMaster
    ensures r.outcome != Tracked ==> r.state == s
    ensures cfg.enabled && player.None? ==> r.outcome == NullPlayer
    ensures r.outcome == Tracked && (!m.isDungeon || SomeoneInCombat(m.players)) ==>
      r.state.playerCount == s.playerCount
    ensures r.outcome == Tracked && m.isDungeon && !SomeoneInCombat(m.players) ==>
      r.state.playerCount == ToUint32(CountExceptGMs(m.players) - 1)
    ensures r.outcome == Tracked ==>
      r.state.mapLevel == if r.state.playerCount == 0 then 0 else s.mapLevel
  {
    if !cfg.enabled then Transition(s, Ignored)
    else if player.None? then Transition(s, NullPlayer)
    else if player.value.isGameMaster then Transition(s, Ignored)
    else
      var count :=
        if m.isDungeon && !SomeoneInCombat(m.players)
        then ToUint32(CountExceptGMs(m.players) - 1)
        else s.playerCount;
      Transition(MapState(count, if count == 0 then 0 else s.mapLevel), Tracked)
  }

  /** OnLevelChanged on the tracker's value; player is the one whose level changed. */
  function AfterLevelChange(cfg: Config, s: MapState, player: Option<Player>): (r: Transition)
    ensures r.outcome != NullPlayer
    ensures r.outcome == Tracked <==> cfg.enabled && player.Some? && cfg.levelScaling != 0
    ensures r.state.playerCount == s.playerCount && r.state.mapLevel >= s.mapLevel
    ensures r.outcome == Tracked ==>
      r.state.mapLevel >= player.value.level &&
      (r.state.mapLevel == s.mapLevel || r.state.mapLevel == player.value.level)
    ensures r.outcome == Ignored ==> r.state == s
  {
    if !cfg.enabled || player.None? || cfg.levelScaling == 0 then Transition(s, Ignored)
    else Transition(s.(mapLevel := Max(s.mapLevel, player.value.level)), Tracked)
  }

  /** The leaving player is still on the list, so the count minus one does not wrap. */
  lemma LeaveDoesNotWrapWhilePresent(cfg: Config, s: MapState, m: MapView, p: Player)
    requires cfg.enabled && m.isDungeon && !SomeoneInCombat(m.players)
    requires p in m.players && !p.isGameMaster
    requires |m.players| <= 0xFFFF_FFFF
    ensures AfterLeave(cfg, s, m, Some(p)).state.playerCount == CountExceptGMs(m.players) - 1
  {
    CountIncludesPresentPlayer(m.players, p);
  }

  /** With no non-GM player left on the list, count minus one wraps to 2^32 - 1 and the level is kept. */
  lemma LeaveWrapsOnEmptyList(cfg: Config, s: MapState, p: Player)
    requires cfg.enabled && !p.isGameMaster && s.mapLevel > 0
    ensures AfterLeave(cfg, s, MapView([], true), Some(p)).state == MapState(0xFFFF_FFFF, s.mapLevel)
  {
  }

  // ---------------------------------------------------------------------------
  // A run of hook calls
  // ---------------------------------------------------------------------------

  datatype Event =
    | Enter(m: MapView, player: Option<Player>)
    | Leave(m: MapView, player: Option<Player>)
    | LevelChanged(player: Option<Player>)

  function Step(cfg: Config, s: MapState, e: Event): MapState {
    match e
    case Enter(m, p) => AfterEnter(cfg, s, m, p).state
    case Leave(m, p) => AfterLeave(cfg, s, m, p).state
    case LevelChanged(p) => AfterLevelChange(cfg, s, p).state
  }

  function Replay(cfg: Config, s: MapState, events: seq<Event>): MapState {
    if events == [] then s else Step(cfg, Replay(cfg, s, events[..|events| - 1]), events[|events| - 1])
  }

  /**
   * The recorded level never goes down, except through a full vacancy: if it is lower at
   * the end of a run, some prefix of the run left the tracker at count 0 and level 0.
   */
  lemma {:induction false} LevelDropsOnlyOnVacancy(cfg: Config, s: MapState, events: seq<Event>)
    ensures Replay(cfg, s, events).mapLevel >= s.mapLevel ||
      exists k :: 1 <= k <= |events| && Replay(cfg, s, events[..k]) == MapState(0, 0)
  {
    if events != [] {
      var init := events[..|events| - 1];
      var before := Replay(cfg, s, init);
      LevelDropsOnlyOnVacancy(cfg, s, init);
      if before.mapLevel < s.mapLevel {
        var k :| 1 <= k <= |init| && Replay(cfg, s, init[..k]) == MapState(0, 0);
        assert events[..k] == init[..k];
      } else if Replay(cfg, s, events).mapLevel < before.mapLevel {
        assert events[..|events|] == events;
        assert Replay(cfg, s, events[..|events|]) == MapState(0, 0);
      }
    }
  }

  // ---------------------------------------------------------------------------
  // The record as the source keeps it, and the hooks that update it in place
  // ---------------------------------------------------------------------------

  class AutoBalanceMapInfo {
    var playerCount: Uint32
    var mapLevel: Uint8

    /** The record a map gets on first access. */
    constructor ()
      ensures playerCount == 0 && mapLevel == 0
    {
      playerCount := 0;
      mapLevel := 0;
    }

    function State(): MapState
      reads this
    {
      MapState(playerCount, mapLevel)
    }
  }

  /** Scan of the player list for anyone in combat, stopping at the first. */
  method KeepPlayerCount(players: seq<Player>) returns (keep: bool)
    ensures keep <==> exists i :: 0 <= i < |players| && players[i].inCombat
  {
    keep := false;
    var i := 0;
    while i < |players|
      invariant 0 <= i <= |players|
      invariant !keep
      invariant forall j :: 0 <= j < i ==> !players[j].inCombat
    {
      if players[i].inCombat {
        keep := true;
        break;
      }
      i := i + 1;
    }
  }

  method OnLevelChanged(cfg: Config, info: AutoBalanceMapInfo, player: Option<Player>)
    returns (outcome: Outcome)
    modifies info
    ensures Transition(info.State(), outcome) == AfterLevelChange(cfg, old(info.State()), player)
  {
    if !cfg.enabled || player.None? {
      return Ignored;
    }
    if cfg.levelScaling == 0 {
      return Ignored;
    }
    if info.mapLevel < player.value.level {
      info.mapLevel := player.value.level;
    }
    return Tracked;
  }

  method OnPlayerEnterAll(cfg: Config, m: MapView, info: AutoBalanceMapInfo, player: Option<Player>)
    returns (outcome: Outcome)
    modifies info
    ensures Transition(info.State(), outcome) == AfterEnter(cfg, old(info.State()), m, player)
  {
    if !cfg.enabled {
      return Ignored;
    }
    if player.None? {
      // the GM test dereferences the player before the null test below it
      return NullPlayer;
    }
    if player.value.isGameMaster {
      return Ignored;
    }
    if player.value.level > info.mapLevel {
      info.mapLevel := player.value.level;
    }
    info.playerCount := ToUint32(CountExceptGMs(m.players));
    return Tracked;
  }

  method OnPlayerLeaveAll(cfg: Config, m: MapView, info: AutoBalanceMapInfo, player: Option<Player>)
    returns (outcome: Outcome)
    modifies info
    ensures Transition(info.State(), outcome) == AfterLeave(cfg, old(info.State()), m, player)
  {
    if !cfg.enabled {
      return Ignored;
    }
    if player.None? {
      return NullPlayer;
    }
    if player.value.isGameMaster {
      return Ignored;
    }
    if m.isDungeon {
      var keep := KeepPlayerCount(m.players);
      if !keep {
        info.playerCount := ToUint32(CountExceptGMs(m.players) - 1);
      }
    }
    if info.playerCount == 0 {
      info.mapLevel := 0;
    }
    return Tracked;
  }
}
