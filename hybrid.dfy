/**
 The "PvE/PvP weekly choice" plugin: a store of per-player modes, the manual
 switch with its four-day cooldown, the inactivity sweep that turns stale PvE
 players back to PvP, and the damage decision that consults the store.

 Time is an integer number of seconds; `MinValue` stands for DateTime.MinValue
 and `now` is passed in wherever the plugin reads DateTime.Now.
 */
module Hybrid {
  import opened Wrappers

  type PlayerId = nat

  const Hour: int := 3600
  const Day: int := 24 * Hour
  /** `switchCooldown`: four days (the field's comment says a week; the value is four days). */
  const SwitchCooldown: int := 4 * Day
  /**
   `offlineToPvP`: a PvE player whose last recorded disconnect (or first join)
   is older than this is turned to PvP, whether or not they are online now.
   */
  const OfflineToPvP: int := 25 * Hour
  /** DateTime.MinValue, the "never switched" sentinel. */
  const MinValue: int := 0

  /** One player's record: the mode, the last manual switch, the last disconnect. */
  datatype PlayerData = PlayerData(isPvE: bool, lastSwitchTime: int, lastLogin: int)

  type Store = map<PlayerId, PlayerData>

  /** The entity that takes a hit, as far as the decision distinguishes entities. */
  datatype Entity =
    | PlayerEntity(userId: PlayerId)
    | BuildingBlock(ownerId: PlayerId)
    | OtherEntity

  /** Whole days and leftover hours of a TimeSpan, as TimeSpan.Days and TimeSpan.Hours give them. */
  datatype Wait = Wait(days: int, hours: int)

  /** What a /pve or /pvp command answers. */
  datatype SwitchReply = Switched | Rejected(wait: Wait)

  // ---------------------------------------------------------------------------
  // Reads of the store
  // ---------------------------------------------------------------------------

  /** `IsPvE` / `UserIdIsPvE`: a player without a record counts as PvP. */
  predicate UserIdIsPvE(store: Store, id: PlayerId)
    ensures UserIdIsPvE(store, id) ==> id in store
  {
    id in store && store[id].isPvE
  }

  /** `CanSwitch`: no record, or the cooldown has fully elapsed since the last switch. */
  predicate CanSwitch(store: Store, id: PlayerId, now: int)
    ensures CanSwitch(store, id, now) <==> id !in store || RemainingTime(store[id], now) <= 0
  {
    id !in store || now - store[id].lastSwitchTime >= SwitchCooldown
  }

  /** The TimeSpan `switchCooldown - (now - LastSwitchTime)` of the rejection branch. */
  function RemainingTime(rec: PlayerData, now: int): (r: int)
    ensures r > 0 <==> now < rec.lastSwitchTime + SwitchCooldown
    ensures now >= rec.lastSwitchTime ==> r <= SwitchCooldown
  {
    SwitchCooldown - (now - rec.lastSwitchTime)
  }

  /** C#'s integer division, which truncates toward zero. */
  function TruncDiv(a: int, b: int): int
    requires b > 0
  {
    if a >= 0 then a / b else -((-a) / b)
  }

  /** TimeSpan.Days and TimeSpan.Hours of a span of `span` seconds. */
  function TimeSpanParts(span: int): (w: Wait)
    ensures -24 < w.hours < 24
    ensures span >= 0 ==>
      && w.days >= 0 && 0 <= w.hours
      && w.days * Day + w.hours * Hour <= span < w.days * Day + (w.hours + 1) * Hour
    ensures span < 0 ==> w.days <= 0 && w.hours <= 0
  {
    var totalHours := TruncDiv(span, Hour);
    Wait(TruncDiv(span, Day), totalHours - TruncDiv(totalHours, 24) * 24)
  }

  // ---------------------------------------------------------------------------
  // The store's transitions, as values
  // ---------------------------------------------------------------------------

  /** `SetPvEMode`: the new store after a successful manual switch. */
  function SetMode(store: Store, id: PlayerId, isPvE: bool, now: int): (r: Store)
    ensures id in r && r[id].isPvE == isPvE && r[id].lastSwitchTime == now
    ensures r[id].lastLogin == if id in store then store[id].lastLogin else MinValue
    ensures r.Keys == store.Keys + {id}
    ensures forall k :: k in store && k != id ==> r[k] == store[k]
  {
    var rec := if id in store then store[id] else PlayerData(false, MinValue, MinValue);
    store[id := rec.(isPvE := isPvE, lastSwitchTime := now)]
  }

  /** `OnPlayerDisconnected`: the last-login time is recorded, creating a default record. */
  function Disconnect(store: Store, id: PlayerId, now: int): (r: Store)
    ensures id in r && r[id].lastLogin == now
    ensures id in store ==> r[id].isPvE == store[id].isPvE && r[id].lastSwitchTime == store[id].lastSwitchTime
    ensures id !in store ==> !r[id].isPvE && r[id].lastSwitchTime == MinValue
    ensures r.Keys == store.Keys + {id}
    ensures forall k :: k in store && k != id ==> r[k] == store[k]
  {
    if id in store then store[id := store[id].(lastLogin := now)]
    else store[id := PlayerData(false, MinValue, now)]
  }

  /** `OnPlayerInit`: a first-time player is created in PvE mode; a known one is left alone. */
  function Join(store: Store, id: PlayerId, now: int): (r: Store)
    ensures id in r && r.Keys == store.Keys + {id}
    ensures id in store ==> r == store
    ensures id !in store ==> r[id] == PlayerData(true, MinValue, now)
    ensures forall k :: k in store ==> r[k] == store[k]
  {
    if id in store then store else store[id := PlayerData(true, MinValue, now)]
  }

  /** One record as `CheckOfflinePlayers` leaves it. */
  function Expire(rec: PlayerData, now: int): (r: PlayerData)
    ensures r.isPvE <==> rec.isPvE && now - rec.lastLogin <= OfflineToPvP
    ensures r.lastSwitchTime == rec.lastSwitchTime && r.lastLogin == rec.lastLogin
  {
    if rec.isPvE && now - rec.lastLogin > OfflineToPvP then rec.(isPvE := false) else rec
  }

  /** `CheckOfflinePlayers` over the whole store: only the mode of stale PvE records changes. */
  function Sweep(store: Store, now: int): (r: Store)
    ensures r.Keys == store.Keys
    ensures forall k :: k in store ==>
      && r[k].isPvE == (store[k].isPvE && now - store[k].lastLogin <= OfflineToPvP)
      && r[k].lastSwitchTime == store[k].lastSwitchTime
      && r[k].lastLogin == store[k].lastLogin
  {
    map k | k in store :: Expire(store[k], now)
  }

  // ---------------------------------------------------------------------------
  // The damage decision
  // ---------------------------------------------------------------------------

  /** The user id of the initiator when it is a player. */
  function AttackerId(initiator: Option<Entity>): Option<PlayerId>
  {
    if initiator.Some? && initiator.value.PlayerEntity? then Some(initiator.value.userId) else None
  }

  /**
   `OnEntityTakeDamage`: true when the hook returns non-null, which cancels the hit.
   The building-block rule comes first, then the three blocking cases of the
   player-against-player rule; everything else is let through.
   */
  function DamageBlocked(store: Store, target: Entity, initiator: Option<Entity>): (blocked: bool)
    ensures target.BuildingBlock? ==>
      (blocked <==>
        && target.ownerId != 0
        && target.ownerId in store && store[target.ownerId].isPvE
        && AttackerId(initiator).Some? && AttackerId(initiator).value != target.ownerId)
    ensures target.PlayerEntity? && AttackerId(initiator).Some? ==>
      (!blocked <==> !UserIdIsPvE(store, target.userId) && !UserIdIsPvE(store, AttackerId(initiator).value))
    ensures target.PlayerEntity? && AttackerId(initiator).None? ==> !blocked
    ensures target.OtherEntity? ==> !blocked
  {
    if target.BuildingBlock? && target.ownerId != 0 && UserIdIsPvE(store, target.ownerId)
       && AttackerId(initiator).Some? && AttackerId(initiator).value != target.ownerId
    then
      true
    else if target.PlayerEntity? && AttackerId(initiator).Some? then
      var isTargetPvE := UserIdIsPvE(store, target.userId);
      var isAttackerPvE := UserIdIsPvE(store, AttackerId(initiator).value);
      if isAttackerPvE && !isTargetPvE then true
      else if isAttackerPvE && isTargetPvE then true
      else if !isAttackerPvE && isTargetPvE then true
      else false
    else
      false
  }

  // ---------------------------------------------------------------------------
  // Properties of the transitions and of the decision
  // ---------------------------------------------------------------------------

  /**
   A reconnect does not renew PvE protection: `OnPlayerInit` leaves a known
   record alone, so the sweep counts from the last disconnect even while the
   player is online.
   */
  lemma ReconnectDoesNotRenewProtection(store: Store, id: PlayerId, d: int)
    requires id in store && store[id].isPvE
    ensures var online := Join(Disconnect(store, id, d), id, d + Hour);
      && UserIdIsPvE(online, id)
      && !UserIdIsPvE(Sweep(online, d + 26 * Hour), id)
  {
  }

  /**
   A `/pve` by a player without a record creates one whose last-login time is
   `MinValue`, so the next sweep at any clock past 25 hours turns them back to
   PvP, and they still cannot switch for four days.
   */
  lemma SwitchWithoutRecordExpires(store: Store, id: PlayerId, now: int, later: int)
    requires id !in store
    requires now > MinValue + OfflineToPvP && now <= later < now + SwitchCooldown
    ensures var s := SetMode(store, id, true, now);
      && UserIdIsPvE(s, id)
      && !UserIdIsPvE(Sweep(s, later), id)
      && !CanSwitch(Sweep(s, later), id, later)
  {
  }

  /** A switch at `t` locks further switches for exactly the cooldown, inclusive at its end. */
  lemma SwitchStartsCooldown(store: Store, id: PlayerId, isPvE: bool, t: int, now: int)
    ensures CanSwitch(SetMode(store, id, isPvE, t), id, now) <==> now >= t + SwitchCooldown
  {
  }

  /** A rejected switch has a record behind it and reports a positive wait, split into days and hours. */
  lemma RejectionWait(store: Store, id: PlayerId, now: int)
    requires !CanSwitch(store, id, now)
    ensures id in store && RemainingTime(store[id], now) > 0
    ensures now >= store[id].lastSwitchTime ==> RemainingTime(store[id], now) <= SwitchCooldown
    ensures var w := TimeSpanParts(RemainingTime(store[id], now));
      && w.days >= 0 && 0 <= w.hours < 24
      && w.days * Day + w.hours * Hour <= RemainingTime(store[id], now) < w.days * Day + (w.hours + 1) * Hour
  {
  }

  /** A switch of an existing record changes only its mode and its switch time. */
  lemma SwitchKeepsLastLogin(store: Store, id: PlayerId, isPvE: bool, now: int)
    requires id in store
    ensures SetMode(store, id, isPvE, now)[id] == store[id].(isPvE := isPvE, lastSwitchTime := now)
  {
  }

  /** A player that has no record, or whose record was never switched, may switch once the clock is past the cooldown. */
  lemma NeverSwitchedCanSwitch(store: Store, id: PlayerId, now: int)
    requires id !in store || store[id].lastSwitchTime == MinValue
    requires now >= MinValue + SwitchCooldown
    ensures CanSwitch(store, id, now)
  {
  }

  /** `OnPlayerInit` applied twice changes nothing the first call did not. */
  lemma JoinIdempotent(store: Store, id: PlayerId, t: int, t': int)
    ensures Join(Join(store, id, t), id, t') == Join(store, id, t)
  {
  }

  /** The sweep never grants PvE and never touches PvP records. */
  lemma SweepOnlyDrainsPvE(store: Store, now: int, id: PlayerId)
    requires id in store
    ensures UserIdIsPvE(Sweep(store, now), id) ==> UserIdIsPvE(store, id)
    ensures !store[id].isPvE ==> Sweep(store, now)[id] == store[id]
  {
  }

  /** Sweeping twice at the same time is sweeping once; a later sweep subsumes an earlier one. */
  lemma SweepComposes(store: Store, t1: int, t2: int)
    requires t1 <= t2
    ensures Sweep(Sweep(store, t1), t2) == Sweep(store, t2)
  {
  }

  /** The sweep does not change anyone's cooldown: it bypasses the switch path. */
  lemma SweepKeepsCooldown(store: Store, now: int, id: PlayerId, t: int)
    ensures CanSwitch(Sweep(store, now), id, t) == CanSwitch(store, id, t)
  {
  }

  /** A hit the store lets through before a sweep is still let through after it. */
  lemma SweepNeverBlocksMore(store: Store, now: int, target: Entity, initiator: Option<Entity>)
    ensures DamageBlocked(Sweep(store, now), target, initiator) ==> DamageBlocked(store, target, initiator)
  {
  }

  /** Between two players the decision does not depend on who hits whom. */
  lemma PlayerRuleSymmetric(store: Store, a: PlayerId, b: PlayerId)
    ensures DamageBlocked(store, PlayerEntity(a), Some(PlayerEntity(b)))
         == DamageBlocked(store, PlayerEntity(b), Some(PlayerEntity(a)))
  {
  }

  /** A player may always damage their own building block. */
  lemma OwnerMayDamageOwnBuilding(store: Store, owner: PlayerId)
    ensures !DamageBlocked(store, BuildingBlock(owner), Some(PlayerEntity(owner)))
  {
  }

  /**
   A player switches to PvP at `t0`, then asks to switch back: one hour
   before the cooldown ends the command is refused with 0 days and 1 hour
   left; one hour after it, it succeeds.
   */
  lemma SwitchBackScenario(t0: int)
    ensures var s := SetMode(map[], 7, false, t0);
      && !CanSwitch(s, 7, t0 + SwitchCooldown - Hour)
      && TimeSpanParts(RemainingTime(s[7], t0 + SwitchCooldown - Hour)) == Wait(0, 1)
      && CanSwitch(s, 7, t0 + SwitchCooldown + Hour)
  {
  }

  // ---------------------------------------------------------------------------
  // The plugin object: the `playerData` dictionary and the hooks that change it
  // ---------------------------------------------------------------------------

  class HybridPlugin {
    var playerData: Store

    /** The store starts empty; loading the saved file is not part of this model. */
    constructor ()
      ensures playerData == map[]
    {
      playerData := map[];
    }

    /** The periodic inactivity sweep. */
    method CheckOfflinePlayers(now: int)
      modifies this
      ensures playerData == Sweep(old(playerData), now)
    {
      ghost var before := playerData;
      var pending := playerData.Keys;
      while pending != {}
        invariant pending <= before.Keys && playerData.Keys == before.Keys
        invariant forall k :: k in pending ==> playerData[k] == before[k]
        invariant forall k :: k in before && k !in pending ==> playerData[k] == Expire(before[k], now)
        decreases pending
      {
        var id :| id in pending;
        var entry := playerData[id];
        if entry.isPvE && now - entry.lastLogin > OfflineToPvP {
          playerData := playerData[id := entry.(isPvE := false)];
        }
        pending := pending - {id};
      }
    }

    method OnPlayerDisconnected(id: PlayerId, now: int)
      modifies this
      ensures playerData == Disconnect(old(playerData), id, now)
    {
      if id in playerData {
        playerData := playerData[id := playerData[id].(lastLogin := now)];
      } else {
        playerData := playerData[id := PlayerData(false, MinValue, now)];
      }
    }

    method SetPvEMode(id: PlayerId, isPvE: bool, now: int)
      modifies this
      ensures playerData == SetMode(old(playerData), id, isPvE, now)
    {
      if id !in playerData {
        playerData := playerData[id := PlayerData(false, MinValue, MinValue)];
      }
      playerData := playerData[id := playerData[id].(isPvE := isPvE)];
      playerData := playerData[id := playerData[id].(lastSwitchTime := now)];
    }

    /** `/pve`: switch to PvE when allowed, otherwise report the remaining wait and change nothing. */
    method CmdPvE(id: PlayerId, now: int) returns (reply: SwitchReply)
      modifies this
      ensures old(CanSwitch(playerData, id, now)) ==>
        reply == Switched && playerData == SetMode(old(playerData), id, true, now)
      ensures !old(CanSwitch(playerData, id, now)) ==>
        && playerData == old(playerData)
        && reply == Rejected(TimeSpanParts(RemainingTime(playerData[id], now)))
    {
      if CanSwitch(playerData, id, now) {
        SetPvEMode(id, true, now);
        reply := Switched;
      } else {
        reply := Rejected(TimeSpanParts(SwitchCooldown - (now - playerData[id].lastSwitchTime)));
      }
    }

    /** `/pvp`: switch to PvP when allowed, otherwise report the remaining wait and change nothing. */
    method CmdPvP(id: PlayerId, now: int) returns (reply: SwitchReply)
      modifies this
      ensures old(CanSwitch(playerData, id, now)) ==>
        reply == Switched && playerData == SetMode(old(playerData), id, false, now)
      ensures !old(CanSwitch(playerData, id, now)) ==>
        && playerData == old(playerData)
        && reply == Rejected(TimeSpanParts(RemainingTime(playerData[id], now)))
    {
      if CanSwitch(playerData, id, now) {
        SetPvEMode(id, false, now);
        reply := Switched;
      } else {
        reply := Rejected(TimeSpanParts(SwitchCooldown - (now - playerData[id].lastSwitchTime)));
      }
    }

    method OnPlayerInit(id: PlayerId, now: int)
      modifies this
      ensures playerData == Join(old(playerData), id, now)
    {
      if id !in playerData {
        playerData := playerData[id := PlayerData(true, MinValue, now)];
      }
    }

    /** The damage hook reads the store and changes nothing. */
    method OnEntityTakeDamage(target: Entity, initiator: Option<Entity>) returns (blocked: bool)
      ensures blocked == DamageBlocked(playerData, target, initiator)
    {
      blocked := DamageBlocked(playerData, target, initiator);
    }
  }
}
