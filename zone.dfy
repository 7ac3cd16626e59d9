/**
 The "PvP near bases" plugin: a player may hurt another player only when both
 stand within 50 units of some tool cupboard (a base anchor); otherwise the hit
 is emptied in place. A second part tracks, per player, whether they were last
 seen inside such a zone and announces each entry and exit once.

 Positions are real-valued; "within 50" is compared on squared distances.
 The anchors are the positions of the cupboards in the world at the time of
 the call, passed in as a sequence.
 */
module PvPBaseZone {
  import opened Wrappers

  type PlayerId = nat

  /** `BaseZoneRadius`. */
  const BaseZoneRadius: real := 50.0

  datatype Vec3 = Vec3(x: real, y: real, z: real)

  const Zero: Vec3 := Vec3(0.0, 0.0, 0.0)

  function DistSq(a: Vec3, b: Vec3): real
  {
    (a.x - b.x) * (a.x - b.x) + (a.y - b.y) * (a.y - b.y) + (a.z - b.z) * (a.z - b.z)
  }

  /** `Vector3.Distance(anchor, p) < BaseZoneRadius`, strictly. */
  predicate WithinZone(anchor: Vec3, p: Vec3)
    ensures p == anchor ==> WithinZone(anchor, p)
    ensures DistSq(p, anchor) >= BaseZoneRadius * BaseZoneRadius ==> !WithinZone(anchor, p)
  {
    DistSq(p, anchor) < BaseZoneRadius * BaseZoneRadius
  }

  /** Some anchor lies strictly within the zone radius of `p`. */
  predicate NearBase(anchors: seq<Vec3>, p: Vec3)
    ensures NearBase(anchors, p) ==> |anchors| > 0
    ensures p in anchors ==> NearBase(anchors, p)
  {
    exists i :: 0 <= i < |anchors| && WithinZone(anchors[i], p)
  }

  /** A player as the plugin sees one: an id and a position. */
  datatype Player = Player(userId: PlayerId, position: Vec3)

  /** The entity that takes a hit, or that initiates one. */
  datatype Entity = PlayerEntity(player: Player) | OtherEntity

  /** One entry of a hit's damage list. */
  datatype DamageEntry = DamageEntry(kind: nat, amount: real)

  /** A zone announcement. */
  datatype ZoneMessage = Entered | Exited

  // ---------------------------------------------------------------------------
  // The proximity query
  // ---------------------------------------------------------------------------

  /** `IsNearBase`: scan the anchors and stop at the first one within the radius. */
  method IsNearBase(anchors: seq<Vec3>, p: Vec3) returns (near: bool)
    ensures near == NearBase(anchors, p)
  {
    var i := 0;
    while i < |anchors|
      invariant 0 <= i <= |anchors|
      invariant forall j :: 0 <= j < i ==> !WithinZone(anchors[j], p)
    {
      if WithinZone(anchors[i], p) {
        return true;
      }
      i := i + 1;
    }
    return false;
  }

  lemma NoAnchorsNoZone(p: Vec3)
    ensures !NearBase([], p)
  {
  }

  /** A point at exactly the radius from the only anchor is outside. */
  lemma BoundaryIsOutside(anchor: Vec3)
    ensures !NearBase([anchor], Vec3(anchor.x + BaseZoneRadius, anchor.y, anchor.z))
  {
  }

  // ---------------------------------------------------------------------------
  // Zone status tracking
  // ---------------------------------------------------------------------------

  /** The status the plugin believes `id` has; no entry reads as "outside". */
  predicate InZone(status: map<PlayerId, bool>, id: PlayerId)
  {
    id in status && status[id]
  }

  /** The result of one `CheckPvPZoneStatus`: the new status map and the message sent, if any. */
  datatype ZoneStep = ZoneStep(status: map<PlayerId, bool>, message: Option<ZoneMessage>)

  /** `CheckPvPZoneStatus` for a player whose proximity test gave `near`. */
  function CheckStatus(status: map<PlayerId, bool>, id: PlayerId, near: bool): (r: ZoneStep)
    ensures InZone(r.status, id) == near
    ensures r.message.Some? <==> InZone(status, id) != near
    ensures r.message == Some(Entered) <==> near && !InZone(status, id)
    ensures r.message.None? ==> r.status == status
    ensures forall k :: k != id ==> (k in r.status <==> k in status)
    ensures forall k :: k != id && k in status ==> r.status[k] == status[k]
  {
    var current := InZone(status, id);
    if near && !current then ZoneStep(status[id := true], Some(Entered))
    else if !near && current then ZoneStep(status[id := false], Some(Exited))
    else ZoneStep(status, None)
  }

  /** A second check at the same position sends nothing and changes nothing. */
  lemma CheckStatusIdempotent(status: map<PlayerId, bool>, id: PlayerId, near: bool)
    ensures var r := CheckStatus(status, id, near);
      CheckStatus(r.status, id, near) == ZoneStep(r.status, None)
  {
  }

  /** A player outside every zone and without an entry gets no entry. */
  lemma OutsideCreatesNoEntry(status: map<PlayerId, bool>, id: PlayerId)
    requires id !in status
    ensures id !in CheckStatus(status, id, false).status
  {
  }

  /** The messages one player receives over successive checks with proximity results `nears`. */
  function Announcements(status: map<PlayerId, bool>, id: PlayerId, nears: seq<bool>): seq<ZoneMessage>
    decreases |nears|
  {
    if nears == [] then []
    else
      var r := CheckStatus(status, id, nears[0]);
      (if r.message.Some? then [r.message.value] else []) + Announcements(r.status, id, nears[1..])
  }

  /** How many times the sequence `nears` changes value, starting from `from`. */
  function Crossings(from: bool, nears: seq<bool>): nat
    decreases |nears|
  {
    if nears == [] then 0
    else (if nears[0] != from then 1 else 0) + Crossings(nears[0], nears[1..])
  }

  /**
   One message per boundary crossing, never two of the same kind in a row, and
   the first one is an entry exactly when the player started outside.
   */
  lemma {:induction false} AnnouncementsFollowCrossings(status: map<PlayerId, bool>, id: PlayerId, nears: seq<bool>)
    ensures var ms := Announcements(status, id, nears);
      && |ms| == Crossings(InZone(status, id), nears)
      && (ms != [] ==> ms[0] == (if InZone(status, id) then Exited else Entered))
      && (forall i :: 0 <= i < |ms| - 1 ==> ms[i] != ms[i + 1])
    decreases |nears|
  {
    if nears != [] {
      var r := CheckStatus(status, id, nears[0]);
      AnnouncementsFollowCrossings(r.status, id, nears[1..]);
      var rest := Announcements(r.status, id, nears[1..]);
      var ms := Announcements(status, id, nears);
      assert ms == (if r.message.Some? then [r.message.value] else []) + rest;
      if r.message.Some? {
        forall i | 0 <= i < |ms| - 1 ensures ms[i] != ms[i + 1] {
          if i > 0 {
            assert ms[i] == rest[i - 1] && ms[i + 1] == rest[i];
          }
        }
      }
    }
  }

  /** Inside, outside, inside: an entry, an exit, an entry. */
  lemma InsideOutsideInside(id: PlayerId)
    ensures Announcements(map[], id, [true, false, true]) == [Entered, Exited, Entered]
  {
  }

  /** The ids of a list of players. */
  function UserIds(players: seq<Player>): set<PlayerId>
  {
    set i | 0 <= i < |players| :: players[i].userId
  }

  /** The status map after one `OnTick` over the active players, in list order. */
  function TickStatus(status: map<PlayerId, bool>, active: seq<Player>, anchors: seq<Vec3>): (r: map<PlayerId, bool>)
    ensures r.Keys <= status.Keys + UserIds(active)
    decreases |active|
  {
    if active == [] then status
    else TickStatus(CheckStatus(status, active[0].userId, NearBase(anchors, active[0].position)).status,
                    active[1..], anchors)
  }

  /**
   After a tick, every active player's status is their proximity result, and
   every other player's entry is as it was.
   */
  lemma {:induction false} TickSettlesActivePlayers(status: map<PlayerId, bool>, active: seq<Player>, anchors: seq<Vec3>)
    requires forall i, j :: 0 <= i < j < |active| ==> active[i].userId != active[j].userId
    ensures var r := TickStatus(status, active, anchors);
      && (forall i :: 0 <= i < |active| ==> InZone(r, active[i].userId) == NearBase(anchors, active[i].position))
      && (forall k :: (forall i :: 0 <= i < |active| ==> active[i].userId != k) ==>
            (k in r <==> k in status) && (k in status ==> r[k] == status[k]))
    decreases |active|
  {
    if active != [] {
      var s1 := CheckStatus(status, active[0].userId, NearBase(anchors, active[0].position)).status;
      TickSettlesActivePlayers(s1, active[1..], anchors);
      var r := TickStatus(status, active, anchors);
      assert r == TickStatus(s1, active[1..], anchors);
      forall i | 0 <= i < |active|
        ensures InZone(r, active[i].userId) == NearBase(anchors, active[i].position)
      {
        if i == 0 {
          assert forall j :: 0 <= j < |active[1..]| ==> active[1..][j].userId != active[0].userId;
        } else {
          assert active[1..][i - 1] == active[i];
        }
      }
      forall k | (forall i :: 0 <= i < |active| ==> active[i].userId != k)
        ensures (k in r <==> k in status) && (k in status ==> r[k] == status[k])
      {
        assert active[0].userId != k;
        assert forall i :: 0 <= i < |active[1..]| ==> active[1..][i].userId != k;
      }
    }
  }

  // ---------------------------------------------------------------------------
  // The hit being processed, updated in place when the hit is vetoed
  // ---------------------------------------------------------------------------

  class HitInfo {
    var damageTypes: seq<DamageEntry>
    var hitMaterial: nat
    var doHitEffects: bool
    var initiator: Option<Entity>
    var hitPositionWorld: Vec3

    constructor (damageTypes: seq<DamageEntry>, hitMaterial: nat, doHitEffects: bool,
                 initiator: Option<Entity>, hitPositionWorld: Vec3)
      ensures this.damageTypes == damageTypes && this.hitMaterial == hitMaterial
      ensures this.doHitEffects == doHitEffects && this.initiator == initiator
      ensures this.hitPositionWorld == hitPositionWorld
    {
      this.damageTypes := damageTypes;
      this.hitMaterial := hitMaterial;
      this.doHitEffects := doHitEffects;
      this.initiator := initiator;
      this.hitPositionWorld := hitPositionWorld;
    }

    /** The hit after the veto: no damage, no material, no effects, no initiator, no impact point. */
    predicate Cleared()
      reads this
    {
      damageTypes == [] && hitMaterial == 0 && !doHitEffects && initiator == None && hitPositionWorld == Zero
    }
  }

  /** The zone rule's verdict: a player-on-player hit is vetoed unless both stand near a base. */
  predicate Vetoed(anchors: seq<Vec3>, target: Entity, initiator: Option<Entity>)
    ensures Vetoed(anchors, target, initiator) ==>
      target.PlayerEntity? && initiator.Some? && initiator.value.PlayerEntity?
  {
    && target.PlayerEntity? && initiator.Some? && initiator.value.PlayerEntity?
    && !(NearBase(anchors, target.player.position) && NearBase(anchors, initiator.value.player.position))
  }

  /** A hit from a player on a player with no anchors at all is always vetoed. */
  lemma NoBasesNoPvP(target: Player, attacker: Player)
    ensures Vetoed([], PlayerEntity(target), Some(PlayerEntity(attacker)))
  {
  }

  /** Two players may fight near two different bases. */
  lemma DifferentAnchorsSuffice(a1: Vec3, a2: Vec3, target: Player, attacker: Player)
    requires WithinZone(a1, target.position) && WithinZone(a2, attacker.position)
    ensures !Vetoed([a1, a2], PlayerEntity(target), Some(PlayerEntity(attacker)))
  {
    assert WithinZone([a1, a2][0], target.position);
    assert WithinZone([a1, a2][1], attacker.position);
  }

  // ---------------------------------------------------------------------------
  // The plugin object: the `playerPvPZoneStatus` dictionary and the hooks
  // ---------------------------------------------------------------------------

  class PvPBaseZonePlugin {
    var playerPvPZoneStatus: map<PlayerId, bool>

    constructor ()
      ensures playerPvPZoneStatus == map[]
    {
      playerPvPZoneStatus := map[];
    }

    /** `OnEntityTakeDamage`: empty the hit in place when the zone rule vetoes it, otherwise leave it. */
    method OnEntityTakeDamage(target: Entity, hitInfo: HitInfo, anchors: seq<Vec3>)
      modifies hitInfo
      ensures Vetoed(anchors, target, old(hitInfo.initiator)) ==> hitInfo.Cleared()
      ensures !Vetoed(anchors, target, old(hitInfo.initiator)) ==>
        && hitInfo.damageTypes == old(hitInfo.damageTypes)
        && hitInfo.hitMaterial == old(hitInfo.hitMaterial)
        && hitInfo.doHitEffects == old(hitInfo.doHitEffects)
        && hitInfo.initiator == old(hitInfo.initiator)
        && hitInfo.hitPositionWorld == old(hitInfo.hitPositionWorld)
    {
      if target.PlayerEntity? && hitInfo.initiator.Some? && hitInfo.initiator.value.PlayerEntity? {
        var player := target.player;
        var attacker := hitInfo.initiator.value.player;
        var isPlayerNearBase := IsNearBase(anchors, player.position);
        var isAttackerNearBase := IsNearBase(anchors, attacker.position);
        if isPlayerNearBase && isAttackerNearBase {
          return;
        }
        hitInfo.damageTypes := [];
        hitInfo.hitMaterial := 0;
        hitInfo.doHitEffects := false;
        hitInfo.initiator := None;
        hitInfo.hitPositionWorld := Zero;
      }
    }

    /** `CheckPvPZoneStatus`: update the player's entry and send a message on a change. */
    method CheckPvPZoneStatus(player: Player, anchors: seq<Vec3>) returns (message: Option<ZoneMessage>)
      modifies this
      ensures var r := CheckStatus(old(playerPvPZoneStatus), player.userId, NearBase(anchors, player.position));
        playerPvPZoneStatus == r.status && message == r.message
    {
      var isNearBase := IsNearBase(anchors, player.position);
      var currentlyInPvPZone := player.userId in playerPvPZoneStatus && playerPvPZoneStatus[player.userId];
      if isNearBase && !currentlyInPvPZone {
        message := Some(Entered);
        playerPvPZoneStatus := playerPvPZoneStatus[player.userId := true];
      } else if !isNearBase && currentlyInPvPZone {
        message := Some(Exited);
        playerPvPZoneStatus := playerPvPZoneStatus[player.userId := false];
      } else {
        message := None;
      }
    }

    /** `OnTick`: check every active player once, in list order. */
    method OnTick(active: seq<Player>, anchors: seq<Vec3>)
      modifies this
      ensures playerPvPZoneStatus == TickStatus(old(playerPvPZoneStatus), active, anchors)
    {
      var i := 0;
      while i < |active|
        invariant 0 <= i <= |active|
        invariant TickStatus(old(playerPvPZoneStatus), active, anchors)
               == TickStatus(playerPvPZoneStatus, active[i..], anchors)
      {
        var _ := CheckPvPZoneStatus(active[i], anchors);
        assert active[i..][1..] == active[i + 1..];
        i := i + 1;
      }
    }
  }
}
