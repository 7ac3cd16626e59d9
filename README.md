# Combat authorization for two Rust server plugins, modelled in Dafny

Two Oxide plugins decide whether a hit in the game lands.

- **Hybrid** (`hybrid.dfy`, module `Hybrid`). It keeps one record per player: PvE or PvP mode, the time of the last manual switch and the time of the last disconnect. Players switch with `/pve` and `/pvp`, at most once every four days. A periodic sweep turns a PvE player back to PvP once more than 25 hours have passed since their last recorded disconnect (or first join), whether or not they are online now: a reconnect does not update that time. The damage hook blocks a hit on a PvE owner's building block by any other player, and any hit between two players unless both are PvP. The store is the `playerData` field of the class `HybridPlugin`. Its transitions are also given as functions on the map (`SetMode`, `Disconnect`, `Join`, `Sweep`), and the methods are proved equal to them.
- **PvPBaseZone** (`zone.dfy`, module `PvPBaseZone`). A hit between two players is allowed only when both stand strictly within 50 units of some base anchor (a tool cupboard). Otherwise the plugin empties the hit's `HitInfo` in place: five fields are cleared. A per-player status map records whether each player was last seen inside a zone, and an enter or exit message is sent exactly when that status changes. `OnTick` runs this check for every active player.

`wrappers.dfy` holds the `Option` type that stands for nullable references.

Modelling choices:
- Time is an integer count of seconds. `DateTime.MinValue` is 0. `DateTime.Now` is a `now` parameter.
- `TimeSpan.Days` and `TimeSpan.Hours` are written with C#'s truncating division (`TruncDiv`), so that negative spans are also modelled.
- Positions are triples of reals. "Distance < 50" is stated as "squared distance < 2500".
- The world's cupboards are a sequence of anchor positions passed to each call.
- An entity is a player (with its id, and in the zone plugin its position), a building block (with its owner id), or some other entity. The hit's initiator is an `Option` of an entity.

Where the code and its comments disagree, the model follows the code:
- The cooldown is four days, although a comment says one week.
- A player created by `OnPlayerInit` starts in PvE, although a comment says PvP. The `defaultPvP` constant is unused.
- A record first created on disconnect gets `IsPvE = false`, the C# default.
- The building rule blocks only initiators that are players. A hit on a PvE owner's building with no initiator, or with a non-player initiator, is allowed.
- The damage hook never creates a record for an unknown id. An unknown player counts as PvP.
- A switch attempted one hour before the cooldown ends is refused with "0 days and 1 hours" remaining, since the remaining span is one hour (`SwitchBackScenario`).

## Model

| member | source | states |
|---|---|---|
| `Hybrid.UserIdIsPvE` | Hybrid.cs:171-174 | A player is PvE iff they have a record that says PvE. No record reads as PvP. `IsPvE` at Hybrid.cs:235-238 is the same read. |
| `Hybrid.CanSwitch` | Hybrid.cs:126-133 | A switch is allowed iff there is no record, or at least 4 days have passed since the last switch (inclusive). Equivalently, the remaining cooldown is not positive. |
| `Hybrid.RemainingTime` | Hybrid.cs:89 | The remaining span `cooldown - (now - LastSwitchTime)` is positive iff `now` is before the end of the cooldown. It is at most the cooldown when the clock has not gone back. `/pvp` computes the same span at Hybrid.cs:105. |
| `Hybrid.Expire` | Hybrid.cs:53-55 | One sweep step: the record stays PvE iff it was PvE and at most 25 hours have passed since the last recorded disconnect (or first join), whether or not the player is online now. Its switch and login times are kept. |
| `Hybrid.TimeSpanParts` | Hybrid.cs:89-90 | The reported Hours lie strictly between -24 and 24. For a non-negative span, Days and Hours are non-negative and are the whole days and leftover whole hours of the span. For a negative span, neither is positive. |
| `Hybrid.SetMode` | Hybrid.cs:111-123 | After a switch, the player has a record with the requested mode and `LastSwitchTime == now`. An existing `LastLogin` is kept; a fresh record has `MinValue`. The key set gains only this player, and every other record is unchanged. |
| `Hybrid.Disconnect` | Hybrid.cs:62-75 | After a disconnect, the player's `LastLogin` is `now`. An existing mode and switch time are kept. A fresh record is PvP with switch time `MinValue`. No other record changes. |
| `Hybrid.Join` | Hybrid.cs:161-168 | A new player is inserted as PvE with switch time `MinValue` and last login `now`. A known player's record, and the whole store, are untouched. |
| `Hybrid.Sweep` | Hybrid.cs:48-60 | The key set is kept. Each record's mode becomes "was PvE and at most 25 hours since the last recorded disconnect (or first join)", whether or not the player is online now. Switch and login times are unchanged. |
| `Hybrid.DamageBlocked` | Hybrid.cs:176-224 | A building-block hit is blocked iff the owner is non-zero, has a PvE record, and the initiator is a different player. A player-on-player hit is allowed iff both are PvP, where a missing record counts as PvP. Everything else is allowed. |
| `Hybrid.ReconnectDoesNotRenewProtection` | Hybrid.cs:53 | A PvE player who disconnects at `d` and reconnects an hour later is turned to PvP by a sweep 26 hours after the disconnect, although they are online: `OnPlayerInit` does not touch a known record's last-login time. |
| `Hybrid.SwitchWithoutRecordExpires` | Hybrid.cs:113-116 | A `/pve` by a player without a record creates one whose last-login time is `MinValue`. Any sweep at a realistic clock turns that player back to PvP, and the player then cannot switch for four days. |
| `Hybrid.SwitchStartsCooldown` | Hybrid.cs:126-133 | After a switch at `t`, switching is allowed again exactly when `now >= t + 4 days`. The bound is inclusive. |
| `Hybrid.RejectionWait` | Hybrid.cs:87-91 | When a switch is refused, the player has a record and the reported remaining time is strictly positive. It is at most the cooldown when the clock has not gone back. Days and Hours are its whole-day and leftover-hour parts. |
| `Hybrid.SwitchKeepsLastLogin` | Hybrid.cs:111-123 | A switch of an existing record changes only its mode and its switch time. |
| `Hybrid.NeverSwitchedCanSwitch` | Hybrid.cs:126-133 | A player without a record, or whose switch time is still `MinValue`, may switch, given a clock at least four days past `MinValue`. |
| `Hybrid.JoinIdempotent` | Hybrid.cs:161-168 | A second `OnPlayerInit` changes nothing. |
| `Hybrid.SweepOnlyDrainsPvE` | Hybrid.cs:51-58 | The sweep never turns a player PvE and leaves PvP records as they were. |
| `Hybrid.SweepComposes` | Hybrid.cs:48-60 | A sweep at `t1` followed by a sweep at a later `t2` equals a single sweep at `t2`. Two sweeps at the same time equal one. |
| `Hybrid.SweepKeepsCooldown` | Hybrid.cs:53-55 | The sweep bypasses the cooldown. It does not change whether any player may switch at any time. |
| `Hybrid.SweepNeverBlocksMore` | Hybrid.cs:176-224 | A hit that the damage hook allows before a sweep is still allowed after it. |
| `Hybrid.PlayerRuleSymmetric` | Hybrid.cs:193-220 | Between two players, the decision does not depend on who is the attacker. |
| `Hybrid.OwnerMayDamageOwnBuilding` | Hybrid.cs:179-191 | A player's hits on their own building block are never blocked. |
| `Hybrid.SwitchBackScenario` | Hybrid.cs:103-107 | After a switch at `t0`, a request one hour before the cooldown ends is refused with 0 days and 1 hour left. A request one hour after it succeeds. |
| `Hybrid.HybridPlugin.constructor` | Hybrid.cs:27 | The store starts empty. |
| `Hybrid.HybridPlugin.CheckOfflinePlayers` | Hybrid.cs:48-60 | The loop over the dictionary leaves exactly `Sweep(old store, now)`. |
| `Hybrid.HybridPlugin.OnPlayerDisconnected` | Hybrid.cs:62-75 | The new store is `Disconnect(old store, id, now)`. |
| `Hybrid.HybridPlugin.SetPvEMode` | Hybrid.cs:111-123 | The new store is `SetMode(old store, id, mode, now)`. |
| `Hybrid.HybridPlugin.CmdPvE` | Hybrid.cs:79-92 | When a switch is allowed, the player becomes PvE via `SetMode` and the reply is a success. Otherwise the store is unchanged and the reply carries the Days and Hours of the remaining cooldown. |
| `Hybrid.HybridPlugin.CmdPvP` | Hybrid.cs:96-108 | The same as `/pve`, switching to PvP. |
| `Hybrid.HybridPlugin.OnPlayerInit` | Hybrid.cs:161-168 | The new store is `Join(old store, id, now)`. |
| `Hybrid.HybridPlugin.OnEntityTakeDamage` | Hybrid.cs:176-224 | The hook returns the `DamageBlocked` decision on the current store. It has no modifies clause, so it changes no state. |
| `PvPBaseZone.WithinZone` | PvPBaseZone.cs:24 | A position is within an anchor's zone iff its squared distance is strictly below 50². The anchor's own position is inside. A position at 50 or more is outside. |
| `PvPBaseZone.NearBase` | PvPBaseZone.cs:17-31 | A position is near a base iff some anchor's zone contains it. With no anchors, nothing is near. A position that is itself an anchor is near. |
| `PvPBaseZone.IsNearBase` | PvPBaseZone.cs:17-31 | The early-return scan is true iff some anchor lies strictly within 50 units of the position. |
| `PvPBaseZone.NoAnchorsNoZone` | PvPBaseZone.cs:17-31 | With no anchors, no position is near a base. |
| `PvPBaseZone.BoundaryIsOutside` | PvPBaseZone.cs:24 | A position at exactly 50 units from the only anchor is not near a base. |
| `PvPBaseZone.CheckStatus` | PvPBaseZone.cs:58-76 | After a check, the player's effective status equals the proximity result. A message is sent iff that status changed: an entry iff the player is now near. With no message, the map is unchanged. Other players' entries are unchanged. |
| `PvPBaseZone.CheckStatusIdempotent` | PvPBaseZone.cs:64-75 | A second check with the same proximity result sends nothing and changes nothing. |
| `PvPBaseZone.OutsideCreatesNoEntry` | PvPBaseZone.cs:70-75 | A player who is not near a base and has no entry gets no entry. |
| `PvPBaseZone.AnnouncementsFollowCrossings` | PvPBaseZone.cs:58-76 | Over any sequence of checks, one message is sent per boundary crossing. Two consecutive messages are never of the same kind. The first message is an entry iff the player started outside. |
| `PvPBaseZone.InsideOutsideInside` | PvPBaseZone.cs:64-75 | Inside, then outside, then inside again yields an entry, an exit and an entry. |
| `PvPBaseZone.TickStatus` | PvPBaseZone.cs:78-84 | One tick applies the status check to each active player in list order. The only keys it can add are active players' ids. |
| `PvPBaseZone.TickSettlesActivePlayers` | PvPBaseZone.cs:78-84 | After one tick over distinct active players, each one's status is their proximity result. Every other player's entry is unchanged. |
| `PvPBaseZone.Vetoed` | PvPBaseZone.cs:35-44 | A hit is vetoed iff the target and the initiator are both players and not both are near a base. Only player-on-player hits are ever vetoed. |
| `PvPBaseZone.NoBasesNoPvP` | PvPBaseZone.cs:35-51 | With no anchors in the world, every player-on-player hit is vetoed. |
| `PvPBaseZone.DifferentAnchorsSuffice` | PvPBaseZone.cs:37-44 | Two players near two different anchors may fight. |
| `PvPBaseZone.PvPBaseZonePlugin.constructor` | PvPBaseZone.cs:15 | The status map starts empty. |
| `PvPBaseZone.PvPBaseZonePlugin.OnEntityTakeDamage` | PvPBaseZone.cs:33-55 | A player-on-player hit where one of the two is not near a base is cleared in place: no damage types, material 0, no hit effects, no initiator, zero impact position. Any other hit, including a hit where the target or the initiator is not a player, is left unchanged in all five fields. |
| `PvPBaseZone.PvPBaseZonePlugin.CheckPvPZoneStatus` | PvPBaseZone.cs:58-76 | The new status map and the message sent are those of `CheckStatus` applied to the proximity result of the player's position. |
| `PvPBaseZone.PvPBaseZonePlugin.OnTick` | PvPBaseZone.cs:78-84 | The loop applies the status check once to each active player in list order. The resulting map is `TickStatus` of the old one. |

## Left out

- Persistence (`SaveData`, `LoadData`, the JSON file, Hybrid.cs:242-270): file I/O through an external library. The store starts empty. The saves that follow the sweep, a disconnect and a switch are not modelled. `OnPlayerInit` does not save.
- Timers (`timer.Every`, `timer.Repeat`): the sweep and the tick are methods that the caller invokes.
- Clock: `DateTime.Now` is a parameter. One `now` stands for all of a hook's or command's reads of the clock. The code reads it again in the rejection branch of `/pve` and `/pvp` and in `SetPvEMode`, so a few ticks may pass between reads; the model does not capture that. Resolution below one second and calendar formatting beyond Days and Hours are not modelled.
- Chat and log output is not modelled: reply texts, the "pve" echo, the attacker notices in the damage hooks, `Puts`, the help command, the periodic broadcast and the welcome message. The command replies and zone messages are modelled as values only.
- `Vector3.Distance` float rounding: distances are exact reals.
- The enumeration of `BaseEntity.serverEntities`: the caller passes the cupboard positions.
- `DamageTypeList`: its internal array of per-type amounts is modelled as a list of entries. A freshly constructed list is the empty list.
- `PreventDamage` (Hybrid.cs:226-233) is never called and is not modelled. Neither is the unused `defaultPvP` constant.
- How the two plugins combine on the same damage event: they are independent subscribers, and the code gives no rule for combining them.
- Player ids are unbounded naturals. The code does no arithmetic on ids, so the 64-bit width has no effect.
- PvPBaseZone.PvPBaseZonePlugin.OnTick: the messages sent during a tick are not collected. Each one is given by `CheckPvPZoneStatus`.
