/** GameMechanics (backend/game_mechanics.py): the registry of active
    players and the per-frame update that advances the missiles and resolves
    their hits against the living players. The clock is the parameter `now`. */
module Mechanics {
  import opened Base
  import opened Combat

  /** The radius every player target is given in update. */
  const PlayerRadius := 2.0

  /** The dictionary a player is registered with: only its `position` and
      `is_alive` entries are read, each possibly absent. */
  datatype PlayerData = PlayerData(position: Option<Vec3>, isAlive: Option<bool>)

  /** data.get('is_alive', True). */
  predicate Alive(d: PlayerData) {
    d.isAlive.GetOr(true)
  }

  /** The ids of the registered players that count as alive. */
  function AliveSet(players: map<string, PlayerData>): set<string> {
    set id | id in players && Alive(players[id])
  }

  function TargetIds(ts: seq<Target>): (r: seq<string>)
    ensures |r| == |ts| && forall i :: 0 <= i < |ts| ==> r[i] == ts[i].targetId
  {
    seq(|ts|, i requires 0 <= i < |ts| => ts[i].targetId)
  }

  /** The `targets` dictionary of update: every living player, in
      registration order, at its position (the origin when it has none) with
      radius 2. */
  function AliveTargets(ids: seq<string>, players: map<string, PlayerData>): (r: seq<Target>)
    requires forall id :: id in ids ==> id in players
    ensures TargetIds(r) == Keep(ids, AliveSet(players))
    ensures forall t :: t in r ==>
              && t.targetId in players && Alive(players[t.targetId])
              && t.position == players[t.targetId].position.GetOr(Origin) && t.radius == Some(PlayerRadius)
  {
    if ids == [] then []
    else
      var init, id := ids[..|ids| - 1], ids[|ids| - 1];
      assert forall x :: x in init ==> x in ids;
      var front := AliveTargets(init, players);
      var tail := if Alive(players[id]) then [Target(id, players[id].position.GetOr(Origin), Some(PlayerRadius))] else [];
      assert TargetIds(front + tail) == TargetIds(front) + TargetIds(tail);
      front + tail
  }

  /** Every collision an update reports hits a registered, living player
      other than the missile's owner, and names the owner and damage of the
      missile that hit. */
  lemma UpdateHitsOnlyLivingPlayers(ids: seq<string>, table: map<string, Missile>,
                                    order: seq<string>, players: map<string, PlayerData>)
    requires forall id :: id in ids ==> id in table
    requires forall id :: id in order ==> id in players
    ensures forall c :: c in CollisionsOf(ids, table, AliveTargets(order, players)) ==>
              && c.targetId in players && Alive(players[c.targetId])
              && c.targetId != c.attackerId && c.missileId in table
              && c.attackerId == table[c.missileId].ownerId && c.damage == table[c.missileId].damage
  {
    var targets := AliveTargets(order, players);
    CollisionsWellFormed(ids, table, targets);
    forall c | c in CollisionsOf(ids, table, targets)
      ensures c.targetId in players && Alive(players[c.targetId])
    {
      var k := FirstHit(table[c.missileId], targets).value;
      assert targets[k] in targets;
    }
  }

  /** The result of update. */
  datatype UpdateResult = UpdateResult(
    removedMissiles: seq<string>,
    collisions: seq<Collision>,
    activeMissiles: seq<Missile>)

  class GameMechanics {
    const combat: CombatSystem
    var matchStartTime: real
    var players: map<string, PlayerData>
    /** The players' registration order, the order Python iterates them in. */
    var playerOrder: seq<string>

    ghost predicate Valid()
      reads this, combat
    {
      combat.Valid() && Distinct(playerOrder) && forall id :: id in players <==> id in playerOrder
    }

    constructor (now: real)
      ensures Valid()
      ensures fresh(combat) && combat.missiles == map[] && combat.order == []
      ensures matchStartTime == now && players == map[] && playerOrder == []
    {
      combat := new CombatSystem();
      matchStartTime := now;
      players := map[];
      playerOrder := [];
    }

    /** register_player: store (or replace) the player's data; a new player
        joins the end of the order, a known one keeps its place. */
    method RegisterPlayer(playerId: string, data: PlayerData)
      requires Valid()
      modifies this
      ensures Valid()
      ensures players == old(players)[playerId := data]
      ensures playerOrder == if playerId in old(players) then old(playerOrder) else old(playerOrder) + [playerId]
      ensures matchStartTime == old(matchStartTime)
    {
      if playerId !in players {
        playerOrder := playerOrder + [playerId];
      }
      players := players[playerId := data];
    }

    /** unregister_player: forget the player if registered. */
    method UnregisterPlayer(playerId: string)
      requires Valid()
      modifies this
      ensures Valid()
      ensures players == old(players) - {playerId}
      ensures playerOrder == Drop(old(playerOrder), {playerId})
      ensures matchStartTime == old(matchStartTime)
    {
      if playerId in players {
        players := players - {playerId};
        playerOrder := Drop(playerOrder, {playerId});
      } else {
        DropAbsent(playerOrder, {playerId});
      }
    }

    /** update_player_position: move a registered player; ignore anyone else. */
    method UpdatePlayerPosition(playerId: string, position: Vec3)
      requires Valid()
      modifies this
      ensures Valid()
      ensures playerId in old(players) ==>
                players == old(players)[playerId := old(players)[playerId].(position := Some(position))]
      ensures playerId !in old(players) ==> players == old(players)
      ensures playerOrder == old(playerOrder) && matchStartTime == old(matchStartTime)
    {
      if playerId in players {
        players := players[playerId := players[playerId].(position := Some(position))];
      }
    }

    /** get_match_duration: the time since the match started, which is
        non-negative exactly when the clock is not behind the start. */
    function MatchDuration(now: real): (d: real)
      reads this
      ensures d >= 0.0 <==> now >= matchStartTime
    {
      now - matchStartTime
    }

    /** reset_match: no missiles, no players, and the match starts now. */
    method ResetMatch(now: real)
      requires Valid()
      modifies this, combat
      ensures Valid()
      ensures combat.missiles == map[] && combat.order == []
      ensures players == map[] && playerOrder == []
      ensures MatchDuration(now) == 0.0
    {
      combat.ClearMissiles();
      matchStartTime := now;
      players := map[];
      playerOrder := [];
    }

    /** update: advance and expire the missiles, then resolve hits against
        the living players, and report what was removed, the collisions and
        the missiles still in flight. */
    method Update(deltaTime: real, now: real) returns (r: UpdateResult)
      requires Valid()
      modifies combat
      ensures Valid()
      ensures var dead := Expired(old(combat.missiles), deltaTime, now);
              var flying := Survivors(old(combat.missiles), deltaTime, now);
              var flyingOrder := Drop(old(combat.order), dead);
              var targets := AliveTargets(playerOrder, players);
              && r.removedMissiles == Keep(old(combat.order), dead)
              && (forall id :: id in flyingOrder ==> id in flying)
              && r.collisions == CollisionsOf(flyingOrder, flying, targets)
              && combat.missiles == flying - HitSet(flying, targets)
              && combat.order == Drop(flyingOrder, HitSet(flying, targets))
      ensures r.activeMissiles == combat.AllMissiles()
      ensures forall c :: c in r.collisions ==>
                c.targetId in players && Alive(players[c.targetId]) && c.targetId != c.attackerId
    {
      var removed := combat.UpdateMissiles(deltaTime, now);
      ghost var flyingOrder, flying := combat.order, combat.missiles;
      var targets := AliveTargets(playerOrder, players);
      var collisions := combat.CheckAllCollisions(targets);
      UpdateHitsOnlyLivingPlayers(flyingOrder, flying, playerOrder, players);
      r := UpdateResult(removed, collisions, combat.AllMissiles());
    }
  }
}
