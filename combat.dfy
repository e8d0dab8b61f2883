/** The projectile table of the arena and its resolution against targets:
    `Missile` and `CombatSystem` in backend/game_mechanics.py. */
module Combat {
  import opened Base

  /** Extra reach added to every target's radius by the hit test. */
  const HitDetectionRadius: real := 2.0
  /** Radius of a target whose record gives none. */
  const DefaultTargetRadius: real := 2.0
  /** Range of every missile (the dataclass default). */
  const DefaultMaxDistance: real := 100.0

  datatype Missile = Missile(
    missileId: string,
    ownerId: string,
    position: Vec3,
    velocity: Vec3,
    damage: int,
    speed: real,
    lifetime: real,
    createdAt: real,
    maxDistance: real)

  /** norm(velocity) * elapsed > bound, decided without a square root. A
      missile at rest, or one checked at its launch time, never exceeds a
      non-negative range. */
  predicate TravelExceeds(velocity: Vec3, elapsed: real, bound: real)
    ensures bound >= 0.0 && (Norm2(velocity) == 0.0 || elapsed == 0.0) ==> !TravelExceeds(velocity, elapsed, bound)
    ensures bound < 0.0 && elapsed >= 0.0 ==> TravelExceeds(velocity, elapsed, bound)
  {
    var n2 := Norm2(velocity);
    if elapsed > 0.0 then bound < 0.0 || n2 * (elapsed * elapsed) > bound * bound
    else if elapsed == 0.0 then bound < 0.0
    else bound < 0.0 && n2 * (elapsed * elapsed) < bound * bound
  }

  /** For the true speed s = norm(velocity), TravelExceeds is s * elapsed > bound. */
  lemma TravelExceedsMeaning(velocity: Vec3, elapsed: real, bound: real, s: real)
    requires s >= 0.0 && s * s == Norm2(velocity)
    ensures TravelExceeds(velocity, elapsed, bound) <==> s * elapsed > bound
  {
    var t := s * elapsed;
    assert t * t == (s * s) * (elapsed * elapsed);
    if elapsed > 0.0 {
      assert t >= 0.0;
      if bound >= 0.0 {
        SquareLess(bound, t);
      }
    } else if elapsed < 0.0 {
      assert t <= 0.0;
      if bound < 0.0 {
        assert (-t) * (-t) == t * t;
        assert (-bound) * (-bound) == bound * bound;
        SquareLess(-t, -bound);
      }
    }
  }

  /** The launch velocity create_missile computes from a direction whose
      norm is `length`. */
  function LaunchVelocity(direction: Vec3, length: real, speed: real): Vec3
    requires length >= 0.0
  {
    if length > 0.0 then Scale(Scale(direction, 1.0 / length), speed) else Scale(direction, speed)
  }

  /** A missile launched along a non-zero direction moves at exactly `speed`
      (squared norm speed * speed); one launched along the zero vector does not move. */
  lemma LaunchSpeed(direction: Vec3, length: real, speed: real)
    requires length >= 0.0 && length * length == Norm2(direction)
    ensures length > 0.0 ==> Norm2(LaunchVelocity(direction, length, speed)) == speed * speed
    ensures length == 0.0 ==> Norm2(LaunchVelocity(direction, length, speed)) == 0.0
  {
    if length > 0.0 {
      UnitLength(direction, length);
      ScaleNorm(Scale(direction, 1.0 / length), speed);
    } else {
      ScaleNorm(direction, speed);
    }
  }

  /** What one call of Missile.update leaves: the moved missile and whether it
      is still alive. */
  datatype Flight = Flight(missile: Missile, alive: bool)

  /** Missile.update: the missile moves by velocity * deltaTime, then it
      expires when the time since its creation exceeds its lifetime or when
      speed times that time exceeds its range. `now` stands for the clock
      reading the source takes inside the call. */
  function Update(m: Missile, deltaTime: real, now: real): (r: Flight)
    ensures r.missile.position == Add(m.position, Scale(m.velocity, deltaTime))
    ensures r.missile.(position := m.position) == m
    ensures now - m.createdAt > m.lifetime ==> !r.alive
  {
    var moved := m.(position := Add(m.position, Scale(m.velocity, deltaTime)));
    var elapsed := now - m.createdAt;
    if elapsed > m.lifetime then Flight(moved, false)
    else if TravelExceeds(m.velocity, elapsed, m.maxDistance) then Flight(moved, false)
    else Flight(moved, true)
  }

  /** A missile survives an update exactly when it is within its lifetime and
      has not yet flown farther than its range, for its true speed s. */
  lemma UpdateSurvival(m: Missile, deltaTime: real, now: real, s: real)
    requires s >= 0.0 && s * s == Norm2(m.velocity)
    ensures Update(m, deltaTime, now).alive <==>
              now - m.createdAt <= m.lifetime && s * (now - m.createdAt) <= m.maxDistance
  {
    TravelExceedsMeaning(m.velocity, now - m.createdAt, m.maxDistance, s);
  }

  /** A missile fired from the origin along (1,0,0) at speed 2 with lifetime 5
      is at (2,0,0) and still alive one second later. */
  lemma StraightFlightOneSecond()
    ensures var m := Missile("m", "p", Origin, Vec3(2.0, 0.0, 0.0), 20, 2.0, 5.0, 0.0, DefaultMaxDistance);
            Update(m, 1.0, 1.0) == Flight(m.(position := Vec3(2.0, 0.0, 0.0)), true)
  {
  }

  /** One entry of the `targets` dictionary: an id, a position and an
      optional radius. */
  datatype Target = Target(targetId: string, position: Vec3, radius: Option<real>)

  function TargetRadius(t: Target): real {
    t.radius.GetOr(DefaultTargetRadius)
  }

  /** CombatSystem.check_collision: the missile is within reach of the
      target. A target without a radius is reached within 4 (the 2.0 hit
      radius plus the default 2.0). */
  predicate InRange(m: Missile, t: Target)
    ensures t.radius.None? ==> (InRange(m, t) <==> Dist2(m.position, t.position) <= 16.0)
  {
    WithinDistance(m.position, t.position, HitDetectionRadius + TargetRadius(t))
  }

  /** The target is not the missile's owner and is within reach. */
  predicate Hits(m: Missile, t: Target) {
    m.ownerId != t.targetId && InRange(m, t)
  }

  /** The index of the first target, in iteration order, that the missile hits. */
  function FirstHit(m: Missile, targets: seq<Target>): (r: Option<nat>)
    ensures r.Some? ==> r.value < |targets| && Hits(m, targets[r.value])
    ensures r.Some? ==> forall j :: 0 <= j < r.value ==> !Hits(m, targets[j])
    ensures r.None? ==> forall j :: 0 <= j < |targets| ==> !Hits(m, targets[j])
  {
    if targets == [] then None
    else if Hits(m, targets[0]) then Some(0)
    else
      match FirstHit(m, targets[1..])
      case None => None
      case Some(k) => Some(k + 1)
  }

  /** The inner loop of check_all_collisions: skip the owner, stop at the
      first target in reach. */
  method FindTarget(m: Missile, targets: seq<Target>) returns (hit: Option<nat>)
    ensures hit == FirstHit(m, targets)
  {
    var i := 0;
    while i < |targets|
      invariant 0 <= i <= |targets|
      invariant forall j :: 0 <= j < i ==> !Hits(m, targets[j])
    {
      var t := targets[i];
      if m.ownerId == t.targetId {
        i := i + 1;
        continue;
      }
      if InRange(m, t) {
        return Some(i);
      }
      i := i + 1;
    }
    return None;
  }

  datatype Collision = Collision(
    missileId: string,
    targetId: string,
    damage: int,
    attackerId: string,
    position: Vec3)

  /** The collision the missile stored under `id` produces against `targets`, if any. */
  function CollisionOf(id: string, m: Missile, targets: seq<Target>): seq<Collision> {
    match FirstHit(m, targets)
    case None => []
    case Some(k) => [Collision(id, targets[k].targetId, m.damage, m.ownerId, m.position)]
  }

  /** The collision list check_all_collisions builds, scanning missiles in `ids` order. */
  function CollisionsOf(ids: seq<string>, table: map<string, Missile>, targets: seq<Target>): seq<Collision>
    requires forall id :: id in ids ==> id in table
  {
    if ids == [] then []
    else
      var init, id := ids[..|ids| - 1], ids[|ids| - 1];
      CollisionsOf(init, table, targets) + CollisionOf(id, table[id], targets)
  }

  /** The ids of the missiles that hit some target. */
  function HitSet(table: map<string, Missile>, targets: seq<Target>): set<string> {
    set id | id in table && FirstHit(table[id], targets).Some?
  }

  function MissileIds(cs: seq<Collision>): (r: seq<string>)
    ensures |r| == |cs| && forall i :: 0 <= i < |cs| ==> r[i] == cs[i].missileId
  {
    seq(|cs|, i requires 0 <= i < |cs| => cs[i].missileId)
  }

  /** One missile's turn in check_all_collisions: find its first target in
      reach and report the collision, or nothing when it hits no target. */
  method CollideOne(id: string, m: Missile, targets: seq<Target>) returns (c: seq<Collision>)
    ensures c == CollisionOf(id, m, targets)
    ensures c != [] <==> FirstHit(m, targets).Some?
  {
    var hit := FindTarget(m, targets);
    c := [];
    if hit.Some? {
      c := [Collision(id, targets[hit.value].targetId, m.damage, m.ownerId, m.position)];
    }
  }

  /** The scanning loop of check_all_collisions over the keys `ids` of
      `table`: the collisions found, in scan order, and the ids to delete. */
  method ScanCollisions(ids: seq<string>, table: map<string, Missile>, targets: seq<Target>)
      returns (collisions: seq<Collision>, toRemove: seq<string>)
    requires forall id :: id in ids ==> id in table
    ensures collisions == CollisionsOf(ids, table, targets)
    ensures toRemove == Keep(ids, HitSet(table, targets))
  {
    collisions, toRemove := [], [];
    var i := 0;
    while i < |ids|
      invariant 0 <= i <= |ids|
      invariant collisions == CollisionsOf(ids[..i], table, targets)
      invariant toRemove == Keep(ids[..i], HitSet(table, targets))
    {
      var id := ids[i];
      assert ids[..i + 1] == ids[..i] + [id];
      var c := CollideOne(id, table[id], targets);
      collisions := collisions + c;
      if c != [] {
        toRemove := toRemove + [id];
      }
      i := i + 1;
    }
    assert ids[..i] == ids;
  }

  /** Every reported collision names a missile that hit, its first non-owner
      target in reach, the missile's owner as attacker and the missile's damage. */
  lemma {:induction false} CollisionsWellFormed(ids: seq<string>, table: map<string, Missile>, targets: seq<Target>)
    requires forall id :: id in ids ==> id in table
    ensures forall c :: c in CollisionsOf(ids, table, targets) ==>
              && c.missileId in ids
              && c.missileId in HitSet(table, targets)
              && c.attackerId == table[c.missileId].ownerId
              && c.damage == table[c.missileId].damage
              && c.position == table[c.missileId].position
              && c.targetId != c.attackerId
              && FirstHit(table[c.missileId], targets).Some?
              && c.targetId == targets[FirstHit(table[c.missileId], targets).value].targetId
  {
    if ids != [] {
      var init, id := ids[..|ids| - 1], ids[|ids| - 1];
      assert forall x :: x in init ==> x in ids;
      CollisionsWellFormed(init, table, targets);
    }
  }

  /** The collisions name exactly the missiles that hit, once each, in scan order. */
  lemma {:induction false} CollisionsFollowHits(ids: seq<string>, table: map<string, Missile>, targets: seq<Target>)
    requires forall id :: id in ids ==> id in table
    ensures MissileIds(CollisionsOf(ids, table, targets)) == Keep(ids, HitSet(table, targets))
  {
    if ids != [] {
      var init, id := ids[..|ids| - 1], ids[|ids| - 1];
      assert forall x :: x in init ==> x in ids;
      CollisionsFollowHits(init, table, targets);
      var front := CollisionsOf(init, table, targets);
      var tail := CollisionOf(id, table[id], targets);
      assert MissileIds(front + tail) == MissileIds(front) + MissileIds(tail);
    }
  }

  /** When the table's keys are scanned once each, no missile is reported twice. */
  lemma AtMostOneHitPerMissile(ids: seq<string>, table: map<string, Missile>, targets: seq<Target>)
    requires Distinct(ids) && forall id :: id in ids ==> id in table
    ensures Distinct(MissileIds(CollisionsOf(ids, table, targets)))
  {
    CollisionsFollowHits(ids, table, targets);
  }

  /** Once the hit missiles are deleted, no later scan, against any targets,
      can report one of them again. */
  lemma HitMissileNeverReportedAgain(ids: seq<string>, table: map<string, Missile>, targets: seq<Target>, later: seq<Target>)
    requires forall id :: id in ids ==> id in table
    ensures var hits := HitSet(table, targets);
            forall c :: c in CollisionsOf(Drop(ids, hits), table - hits, later) ==> c.missileId !in hits
  {
    var hits := HitSet(table, targets);
    CollisionsWellFormed(Drop(ids, hits), table - hits, later);
  }

  /** The ids of the missiles that expire in an update. */
  function Expired(table: map<string, Missile>, deltaTime: real, now: real): set<string> {
    set id | id in table && !Update(table[id], deltaTime, now).alive
  }

  /** The table after an update: the surviving missiles, moved. */
  function Survivors(table: map<string, Missile>, deltaTime: real, now: real): map<string, Missile> {
    map id | id in table && Update(table[id], deltaTime, now).alive :: Update(table[id], deltaTime, now).missile
  }

  /** The missiles stored under `ids`, in that order. */
  function InOrder(ids: seq<string>, table: map<string, Missile>): (r: seq<Missile>)
    requires forall id :: id in ids ==> id in table
    ensures |r| == |ids| && forall i :: 0 <= i < |ids| ==> r[i] == table[ids[i]]
  {
    if ids == [] then [] else InOrder(ids[..|ids| - 1], table) + [table[ids[|ids| - 1]]]
  }

  /** A missile past its lifetime is gone after the next update. */
  lemma PastLifetimeRemoved(table: map<string, Missile>, id: string, deltaTime: real, now: real)
    requires id in table && now - table[id].createdAt > table[id].lifetime
    ensures id in Expired(table, deltaTime, now) && id !in Survivors(table, deltaTime, now)
  {
  }

  /** The table part-way through update_missiles: the keys in `seen` have
      been advanced (and deleted if they expired), the others are untouched. */
  function PartlyUpdated(table: map<string, Missile>, seen: set<string>, deltaTime: real, now: real): map<string, Missile> {
    map id | id in table && (id !in seen || Update(table[id], deltaTime, now).alive) ::
      if id in seen then Update(table[id], deltaTime, now).missile else table[id]
  }

  lemma PartlyUpdatedStep(table: map<string, Missile>, seen: set<string>, id: string, deltaTime: real, now: real)
    requires id in table && id !in seen
    ensures var before, after := PartlyUpdated(table, seen, deltaTime, now), PartlyUpdated(table, seen + {id}, deltaTime, now);
            var f := Update(table[id], deltaTime, now);
            id in before && before[id] == table[id] &&
            after == if f.alive then before[id := f.missile] else before - {id}
  {
    var before, after := PartlyUpdated(table, seen, deltaTime, now), PartlyUpdated(table, seen + {id}, deltaTime, now);
    var f := Update(table[id], deltaTime, now);
    if f.alive {
      assert after.Keys == before[id := f.missile].Keys;
    } else {
      assert after.Keys == (before - {id}).Keys;
    }
  }

  /** What update_missiles has built so far: the ids it removed, the key
      order and the table. */
  datatype Sweep = Sweep(removed: seq<string>, order: seq<string>, table: map<string, Missile>)

  /** One iteration of update_missiles on the key `id`. */
  function SweepStep(st: Sweep, id: string, deltaTime: real, now: real): Sweep {
    if id !in st.table then st
    else
      var f := Update(st.table[id], deltaTime, now);
      if f.alive then st.(table := st.table[id := f.missile])
      else Sweep(st.removed + [id], Drop(st.order, {id}), st.table - {id})
  }

  /** The iterations of update_missiles over the keys `ids`, in order. */
  function SweepFrom(start: Sweep, ids: seq<string>, deltaTime: real, now: real): Sweep {
    if ids == [] then start
    else SweepStep(SweepFrom(start, ids[..|ids| - 1], deltaTime, now), ids[|ids| - 1], deltaTime, now)
  }

  /** Part-way through the sweep, the table is PartlyUpdated for the keys seen. */
  lemma {:induction false} SweepTable(snapshot: seq<string>, table: map<string, Missile>, i: nat, deltaTime: real, now: real)
    requires Distinct(snapshot) && forall x :: x in snapshot <==> x in table
    requires i <= |snapshot|
    ensures SweepFrom(Sweep([], snapshot, table), snapshot[..i], deltaTime, now).table
            == PartlyUpdated(table, Elements(snapshot[..i]), deltaTime, now)
  {
    if i == 0 {
      assert Elements(snapshot[..0]) == {};
      assert PartlyUpdated(table, {}, deltaTime, now) == table;
    } else {
      var k := i - 1;
      SweepUnfold(Sweep([], snapshot, table), snapshot, k, deltaTime, now);
      SweepTable(snapshot, table, k, deltaTime, now);
      ElementsStep(snapshot, k);
      PartlyUpdatedStep(table, Elements(snapshot[..k]), snapshot[k], deltaTime, now);
    }
  }

  /** The next key of the sweep is still in the table, unchanged. */
  lemma SweepPending(snapshot: seq<string>, table: map<string, Missile>, i: nat, deltaTime: real, now: real)
    requires Distinct(snapshot) && forall x :: x in snapshot <==> x in table
    requires i < |snapshot|
    ensures var t := SweepFrom(Sweep([], snapshot, table), snapshot[..i], deltaTime, now).table;
            snapshot[i] in t && t[snapshot[i]] == table[snapshot[i]]
  {
    SweepTable(snapshot, table, i, deltaTime, now);
    ElementsStep(snapshot, i);
    PartlyUpdatedStep(table, Elements(snapshot[..i]), snapshot[i], deltaTime, now);
  }

  /** The sweep over one more key is one more step. */
  lemma SweepUnfold(start: Sweep, snapshot: seq<string>, i: nat, deltaTime: real, now: real)
    requires i < |snapshot|
    ensures SweepFrom(start, snapshot[..i + 1], deltaTime, now)
            == SweepStep(SweepFrom(start, snapshot[..i], deltaTime, now), snapshot[i], deltaTime, now)
  {
    assert snapshot[..i + 1][..i] == snapshot[..i];
  }

  /** Part-way through the sweep, the removed list holds the expired keys seen. */
  lemma {:induction false} SweepRemoved(snapshot: seq<string>, table: map<string, Missile>, i: nat, deltaTime: real, now: real)
    requires Distinct(snapshot) && forall x :: x in snapshot <==> x in table
    requires i <= |snapshot|
    ensures SweepFrom(Sweep([], snapshot, table), snapshot[..i], deltaTime, now).removed
            == Keep(snapshot[..i], Expired(table, deltaTime, now))
  {
    if i > 0 {
      var k, dead := i - 1, Expired(table, deltaTime, now);
      SweepRemoved(snapshot, table, k, deltaTime, now);
      SweepPending(snapshot, table, k, deltaTime, now);
      SweepUnfold(Sweep([], snapshot, table), snapshot, k, deltaTime, now);
      RemovedStep(snapshot, dead, k);
    }
  }

  /** Part-way through the sweep, the key order has lost the expired keys seen. */
  lemma {:induction false} SweepOrder(snapshot: seq<string>, table: map<string, Missile>, i: nat, deltaTime: real, now: real)
    requires Distinct(snapshot) && forall x :: x in snapshot <==> x in table
    requires i <= |snapshot|
    ensures SweepFrom(Sweep([], snapshot, table), snapshot[..i], deltaTime, now).order
            == Drop(snapshot, Elements(snapshot[..i]) * Expired(table, deltaTime, now))
  {
    var dead := Expired(table, deltaTime, now);
    if i == 0 {
      assert snapshot[..0] == [];
      assert Elements(snapshot[..0]) * dead == {};
      DropAbsent(snapshot, {});
    } else {
      var start, k := Sweep([], snapshot, table), i - 1;
      var id := snapshot[k];
      SweepOrder(snapshot, table, k, deltaTime, now);
      SweepPending(snapshot, table, k, deltaTime, now);
      SweepUnfold(start, snapshot, k, deltaTime, now);
      OrderStep(snapshot, dead, k);
      var prev := SweepFrom(start, snapshot[..k], deltaTime, now);
      if Update(table[id], deltaTime, now).alive {
        assert id !in dead;
        assert SweepFrom(start, snapshot[..i], deltaTime, now).order == prev.order;
      } else {
        assert id in dead;
        assert SweepFrom(start, snapshot[..i], deltaTime, now).order == Drop(prev.order, {id});
      }
    }
  }

  /** The whole sweep removes, in order, exactly the expired missiles and
      leaves the survivors, moved. */
  lemma SweepComplete(snapshot: seq<string>, table: map<string, Missile>, deltaTime: real, now: real)
    requires Distinct(snapshot) && forall x :: x in snapshot <==> x in table
    ensures var st, dead := SweepFrom(Sweep([], snapshot, table), snapshot, deltaTime, now), Expired(table, deltaTime, now);
            && st.removed == Keep(snapshot, dead)
            && st.order == Drop(snapshot, dead)
            && st.table == Survivors(table, deltaTime, now)
  {
    var n, dead := |snapshot|, Expired(table, deltaTime, now);
    assert snapshot[..n] == snapshot;
    SweepRemoved(snapshot, table, n, deltaTime, now);
    SweepOrder(snapshot, table, n, deltaTime, now);
    SweepTable(snapshot, table, n, deltaTime, now);
    AllSeen(snapshot, table, deltaTime, now);
  }

  /** When every key has been seen, the expired keys seen are all the expired
      keys and the partly updated table is the survivors. */
  lemma AllSeen(snapshot: seq<string>, table: map<string, Missile>, deltaTime: real, now: real)
    requires forall x :: x in snapshot <==> x in table
    ensures Elements(snapshot) * Expired(table, deltaTime, now) == Expired(table, deltaTime, now)
    ensures PartlyUpdated(table, Elements(snapshot), deltaTime, now) == Survivors(table, deltaTime, now)
  {
    assert Elements(snapshot) == table.Keys;
  }

  /** The prefix of `s` one longer, as a set. */
  lemma ElementsStep(s: seq<string>, i: nat)
    requires i < |s|
    ensures Elements(s[..i + 1]) == Elements(s[..i]) + {s[i]}
    ensures Distinct(s) ==> s[i] !in Elements(s[..i])
  {
    assert s[..i + 1][..i] == s[..i];
  }

  /** One iteration of update_missiles extends the removed list by the
      `i`-th key exactly when that missile expires. */
  lemma RemovedStep(snapshot: seq<string>, dead: set<string>, i: nat)
    requires i < |snapshot|
    ensures Keep(snapshot[..i + 1], dead) == Keep(snapshot[..i], dead) + (if snapshot[i] in dead then [snapshot[i]] else [])
  {
    assert snapshot[..i + 1][..i] == snapshot[..i];
  }

  /** One iteration of update_missiles deletes the `i`-th key from the key
      order exactly when that missile expires. */
  lemma OrderStep(snapshot: seq<string>, dead: set<string>, i: nat)
    requires i < |snapshot|
    ensures var seen := Elements(snapshot[..i]);
            Drop(snapshot, Elements(snapshot[..i + 1]) * dead)
            == (if snapshot[i] in dead then Drop(Drop(snapshot, seen * dead), {snapshot[i]}) else Drop(snapshot, seen * dead))
  {
    var id, seen := snapshot[i], Elements(snapshot[..i]);
    ElementsStep(snapshot, i);
    if id in dead {
      assert (seen + {id}) * dead == seen * dead + {id};
      DropTwice(snapshot, seen * dead, {id});
    } else {
      assert (seen + {id}) * dead == seen * dead;
    }
  }

  /** Deleting one more key from a table that already lost `gone`. */
  lemma DeleteOneMore(table: map<string, Missile>, gone: set<string>, id: string)
    ensures id in table - gone ==> (table - gone) - {id} == table - (gone + {id})
    ensures id !in table - gone ==> table - gone == table - (gone + {id})
  {
    if id in table - gone {
      assert ((table - gone) - {id}).Keys == (table - (gone + {id})).Keys;
    } else {
      assert (table - gone).Keys == (table - (gone + {id})).Keys;
    }
  }

  /** CombatSystem: the live missiles keyed by id. `order` is the dictionary's
      insertion order, which is the order Python iterates it in. */
  class CombatSystem {
    var missiles: map<string, Missile>
    var order: seq<string>

    ghost predicate Valid()
      reads this
    {
      Distinct(order) && forall id :: id in missiles <==> id in order
    }

    constructor ()
      ensures Valid() && missiles == map[] && order == []
    {
      missiles := map[];
      order := [];
    }

    /** create_missile with the generated id `missileId`. `length` is the
        norm of `direction` (a non-negative root of its squared norm): a
        non-zero direction is normalised, a zero one is used as it is, and
        the result is scaled by `speed`. Storing under an id already present
        replaces that entry in place. */
    method CreateMissile(missileId: string, ownerId: string, position: Vec3, direction: Vec3, length: real,
                         damage: int, speed: real, lifetime: real, now: real) returns (m: Missile)
      requires Valid()
      requires length >= 0.0 && length * length == Norm2(direction)
      modifies this
      ensures Valid()
      ensures m == Missile(missileId, ownerId, position, LaunchVelocity(direction, length, speed),
                           damage, speed, lifetime, now, DefaultMaxDistance)
      ensures missiles == old(missiles)[missileId := m]
      ensures order == if missileId in old(missiles) then old(order) else old(order) + [missileId]
    {
      var unit := direction;
      if length > 0.0 {
        unit := Scale(direction, 1.0 / length);
      }
      m := Missile(missileId, ownerId, position, Scale(unit, speed), damage, speed, lifetime, now, DefaultMaxDistance);
      if missileId !in missiles {
        order := order + [missileId];
      }
      missiles := missiles[missileId := m];
    }

    /** update_missiles: advance every missile; delete and report, in
        iteration order, those that expired; keep the others, moved. */
    method UpdateMissiles(deltaTime: real, now: real) returns (removed: seq<string>)
      requires Valid()
      modifies this
      ensures Valid()
      ensures removed == Keep(old(order), Expired(old(missiles), deltaTime, now))
      ensures order == Drop(old(order), Expired(old(missiles), deltaTime, now))
      ensures missiles == Survivors(old(missiles), deltaTime, now)
    {
      var snapshot := order;
      ghost var start := Sweep([], order, missiles);
      removed := [];
      var i := 0;
      while i < |snapshot|
        invariant 0 <= i <= |snapshot|
        invariant Sweep(removed, order, missiles) == SweepFrom(start, snapshot[..i], deltaTime, now)
      {
        var id := snapshot[i];
        SweepPending(snapshot, start.table, i, deltaTime, now);
        SweepUnfold(start, snapshot, i, deltaTime, now);
        ghost var before := Sweep(removed, order, missiles);
        var flight := Update(missiles[id], deltaTime, now);
        if !flight.alive {
          missiles := missiles - {id};
          order := Drop(order, {id});
          removed := removed + [id];
        } else {
          missiles := missiles[id := flight.missile];
        }
        assert Sweep(removed, order, missiles) == SweepStep(before, id, deltaTime, now);
        i := i + 1;
      }
      assert snapshot[..i] == snapshot;
      SweepComplete(snapshot, start.table, deltaTime, now);
    }

    /** check_all_collisions: scan the missiles in order, record the first
        non-owner target each one hits, then delete every missile that hit. */
    method CheckAllCollisions(targets: seq<Target>) returns (collisions: seq<Collision>)
      requires Valid()
      modifies this
      ensures Valid()
      ensures collisions == CollisionsOf(old(order), old(missiles), targets)
      ensures missiles == old(missiles) - HitSet(old(missiles), targets)
      ensures order == Drop(old(order), HitSet(old(missiles), targets))
    {
      var toRemove;
      collisions, toRemove := ScanCollisions(order, missiles, targets);
      ElementsOfKeep(order, HitSet(missiles, targets));
      DeleteAll(toRemove);
    }

    /** The deletion loop of check_all_collisions: delete each listed key
        that is still present. */
    method DeleteAll(keys: seq<string>)
      requires Valid()
      modifies this
      ensures Valid()
      ensures missiles == old(missiles) - Elements(keys)
      ensures order == Drop(old(order), Elements(keys))
    {
      ghost var table, ids := missiles, order;
      assert Distinct(ids) && forall x :: x in ids <==> x in table;
      DropAbsent(ids, {});
      var j := 0;
      while j < |keys|
        invariant 0 <= j <= |keys|
        invariant missiles == table - Elements(keys[..j])
        invariant order == Drop(ids, Elements(keys[..j]))
      {
        var id := keys[j];
        ghost var gone := Elements(keys[..j]);
        assert keys[..j + 1][..j] == keys[..j];
        assert Elements(keys[..j + 1]) == gone + {id};
        DeleteOneMore(table, gone, id);
        DropTwice(ids, gone, {id});
        if id in missiles {
          missiles := missiles - {id};
          order := Drop(order, {id});
        } else {
          DropAbsent(order, {id});
        }
        j := j + 1;
      }
      assert keys[..j] == keys;
    }

    /** get_all_missiles: every live missile, in iteration order. */
    function AllMissiles(): (r: seq<Missile>)
      requires Valid()
      reads this
      ensures |r| == |order|
      ensures forall i :: 0 <= i < |order| ==> r[i] == missiles[order[i]]
      ensures forall id :: id in missiles ==> missiles[id] in r
      ensures forall m :: m in r ==> m in missiles.Values
    {
      var r := InOrder(order, missiles);
      assert forall id :: id in missiles ==> missiles[id] in r by {
        forall id | id in missiles
          ensures missiles[id] in r
        {
          var i :| 0 <= i < |order| && order[i] == id;
          assert r[i] == missiles[id];
        }
      }
      r
    }

    /** clear_missiles. */
    method ClearMissiles()
      modifies this
      ensures Valid() && missiles == map[] && order == []
    {
      missiles := map[];
      order := [];
    }
  }
}
