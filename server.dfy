/** The rules the websocket server (backend/main.py) applies around the game
    objects: difficulty and opponent count by level, the opponent id scheme
    `ai_<client>_<index>` and its inverse, which opponents a client's tick
    and disconnect select, the upgrade purchase, and spawn-point selection. */
module Server {
  import opened Base
  import Players

  // ---------------------------------------------------------------------
  // Difficulty and opponent count
  // ---------------------------------------------------------------------

  /** get_difficulty_for_level. */
  function DifficultyForLevel(level: int): (d: string)
    ensures d in {"easy", "normal", "hard", "extreme"}
  {
    if level <= 5 then "easy"
    else if level <= 10 then "normal"
    else if level <= 20 then "hard"
    else "extreme"
  }

  /** The order of the difficulty names, easiest first. */
  function DifficultyRank(d: string): int {
    if d == "easy" then 0
    else if d == "normal" then 1
    else if d == "hard" then 2
    else 3
  }

  /** A higher level never gets an easier difficulty; levels up to 5 are
      easy and levels above 20 extreme. */
  lemma DifficultyMonotone(l1: int, l2: int)
    requires l1 <= l2
    ensures DifficultyRank(DifficultyForLevel(l1)) <= DifficultyRank(DifficultyForLevel(l2))
    ensures l1 <= 5 ==> DifficultyForLevel(l1) == "easy"
    ensures l2 > 20 ==> DifficultyForLevel(l2) == "extreme"
  {
  }

  /** get_ai_count_for_level. */
  function AiCountForLevel(level: int): (n: int)
    ensures 1 <= n <= 5
  {
    if level <= 3 then 1
    else if level <= 7 then 2
    else if level <= 15 then 3
    else if level <= 25 then 4
    else 5
  }

  /** A higher level never gets fewer opponents. */
  lemma AiCountMonotone(l1: int, l2: int)
    requires l1 <= l2
    ensures AiCountForLevel(l1) <= AiCountForLevel(l2)
  {
  }

  // ---------------------------------------------------------------------
  // Decimal indices
  // ---------------------------------------------------------------------

  predicate IsDigit(c: char) {
    '0' <= c <= '9'
  }

  function DigitChar(d: nat): (c: char)
    requires d < 10
    ensures IsDigit(c)
  {
    ('0' as int + d) as char
  }

  function DigitValue(c: char): (d: nat)
    requires IsDigit(c)
    ensures d < 10
  {
    c as int - '0' as int
  }

  /** Python's str() of a non-negative int: its decimal digits. */
  function NatToString(n: nat): (s: string)
    ensures |s| > 0 && forall k :: 0 <= k < |s| ==> IsDigit(s[k])
    decreases n
  {
    if n < 10 then [DigitChar(n)] else NatToString(n / 10) + [DigitChar(n % 10)]
  }

  /** The value of a non-empty string of decimal digits. */
  function ParseNat(s: string): nat
    requires |s| > 0 && forall k :: 0 <= k < |s| ==> IsDigit(s[k])
    decreases |s|
  {
    if |s| == 1 then DigitValue(s[0])
    else ParseNat(s[..|s| - 1]) * 10 + DigitValue(s[|s| - 1])
  }

  /** Reading back the decimal digits of n gives n. */
  lemma {:induction false} ParseNatToString(n: nat)
    ensures ParseNat(NatToString(n)) == n
    decreases n
  {
    if n >= 10 {
      var s := NatToString(n);
      ParseNatToString(n / 10);
      assert s[..|s| - 1] == NatToString(n / 10);
    }
  }

  // ---------------------------------------------------------------------
  // Opponent ids
  // ---------------------------------------------------------------------

  /** The id of a client's i-th opponent: f"ai_{client_id}_{i}". */
  function AiId(clientId: string, i: nat): (r: string)
    ensures |r| == 4 + |clientId| + |NatToString(i)|
    ensures r[..3] == "ai_" && r[3..3 + |clientId|] == clientId && r[3 + |clientId|] == '_'
    ensures forall k :: 4 + |clientId| <= k < |r| ==> IsDigit(r[k])
  {
    "ai_" + clientId + "_" + NatToString(i)
  }

  /** The position of the last '_' in s, if any. */
  function LastUnderscore(s: string): (r: Option<nat>)
    ensures r.Some? ==> r.value < |s| && s[r.value] == '_'
                        && forall k :: r.value < k < |s| ==> s[k] != '_'
    ensures r.None? ==> forall k :: 0 <= k < |s| ==> s[k] != '_'
    decreases |s|
  {
    if s == [] then None
    else if s[|s| - 1] == '_' then Some(|s| - 1)
    else LastUnderscore(s[..|s| - 1])
  }

  /** s.rsplit('_', 1)[0]: everything before the last '_', or all of s. */
  function BeforeLastUnderscore(s: string): string {
    match LastUnderscore(s)
    case Some(k) => s[..k]
    case None => s
  }

  /** Everything after the last '_' (all of s when there is none). */
  function AfterLastUnderscore(s: string): string {
    match LastUnderscore(s)
    case Some(k) => s[k + 1..]
    case None => s
  }

  /** respawn_ai's owner lookup: ai_id[3:].rsplit('_', 1)[0]. */
  function OwnerOf(aiId: string): (r: string)
    ensures |aiId| >= 3 ==> 3 + |r| <= |aiId| && r == aiId[3..3 + |r|]
    ensures |aiId| < 3 ==> r == ""
  {
    BeforeLastUnderscore(if |aiId| >= 3 then aiId[3..] else "")
  }

  /** The last '_' of a + "_" + b is the one joining them when b has none. */
  lemma {:induction false} LastUnderscoreOfJoin(a: string, b: string)
    requires forall k :: 0 <= k < |b| ==> b[k] != '_'
    ensures LastUnderscore(a + "_" + b) == Some(|a|)
    decreases |b|
  {
    var s := a + "_" + b;
    if b != [] {
      var b' := b[..|b| - 1];
      assert s[..|s| - 1] == a + "_" + b';
      LastUnderscoreOfJoin(a, b');
    }
  }

  /** The owner lookup inverts the id scheme for every client id, even one
      that contains underscores, because the index has none. */
  lemma OwnerRoundTrip(clientId: string, i: nat)
    ensures OwnerOf(AiId(clientId, i)) == clientId
    ensures AfterLastUnderscore(AiId(clientId, i)[3..]) == NatToString(i)
  {
    var digits := NatToString(i);
    var id := AiId(clientId, i);
    assert id[3..] == clientId + "_" + digits;
    LastUnderscoreOfJoin(clientId, digits);
    assert (clientId + "_" + digits)[..|clientId|] == clientId;
    assert (clientId + "_" + digits)[|clientId| + 1..] == digits;
  }

  /** Distinct (client, index) pairs never share an id. */
  lemma AiIdInjective(c1: string, i1: nat, c2: string, i2: nat)
    requires AiId(c1, i1) == AiId(c2, i2)
    ensures c1 == c2 && i1 == i2
  {
    OwnerRoundTrip(c1, i1);
    OwnerRoundTrip(c2, i2);
    ParseNatToString(i1);
    ParseNatToString(i2);
  }

  /** The opponents added on a level-up, indices old .. new-1, have ids
      distinct from each other and from the existing ones 0 .. old-1. */
  lemma NewAiIdsFresh(clientId: string, oldCount: nat, newCount: nat)
    ensures forall i, j :: 0 <= j < oldCount <= i < newCount ==> AiId(clientId, i) != AiId(clientId, j)
    ensures forall i, j :: oldCount <= i < j < newCount ==> AiId(clientId, i) != AiId(clientId, j)
  {
    forall i, j | 0 <= j < oldCount <= i < newCount
      ensures AiId(clientId, i) != AiId(clientId, j)
    {
      if AiId(clientId, i) == AiId(clientId, j) {
        AiIdInjective(clientId, i, clientId, j);
      }
    }
    forall i, j | oldCount <= i < j < newCount
      ensures AiId(clientId, i) != AiId(clientId, j)
    {
      if AiId(clientId, i) == AiId(clientId, j) {
        AiIdInjective(clientId, i, clientId, j);
      }
    }
  }

  // ---------------------------------------------------------------------
  // Which opponents a client's tick and disconnect select
  // ---------------------------------------------------------------------

  predicate StartsWith(s: string, prefix: string) {
    |prefix| <= |s| && s[..|prefix|] == prefix
  }

  /** The per-tick selection: ids starting with f"ai_{client_id}_". */
  predicate OwnedAtTick(aiId: string, clientId: string) {
    StartsWith(aiId, "ai_" + clientId + "_")
  }

  /** The disconnect selection: ids starting with f"ai_{client_id}", no '_'. */
  predicate RemovedOnDisconnect(aiId: string, clientId: string) {
    StartsWith(aiId, "ai_" + clientId)
  }

  /** Every opponent a client updates on its tick is its own, and is removed
      when it disconnects. */
  lemma TickSelectionMeaning(clientId: string, i: nat, aiId: string)
    ensures OwnedAtTick(AiId(clientId, i), clientId)
    ensures OwnedAtTick(aiId, clientId) ==> RemovedOnDisconnect(aiId, clientId)
  {
    var p := "ai_" + clientId;
    assert AiId(clientId, i)[..|p + "_"|] == p + "_";
    if OwnedAtTick(aiId, clientId) {
      assert aiId[..|p|] == (p + "_")[..|p|];
    }
  }

  /** The disconnect selection reaches further: when client `c + x` exists
      with `x` non-empty and not starting with '_', the disconnect of `c`
      also removes its opponents, which `c`'s tick never selects. */
  lemma DisconnectOverreaches(c: string, x: string, i: nat)
    requires |x| > 0 && x[0] != '_'
    ensures RemovedOnDisconnect(AiId(c + x, i), c)
    ensures !OwnedAtTick(AiId(c + x, i), c)
  {
    var id := AiId(c + x, i);
    var p := "ai_" + c;
    assert id == p + x + "_" + NatToString(i);
    assert id[..|p|] == p;
    assert id[|p|] == x[0];
  }

  /** The concrete case: "player_1" disconnecting removes "ai_player_12_0". */
  lemma DisconnectOverreachExample()
    ensures RemovedOnDisconnect("ai_player_12_0", "player_1")
    ensures !OwnedAtTick("ai_player_12_0", "player_1")
    ensures OwnerOf("ai_player_12_0") == "player_12"
  {
    DisconnectOverreaches("player_1", "2", 0);
    assert AiId("player_12", 0) == "ai_player_12_0";
    OwnerRoundTrip("player_12", 0);
  }

  /** Between client ids of one length (the server's are "player_" and a
      millisecond timestamp) the disconnect selection is exact: it takes a
      client's own opponents and never another client's. */
  lemma DisconnectExactForEqualLengths(c: string, other: string, i: nat)
    requires |other| == |c| && other != c
    ensures RemovedOnDisconnect(AiId(c, i), c)
    ensures !RemovedOnDisconnect(AiId(other, i), c)
  {
    TickSelectionMeaning(c, i, AiId(c, i));
    var p, q := "ai_" + c, "ai_" + other;
    assert AiId(other, i)[..|p|] == q;
    assert q[3..] == other && p[3..] == c;
  }

  /** The opponents left after a disconnect: those the prefix test keeps. */
  function AfterDisconnect<T>(drones: map<string, T>, clientId: string): (r: map<string, T>)
    ensures forall id :: id in r <==> id in drones && !RemovedOnDisconnect(id, clientId)
    ensures forall id :: id in r ==> r[id] == drones[id]
  {
    map id | id in drones && !RemovedOnDisconnect(id, clientId) :: drones[id]
  }

  /** The disconnect loop: walk a snapshot of the keys and delete each one
      the prefix test selects. */
  method RemoveOnDisconnect<T>(drones: map<string, T>, keys: seq<string>, clientId: string) returns (r: map<string, T>)
    requires forall id :: id in drones <==> id in keys
    ensures r == AfterDisconnect(drones, clientId)
  {
    r := drones;
    var j := 0;
    while j < |keys|
      invariant 0 <= j <= |keys|
      invariant forall id :: id in r <==> id in drones && !(id in keys[..j] && RemovedOnDisconnect(id, clientId))
      invariant forall id :: id in r ==> r[id] == drones[id]
    {
      var id := keys[j];
      if RemovedOnDisconnect(id, clientId) {
        r := r - {id};
      }
      assert keys[..j + 1] == keys[..j] + [id];
      j := j + 1;
    }
    assert keys[..|keys|] == keys;
  }

  // ---------------------------------------------------------------------
  // Upgrade purchase
  // ---------------------------------------------------------------------

  /** The 'upgrade' message: charge the cost only when the player can pay
      it and the upgrade itself succeeds (it is not attempted otherwise). */
  method HandleUpgrade(player: Players.Player, track: string) returns (success: bool)
    requires player.Valid() && player.upgrades.Valid()
    modifies player, player.upgrades
    ensures player.Valid() && player.upgrades.Valid()
    ensures success <==> old(player.coins) >= old(player.upgrades.UpgradeCost(track))
                         && old(player.upgrades.TrackLevel(track)) < Players.MaxUpgradeLevel
    ensures success ==> player.coins == old(player.coins) - old(player.upgrades.UpgradeCost(track))
                        && player.upgrades.levels == old(player.upgrades.levels)[track := old(player.upgrades.TrackLevel(track)) + 1]
    ensures !success ==> player.coins == old(player.coins) && player.upgrades.levels == old(player.upgrades.levels)
    ensures player.level == old(player.level) && player.rating == old(player.rating) && player.hp == old(player.hp)
  {
    var cost := player.upgrades.UpgradeCost(track);
    success := false;
    if player.coins >= cost {
      success := player.upgrades.Upgrade(track);
      if success {
        player.coins := player.coins - cost;
      }
    }
  }

  // ---------------------------------------------------------------------
  // Spawn points
  // ---------------------------------------------------------------------

  /** An index into a non-empty spawn list: Python's `k % n`, which for a
      positive n is never negative, even for a negative hash. */
  function SpawnIndex(k: int, n: int): (i: int)
    requires n > 0
    ensures 0 <= i < n
    ensures exists q :: k == q * n + i
  {
    var i := k % n;
    assert k == (k / n) * n + i;
    i
  }
}
