/** The boss-battle screen (src/screens/BattleScreen.tsx): the cost tables, the
    damage formula, the boss list derived from the catalog and the victory
    history, and the session handlers (start, attack, victory, end) that
    update the screen's state and dispatch ledger actions to the store. */
module BattleScreen {
  import opened Common
  import opened Store

  // ---------------------------------------------------------------- pricing

  datatype AttackKind = Quick | Power | Special

  /** `ENERGY_COSTS`. */
  function EnergyCost(k: AttackKind): int {
    match k
    case Quick => 5
    case Power => 15
    case Special => 25
  }

  /** `POWER_COSTS`. */
  function PowerCost(k: AttackKind): int {
    match k
    case Quick => 10
    case Power => 30
    case Special => 50
  }

  /** Each attack costs twice as much power as energy, and the stronger the
      attack the dearer it is. */
  lemma CostTable(k: AttackKind)
    ensures 0 < EnergyCost(k) && PowerCost(k) == 2 * EnergyCost(k)
    ensures EnergyCost(Quick) < EnergyCost(Power) < EnergyCost(Special)
  {
  }

  datatype Weakness = Strike | Core | Force | Endurance | Balanced

  /** The damage multiplier of an attack, in tenths (0.8, 1.0, 1.3). */
  function Tenths(k: AttackKind): int {
    match k
    case Quick => 8
    case Power => 10
    case Special => 13
  }

  /** `calculateDamage`: `Math.round(powerUsed * m)` per attack kind, at least 1;
      the boss's weakness is accepted and not used. */
  function Damage(k: AttackKind, powerUsed: int, weakness: Weakness): (d: int)
    ensures d >= 1
    ensures d == Max(1, RoundDiv(powerUsed * Tenths(k), 10))
  {
    var damage :=
      match k
      case Quick => RoundDiv(powerUsed * 8, 10)
      case Power => powerUsed
      case Special => RoundDiv(powerUsed * 13, 10);
    RoundDivExact(powerUsed, 10);
    Max(1, damage)
  }

  /** At the fixed power costs the three attacks deal 8, 30 and 65. */
  lemma DamageAtCost(w: Weakness)
    ensures Damage(Quick, PowerCost(Quick), w) == 8
    ensures Damage(Power, PowerCost(Power), w) == 30
    ensures Damage(Special, PowerCost(Special), w) == 65
  {
    RoundDivExact(8, 10);
    RoundDivExact(30, 10);
    RoundDivExact(65, 10);
  }

  /** More power never deals less damage. */
  lemma DamageMonotone(k: AttackKind, p: int, q: int, w: Weakness)
    requires p <= q
    ensures Damage(k, p, w) <= Damage(k, q, w)
  {
    MulMonotone(Tenths(k), p, q);
    RoundDivMonotone(p * Tenths(k), q * Tenths(k), 10);
  }

  // ------------------------------------------------------------ the bosses

  /** A catalog entry (`Omit<Boss, 'health' | 'defeated'>`). */
  datatype BossData = BossData(id: string, name: string, tier: int, maxHealth: int,
                               weakness: Weakness, image: string)

  datatype Boss = Boss(id: string, name: string, tier: int, health: int, maxHealth: int,
                       weakness: Weakness, image: string, defeated: bool)

  /** The fixed boss catalog of the screen. */
  const Catalog: seq<BossData> := [
    BossData("boss1", "Training Dummy", 1, 100, Strike, "training_dummy.png"),
    BossData("boss2", "Fitness Goblin", 1, 200, Core, "fitness_goblin.png"),
    BossData("boss3", "Cardio Crusher", 1, 300, Endurance, "cardio_crusher.png"),
    BossData("boss4", "Tier 1 Champion", 1, 500, Balanced, "tier1_champion.png"),
    BossData("boss5", "Strength Sentinel", 2, 750, Force, "strength_sentinel.png")
  ]

  /** A record's `result`: `'victory' | 'defeat'`. */
  datatype Outcome = Won | Lost

  /** A stored battle record (`BattleData` without its id). */
  datatype BattleRecord = BattleRecord(userId: string, bossId: string, date: string,
                                       result: Outcome, damageDealt: int)

  /** Whether the history holds a victory over the boss with this id. */
  predicate Beaten(history: seq<BattleRecord>, bossId: string) {
    exists i :: 0 <= i < |history| && history[i].result == Won && history[i].bossId == bossId
  }

  /** `initialBosses.filter(boss => boss.tier <= maxTier)`. */
  function UpToTier(cat: seq<BossData>, maxTier: int): (r: seq<BossData>)
    ensures |r| <= |cat|
    ensures forall i :: 0 <= i < |r| ==> r[i].tier <= maxTier
  {
    if cat == [] then []
    else if cat[0].tier <= maxTier then [cat[0]] + UpToTier(cat[1..], maxTier)
    else UpToTier(cat[1..], maxTier)
  }

  /** The filter keeps exactly the entries within the tier. */
  lemma {:induction false} UpToTierMembers(cat: seq<BossData>, maxTier: int)
    ensures forall b :: b in UpToTier(cat, maxTier) <==> b in cat && b.tier <= maxTier
    decreases |cat|
  {
    if cat != [] {
      UpToTierMembers(cat[1..], maxTier);
      assert cat == [cat[0]] + cat[1..];
    }
  }

  /** One catalog entry at full health, defeated iff the history records a victory over it. */
  function Fresh(d: BossData, history: seq<BattleRecord>): Boss {
    Boss(d.id, d.name, d.tier, d.maxHealth, d.maxHealth, d.weakness, d.image, Beaten(history, d.id))
  }

  /** The boss list the screen loads: the catalog up to one tier above the
      user's, each at full health and marked defeated iff the user's battle
      history holds a victory over it; an empty list when the history cannot
      be read. */
  function LoadBosses(userTier: int, history: Option<seq<BattleRecord>>): (r: seq<Boss>)
    ensures history.None? ==> r == []
    ensures history.Some? ==> |r| == |UpToTier(Catalog, userTier + 1)|
    ensures history.Some? ==> forall i :: 0 <= i < |r| ==>
              var d := UpToTier(Catalog, userTier + 1)[i];
              (r[i].id == d.id && r[i].tier == d.tier && r[i].tier <= userTier + 1
               && r[i].health == r[i].maxHealth == d.maxHealth
               && (r[i].defeated <==> Beaten(history.value, d.id)))
  {
    match history
    case None => []
    case Some(h) =>
      var up := UpToTier(Catalog, userTier + 1);
      seq(|up|, i requires 0 <= i < |up| => Fresh(up[i], h))
  }

  /** A catalog whose first n entries are within the tier and the rest above it filters to those n. */
  lemma {:induction false} UpToTierPrefix(cat: seq<BossData>, n: nat, maxTier: int)
    requires n <= |cat|
    requires forall i :: 0 <= i < n ==> cat[i].tier <= maxTier
    requires forall i :: n <= i < |cat| ==> cat[i].tier > maxTier
    ensures UpToTier(cat, maxTier) == cat[..n]
    decreases |cat|
  {
    if cat != [] {
      if n > 0 {
        UpToTierPrefix(cat[1..], n - 1, maxTier);
        assert cat[..n] == [cat[0]] + cat[1..][..n - 1];
      } else {
        UpToTierPrefix(cat[1..], 0, maxTier);
      }
    }
  }

  /** With no victories on record, a tier-0 user sees the four tier-1 bosses,
      none of them defeated; one tier up, all five. */
  lemma CatalogByTier()
    ensures UpToTier(Catalog, 1) == Catalog[..4]
    ensures UpToTier(Catalog, 2) == Catalog
  {
    CatalogTiers();
    UpToTierPrefix(Catalog, 4, 1);
    UpToTierPrefix(Catalog, 5, 2);
  }

  lemma NewUserBosses()
    ensures |LoadBosses(0, Some([]))| == 4
    ensures forall b :: b in LoadBosses(0, Some([])) ==> b.tier == 1 && !b.defeated
  {
    CatalogByTier();
    CatalogTiers();
    var r := LoadBosses(0, Some([]));
    forall b | b in r
      ensures b.tier == 1 && !b.defeated
    {
      var i :| 0 <= i < |r| && r[i] == b;
      assert Catalog[..4][i] == Catalog[i];
    }
  }

  lemma CatalogTiers()
    ensures |Catalog| == 5
    ensures forall i :: 0 <= i < 4 ==> Catalog[i].tier == 1
    ensures Catalog[4].tier == 2
  {
  }

  /** `availableBosses?.map(boss => boss.id === id ? { ...boss, defeated: true } : boss) ?? []`. */
  function MarkDefeated(bosses: Option<seq<Boss>>, id: string): (r: seq<Boss>)
    ensures bosses.None? ==> r == []
    ensures bosses.Some? ==> |r| == |bosses.value|
    ensures bosses.Some? ==> forall i :: 0 <= i < |r| ==>
              (r[i].id == id ==> r[i] == bosses.value[i].(defeated := true))
              && (r[i].id != id ==> r[i] == bosses.value[i])
  {
    match bosses
    case None => []
    case Some(bs) => seq(|bs|, i requires 0 <= i < |bs| => if bs[i].id == id then bs[i].(defeated := true) else bs[i])
  }

  /** `bosses.filter(boss => boss.tier === tier)`. */
  function OfTier(bosses: seq<Boss>, tier: int): (r: seq<Boss>)
    ensures forall b :: b in r <==> b in bosses && b.tier == tier
  {
    if bosses == [] then []
    else if bosses[0].tier == tier then [bosses[0]] + OfTier(bosses[1..], tier)
    else OfTier(bosses[1..], tier)
  }

  /** `currentTierBosses.length > 0 && currentTierBosses.every(boss => boss.defeated)`. */
  predicate TierCleared(bosses: seq<Boss>, userTier: int) {
    var next := OfTier(bosses, userTier + 1);
    |next| > 0 && forall i :: 0 <= i < |next| ==> next[i].defeated
  }

  /** The tier-up test holds exactly when the list has a boss of the next tier
      and every boss of the next tier in the list is defeated. */
  lemma TierClearedIff(bosses: seq<Boss>, userTier: int)
    ensures TierCleared(bosses, userTier) <==>
              (exists b :: b in bosses && b.tier == userTier + 1)
              && (forall b :: b in bosses && b.tier == userTier + 1 ==> b.defeated)
  {
    var next := OfTier(bosses, userTier + 1);
    if TierCleared(bosses, userTier) {
      assert next[0] in next;
      forall b | b in bosses && b.tier == userTier + 1 ensures b.defeated {
        assert b in next;
        var i :| 0 <= i < |next| && next[i] == b;
      }
    }
    if (exists b :: b in bosses && b.tier == userTier + 1)
       && (forall b :: b in bosses && b.tier == userTier + 1 ==> b.defeated) {
      var b :| b in bosses && b.tier == userTier + 1;
      assert b in next;
      forall i | 0 <= i < |next| ensures next[i].defeated {
        assert next[i] in next;
      }
    }
  }

  // -------------------------------------------------------------- the log

  /** What the battle log says; the texts themselves are presentation. */
  datatype LogEntry =
    | Begun(bossName: string)
    | NoEnergy(kind: AttackKind)
    | NoPower(kind: AttackKind)
    | Hit(kind: AttackKind, damage: int, energyCost: int, powerCost: int)
    | CounterAttack(bossName: string, damage: int)
    | Defeated(bossName: string)

  /** Longest the log grows. */
  const LogLimit := 20

  /** `addLog`: `[message, ...prev].slice(0, 20)`. */
  function Logged(log: seq<LogEntry>, m: LogEntry): (r: seq<LogEntry>)
    ensures |r| == Min(LogLimit, |log| + 1)
    ensures r[0] == m && r[1..] == log[..|r| - 1]
  {
    var all := [m] + log;
    if |all| <= LogLimit then all else all[..LogLimit]
  }

  /** Appending entries one at a time keeps them newest first: after adding ms
      the log starts with ms reversed, followed by as much of the old log as fits. */
  function AddLogs(log: seq<LogEntry>, ms: seq<LogEntry>): seq<LogEntry>
    decreases |ms|
  {
    if ms == [] then log else AddLogs(Logged(log, ms[0]), ms[1..])
  }

  function Reversed(ms: seq<LogEntry>): (r: seq<LogEntry>)
    ensures |r| == |ms|
    ensures forall i :: 0 <= i < |ms| ==> r[i] == ms[|ms| - 1 - i]
  {
    if ms == [] then [] else Reversed(ms[1..]) + [ms[0]]
  }

  lemma {:induction false} AddLogsNewestFirst(log: seq<LogEntry>, ms: seq<LogEntry>)
    requires |log| <= LogLimit
    ensures AddLogs(log, ms) == (Reversed(ms) + log)[..Min(LogLimit, |ms| + |log|)]
    decreases |ms|
  {
    if ms != [] {
      var log1 := Logged(log, ms[0]);
      AddLogsNewestFirst(log1, ms[1..]);
      var n := Min(LogLimit, |ms| + |log|);
      assert log1 == ([ms[0]] + log)[..Min(LogLimit, |log| + 1)];
      assert (Reversed(ms[1..]) + log1)[..Min(LogLimit, |ms| - 1 + |log1|)] == (Reversed(ms) + log)[..n] by {
        assert Reversed(ms) == Reversed(ms[1..]) + [ms[0]];
        forall i | 0 <= i < n
          ensures (Reversed(ms[1..]) + log1)[i] == (Reversed(ms) + log)[i]
        {
          if i >= |ms| - 1 {
            assert (Reversed(ms[1..]) + log1)[i] == log1[i - (|ms| - 1)];
          }
        }
      }
    } else {
      assert Reversed(ms) + log == log;
    }
  }

  // ---------------------------------------------------------- the session

  /** `battleResult`: `'ongoing' | 'victory' | 'defeat'`. */
  datatype BattleResult = Ongoing | Victory | Defeat

  /** The screen's state hooks. */
  datatype Session = Session(
    availableBosses: Option<seq<Boss>>, selectedBoss: Option<Boss>, modalVisible: bool,
    log: seq<LogEntry>, result: Option<BattleResult>, isLoading: bool)

  /** The screen's initial hooks: nothing loaded, loading. */
  const InitialSession := Session(None, None, false, [], None, true)

  /** What the handlers read from the store: `user.id`, `user.tier`, `user.energy`,
      `exercise.totalPower`. */
  datatype Player = Player(userId: string, tier: int, energy: int, power: int)

  function PlayerOf(s: AppState): Player {
    Player(s.user.id, s.user.tier, s.user.energy, s.exercise.totalPower)
  }

  /** The load effect: without a user id nothing is loaded; otherwise the list
      from the catalog and the history (empty when the history cannot be read). */
  function Load(s: Session, userId: string, userTier: int, history: Option<seq<BattleRecord>>): (r: Session)
    ensures !r.isLoading
    ensures userId == "" ==> r == s.(isLoading := false)
    ensures userId != "" ==> r.availableBosses == Some(LoadBosses(userTier, history))
    ensures r.(availableBosses := s.availableBosses, isLoading := s.isLoading) == s
  {
    if userId == "" then s.(isLoading := false)
    else s.(availableBosses := Some(LoadBosses(userTier, history)), isLoading := false)
  }

  /** `handleStartBattle`: the boss at full health, a fresh one-line log, the fight on. */
  function StartBattle(s: Session, boss: Boss): (r: Session)
    ensures r.selectedBoss == Some(boss.(health := boss.maxHealth))
    ensures r.log == [Begun(boss.name)] && r.result == Some(Ongoing) && r.modalVisible
    ensures r.availableBosses == s.availableBosses && r.isLoading == s.isLoading
  {
    s.(selectedBoss := Some(boss.(health := boss.maxHealth)), log := [Begun(boss.name)],
       result := Some(Ongoing), modalVisible := true)
  }

  /** Whether an attack button is enabled. */
  predicate CanAttack(p: Player, k: AttackKind) {
    !(p.energy < EnergyCost(k) || p.power < PowerCost(k))
  }

  /** Whether the screen offers an enabled Battle button for this boss: it is
      not yet defeated and the player can pay for the cheapest attack. */
  predicate CanStart(p: Player, boss: Boss) {
    !boss.defeated && CanAttack(p, Quick)
  }

  /** What a handler does: the new session, the actions it dispatches in order,
      and the battle records it stores (only those whose write succeeds). */
  datatype Effect = Effect(session: Session, dispatched: seq<Action>, recorded: seq<BattleRecord>)

  /** The outcome of the two awaited writes of `handleBossDefeated`, which can fail. */
  datatype Writes = Writes(recordSaved: bool, tierSaved: bool)

  /** `handleBossDefeated` for the boss that was selected when the attack began:
      victory and its log line; then the record; then the boss marked defeated
      in the list; then, when the next tier is cleared, the tier saved and
      `incrementTier`; then the XP `Math.round(maxHealth / 5)`. A failed write
      skips everything after it. */
  function BossDefeated(s: Session, boss: Boss, userId: string, userTier: int, now: string, w: Writes): (r: Effect)
    ensures r.session.selectedBoss == s.selectedBoss && r.session.modalVisible == s.modalVisible
    ensures r.session.isLoading == s.isLoading
    ensures r.session.result == s.result || r.session.result == Some(Victory)
    ensures r.recorded == [] || r.recorded == [BattleRecord(userId, boss.id, now, Won, boss.maxHealth)]
    ensures r.recorded != [] ==> r.session.result == Some(Victory)
    ensures r.dispatched != [] ==>
              r.recorded != [] && r.dispatched[|r.dispatched| - 1] == AddExperience(RoundDiv(boss.maxHealth, 5))
  {
    if userId == "" then Effect(s, [], [])
    else
      var s1 := s.(result := Some(Victory), log := Logged(s.log, Defeated(boss.name)));
      var record := BattleRecord(userId, boss.id, now, Won, boss.maxHealth);
      if !w.recordSaved then Effect(s1, [], [])
      else
        var bosses := MarkDefeated(s.availableBosses, boss.id);
        var s2 := s1.(availableBosses := Some(bosses));
        var xp := AddExperience(RoundDiv(boss.maxHealth, 5));
        if TierCleared(bosses, userTier) then
          if w.tierSaved then Effect(s2, [IncrementTier, xp], [record]) else Effect(s2, [], [record])
        else Effect(s2, [xp], [record])
  }

  /** `Math.floor(Math.random() * 10) + 5 * tier`, with the random draw `roll` an input. */
  function CounterDamage(roll: int, tier: int): int {
    roll + 5 * tier
  }

  /** `handleAttack`: nothing is dispatched unless the player can pay, and
      then the costs come first; a battle record is stored only on a victory. */
  function Attack(s: Session, p: Player, k: AttackKind, roll: int, now: string, w: Writes): (r: Effect)
    ensures r.session.modalVisible == s.modalVisible && r.session.isLoading == s.isLoading
    ensures r.dispatched != [] ==> CanAttack(p, k) && |r.dispatched| >= 2 && r.dispatched[..2] == Paid(k)
    ensures r.recorded != [] ==> r.session.result == Some(Victory)
  {
    if s.selectedBoss.None? || s.result != Some(Ongoing) then Effect(s, [], [])
    else if p.energy < EnergyCost(k) then Effect(s.(log := Logged(s.log, NoEnergy(k))), [], [])
    else if p.power < PowerCost(k) then Effect(s.(log := Logged(s.log, NoPower(k))), [], [])
    else Landed(s, s.selectedBoss.value, p, k, roll, now, w)
  }

  /** The boss's health after an attack of kind k. */
  function HitHealth(boss: Boss, k: AttackKind): int {
    Max(0, boss.health - Damage(k, PowerCost(k), boss.weakness))
  }

  /** The session once an attack of kind k has hit: the boss's new health and the hit's log line. */
  function HitSession(s: Session, boss: Boss, k: AttackKind): Session {
    s.(selectedBoss := Some(boss.(health := HitHealth(boss, k))),
       log := Logged(s.log, Hit(k, Damage(k, PowerCost(k), boss.weakness), EnergyCost(k), PowerCost(k))))
  }

  /** The actions that pay for an attack of kind k. */
  function Paid(k: AttackKind): seq<Action> {
    [UsePower(PowerCost(k)), UseEnergy(EnergyCost(k))]
  }

  /** The paid-for part of `handleAttack` against the selected boss: the costs
      are dispatched first, the boss keeps its new health, and a record is
      stored only for a boss brought to 0. */
  function Landed(s: Session, boss: Boss, p: Player, k: AttackKind, roll: int, now: string, w: Writes): (r: Effect)
    ensures |r.dispatched| >= 2 && r.dispatched[..2] == Paid(k)
    ensures r.session.selectedBoss == Some(boss.(health := HitHealth(boss, k)))
    ensures r.recorded != [] ==> HitHealth(boss, k) == 0 && r.session.result == Some(Victory)
    ensures r.session.log != [] && !r.session.log[0].NoEnergy? && !r.session.log[0].NoPower?
  {
    var health := HitHealth(boss, k);
    var s1 := HitSession(s, boss, k);
    var paid := Paid(k);
    if health <= 0 then
      var e := BossDefeated(s1, boss, p.userId, p.tier, now, w);
      Effect(e.session, paid + e.dispatched, e.recorded)
    else
      Effect(s1.(log := Logged(s1.log, CounterAttack(boss.name, CounterDamage(roll, boss.tier)))), paid, [])
  }

  /** What `handleBossDefeated` does: nothing without a user; otherwise victory
      and its log line, one victory record for the boss, and, when the record is
      stored, the boss marked defeated; it dispatches `incrementTier` exactly when
      the next tier is cleared and the tier is saved, and `addExperience` of
      `round(maxHealth / 5)` unless a write fails; the fight's other state is kept. */
  lemma BossDefeatedEffect(s: Session, boss: Boss, userId: string, userTier: int, now: string, w: Writes)
    ensures var r := BossDefeated(s, boss, userId, userTier, now, w);
            (userId == "" ==> r == Effect(s, [], []))
            && (userId != "" ==> r.session.result == Some(Victory) && r.session.log == Logged(s.log, Defeated(boss.name))
                                 && r.recorded == (if w.recordSaved then [BattleRecord(userId, boss.id, now, Won, boss.maxHealth)] else []))
            && (userId != "" && w.recordSaved ==> r.session.availableBosses == Some(MarkDefeated(s.availableBosses, boss.id)))
            && r.session.(result := s.result, log := s.log, availableBosses := s.availableBosses) == s
    ensures var r := BossDefeated(s, boss, userId, userTier, now, w);
            var cleared := TierCleared(MarkDefeated(s.availableBosses, boss.id), userTier);
            (r.dispatched != [] <==> userId != "" && w.recordSaved && (cleared ==> w.tierSaved))
            && (r.dispatched != [] ==>
                  r.dispatched == (if cleared then [IncrementTier] else []) + [AddExperience(RoundDiv(boss.maxHealth, 5))])
            && (IncrementTier in r.dispatched <==> userId != "" && w.recordSaved && cleared && w.tierSaved)
  {
  }

  /** `handleAttack` with no boss selected, or once the fight is over, does nothing. */
  lemma AttackIgnored(s: Session, p: Player, k: AttackKind, roll: int, now: string, w: Writes)
    requires s.selectedBoss.None? || s.result != Some(Ongoing)
    ensures Attack(s, p, k, roll, now, w) == Effect(s, [], [])
  {
  }

  /** Short of energy (checked first) or of power, the attack adds exactly one
      log line, saying which, and changes and dispatches nothing else. */
  lemma AttackRefused(s: Session, p: Player, k: AttackKind, roll: int, now: string, w: Writes)
    requires s.selectedBoss.Some? && s.result == Some(Ongoing) && !CanAttack(p, k)
    ensures Attack(s, p, k, roll, now, w)
            == Effect(s.(log := Logged(s.log, if p.energy < EnergyCost(k) then NoEnergy(k) else NoPower(k))), [], [])
  {
  }

  /** A paid-for attack lowers the boss's health by the damage, clamped at 0,
      and dispatches `usePower` then `useEnergy` with the costs, once each; a
      boss left standing keeps the fight going with nothing more dispatched or
      stored, a boss at 0 means victory (given a user). */
  lemma AttackLands(s: Session, p: Player, k: AttackKind, roll: int, now: string, w: Writes)
    requires s.selectedBoss.Some? && s.result == Some(Ongoing) && CanAttack(p, k)
    ensures var r := Attack(s, p, k, roll, now, w);
            var boss := s.selectedBoss.value;
            var health := Max(0, boss.health - Damage(k, PowerCost(k), boss.weakness));
            r.session.selectedBoss == Some(boss.(health := health))
            && |r.dispatched| >= 2 && r.dispatched[..2] == Paid(k)
            && (health > 0 ==> r.session.result == Some(Ongoing) && |r.dispatched| == 2 && r.recorded == [])
            && (health == 0 && p.userId != "" ==> r.session.result == Some(Victory))
  {
    var boss := s.selectedBoss.value;
    BossDefeatedEffect(HitSession(s, boss, k), boss, p.userId, p.tier, now, w);
  }

  /** No attack ever sets the result to 'defeat': it stays, or becomes 'victory'. */
  lemma AttackNeverLoses(s: Session, p: Player, k: AttackKind, roll: int, now: string, w: Writes)
    ensures var r := Attack(s, p, k, roll, now, w);
            r.session.result == s.result || r.session.result == Some(Victory)
  {
    if s.selectedBoss.Some? && s.result == Some(Ongoing) && CanAttack(p, k) {
      var boss := s.selectedBoss.value;
      var damage := Damage(k, PowerCost(k), boss.weakness);
      var s1 := s.(selectedBoss := Some(boss.(health := Max(0, boss.health - damage))),
                   log := Logged(s.log, Hit(k, damage, EnergyCost(k), PowerCost(k))));
      BossDefeatedEffect(s1, boss, p.userId, p.tier, now, w);
    }
  }

  /** `handleEndBattle`: the modal closes, then (after the timeout) the fight is cleared. */
  function EndBattle(s: Session): (r: Session)
    ensures !r.modalVisible && r.selectedBoss.None? && r.log == [] && r.result.None?
    ensures r.availableBosses == s.availableBosses && r.isLoading == s.isLoading
  {
    s.(modalVisible := false, selectedBoss := None, log := [], result := None)
  }

  /** The Battle button is enabled only when the opening quick attack can be
      paid: it then lands, costs exactly the quick attack's energy and power,
      and leaves the boss at its full health less 8. */
  lemma StartedFightLands(s: Session, p: Player, boss: Boss, roll: int, now: string, w: Writes)
    requires CanStart(p, boss)
    ensures var r := Attack(StartBattle(s, boss), p, Quick, roll, now, w);
            |r.dispatched| >= 2 && r.dispatched[..2] == Paid(Quick)
            && r.session.selectedBoss == Some(boss.(health := Max(0, boss.maxHealth - 8)))
  {
    DamageAtCost(boss.weakness);
  }

  /** A rejected attack is reachable only past a disabled button: with the
      button enabled, an ongoing attack always lands. */
  lemma EnabledAttackLands(s: Session, p: Player, k: AttackKind, roll: int, now: string, w: Writes)
    requires s.selectedBoss.Some? && s.result == Some(Ongoing) && CanAttack(p, k)
    ensures |Attack(s, p, k, roll, now, w).dispatched| >= 2
    ensures Attack(s, p, k, roll, now, w).session.log[0] != NoEnergy(k)
    ensures Attack(s, p, k, roll, now, w).session.log[0] != NoPower(k)
  {
  }

  /** A hit paid for from enough energy and power lowers each by exactly its cost. */
  lemma HitPaysExactly(st: AppState, k: AttackKind)
    requires CanAttack(PlayerOf(st), k)
    ensures var after := ApplyAll(st, Paid(k));
            after.user.energy == st.user.energy - EnergyCost(k)
            && after.exercise.totalPower == st.exercise.totalPower - PowerCost(k)
            && after.user.(energy := st.user.energy) == st.user
  {
    ApplyAllPair(st, UsePower(PowerCost(k)), UseEnergy(EnergyCost(k)));
  }

  /** The battle records kept by the app: an append-only list, of which
      `getBattleHistory` returns one user's part. */
  function HistoryOf(records: seq<BattleRecord>, userId: string): (r: seq<BattleRecord>)
    ensures forall x :: x in r <==> x in records && x.userId == userId
  {
    if records == [] then []
    else if records[0].userId == userId then [records[0]] + HistoryOf(records[1..], userId)
    else HistoryOf(records[1..], userId)
  }

  lemma {:induction false} HistoryOfAppend(records: seq<BattleRecord>, x: BattleRecord, userId: string)
    ensures HistoryOf(records + [x], userId) == HistoryOf(records, userId) + (if x.userId == userId then [x] else [])
    decreases |records|
  {
    if records == [] {
      assert records + [x] == [x];
      assert [x][1..] == [];
    } else {
      assert (records + [x])[1..] == records[1..] + [x];
      HistoryOfAppend(records[1..], x, userId);
    }
  }

  /** A stored victory is seen on the next load: the boss then comes back
      defeated, as `handleBossDefeated` marked it in the list. */
  lemma VictoryPersists(records: seq<BattleRecord>, userId: string, bossId: string, now: string,
                        maxHealth: int, userTier: int)
    ensures var loaded := LoadBosses(userTier, Some(HistoryOf(records + [BattleRecord(userId, bossId, now, Won, maxHealth)], userId)));
            forall j :: 0 <= j < |loaded| && loaded[j].id == bossId ==> loaded[j].defeated
  {
    var x := BattleRecord(userId, bossId, now, Won, maxHealth);
    var h := HistoryOf(records + [x], userId);
    HistoryOfAppend(records, x, userId);
    assert h[|h| - 1] == x;
  }

  /** Every hook of the screen, changed in place by the handlers. */
  class Screen {
    var availableBosses: Option<seq<Boss>>
    var selectedBoss: Option<Boss>
    var modalVisible: bool
    var battleLog: seq<LogEntry>
    var battleResult: Option<BattleResult>
    var isLoading: bool

    function State(): Session
      reads this
    {
      Session(availableBosses, selectedBoss, modalVisible, battleLog, battleResult, isLoading)
    }

    constructor ()
      ensures State() == InitialSession
    {
      availableBosses, selectedBoss, modalVisible := None, None, false;
      battleLog, battleResult, isLoading := [], None, true;
    }

    /** The load effect; `historyReadable` is whether `getBattleHistory` succeeds. */
    method LoadBossData(store: AppStore, records: seq<BattleRecord>, historyReadable: bool)
      modifies this
      ensures State() == Load(old(State()), store.user.id, store.user.tier,
                              if historyReadable then Some(HistoryOf(records, store.user.id)) else None)
    {
      var userId := store.user.id;
      if userId == "" {
        isLoading := false;
        return;
      }
      isLoading := true;
      if historyReadable {
        availableBosses := Some(LoadBosses(store.user.tier, Some(HistoryOf(records, userId))));
      } else {
        availableBosses := Some([]);
      }
      isLoading := false;
    }

    method AddLog(m: LogEntry)
      modifies this
      ensures battleLog == Logged(old(battleLog), m)
      ensures State() == old(State()).(log := battleLog)
    {
      battleLog := Logged(battleLog, m);
    }

    method HandleStartBattle(boss: Boss)
      modifies this
      ensures State() == StartBattle(old(State()), boss)
    {
      selectedBoss := Some(boss.(health := boss.maxHealth));
      battleLog := [Begun(boss.name)];
      battleResult := Some(Ongoing);
      modalVisible := true;
    }

    /** `handleBossDefeated`: `records` is the battle store, `w` says which awaited write succeeds. */
    method HandleBossDefeated(boss: Boss, store: AppStore, records: seq<BattleRecord>, now: string, w: Writes)
      returns (stored: seq<BattleRecord>)
      modifies this, store
      ensures var e := BossDefeated(old(State()), boss, old(store.user.id), old(store.user.tier), now, w);
              State() == e.session && store.State() == ApplyAll(old(store.State()), e.dispatched)
              && stored == records + e.recorded
    {
      stored := records;
      var userId, userTier := store.user.id, store.user.tier;
      if userId == "" {
        return;
      }
      battleResult := Some(Victory);
      AddLog(Defeated(boss.name));
      if !w.recordSaved {
        return;
      }
      stored := stored + [BattleRecord(userId, boss.id, now, Won, boss.maxHealth)];
      availableBosses := Some(MarkDefeated(availableBosses, boss.id));
      var xpGained := RoundDiv(boss.maxHealth, 5);
      if TierCleared(availableBosses.value, userTier) {
        if !w.tierSaved {
          return;
        }
        store.IncrementTier();
        store.AddExperience(xpGained);
        ApplyAllPair(old(store.State()), IncrementTier, AddExperience(xpGained));
      } else {
        store.AddExperience(xpGained);
        assert [AddExperience(xpGained)][1..] == [];
      }
    }

    /** `handleAttack`: `roll` is the counter-attack's random draw. */
    method HandleAttack(k: AttackKind, store: AppStore, records: seq<BattleRecord>, roll: int, now: string, w: Writes)
      returns (stored: seq<BattleRecord>)
      modifies this, store
      ensures var e := Attack(old(State()), PlayerOf(old(store.State())), k, roll, now, w);
              State() == e.session && store.State() == ApplyAll(old(store.State()), e.dispatched)
              && stored == records + e.recorded
    {
      stored := records;
      if selectedBoss.None? || battleResult != Some(Ongoing) {
        return;
      }
      if store.user.energy < EnergyCost(k) {
        AddLog(NoEnergy(k));
        return;
      }
      if store.exercise.totalPower < PowerCost(k) {
        AddLog(NoPower(k));
        return;
      }
      stored := LandHit(selectedBoss.value, k, store, records, roll, now, w);
    }

    method LandHit(boss: Boss, k: AttackKind, store: AppStore, records: seq<BattleRecord>, roll: int, now: string, w: Writes)
      returns (stored: seq<BattleRecord>)
      requires CanAttack(PlayerOf(store.State()), k)
      modifies this, store
      ensures var e := Landed(old(State()), boss, PlayerOf(old(store.State())), k, roll, now, w);
              State() == e.session && store.State() == ApplyAll(old(store.State()), e.dispatched)
              && stored == records + e.recorded
    {
      stored := records;
      PayHit(boss, k, store);
      if HitHealth(boss, k) <= 0 {
        ghost var s1, mid := State(), store.State();
        stored := HandleBossDefeated(boss, store, records, now, w);
        ApplyAllAppend(old(store.State()), Paid(k), BossDefeated(s1, boss, mid.user.id, mid.user.tier, now, w).dispatched);
      } else {
        AddLog(CounterAttack(boss.name, CounterDamage(roll, boss.tier)));
      }
    }

    /** The hit itself: the boss's new health, the hit's log line, and the
        costs dispatched; the user's id and tier are untouched. */
    method PayHit(boss: Boss, k: AttackKind, store: AppStore)
      requires CanAttack(PlayerOf(store.State()), k)
      modifies this, store
      ensures State() == HitSession(old(State()), boss, k)
      ensures store.State() == ApplyAll(old(store.State()), Paid(k))
      ensures store.user.id == old(store.user.id) && store.user.tier == old(store.user.tier)
    {
      store.DispatchAll(Paid(k));
      HitPaysExactly(old(store.State()), k);
      var energyCost, powerCost := EnergyCost(k), PowerCost(k);
      var damage := Damage(k, powerCost, boss.weakness);
      selectedBoss := Some(boss.(health := Max(0, boss.health - damage)));
      AddLog(Hit(k, damage, energyCost, powerCost));
    }

    method HandleEndBattle()
      modifies this
      ensures State() == EndBattle(old(State()))
    {
      modalVisible := false;
      selectedBoss := None;
      battleLog := [];
      battleResult := None;
    }
  }
}
