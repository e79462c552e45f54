/**
 * The three deities of gods/brahma.py, gods/vishnu.py and gods/shiva.py. Each acts at most
 * once per call of influence_battle on one of two candidates: Brahma heals the higher-priority
 * one, Vishnu heals or grants mana to it, Shiva inflicts decay on the one with lower karma. All three share the cooldown / energy gate and keep
 * cumulative counters. The random heal, blessing and decay noise and the next cooldown
 * (random.randint(1, 3)) are parameters.
 */
module Gods {
  import opened Combatants

  /** get_priority_score (gods/brahma.py:4-9): danger (1 - health ratio) plus half the karma
    * weight (karma / 100), plus 0.3 for an entity below a fifth of its health. */
  function PriorityScore(health: real, maxHealth: real, karma: int): (s: real)
    requires maxHealth > 0.0
    ensures 0.0 <= health <= maxHealth ==> karma as real / 200.0 <= s <= 1.3 + karma as real / 200.0
    ensures health == maxHealth ==> s == karma as real / 200.0
  {
    var healthRatio := health / maxHealth;
    var karmaWeight := karma as real / 100.0;
    var criticalBonus := if health < 0.2 * maxHealth then 0.3 else 0.0;
    (1.0 - healthRatio) + karmaWeight * 0.5 + criticalBonus
  }

  /** The score of an entity in its current state. */
  function Score(e: Entity): (s: real)
    reads e
    requires e.maxHealth > 0.0
    ensures 0.0 <= e.health <= e.maxHealth ==> e.karma as real / 200.0 <= s <= 1.3 + e.karma as real / 200.0
    ensures e.health == e.maxHealth ==> s == e.karma as real / 200.0
  {
    PriorityScore(e.health, e.maxHealth, e.karma)
  }

  /** Dividing by a positive maximum keeps the order of health values. */
  lemma DivideKeepsOrder(a: real, b: real, m: real)
    requires m > 0.0 && a <= b
    ensures a / m <= b / m
    ensures a < b ==> a / m < b / m
  {
    assert (b / m - a / m) * m == b - a;
  }

  /** The more wounded of two entities with the same maximum and karma scores strictly higher. */
  lemma WoundedScoreHigher(h1: real, h2: real, maxHealth: real, karma: int)
    requires maxHealth > 0.0 && h1 < h2
    ensures PriorityScore(h1, maxHealth, karma) > PriorityScore(h2, maxHealth, karma)
  {
    DivideKeepsOrder(h1, h2, maxHealth);
  }

  /** Higher karma scores strictly higher at the same health. */
  lemma KarmaScoreHigher(health: real, maxHealth: real, k1: int, k2: int)
    requires maxHealth > 0.0 && k1 < k2
    ensures PriorityScore(health, maxHealth, k1) < PriorityScore(health, maxHealth, k2)
  {
  }

  /** An entity with karma at least 0 that has lost at least 40% of its health scores at least
    * 0.4, so Brahma never turns it away; one below a fifth of its health scores above 1.1. */
  lemma WoundedAreWorthy(health: real, maxHealth: real, karma: int)
    requires maxHealth > 0.0 && karma >= 0
    ensures health <= 0.6 * maxHealth ==> PriorityScore(health, maxHealth, karma) >= 0.4
    ensures health < 0.2 * maxHealth ==> PriorityScore(health, maxHealth, karma) > 1.1
  {
    var ratio := health / maxHealth;
    var karmaTerm := karma as real / 100.0 * 0.5;
    assert karmaTerm >= 0.0;
    if health <= 0.6 * maxHealth {
      DivideKeepsOrder(health, 0.6 * maxHealth, maxHealth);
      assert 0.6 * maxHealth / maxHealth == 0.6;
      assert ratio <= 0.6;
      assert PriorityScore(health, maxHealth, karma) >= 1.0 - ratio + karmaTerm;
    }
    if health < 0.2 * maxHealth {
      DivideKeepsOrder(health, 0.2 * maxHealth, maxHealth);
      assert 0.2 * maxHealth / maxHealth == 0.2;
      assert ratio < 0.2;
      assert PriorityScore(health, maxHealth, karma) == 1.0 - ratio + karmaTerm + 0.3;
    }
  }

  /** A fallen combatant at 0 health is worthy of Brahma's aid for any karma down to -180, and
    * the heal brings it back above 0: the gods can revive the dead. */
  lemma FallenCanRise(maxHealth: real, karma: int, u: real)
    requires maxHealth > 0.0 && karma >= -180 && -5.0 <= u <= 5.0
    ensures PriorityScore(0.0, maxHealth, karma) >= 0.4
    ensures HealedHealth(0.0, 20.0 + u, maxHealth) > 0.0
  {
  }

  /** sorted([(c1, s1), (c2, s2)], reverse=True)[0] keeps equal scores in input order: the first
    * candidate wins unless the second scores strictly higher. */
  function FirstWins(s1: real, s2: real): (first: bool)
    ensures first <==> !(s2 > s1)
  {
    s1 >= s2
  }

  /** The gate all three deities share: a positive cooldown or spent energy only count the cooldown
    * down, stopping at 0. */
  function CooledDown(cooldown: int): (c: int)
    ensures c >= 0 && (cooldown >= 0 ==> c <= cooldown)
    ensures cooldown > 0 ==> c == cooldown - 1
  {
    if cooldown - 1 > 0 then cooldown - 1 else 0
  }

  /** Health after a heal capped at the maximum: the gain never exceeds the amount. */
  function HealedHealth(health: real, amount: real, maxHealth: real): (h: real)
    ensures h <= maxHealth && h - health <= amount
    ensures health <= maxHealth && amount >= 0.0 ==> h >= health
  {
    Min(health + amount, maxHealth)
  }

  /** The factor of Vishnu's amounts (gods/vishnu.py:25, 34): 1 + (karma - 50) / 100 + u. */
  function BlessingFactor(karma: int, u: real): (f: real)
    ensures -0.1 <= u <= 0.1 ==> 0.4 + karma as real / 100.0 <= f <= 0.6 + karma as real / 100.0
    ensures karma >= 50 && u >= 0.0 ==> f >= 1.0
  {
    1.0 + (karma - 50) as real / 100.0 + u
  }

  /** The factor, and with it the amount and its cost, is not negative for karma at least -40;
    * below karma -60 it is negative whatever the draw, so a "blessing" takes health or mana away. */
  lemma BlessingSign(karma: int, u: real)
    requires -0.1 <= u <= 0.1
    ensures karma >= -40 ==> BlessingFactor(karma, u) >= 0.0
    ensures karma < -60 ==> BlessingFactor(karma, u) < 0.0
  {
  }

  /** Vishnu's gift on values (gods/vishnu.py:24-41): a target below half health is healed by
    * 15 x the blessing factor, any other gains 10 x the factor in mana; both are capped at the
    * maximum, and nothing else changes. */
  function Blessed(v: Vitals, maxHealth: real, maxMana: real, u: real): (r: Vitals)
    ensures v.health < 0.5 * maxHealth ==> r.mana == v.mana && r.health - v.health <= 15.0 * BlessingFactor(v.karma, u)
    ensures v.health >= 0.5 * maxHealth ==> r.health == v.health && r.mana - v.mana <= 10.0 * BlessingFactor(v.karma, u)
    ensures r == v.(health := r.health, mana := r.mana)
    ensures v.mana <= maxMana ==> r.mana <= maxMana
    ensures r.health <= maxHealth || r.health == v.health
  {
    var factor := BlessingFactor(v.karma, u);
    if v.health < 0.5 * maxHealth then v.(health := HealedHealth(v.health, 15.0 * factor, maxHealth))
    else v.(mana := Min(v.mana + 10.0 * factor, maxMana))
  }

  /** Vishnu pays 0.1 energy per point of health or mana given, times the cost multiplier. */
  function BlessingCost(given: real, multiplier: real): real {
    given * 0.1 * multiplier
  }

  /** For karma at least -40 the gift never takes anything away from a combatant within its
    * maxima; for karma below -60 the "heal" of a wounded combatant lowers its health, and the
    * negative cost then refunds Vishnu energy. */
  lemma BlessingDirection(v: Vitals, maxHealth: real, maxMana: real, u: real, multiplier: real)
    requires -0.1 <= u <= 0.1 && v.health <= maxHealth && v.mana <= maxMana && multiplier > 0.0
    ensures v.karma >= -40 ==> var r := Blessed(v, maxHealth, maxMana, u);
                               r.health >= v.health && r.mana >= v.mana
    ensures v.karma < -60 && v.health < 0.5 * maxHealth ==>
              var r := Blessed(v, maxHealth, maxMana, u);
              r.health < v.health && BlessingCost(r.health - v.health, multiplier) < 0.0
  {
    BlessingSign(v.karma, u);
  }

  /** Shiva's decay (gods/shiva.py:22-23): 10 + 0.2 x (50 - karma) + u, but at least 5. */
  function Decay(karma: int, u: real): (d: real)
    ensures d >= 5.0
    ensures d >= 10.0 + (50 - karma) as real * 0.2 + u
  {
    Max(5.0, 10.0 + (50 - karma) as real * 0.2 + u)
  }

  /** Brahma's gate, counters and cost multiplier, as one value. */
  datatype BrahmaState = BrahmaState(cooldown: int, divineEnergy: real, interventions: int,
                                     totalHealthRestored: real, costMultiplier: real)

  /**
   * What Brahma.influence_battle (gods/brahma.py:20-44) does, on values: g and g' are Brahma's
   * state before and after, a and b the two candidates' vitals before (c1 and c2 supply their
   * maxima), a' and b' after. On cooldown or without energy only the cooldown counts down.
   * Otherwise the candidate with the higher priority score (the first on a tie) is healed when
   * its score is at least 0.4, and nothing happens when it is lower; the other is untouched.
   */
  ghost predicate BrahmaActed(g: BrahmaState, g': BrahmaState, c1: Entity, c2: Entity,
                              a: Vitals, a': Vitals, b: Vitals, b': Vitals, u: real, next: int) {
    && c1.maxHealth > 0.0 && c2.maxHealth > 0.0
    && if g.cooldown > 0 || g.divineEnergy <= 0.0 then
         g' == g.(cooldown := CooledDown(g.cooldown)) && a' == a && b' == b
       else
         var s1 := PriorityScore(a.health, c1.maxHealth, a.karma);
         var s2 := PriorityScore(b.health, c2.maxHealth, b.karma);
         if FirstWins(s1, s2) then
           if s1 < 0.4 then g' == g && a' == a && b' == b
           else b' == b && BrahmaHealed(g, g', a, a', c1.maxHealth, u, next)
         else
           if s2 < 0.4 then g' == g && a' == a && b' == b
           else a' == a && BrahmaHealed(g, g', b, b', c2.maxHealth, u, next)
  }

  /** Brahma's heal of the chosen candidate (t before, t' after): 20 + u up to the maximum, paid
    * at 0.2 energy per point actually healed, times the cost multiplier; the heal is counted and
    * a fresh cooldown starts. */
  ghost predicate BrahmaHealed(g: BrahmaState, g': BrahmaState, t: Vitals, t': Vitals, maxHealth: real,
                               u: real, next: int) {
    var actual := HealedHealth(t.health, 20.0 + u, maxHealth) - t.health;
    && t' == t.(health := HealedHealth(t.health, 20.0 + u, maxHealth))
    && g' == g.(divineEnergy := g.divineEnergy - actual * 0.2 * g.costMultiplier,
               totalHealthRestored := g.totalHealthRestored + actual,
               interventions := g.interventions + 1, cooldown := next)
  }

  class Brahma {
    var cooldown: int
    var divineEnergy: real
    var interventions: int
    var totalHealthRestored: real
    var costMultiplier: real

    ghost predicate Valid()
      reads this
    {
      0 <= cooldown <= 3 && interventions >= 0
    }

    /** Brahma.__init__ (gods/brahma.py:12-18). */
    constructor ()
      ensures Valid()
      ensures cooldown == 0 && divineEnergy == 100.0 && interventions == 0
      ensures totalHealthRestored == 0.0 && costMultiplier == 1.0
    {
      cooldown := 0;
      divineEnergy := 100.0;
      interventions := 0;
      totalHealthRestored := 0.0;
      costMultiplier := 1.0;
    }

    ghost function State(): BrahmaState
      reads this
    {
      BrahmaState(cooldown, divineEnergy, interventions, totalHealthRestored, costMultiplier)
    }

    /** Brahma.influence_battle (gods/brahma.py:20-44) with heal noise u from uniform(-5, 5), as
      * BrahmaActed says; the health restored is never negative and never more than 20 + u. */
    method InfluenceBattle(c1: Entity, c2: Entity, u: real, nextCooldown: int)
      requires Valid() && c1.Valid() && c2.Valid() && c1 != c2
      requires -5.0 <= u <= 5.0 && 1 <= nextCooldown <= 3
      modifies this, c1, c2
      ensures Valid() && c1.Valid() && c2.Valid()
      ensures c1.role == old(c1.role) && c2.role == old(c2.role)
      ensures BrahmaActed(old(State()), State(), c1, c2, old(c1.Snapshot()), c1.Snapshot(),
                          old(c2.Snapshot()), c2.Snapshot(), u, nextCooldown)
      ensures 0.0 <= totalHealthRestored - old(totalHealthRestored) <= 20.0 + u
    {
      if cooldown > 0 || divineEnergy <= 0.0 {
        cooldown := CooledDown(cooldown);
        return;
      }
      var s1, s2 := Score(c1), Score(c2);
      var target, score := c1, s1;
      if !FirstWins(s1, s2) {
        target, score := c2, s2;
      }
      if score < 0.4 {
        return;
      }
      HealTarget(target, u, nextCooldown);
    }

    /** The heal of the chosen candidate (gods/brahma.py:33-44), as BrahmaHealed says. */
    method HealTarget(target: Entity, u: real, nextCooldown: int)
      requires target.Valid() && -5.0 <= u <= 5.0
      modifies this, target
      ensures target.Valid() && target.role == old(target.role)
      ensures BrahmaHealed(old(State()), State(), old(target.Snapshot()), target.Snapshot(), target.maxHealth, u,
                           nextCooldown)
      ensures 0.0 <= totalHealthRestored - old(totalHealthRestored) <= 20.0 + u
    {
      var healAmt := 20.0 + u;
      var before := target.health;
      target.health := Min(target.health + healAmt, target.maxHealth);
      var actualHeal := target.health - before;
      assert actualHeal == HealedHealth(before, healAmt, target.maxHealth) - before;
      var cost := actualHeal * 0.2 * costMultiplier;
      divineEnergy := divineEnergy - cost;
      totalHealthRestored := totalHealthRestored + actualHeal;
      interventions := interventions + 1;
      cooldown := nextCooldown;
    }
  }

  /** Vishnu's gate, counters and cost multiplier, as one value. */
  datatype VishnuState = VishnuState(cooldown: int, divineEnergy: real, interventions: int,
                                     totalManaGranted: real, totalHealthHealed: real, costMultiplier: real)

  /**
   * What Vishnu.influence_battle (gods/vishnu.py:15-44) does, on values (as for BrahmaActed):
   * on cooldown or without energy only the cooldown counts down; otherwise the candidate with the
   * higher priority score (the first on a tie) receives Blessed's gift, whatever its score, and
   * the other is untouched.
   */
  ghost predicate VishnuActed(g: VishnuState, g': VishnuState, c1: Entity, c2: Entity,
                              a: Vitals, a': Vitals, b: Vitals, b': Vitals, u: real, next: int) {
    && c1.maxHealth > 0.0 && c2.maxHealth > 0.0
    && if g.cooldown > 0 || g.divineEnergy <= 0.0 then
         g' == g.(cooldown := CooledDown(g.cooldown)) && a' == a && b' == b
       else if FirstWins(PriorityScore(a.health, c1.maxHealth, a.karma), PriorityScore(b.health, c2.maxHealth, b.karma)) then
         b' == b && VishnuBlessed(g, g', c1, a, a', u, next)
       else
         a' == a && VishnuBlessed(g, g', c2, b, b', u, next)
  }

  /** Vishnu's gift to the chosen candidate c (t before, t' after): the counters record the
    * health and mana actually given, the energy pays for them, and a fresh cooldown starts. */
  ghost predicate VishnuBlessed(g: VishnuState, g': VishnuState, c: Entity, t: Vitals, t': Vitals, u: real, next: int) {
    && t' == Blessed(t, c.maxHealth, c.maxMana, u)
    && var healed := t'.health - t.health;
       var granted := t'.mana - t.mana;
       g' == g.(totalHealthHealed := g.totalHealthHealed + healed, totalManaGranted := g.totalManaGranted + granted,
                divineEnergy := g.divineEnergy - BlessingCost(healed + granted, g.costMultiplier),
                interventions := g.interventions + 1, cooldown := next)
  }

  class Vishnu {
    var cooldown: int
    var divineEnergy: real
    var interventions: int
    var totalManaGranted: real
    var totalHealthHealed: real
    var costMultiplier: real

    ghost predicate Valid()
      reads this
    {
      0 <= cooldown <= 3 && interventions >= 0
    }

    /** Vishnu.__init__ (gods/vishnu.py:6-13). */
    constructor ()
      ensures Valid()
      ensures cooldown == 0 && divineEnergy == 120.0 && interventions == 0
      ensures totalManaGranted == 0.0 && totalHealthHealed == 0.0 && costMultiplier == 1.0
    {
      cooldown := 0;
      divineEnergy := 120.0;
      interventions := 0;
      totalManaGranted := 0.0;
      totalHealthHealed := 0.0;
      costMultiplier := 1.0;
    }

    ghost function State(): VishnuState
      reads this
    {
      VishnuState(cooldown, divineEnergy, interventions, totalManaGranted, totalHealthHealed, costMultiplier)
    }

    /** Vishnu.influence_battle (gods/vishnu.py:15-44) with blessing noise u from uniform(-0.1, 0.1),
      * as VishnuActed says. */
    method InfluenceBattle(c1: Entity, c2: Entity, u: real, nextCooldown: int)
      requires Valid() && c1.Valid() && c2.Valid() && c1 != c2
      requires -0.1 <= u <= 0.1 && 1 <= nextCooldown <= 3
      modifies this, c1, c2
      ensures Valid() && c1.Valid() && c2.Valid()
      ensures c1.role == old(c1.role) && c2.role == old(c2.role)
      ensures VishnuActed(old(State()), State(), c1, c2, old(c1.Snapshot()), c1.Snapshot(),
                          old(c2.Snapshot()), c2.Snapshot(), u, nextCooldown)
    {
      if cooldown > 0 || divineEnergy <= 0.0 {
        cooldown := CooledDown(cooldown);
        return;
      }
      var s1, s2 := Score(c1), Score(c2);
      var target := c1;
      if !FirstWins(s1, s2) {
        target := c2;
      }
      Bless(target, u);
      interventions := interventions + 1;
      cooldown := nextCooldown;
    }

    /** Vishnu's gift to the chosen target (gods/vishnu.py:24-41), paid at 0.1 energy per point
      * actually given, times the cost multiplier. */
    method Bless(target: Entity, u: real)
      requires target.Valid()
      modifies this`divineEnergy, this`totalHealthHealed, this`totalManaGranted, target
      ensures target.Valid()
      ensures target.Snapshot() == Blessed(old(target.Snapshot()), target.maxHealth, target.maxMana, u)
      ensures var healed := target.health - old(target.health);
              var granted := target.mana - old(target.mana);
              && totalHealthHealed == old(totalHealthHealed) + healed
              && totalManaGranted == old(totalManaGranted) + granted
              && divineEnergy == old(divineEnergy) - BlessingCost(healed + granted, costMultiplier)
    {
      if target.health < 0.5 * target.maxHealth {
        var healAmt := 15.0 * BlessingFactor(target.karma, u);
        var before := target.health;
        target.health := Min(target.health + healAmt, target.maxHealth);
        var actualHeal := target.health - before;
        totalHealthHealed := totalHealthHealed + actualHeal;
        var cost := actualHeal * 0.1 * costMultiplier;
        divineEnergy := divineEnergy - cost;
      } else {
        var manaAmt := 10.0 * BlessingFactor(target.karma, u);
        var before := target.mana;
        target.mana := Min(target.mana + manaAmt, target.maxMana);
        var granted := target.mana - before;
        totalManaGranted := totalManaGranted + granted;
        var cost := granted * 0.1 * costMultiplier;
        divineEnergy := divineEnergy - cost;
      }
    }
  }

  /** Shiva's gate, counters and cost multiplier, as one value. */
  datatype ShivaState = ShivaState(cooldown: int, divineEnergy: real, interventions: int,
                                   totalDecayInflicted: real, costMultiplier: real)

  /**
   * What Shiva.influence_battle (gods/shiva.py:14-32) does, on values (as for BrahmaActed): on
   * cooldown or without energy only the cooldown counts down; otherwise the candidate with
   * strictly lower karma, else the second, takes the decay, and the other is untouched.
   */
  ghost predicate ShivaActed(g: ShivaState, g': ShivaState, a: Vitals, a': Vitals, b: Vitals, b': Vitals,
                             u: real, next: int) {
    if g.cooldown > 0 || g.divineEnergy <= 0.0 then
      g' == g.(cooldown := CooledDown(g.cooldown)) && a' == a && b' == b
    else if a.karma < b.karma then b' == b && ShivaStruck(g, g', a, a', u, next)
    else a' == a && ShivaStruck(g, g', b, b', u, next)
  }

  /** Shiva's decay of the chosen candidate (t before, t' after), through take_damage: the
    * counter records the decay before defense, the energy pays 0.05 per point of it, times the
    * cost multiplier, and a fresh cooldown starts. */
  ghost predicate ShivaStruck(g: ShivaState, g': ShivaState, t: Vitals, t': Vitals, u: real, next: int) {
    var decay := Decay(t.karma, u);
    && t' == t.(health := HealthAfterHit(t.health, t.defense, decay))
    && g' == g.(totalDecayInflicted := g.totalDecayInflicted + decay,
               divineEnergy := g.divineEnergy - decay * 0.05 * g.costMultiplier,
               interventions := g.interventions + 1, cooldown := next)
  }

  class Shiva {
    var cooldown: int
    var divineEnergy: real
    var interventions: int
    var totalDecayInflicted: real
    var costMultiplier: real

    ghost predicate Valid()
      reads this
    {
      0 <= cooldown <= 3 && interventions >= 0
    }

    /** Shiva.__init__ (gods/shiva.py:6-12). */
    constructor ()
      ensures Valid()
      ensures cooldown == 0 && divineEnergy == 90.0 && interventions == 0
      ensures totalDecayInflicted == 0.0 && costMultiplier == 1.0
    {
      cooldown := 0;
      divineEnergy := 90.0;
      interventions := 0;
      totalDecayInflicted := 0.0;
      costMultiplier := 1.0;
    }

    ghost function State(): ShivaState
      reads this
    {
      ShivaState(cooldown, divineEnergy, interventions, totalDecayInflicted, costMultiplier)
    }

    /** Shiva.influence_battle (gods/shiva.py:14-32) with decay noise u from uniform(-2, 2), as
      * ShivaActed says. */
    method InfluenceBattle(c1: Entity, c2: Entity, u: real, nextCooldown: int)
      requires Valid() && c1.Valid() && c2.Valid() && c1 != c2
      requires -2.0 <= u <= 2.0 && 1 <= nextCooldown <= 3
      modifies this, c1, c2
      ensures Valid() && c1.Valid() && c2.Valid()
      ensures c1.role == old(c1.role) && c2.role == old(c2.role)
      ensures ShivaActed(old(State()), State(), old(c1.Snapshot()), c1.Snapshot(),
                         old(c2.Snapshot()), c2.Snapshot(), u, nextCooldown)
    {
      if cooldown > 0 || divineEnergy <= 0.0 {
        cooldown := CooledDown(cooldown);
        return;
      }
      var target := if c1.karma < c2.karma then c1 else c2;
      ghost var g, t := State(), target.Snapshot();
      var decay := 10.0 + (50 - target.karma) as real * 0.2 + u;
      decay := Max(5.0, decay);
      assert decay == Decay(t.karma, u);
      var _ := target.TakeDamage(decay);
      totalDecayInflicted := totalDecayInflicted + decay;
      var cost := decay * 0.05 * costMultiplier;
      divineEnergy := divineEnergy - cost;
      interventions := interventions + 1;
      cooldown := nextCooldown;
      assert ShivaStruck(g, State(), t, target.Snapshot(), u, nextCooldown);
    }
  }

  /** Shiva's energy strictly falls on every strike while the cost multiplier is positive. */
  lemma DecayCostsEnergy(karma: int, u: real, multiplier: real)
    requires multiplier > 0.0
    ensures Decay(karma, u) * 0.05 * multiplier > 0.0
  {
  }

  /**
   * Brahma's bookkeeping matches what the candidates receive: the health restored counter grows
   * by exactly the health the two gained, nobody loses health, at most one of them changes and
   * only in health, and a candidate within its maximum stays within it. Energy never rises
   * while the cost multiplier is not negative.
   */
  lemma BrahmaAccountsForHealing(g: BrahmaState, g': BrahmaState, c1: Entity, c2: Entity,
                                 a: Vitals, a': Vitals, b: Vitals, b': Vitals, u: real, next: int)
    requires BrahmaActed(g, g', c1, c2, a, a', b, b', u, next)
    requires -5.0 <= u <= 5.0 && a.health <= c1.maxHealth && b.health <= c2.maxHealth && g.costMultiplier >= 0.0
    ensures g'.totalHealthRestored - g.totalHealthRestored == (a'.health - a.health) + (b'.health - b.health)
    ensures a'.health >= a.health && b'.health >= b.health
    ensures a'.health <= c1.maxHealth && b'.health <= c2.maxHealth
    ensures a' == a || b' == b
    ensures a' == a.(health := a'.health) && b' == b.(health := b'.health)
    ensures g'.divineEnergy <= g.divineEnergy
    ensures g'.interventions == g.interventions || (g'.interventions == g.interventions + 1 && g'.cooldown == next)
  {
  }

  /**
   * Vishnu's bookkeeping matches what the candidates receive: the two counters grow by exactly
   * the health and the mana the two gained (a loss counting negative), at most one candidate
   * changes and only in health and mana, and for karma at least -40 nobody loses either.
   */
  lemma VishnuAccountsForBlessing(g: VishnuState, g': VishnuState, c1: Entity, c2: Entity,
                                  a: Vitals, a': Vitals, b: Vitals, b': Vitals, u: real, next: int)
    requires VishnuActed(g, g', c1, c2, a, a', b, b', u, next)
    requires -0.1 <= u <= 0.1 && a.health <= c1.maxHealth && b.health <= c2.maxHealth
    requires a.mana <= c1.maxMana && b.mana <= c2.maxMana
    ensures g'.totalHealthHealed - g.totalHealthHealed == (a'.health - a.health) + (b'.health - b.health)
    ensures g'.totalManaGranted - g.totalManaGranted == (a'.mana - a.mana) + (b'.mana - b.mana)
    ensures a' == a || b' == b
    ensures a' == a.(health := a'.health, mana := a'.mana) && b' == b.(health := b'.health, mana := b'.mana)
    ensures a.karma >= -40 && b.karma >= -40 ==>
              a'.health >= a.health && a'.mana >= a.mana && b'.health >= b.health && b'.mana >= b.mana
    ensures g'.interventions == g.interventions || (g'.interventions == g.interventions + 1 && g'.cooldown == next)
  {
    if !(g.cooldown > 0 || g.divineEnergy <= 0.0) {
      BlessingDirection(a, c1.maxHealth, c1.maxMana, u, 1.0);
      BlessingDirection(b, c2.maxHealth, c2.maxMana, u, 1.0);
    }
  }

  /**
   * Shiva never heals: nobody gains health, at most one candidate changes and only in health,
   * and the health the two lose is at most the decay recorded (for a non-negative defense).
   * When Shiva is ready, exactly the candidate with strictly lower karma (else the second) is
   * struck, at least 5 decay is recorded, and with a positive cost multiplier the energy falls.
   */
  lemma ShivaOnlyHarms(g: ShivaState, g': ShivaState, a: Vitals, a': Vitals, b: Vitals, b': Vitals,
                       u: real, next: int)
    requires ShivaActed(g, g', a, a', b, b', u, next)
    requires a.health >= 0.0 && b.health >= 0.0 && a.defense >= 0.0 && b.defense >= 0.0
    ensures 0.0 <= a'.health <= a.health && 0.0 <= b'.health <= b.health
    ensures a' == a || b' == b
    ensures a' == a.(health := a'.health) && b' == b.(health := b'.health)
    ensures (a.health - a'.health) + (b.health - b'.health) <= g'.totalDecayInflicted - g.totalDecayInflicted
    ensures g.cooldown <= 0 && g.divineEnergy > 0.0 ==>
              && g'.totalDecayInflicted >= g.totalDecayInflicted + 5.0
              && g'.interventions == g.interventions + 1 && g'.cooldown == next
              && (a.karma < b.karma ==> b' == b) && (a.karma >= b.karma ==> a' == a)
              && (g.costMultiplier > 0.0 ==> g'.divineEnergy < g.divineEnergy)
  {
    if g.cooldown <= 0 && g.divineEnergy > 0.0 {
      var t, t' := if a.karma < b.karma then a else b, if a.karma < b.karma then a' else b';
      assert ShivaStruck(g, g', t, t', u, next);
      if g.costMultiplier > 0.0 {
        DecayCostsEnergy(t.karma, u, g.costMultiplier);
      }
    }
  }
}
