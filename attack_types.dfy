/**
 * The attack catalogue of warsim/attack_types.py: the damage helpers, the resource gate every
 * attack shares, and the four attacks' `apply`.
 *
 * What one attack does to the two combatants is given once, on values, by `Resolve`; the four
 * apply methods mutate the entities and promise that their effect is exactly `Resolve`'s, and
 * the lemmas state what the source promises about it (gate, costs, karma, damage).
 */
module AttackTypes {
  import opened Combatants

  /** variable_damage (warsim/attack_types.py:4-6) for the Gaussian sample `noise`: never negative, and
    * equal to base + noise whenever that is not negative. */
  function VariableDamage(base: real, noise: real): (d: real)
    ensures d >= 0.0 && d >= base + noise
    ensures d == 0.0 || d == base + noise
  {
    Max(0.0, base + noise)
  }

  /** fatigue_multiplier (warsim/attack_types.py:8-10): from 0.5 at no stamina up to 1 at full stamina. */
  function FatigueMultiplier(stamina: real, maxStamina: real): (m: real)
    requires maxStamina > 0.0
    ensures 0.0 <= stamina <= maxStamina ==> 0.5 <= m <= 1.0
    ensures stamina == maxStamina ==> m == 1.0
    ensures stamina == 0.0 ==> m == 0.5
  {
    0.5 + 0.5 * (stamina / maxStamina)
  }

  /** The `stamina_cost` each attack class passes to BaseAttack (warsim/attack_types.py:35, 55, 75, 95). */
  function StaminaCost(k: AttackKind): (c: real)
    ensures 0.0 <= c <= 20.0
    ensures c == 0.0 <==> k == Magic
  {
    match k
    case Normal => 10.0
    case Heavy => 20.0
    case Quick => 5.0
    case Magic => 0.0
  }

  /** The `mana_cost`: 25 for magic whatever the attacker's own mana_cost, otherwise 0. */
  function ManaCost(k: AttackKind): (c: real)
    ensures c >= 0.0
    ensures c > 0.0 <==> k == Magic
    ensures c > 0.0 || StaminaCost(k) > 0.0
  {
    if k == Magic then 25.0 else 0.0
  }

  /** The karma a hit costs (`karma_cost`). */
  function HitKarma(k: AttackKind): (h: int)
    ensures h > MissKarma(k)
  {
    match k
    case Normal => 5
    case Heavy => 7
    case Quick => 3
    case Magic => 5
  }

  /** The karma a miss costs (warsim/attack_types.py:43, 63, 83, 103). */
  function MissKarma(k: AttackKind): (m: int)
    ensures 1 <= m <= 4
  {
    match k
    case Normal => 2
    case Heavy => 3
    case Quick => 1
    case Magic => 4
  }

  /** check_resources (warsim/attack_types.py:20-27): the attacker has the stamina and the mana the attack
    * costs. Both are checked for every attack, so negative mana blocks even the stamina attacks. */
  predicate CheckResources(k: AttackKind, stamina: real, mana: real): (ok: bool)
    ensures ok ==> stamina - StaminaCost(k) >= 0.0 && mana - ManaCost(k) >= 0.0
    ensures k == Magic ==> (ok <==> stamina >= 0.0 && mana >= 25.0)
    ensures k != Magic ==> (ok <==> stamina >= StaminaCost(k) && mana >= 0.0)
  {
    stamina >= StaminaCost(k) && mana >= ManaCost(k)
  }

  /** The chance a roll must not exceed for the attack to hit; heavy scales accuracy by the
    * fatigue multiplier, quick boosts the difference by 10%. */
  function HitChance(k: AttackKind, accuracy: real, evasion: real, fatigue: real): (c: real)
    ensures k != Heavy && k != Quick ==> c == accuracy - evasion
    ensures k == Quick && accuracy >= evasion ==> c >= accuracy - evasion
    ensures k == Heavy && accuracy >= 0.0 && fatigue <= 1.0 ==> c <= accuracy - evasion
    ensures k == Heavy && fatigue == 1.0 ==> c == accuracy - evasion
  {
    match k
    case Normal => accuracy - evasion
    case Heavy => accuracy * fatigue - evasion
    case Quick => (accuracy - evasion) * 1.1
    case Magic => accuracy - evasion
  }

  /** The damage a hit hands to the defender's take_damage (warsim/attack_types.py:46, 66, 86, 106). */
  function AttackDamage(k: AttackKind, attack: real, special: real, fatigue: real, noise: real): (r: real)
    ensures k == Magic ==> r == special
    ensures k != Magic && attack >= 0.0 && fatigue >= 0.0 ==> r >= 0.0
    ensures k == Heavy && 0.0 <= fatigue <= 1.0 ==> r <= VariableDamage(attack * 1.5, noise)
    ensures k == Quick && attack >= 0.0 ==> r <= attack
  {
    match k
    case Normal => VariableDamage(attack, noise)
    case Heavy => VariableDamage(attack * 1.5, noise) * fatigue
    case Quick => attack * 0.75
    case Magic => special
  }

  /** The result of one `apply` and the two combatants' states afterwards. */
  datatype Outcome = Outcome(hit: bool, attacker: Vitals, defender: Vitals)

  /**
   * What `apply` of attack k does, on values: the attacker `a` (with its max_stamina and
   * special_attack_damage) against the defender `d`, for the hit roll `roll` (random.random())
   * and the damage noise `noise` (the Gaussian sample of variable_damage). The cost is paid
   * before the roll; heavy's fatigue is computed from the stamina left after paying.
   */
  function Resolve(k: AttackKind, a: Vitals, maxStamina: real, special: real, d: Vitals,
                   roll: real, noise: real): (o: Outcome)
    requires maxStamina > 0.0
    ensures o.hit ==> CheckResources(k, a.stamina, a.mana)
    ensures o.attacker == a.(stamina := o.attacker.stamina, mana := o.attacker.mana, karma := o.attacker.karma)
    ensures o.defender == d.(health := o.defender.health)
  {
    if !CheckResources(k, a.stamina, a.mana) then Outcome(false, a, d)
    else
      var paid := a.(stamina := a.stamina - StaminaCost(k), mana := a.mana - ManaCost(k));
      var fatigue := FatigueMultiplier(paid.stamina, maxStamina);
      if roll > HitChance(k, paid.accuracy, d.evasion, fatigue) then
        Outcome(false, paid.(karma := paid.karma - MissKarma(k)), d)
      else
        var damage := AttackDamage(k, paid.attack, special, fatigue, noise);
        Outcome(true, paid.(karma := paid.karma - HitKarma(k)),
                d.(health := HealthAfterHit(d.health, d.defense, damage)))
  }

  /** A refused attack (warsim/attack_types.py:38-39) returns False and changes nothing; an accepted one
    * always changes the attacker, since every attack costs something. */
  lemma RefusedChangesNothing(k: AttackKind, a: Vitals, maxStamina: real, special: real, d: Vitals,
                              roll: real, noise: real)
    requires maxStamina > 0.0
    ensures !CheckResources(k, a.stamina, a.mana)
            <==> Resolve(k, a, maxStamina, special, d, roll, noise) == Outcome(false, a, d)
  {
    if CheckResources(k, a.stamina, a.mana) {
      var o := Resolve(k, a, maxStamina, special, d, roll, noise);
      assert o.attacker.stamina != a.stamina || o.attacker.mana != a.mana;
    }
  }

  /** An accepted attack pays its cost before the roll and never refunds it; because the gate
    * comes first, stamina and mana are both still at least 0 afterwards. Nothing else of the
    * attacker but karma changes. */
  lemma CostPaidUpFront(k: AttackKind, a: Vitals, maxStamina: real, special: real, d: Vitals,
                        roll: real, noise: real)
    requires maxStamina > 0.0
    requires CheckResources(k, a.stamina, a.mana)
    ensures var o := Resolve(k, a, maxStamina, special, d, roll, noise);
            && o.attacker.stamina == a.stamina - StaminaCost(k) && o.attacker.stamina >= 0.0
            && o.attacker.mana == a.mana - ManaCost(k) && o.attacker.mana >= 0.0
            && o.attacker == a.(stamina := o.attacker.stamina, mana := o.attacker.mana,
                                karma := o.attacker.karma)
  {
  }

  /** Hit and miss accounting: the attack hits exactly when it is affordable and the roll does not
    * exceed the hit chance; a miss costs 2/3/1/4 karma and leaves the defender untouched, a hit
    * costs 5/7/3/5 karma and changes only the defender's health, through take_damage. */
  lemma KarmaAccounting(k: AttackKind, a: Vitals, maxStamina: real, special: real, d: Vitals,
                        roll: real, noise: real)
    requires maxStamina > 0.0
    ensures var o := Resolve(k, a, maxStamina, special, d, roll, noise);
            var fatigue := FatigueMultiplier(a.stamina - StaminaCost(k), maxStamina);
            && (o.hit <==> CheckResources(k, a.stamina, a.mana)
                           && roll <= HitChance(k, a.accuracy, d.evasion, fatigue))
            && (!o.hit ==> o.defender == d)
            && (!o.hit && CheckResources(k, a.stamina, a.mana) ==> o.attacker.karma == a.karma - MissKarma(k))
            && (o.hit ==> o.attacker.karma == a.karma - HitKarma(k))
            && (o.hit ==> o.defender == d.(health := HealthAfterHit(d.health, d.defense,
                                               AttackDamage(k, a.attack, special, fatigue, noise))))
  {
  }

  /** The attacker's role plays no part in an attack: it comes out as it went in. */
  lemma ResolveIgnoresRole(k: AttackKind, a: Vitals, maxStamina: real, special: real, d: Vitals,
                           roll: real, noise: real, role: Role)
    requires maxStamina > 0.0
    ensures var o := Resolve(k, a, maxStamina, special, d, roll, noise);
            Resolve(k, a.(role := role), maxStamina, special, d, roll, noise) == o.(attacker := o.attacker.(role := role))
  {
  }

  /** The damage each attack deals on a hit: quick exactly 0.75 x attack, magic exactly
    * special_attack_damage, normal never negative, and heavy between half and all of its varied
    * 1.5 x attack when the stamina left after paying is within [0, max_stamina]. */
  lemma DamageOnHit(k: AttackKind, attack: real, special: real, stamina: real, maxStamina: real,
                    noise: real)
    requires maxStamina > 0.0 && 0.0 <= stamina <= maxStamina
    ensures var damage := AttackDamage(k, attack, special, FatigueMultiplier(stamina, maxStamina), noise);
            && (k == Quick ==> damage == attack * 0.75)
            && (k == Magic ==> damage == special)
            && (k == Normal ==> damage >= 0.0)
            && (k == Heavy ==> VariableDamage(attack * 1.5, noise) * 0.5 <= damage
                                <= VariableDamage(attack * 1.5, noise))
  {
    var v := VariableDamage(attack * 1.5, noise);
    var f := FatigueMultiplier(stamina, maxStamina);
    assert v >= 0.0 && 0.5 <= f <= 1.0;
    assert v * f - v * 0.5 == v * (f - 0.5) && v * (f - 0.5) >= 0.0;
    assert v * 1.0 - v * f == v * (1.0 - f) && v * (1.0 - f) >= 0.0;
  }

  /** The menus offer a stamina attack exactly when the gate accepts it, as long as mana is not
    * negative; they offer magic only when the gate accepts it, as long as stamina is not negative
    * and the entity's own mana_cost is at least the fixed 25 (with exactly 25, the converse too). */
  lemma MenuMatchesGate(e: Entity, k: AttackKind)
    requires e.Valid()
    ensures k != Magic ==> (CheckResources(k, e.stamina, e.mana) <==> e.MenuAllows(Attack(k)) && e.mana >= 0.0)
    ensures k == Magic && e.manaCost >= 25.0 && e.stamina >= 0.0 && e.MenuAllows(Attack(k))
            ==> CheckResources(k, e.stamina, e.mana)
    ensures k == Magic && e.manaCost == 25.0 && e.stamina >= 0.0
            ==> (CheckResources(k, e.stamina, e.mana) <==> e.MenuAllows(Attack(k)))
  {
  }

  /** NormalAttack.apply (warsim/attack_types.py:37-50). */
  method NormalApply(attacker: Entity, defender: Entity, roll: real, noise: real) returns (hit: bool)
    requires attacker.Valid() && defender.Valid() && attacker != defender
    requires 0.0 <= roll < 1.0
    modifies attacker, defender
    ensures attacker.Valid() && defender.Valid()
    ensures Outcome(hit, attacker.Snapshot(), defender.Snapshot())
            == Resolve(Normal, old(attacker.Snapshot()), attacker.maxStamina, attacker.specialAttackDamage,
                       old(defender.Snapshot()), roll, noise)
  {
    if !CheckResources(Normal, attacker.stamina, attacker.mana) {
      return false;
    }
    attacker.stamina := attacker.stamina - 10.0;
    var hitChance := attacker.accuracy - defender.evasion;
    if roll > hitChance {
      attacker.karma := attacker.karma - 2;
      return false;
    }
    var damage := VariableDamage(attacker.attack, noise);
    var _ := defender.TakeDamage(damage);
    attacker.karma := attacker.karma - 5;
    return true;
  }

  /** HeavyAttack.apply (warsim/attack_types.py:57-70): fatigue is measured after the 20 stamina is paid. */
  method HeavyApply(attacker: Entity, defender: Entity, roll: real, noise: real) returns (hit: bool)
    requires attacker.Valid() && defender.Valid() && attacker != defender
    requires 0.0 <= roll < 1.0
    modifies attacker, defender
    ensures attacker.Valid() && defender.Valid()
    ensures Outcome(hit, attacker.Snapshot(), defender.Snapshot())
            == Resolve(Heavy, old(attacker.Snapshot()), attacker.maxStamina, attacker.specialAttackDamage,
                       old(defender.Snapshot()), roll, noise)
  {
    if !CheckResources(Heavy, attacker.stamina, attacker.mana) {
      return false;
    }
    attacker.stamina := attacker.stamina - 20.0;
    ghost var paid := attacker.Snapshot();
    var fatigue := FatigueMultiplier(attacker.stamina, attacker.maxStamina);
    var effectiveAccuracy := attacker.accuracy * fatigue - defender.evasion;
    assert effectiveAccuracy == HitChance(Heavy, paid.accuracy, defender.evasion, fatigue);
    if roll > effectiveAccuracy {
      attacker.karma := attacker.karma - 3;
      return false;
    }
    var damage := VariableDamage(attacker.attack * 1.5, noise) * fatigue;
    assert damage == AttackDamage(Heavy, paid.attack, attacker.specialAttackDamage, fatigue, noise);
    var _ := defender.TakeDamage(damage);
    attacker.karma := attacker.karma - 7;
    return true;
  }

  /** QuickAttack.apply (warsim/attack_types.py:77-90). */
  method QuickApply(attacker: Entity, defender: Entity, roll: real, noise: real) returns (hit: bool)
    requires attacker.Valid() && defender.Valid() && attacker != defender
    requires 0.0 <= roll < 1.0
    modifies attacker, defender
    ensures attacker.Valid() && defender.Valid()
    ensures Outcome(hit, attacker.Snapshot(), defender.Snapshot())
            == Resolve(Quick, old(attacker.Snapshot()), attacker.maxStamina, attacker.specialAttackDamage,
                       old(defender.Snapshot()), roll, noise)
  {
    if !CheckResources(Quick, attacker.stamina, attacker.mana) {
      return false;
    }
    attacker.stamina := attacker.stamina - 5.0;
    var hitChance := (attacker.accuracy - defender.evasion) * 1.1;
    if roll > hitChance {
      attacker.karma := attacker.karma - 1;
      return false;
    }
    var damage := attacker.attack * 0.75;
    var _ := defender.TakeDamage(damage);
    attacker.karma := attacker.karma - 3;
    return true;
  }

  /** MagicAttack.apply (warsim/attack_types.py:97-110): a fixed 25 mana, damage special_attack_damage. */
  method MagicApply(attacker: Entity, defender: Entity, roll: real, noise: real) returns (hit: bool)
    requires attacker.Valid() && defender.Valid() && attacker != defender
    requires 0.0 <= roll < 1.0
    modifies attacker, defender
    ensures attacker.Valid() && defender.Valid()
    ensures Outcome(hit, attacker.Snapshot(), defender.Snapshot())
            == Resolve(Magic, old(attacker.Snapshot()), attacker.maxStamina, attacker.specialAttackDamage,
                       old(defender.Snapshot()), roll, noise)
  {
    if !CheckResources(Magic, attacker.stamina, attacker.mana) {
      return false;
    }
    attacker.mana := attacker.mana - 25.0;
    var hitChance := attacker.accuracy - defender.evasion;
    if roll > hitChance {
      attacker.karma := attacker.karma - 4;
      return false;
    }
    var damage := attacker.specialAttackDamage;
    var _ := defender.TakeDamage(damage);
    attacker.karma := attacker.karma - 5;
    return true;
  }

  /** `attack_map[action].apply(self, opponent)` (entity.py:57-62, 154-156): the attack object the
    * action names. */
  method Apply(k: AttackKind, attacker: Entity, defender: Entity, roll: real, noise: real) returns (hit: bool)
    requires attacker.Valid() && defender.Valid() && attacker != defender
    requires 0.0 <= roll < 1.0
    modifies attacker, defender
    ensures attacker.Valid() && defender.Valid()
    ensures Outcome(hit, attacker.Snapshot(), defender.Snapshot())
            == Resolve(k, old(attacker.Snapshot()), attacker.maxStamina, attacker.specialAttackDamage,
                       old(defender.Snapshot()), roll, noise)
  {
    match k
    case Normal => hit := NormalApply(attacker, defender, roll, noise);
    case Heavy => hit := HeavyApply(attacker, defender, roll, noise);
    case Quick => hit := QuickApply(attacker, defender, roll, noise);
    case Magic => hit := MagicApply(attacker, defender, roll, noise);
  }
}
