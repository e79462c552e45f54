/**
 * The combatant model of entity.py: an entity's stats and resources, the clamped updates
 * (damage, healing, rest, stamina recovery), potions, the item inventory and two-party trades,
 * and the weighted action menus its turn policies draw from.
 *
 * Archetypes (priest.py, mechanist.py, intern.py) are subclasses of Entity in the source; here
 * they are the closed `Role` datatype held by every entity, and the few Entity methods an
 * archetype overrides dispatch on it.
 */
module Combatants {

  function Min(a: real, b: real): real { if a <= b then a else b }
  function Max(a: real, b: real): real { if a >= b then a else b }

  /** The inventory keys every entity starts with (entity.py:51-56). */
  datatype Item = HealthPotion | ManaPotion | StaminaBoost | KarmaScroll

  /** The four entries of the attack catalogue (entity.py:57-62). */
  datatype AttackKind = Normal | Heavy | Quick | Magic

  /** The action names returned by `choose_action` and `choose_attack`. */
  datatype Action = Heal | Rest | Defend | Attack(kind: AttackKind)

  /** The two Mechanist abilities with a cooldown (mechanist.py:25-28). */
  datatype Skill = Emp | Overdrive

  /** Archetype-specific state: the subclass of Entity and the fields it adds. */
  datatype Role =
    | Generic
    | Priest(cooldown: int)
    | Mechanist(heat: real, cooldowns: map<Skill, int>)
    | Intern(caffeine: real, panic: bool)

  /** What every archetype keeps true of its own state between turns. */
  ghost predicate RoleValid(r: Role) {
    match r
    case Generic => true
    case Priest(cd) => 0 <= cd <= 3
    case Mechanist(heat, cds) =>
      heat >= 0.0 && cds.Keys == {Emp, Overdrive} && forall s :: s in cds ==> 0 <= cds[s] <= 3
    case Intern(caffeine, _) => 0.0 <= caffeine <= 100.0
  }

  /** The mutable part of an entity, as one value. */
  datatype Vitals = Vitals(
    health: real, attack: real, defense: real, mana: real, stamina: real, karma: int,
    accuracy: real, evasion: real, healTurns: int, inventory: map<Item, int>, role: Role)

  /** Health left after `take_damage(damage)` on an entity with the given health and defense. */
  function HealthAfterHit(health: real, defense: real, damage: real): real {
    Max(0.0, health - Max(damage - defense, 0.0))
  }

  /** Sum of the first n weights of a menu: the running total `upto` of weighted_choice. */
  function Prefix<T>(choices: seq<(T, real)>, n: nat): real
    requires n <= |choices|
  {
    if n == 0 then 0.0 else Prefix(choices, n - 1) + choices[n - 1].1
  }

  function Total<T>(choices: seq<(T, real)>): real {
    Prefix(choices, |choices|)
  }

  /**
   * weighted_choice (entity.py:4-12) for a draw r: the first entry whose running weight total
   * reaches r; if none does (r above the total), the last entry.
   */
  method WeightedChoice<T>(choices: seq<(T, real)>, r: real) returns (choice: T)
    requires |choices| > 0
    ensures Picked(choices, r, choice)
  {
    var upto := 0.0;
    var i := 0;
    while i < |choices|
      invariant 0 <= i <= |choices|
      invariant upto == Prefix(choices, i)
      invariant forall j :: 1 <= j <= i ==> Prefix(choices, j) < r
    {
      if upto + choices[i].1 >= r {
        return choices[i].0;
      }
      upto := upto + choices[i].1;
      i := i + 1;
    }
    return choices[|choices| - 1].0;
  }

  /** choice is the entry of the k-th position for the draw r: every running total before it
    * falls short of r, and its own reaches r (or it is the last and the total falls short). */
  ghost predicate Picked<T>(choices: seq<(T, real)>, r: real, choice: T) {
    exists k :: 0 <= k < |choices| && choice == choices[k].0
                && (forall j :: 1 <= j <= k ==> Prefix(choices, j) < r)
                && (r <= Prefix(choices, k + 1) || (k == |choices| - 1 && Total(choices) < r))
  }

  /** The total of a menu whose weights are all positive is positive. */
  lemma {:induction false} TotalPositive<T>(choices: seq<(T, real)>, n: nat)
    requires 0 < n <= |choices|
    requires forall i :: 0 <= i < |choices| ==> choices[i].1 > 0.0
    ensures Prefix(choices, n) > 0.0
  {
    if n > 1 {
      TotalPositive(choices, n - 1);
    }
  }

  /** The weight `choose_action` gives each action (entity.py:119-136). */
  function ActionWeight(a: Action): real {
    match a
    case Heal => 0.6
    case Rest => 0.8
    case Defend => 0.5
    case Attack(k) => if k == Normal then 0.4 else 0.3
  }

  /** Resources the source entity needs before an attack appears on its menus. */
  function AttackThreshold(k: AttackKind): real {
    match k
    case Heavy => 20.0
    case Quick => 5.0
    case Normal => 10.0
    case Magic => 0.0
  }

  /** Whether `choose_action` may offer an action to an entity with the vitals v, the given
    * max_health and mana_cost (entity.py:119-136). */
  predicate Offers(v: Vitals, maxHealth: real, manaCost: real, a: Action)
    requires maxHealth > 0.0
  {
    match a
    case Heal() => v.health / maxHealth < 0.4
    case Rest() => v.stamina < 10.0
    case Defend() => false
    case Attack(k) => if k == Magic then v.mana >= manaCost else v.stamina >= AttackThreshold(k)
  }

  class Entity {
    const name: string
    const maxHealth: real
    const baseAttack: real
    const maxMana: real
    const maxStamina: real
    const manaCost: real
    const specialAttackDamage: real
    const healingAbility: real
    const baseAccuracy: real
    const baseEvasion: real

    var health: real
    var attack: real
    var defense: real
    var mana: real
    var stamina: real
    var karma: int
    var accuracy: real
    var evasion: real
    var healTurns: int
    var inventory: map<Item, int>
    var role: Role

    /** Health and mana never exceed their maxima (which are not negative); every item has a count; the role is consistent. */
    ghost predicate Valid()
      reads this
    {
      && maxHealth > 0.0 && maxStamina > 0.0 && maxMana >= 0.0
      && health <= maxHealth && mana <= maxMana
      && (forall it: Item :: it in inventory)
      && RoleValid(role)
    }

    ghost function Snapshot(): Vitals
      reads this
    {
      Vitals(health, attack, defense, mana, stamina, karma, accuracy, evasion, healTurns, inventory, role)
    }

    /** is_alive (entity.py:160-161), read off the vitals the value-level predicates see: a
      * combatant whose health take_damage has floored at 0 has fallen. */
    predicate IsAlive(): (alive: bool)
      reads this
      ensures alive <==> Snapshot().health > 0.0
      ensures health == 0.0 ==> !alive
    {
      health > 0.0
    }

    /** An entity starts at full health, mana and stamina with two health and mana potions, one
      * stamina boost and one karma scroll (entity.py:15-62). */
    constructor (name: string, role: Role, maxHealth: real, attack: real, defense: real,
                 maxMana: real, maxStamina: real, manaCost: real, specialAttackDamage: real,
                 healingAbility: real, karma: int, accuracy: real, evasion: real)
      requires maxHealth > 0.0 && maxStamina > 0.0 && maxMana >= 0.0 && RoleValid(role)
      ensures Valid()
      ensures this.name == name && this.role == role && this.karma == karma && healTurns == 0
      ensures this.maxHealth == maxHealth && health == maxHealth
      ensures this.maxMana == maxMana && mana == maxMana
      ensures this.maxStamina == maxStamina && stamina == maxStamina
      ensures baseAttack == attack && this.attack == attack && this.defense == defense
      ensures baseAccuracy == accuracy && this.accuracy == accuracy
      ensures baseEvasion == evasion && this.evasion == evasion
      ensures this.manaCost == manaCost && this.specialAttackDamage == specialAttackDamage
      ensures this.healingAbility == healingAbility
      ensures inventory == map[HealthPotion := 2, ManaPotion := 2, StaminaBoost := 1, KarmaScroll := 1]
    {
      this.name := name;
      this.role := role;
      this.maxHealth := maxHealth;
      this.health := maxHealth;
      this.baseAttack := attack;
      this.attack := attack;
      this.defense := defense;
      this.maxMana := maxMana;
      this.mana := maxMana;
      this.maxStamina := maxStamina;
      this.stamina := maxStamina;
      this.manaCost := manaCost;
      this.specialAttackDamage := specialAttackDamage;
      this.healingAbility := healingAbility;
      this.karma := karma;
      this.baseAccuracy := accuracy;
      this.accuracy := accuracy;
      this.baseEvasion := evasion;
      this.evasion := evasion;
      this.healTurns := 0;
      this.inventory := map[HealthPotion := 2, ManaPotion := 2, StaminaBoost := 1, KarmaScroll := 1];
      new;
      forall it: Item
        ensures it in inventory
      {
        match it
        case HealthPotion =>
        case ManaPotion =>
        case StaminaBoost =>
        case KarmaScroll =>
      }
    }

    /** recover_stamina (entity.py:70-71): the result never exceeds max_stamina, even when the
      * entity was above it. */
    method RecoverStamina(amount: real)
      requires Valid()
      modifies this
      ensures Valid()
      ensures stamina <= maxStamina
      ensures amount >= 0.0 && old(stamina) <= maxStamina ==> old(stamina) <= stamina
      ensures Snapshot() == old(Snapshot()).(stamina := Min(old(stamina) + amount, maxStamina))
    {
      stamina := Min(stamina + amount, maxStamina);
    }

    /** reset_modifiers (entity.py:73-76) with the Intern override (intern.py:42-47): attack,
      * accuracy and evasion return to base; defense, heat and everything else are untouched. */
    method ResetModifiers()
      requires Valid()
      modifies this
      ensures Valid()
      ensures attack == baseAttack && accuracy == baseAccuracy && evasion == baseEvasion
      ensures defense == old(defense)
      ensures old(role).Intern? && old(role).panic ==> role == Intern(100.0, false)
      ensures !(old(role).Intern? && old(role).panic) ==> role == old(role)
      ensures Snapshot() == old(Snapshot()).(attack := baseAttack, accuracy := baseAccuracy,
                                             evasion := baseEvasion, role := role)
    {
      attack := baseAttack;
      accuracy := baseAccuracy;
      evasion := baseEvasion;
      if role.Intern? && role.panic {
        EndPanic();
      }
    }

    /** The Intern's crash (intern.py:42-47): panic mode ends and caffeine is refilled. */
    method EndPanic()
      requires Valid() && role.Intern? && role.panic
      modifies this
      ensures Valid()
      ensures role.Intern? && !role.panic && role.caffeine == 100.0
      ensures Snapshot() == old(Snapshot()).(role := Intern(100.0, false))
    {
      role := Intern(100.0, false);
    }

    /** rest (entity.py:78-83): stamina and mana each recover a drawn amount, capped at the maximum. */
    method Rest(staminaDraw: real, manaDraw: real)
      requires Valid()
      requires 15.0 <= staminaDraw <= 25.0 && 5.0 <= manaDraw <= 10.0
      modifies this
      ensures Valid()
      ensures stamina <= maxStamina && mana <= maxMana
      ensures Snapshot() == old(Snapshot()).(stamina := Min(old(stamina) + staminaDraw, maxStamina),
                                             mana := Min(old(mana) + manaDraw, maxMana))
    {
      stamina := Min(stamina + staminaDraw, maxStamina);
      mana := Min(mana + manaDraw, maxMana);
    }

    /** take_damage (entity.py:85-90): defense absorbs part of the blow; health is floored at 0
      * and falls by exactly the returned amount unless the floor intervenes. */
    method TakeDamage(damage: real) returns (actual: real)
      requires Valid()
      modifies this
      ensures Valid()
      ensures actual >= 0.0 && actual >= damage - defense
      ensures actual == 0.0 || actual == damage - defense
      ensures health >= 0.0
      ensures old(health) - actual >= 0.0 ==> health == old(health) - actual
      ensures old(health) - actual < 0.0 ==> health == 0.0
      ensures Snapshot() == old(Snapshot()).(health := HealthAfterHit(old(health), defense, damage))
    {
      actual := Max(damage - defense, 0.0);
      health := Max(0.0, health - actual);
    }

    /** The base heal (entity.py:92-98): health rises by at most healing_ability and never past
      * max_health; karma +5; a capped 15 stamina. The Mechanist overrides it (mechanist.py:64-67). */
    method Heal()
      requires Valid()
      modifies this
      ensures Valid()
      ensures role.Mechanist? ==> Snapshot() == old(Snapshot()).(stamina := Min(old(stamina) + 20.0, maxStamina))
      ensures !role.Mechanist? ==> health <= maxHealth
      ensures !role.Mechanist? ==> health - old(health) == Min(healingAbility, maxHealth - old(health))
      ensures !role.Mechanist? ==>
        Snapshot() == old(Snapshot()).(health := old(health) + Min(healingAbility, maxHealth - old(health)),
                                       healTurns := old(healTurns) + 1, karma := old(karma) + 5,
                                       stamina := Min(old(stamina) + 15.0, maxStamina))
    {
      if role.Mechanist? {
        MechanistHeal();
        return;
      }
      var healed := Min(healingAbility, maxHealth - health);
      health := health + healed;
      healTurns := healTurns + 1;
      karma := karma + 5;
      RecoverStamina(15.0);
    }

    /** The Mechanist's heal (mechanist.py:64-67): only stamina changes, never health. */
    method MechanistHeal()
      requires Valid()
      modifies this
      ensures Valid()
      ensures health == old(health) && stamina <= maxStamina
      ensures Snapshot() == old(Snapshot()).(stamina := Min(old(stamina) + 20.0, maxStamina))
    {
      RecoverStamina(20.0);
    }

    /** defend (entity.py:100-103): +5 defense, which no reset undoes, for 5 unchecked stamina. */
    method Defend()
      requires Valid()
      modifies this
      ensures Valid()
      ensures Snapshot() == old(Snapshot()).(defense := old(defense) + 5.0, stamina := old(stamina) - 5.0)
    {
      defense := defense + 5.0;
      stamina := stamina - 5.0;
    }

    /** Whether `choose_action` may offer an action in the current state (entity.py:119-136). */
    ghost predicate MenuAllows(a: Action)
      reads this
      requires maxHealth > 0.0
    {
      Offers(Snapshot(), maxHealth, manaCost, a)
    }

    /** The attack list `choose_attack` builds (entity.py:106-114): each attack with its weight,
      * offered exactly when the entity has the resources for it. */
    method AttackMenu() returns (menu: seq<(Action, real)>)
      requires Valid()
      ensures forall p :: p in menu ==> p.0.Attack? && MenuAllows(p.0) && p.1 == ActionWeight(p.0)
      ensures forall k :: MenuAllows(Attack(k)) ==> (Attack(k), ActionWeight(Attack(k))) in menu
    {
      menu := [];
      if stamina >= 20.0 {
        menu := menu + [(Attack(Heavy), 0.3)];
      }
      if mana >= manaCost {
        menu := menu + [(Attack(Magic), 0.3)];
      }
      if stamina >= 5.0 {
        menu := menu + [(Attack(Quick), 0.3)];
      }
      if stamina >= 10.0 {
        menu := menu + [(Attack(Normal), 0.4)];
      }
    }

    /** choose_attack (entity.py:105-117): an affordable attack drawn by weight, or Rest when
      * none is affordable. u is the uniform draw as a fraction of the menu total. */
    method ChooseAttack(u: real) returns (action: Action)
      requires Valid() && 0.0 <= u <= 1.0
      ensures action == Action.Rest || (action.Attack? && MenuAllows(action))
      ensures action == Action.Rest <==> forall k :: !MenuAllows(Attack(k))
    {
      var menu := AttackMenu();
      if |menu| == 0 {
        return Action.Rest;
      }
      action := WeightedChoice(menu, u * Total(menu));
    }

    /** The action list `choose_action` builds (entity.py:120-135): it always holds Rest (stamina
      * below 10) or a normal attack (stamina at least 10), so "defend" is never appended. */
    method ActionMenu() returns (menu: seq<(Action, real)>)
      requires Valid()
      ensures |menu| > 0
      ensures forall p :: p in menu ==> p.0 != Action.Defend && MenuAllows(p.0) && p.1 == ActionWeight(p.0)
      ensures forall a :: MenuAllows(a) ==> (a, ActionWeight(a)) in menu
    {
      menu := [];
      if health / maxHealth < 0.4 {
        menu := menu + [(Action.Heal, 0.6)];
      }
      if stamina < 10.0 {
        menu := menu + [(Action.Rest, 0.8)];
      }
      if stamina >= 20.0 {
        menu := menu + [(Attack(Heavy), 0.3)];
      }
      if mana >= manaCost {
        menu := menu + [(Attack(Magic), 0.3)];
      }
      if stamina >= 5.0 {
        menu := menu + [(Attack(Quick), 0.3)];
      }
      if stamina >= 10.0 {
        menu := menu + [(Attack(Normal), 0.4)];
      }
      if |menu| == 0 {
        menu := menu + [(Action.Defend, 0.5)];
      }
    }

    /** choose_action (entity.py:119-136): an action the menu offers, drawn by weight; never defend. */
    method ChooseAction(u: real) returns (action: Action)
      requires Valid() && 0.0 <= u <= 1.0
      ensures action != Action.Defend && MenuAllows(action)
      ensures action == Action.Heal ==> health / maxHealth < 0.4
      ensures action == Action.Rest ==> stamina < 10.0
    {
      var menu := ActionMenu();
      action := WeightedChoice(menu, u * Total(menu));
    }

    /** use_health_potion (entity.py:182-189): with none left nothing changes; otherwise one potion
      * is spent and health rises by min(30, max_health - health). */
    method UseHealthPotion()
      requires Valid()
      modifies this
      ensures Valid()
      ensures old(inventory[HealthPotion]) <= 0 ==> Snapshot() == old(Snapshot())
      ensures old(inventory[HealthPotion]) > 0 ==>
        Snapshot() == old(Snapshot()).(health := old(health) + Min(30.0, maxHealth - old(health)),
                                       inventory := old(inventory)[HealthPotion := old(inventory[HealthPotion]) - 1])
    {
      if inventory[HealthPotion] > 0 {
        var healed := Min(30.0, maxHealth - health);
        health := health + healed;
        inventory := inventory[HealthPotion := inventory[HealthPotion] - 1];
      }
    }

    /** use_mana_potion (entity.py:191-198): as above with 25 mana, capped at max_mana. */
    method UseManaPotion()
      requires Valid()
      modifies this
      ensures Valid()
      ensures old(inventory[ManaPotion]) <= 0 ==> Snapshot() == old(Snapshot())
      ensures old(inventory[ManaPotion]) > 0 ==>
        Snapshot() == old(Snapshot()).(mana := old(mana) + Min(25.0, maxMana - old(mana)),
                                       inventory := old(inventory)[ManaPotion := old(inventory[ManaPotion]) - 1])
    {
      if inventory[ManaPotion] > 0 {
        var recovered := Min(25.0, maxMana - mana);
        mana := mana + recovered;
        inventory := inventory[ManaPotion := inventory[ManaPotion] - 1];
      }
    }

    /** use_stamina_boost (entity.py:200-207): as above with 20 stamina, capped at max_stamina. */
    method UseStaminaBoost()
      requires Valid()
      modifies this
      ensures Valid()
      ensures old(inventory[StaminaBoost]) <= 0 ==> Snapshot() == old(Snapshot())
      ensures old(inventory[StaminaBoost]) > 0 ==>
        Snapshot() == old(Snapshot()).(stamina := old(stamina) + Min(20.0, maxStamina - old(stamina)),
                                       inventory := old(inventory)[StaminaBoost := old(inventory[StaminaBoost]) - 1])
    {
      if inventory[StaminaBoost] > 0 {
        var recovered := Min(20.0, maxStamina - stamina);
        stamina := stamina + recovered;
        inventory := inventory[StaminaBoost := inventory[StaminaBoost] - 1];
      }
    }

    /** propose_trade (entity.py:164-170): true exactly when this entity holds every offered
      * quantity and `other` every requested one; neither inventory changes. */
    method ProposeTrade(other: Entity, offer: seq<(Item, int)>, request: seq<(Item, int)>) returns (ok: bool)
      requires Valid() && other.Valid()
      ensures ok <==> (forall i :: 0 <= i < |offer| ==> inventory[offer[i].0] >= offer[i].1)
                      && (forall i :: 0 <= i < |request| ==> other.inventory[request[i].0] >= request[i].1)
    {
      var i := 0;
      while i < |offer|
        invariant 0 <= i <= |offer|
        invariant forall j :: 0 <= j < i ==> inventory[offer[j].0] >= offer[j].1
      {
        if inventory[offer[i].0] < offer[i].1 {
          return false;
        }
        i := i + 1;
      }
      i := 0;
      while i < |request|
        invariant 0 <= i <= |request|
        invariant forall j :: 0 <= j < i ==> other.inventory[request[j].0] >= request[j].1
      {
        if other.inventory[request[i].0] < request[i].1 {
          return false;
        }
        i := i + 1;
      }
      return true;
    }

    /** accept_trade (entity.py:172-179): this entity gains the offer and gives up the request;
      * `other` does the opposite, so each item's combined count is unchanged. */
    method AcceptTrade(other: Entity, offer: seq<(Item, int)>, request: seq<(Item, int)>)
      requires Valid() && other.Valid() && other != this
      modifies this, other
      ensures Valid() && other.Valid()
      ensures forall it: Item ::
        inventory[it] == old(inventory[it]) + Quantity(offer, it) - Quantity(request, it)
      ensures forall it: Item ::
        other.inventory[it] == old(other.inventory[it]) - Quantity(offer, it) + Quantity(request, it)
      ensures forall it: Item ::
        inventory[it] + other.inventory[it] == old(inventory[it]) + old(other.inventory[it])
      ensures Snapshot() == old(Snapshot()).(inventory := inventory)
      ensures other.Snapshot() == old(other.Snapshot()).(inventory := other.inventory)
    {
      Receive(other, offer);
      other.Receive(this, request);
    }

    /** One of accept_trade's two loops (entity.py:173-175, and 176-178 with the parties swapped):
      * this entity gains every listed quantity and `giver` loses it, with no check that the giver
      * holds enough. */
    method Receive(giver: Entity, items: seq<(Item, int)>)
      requires Valid() && giver.Valid() && giver != this
      modifies this, giver
      ensures Valid() && giver.Valid()
      ensures forall it: Item :: inventory[it] == old(inventory[it]) + Quantity(items, it)
      ensures forall it: Item :: giver.inventory[it] == old(giver.inventory[it]) - Quantity(items, it)
      ensures Snapshot() == old(Snapshot()).(inventory := inventory)
      ensures giver.Snapshot() == old(giver.Snapshot()).(inventory := giver.inventory)
    {
      var i := 0;
      while i < |items|
        invariant 0 <= i <= |items|
        invariant Valid() && giver.Valid()
        invariant forall it: Item :: inventory[it] == old(inventory[it]) + Quantity(items[..i], it)
        invariant forall it: Item :: giver.inventory[it] == old(giver.inventory[it]) - Quantity(items[..i], it)
        invariant Snapshot() == old(Snapshot()).(inventory := inventory)
        invariant giver.Snapshot() == old(giver.Snapshot()).(inventory := giver.inventory)
      {
        QuantityStep(items, i);
        var (item, qty) := items[i];
        ghost var before, giverBefore := Snapshot(), giver.Snapshot();
        inventory := inventory[item := inventory[item] + qty];
        giver.inventory := giver.inventory[item := giver.inventory[item] - qty];
        assert Snapshot() == before.(inventory := inventory);
        assert giver.Snapshot() == giverBefore.(inventory := giver.inventory);
        i := i + 1;
      }
      assert items[..i] == items;
    }
  }

  /** The total quantity of `item` listed in a trade's offer or request. */
  function Quantity(items: seq<(Item, int)>, item: Item): int {
    if items == [] then 0
    else Quantity(items[..|items| - 1], item) + (if items[|items| - 1].0 == item then items[|items| - 1].1 else 0)
  }

  lemma QuantityStep(items: seq<(Item, int)>, n: nat)
    requires n < |items|
    ensures forall it: Item :: Quantity(items[..n + 1], it)
                              == Quantity(items[..n], it) + (if items[n].0 == it then items[n].1 else 0)
  {
    assert items[..n + 1][..n] == items[..n];
  }
}
