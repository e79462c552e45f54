/**
 * The turn of a plain entity (entity.py:138-158), the policy Entity2 and the Priest follow, and
 * the random draws and outcomes all archetypes' turns share.
 */
module EntityTurns {
  import opened Combatants
  import opened AttackTypes
  import opened Wrappers

  /** The random values one turn may consume. */
  datatype TurnDraws = TurnDraws(
    choice: real,       // weighted_choice's uniform draw, as a fraction of the menu total
    roll: real,         // the hit roll of an attack, random.random()
    noise: real,        // the Gaussian sample of variable_damage
    restStamina: real,  // rest's uniform(15, 25)
    restMana: real,     // rest's uniform(5, 10)
    recover: real,      // the closing recover_stamina's uniform draw
    forget: real,       // the Intern's random.random() for forgetting to act
    chance: real,       // the Intern's random.random() for heal / rest / attack
    caffeine: real)     // the Intern's uniform(5, 15) of caffeine burnt

  /** The ranges of the draws the plain and the Mechanist turns take from `random`. */
  predicate ActionDraws(dr: TurnDraws) {
    && 0.0 <= dr.choice <= 1.0 && 0.0 <= dr.roll < 1.0
    && 15.0 <= dr.restStamina <= 25.0 && 5.0 <= dr.restMana <= 10.0
  }

  /** What an actor did with its turn. */
  datatype Move =
    | UsedItem(item: Item)
    | Chose(action: Action)
    | FiredOverdrive
    | FiredEmp
    | Forgot
    | Hesitated
    | Prayed

  /** The vitals after a capped recover_stamina(amount) (entity.py:70-71). */
  function Recovered(v: Vitals, amount: real, maxStamina: real): (r: Vitals)
    ensures r.stamina <= maxStamina
    ensures amount >= 0.0 && v.stamina <= maxStamina ==> v.stamina <= r.stamina
    ensures r == v.(stamina := r.stamina)
  {
    v.(stamina := Min(v.stamina + amount, maxStamina))
  }

  /** The first item take_turn would use, in priority order health potion (health below 40),
    * mana potion (mana below 30), stamina boost (stamina below 20); the thresholds are absolute
    * values, not ratios of the maxima. */
  function ItemNeeded(v: Vitals): (r: Option<Item>)
    requires forall it: Item :: it in v.inventory
    ensures r.Some? ==> r.value != KarmaScroll && v.inventory[r.value] > 0
    ensures r == Some(HealthPotion) <==> v.health < 40.0 && v.inventory[HealthPotion] > 0
    ensures r == None ==> !(v.mana < 30.0 && v.inventory[ManaPotion] > 0)
                                   && !(v.stamina < 20.0 && v.inventory[StaminaBoost] > 0)
  {
    if v.health < 40.0 && v.inventory[HealthPotion] > 0 then Some(HealthPotion)
    else if v.mana < 30.0 && v.inventory[ManaPotion] > 0 then Some(ManaPotion)
    else if v.stamina < 20.0 && v.inventory[StaminaBoost] > 0 then Some(StaminaBoost)
    else None
  }

  /**
   * What Entity.take_turn (entity.py:138-158) does, on values: `self` supplies the fixed stats,
   * s and o are the actor's and the opponent's vitals before the turn, s' and o' after it. At
   * most one item is used, the first ItemNeeded gives; otherwise the action choose_action draws
   * (never defend); then a capped recover_stamina of dr.recover. The opponent changes only under
   * an attack, and then as Resolve says.
   */
  ghost predicate PlainTurn(self: Entity, s: Vitals, s': Vitals, o: Vitals, o': Vitals, move: Move, dr: TurnDraws) {
    && self.maxHealth > 0.0 && self.maxStamina > 0.0 && (forall it: Item :: it in s.inventory)
    && (move.UsedItem? <==> ItemNeeded(s).Some?)
    && (move.UsedItem? ==> ItemNeeded(s) == Some(move.item))
    && (move.UsedItem? || move.Chose?)
    && (move.Chose? ==> && move.action != Action.Defend && Offers(s, self.maxHealth, self.manaCost, move.action)
                        && s'.inventory == s.inventory)
    && (!(move.Chose? && move.action.Attack?) ==> o' == o)
    && (move == UsedItem(HealthPotion) ==>
          s' == Recovered(s.(health := s.health + Min(30.0, self.maxHealth - s.health),
                             inventory := s.inventory[HealthPotion := s.inventory[HealthPotion] - 1]),
                          dr.recover, self.maxStamina))
    && (move == UsedItem(ManaPotion) ==>
          s' == Recovered(s.(mana := s.mana + Min(25.0, self.maxMana - s.mana),
                             inventory := s.inventory[ManaPotion := s.inventory[ManaPotion] - 1]),
                          dr.recover, self.maxStamina))
    && (move == UsedItem(StaminaBoost) ==>
          s' == Recovered(s.(stamina := s.stamina + Min(20.0, self.maxStamina - s.stamina),
                             inventory := s.inventory[StaminaBoost := s.inventory[StaminaBoost] - 1]),
                          dr.recover, self.maxStamina))
    && (move == Chose(Action.Heal) ==>
          s' == Recovered(Recovered(s.(health := s.health + Min(self.healingAbility, self.maxHealth - s.health),
                                       healTurns := s.healTurns + 1, karma := s.karma + 5),
                                    15.0, self.maxStamina), dr.recover, self.maxStamina))
    && (move == Chose(Action.Rest) ==>
          s' == Recovered(s.(stamina := Min(s.stamina + dr.restStamina, self.maxStamina),
                             mana := Min(s.mana + dr.restMana, self.maxMana)),
                          dr.recover, self.maxStamina))
    && (move.Chose? && move.action.Attack? ==>
          var r := Resolve(move.action.kind, s, self.maxStamina, self.specialAttackDamage, o, dr.roll, dr.noise);
          s' == Recovered(r.attacker, dr.recover, self.maxStamina) && o' == r.defender)
  }

  /** Entity.take_turn (entity.py:138-158), the turn of Entity2 and the Priest: as PlainTurn says,
    * so the turn always ends with stamina at most max_stamina. */
  method TakeTurn(self: Entity, opponent: Entity, dr: TurnDraws) returns (move: Move)
    requires self.Valid() && opponent.Valid() && self != opponent
    requires self.role.Generic? || self.role.Priest?
    requires ActionDraws(dr) && 5.0 <= dr.recover <= 10.0
    modifies self, opponent
    ensures self.Valid() && opponent.Valid()
    ensures self.stamina <= self.maxStamina
    ensures PlainTurn(self, old(self.Snapshot()), self.Snapshot(), old(opponent.Snapshot()), opponent.Snapshot(), move, dr)
  {
    if self.health < 40.0 && self.inventory[HealthPotion] > 0 {
      self.UseHealthPotion();
      move := UsedItem(HealthPotion);
    } else if self.mana < 30.0 && self.inventory[ManaPotion] > 0 {
      self.UseManaPotion();
      move := UsedItem(ManaPotion);
    } else if self.stamina < 20.0 && self.inventory[StaminaBoost] > 0 {
      self.UseStaminaBoost();
      move := UsedItem(StaminaBoost);
    } else {
      var action := self.ChooseAction(dr.choice);
      move := Chose(action);
      match action
      case Heal => self.Heal();
      case Rest => self.Rest(dr.restStamina, dr.restMana);
      case Defend => assert false;  // choose_action never offers defend
      case Attack(k) => var _ := Apply(k, self, opponent, dr.roll, dr.noise);
    }
    self.RecoverStamina(dr.recover);
  }
}
