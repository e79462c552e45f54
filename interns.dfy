/**
 * The Intern archetype (intern.py): a turn that may be forgotten, a caffeine level burnt on every
 * acting turn, and a one-off panic mode when caffeine runs low. The reset_modifiers override is
 * Entity.ResetModifiers's Intern case.
 */
module Interns {
  import opened Combatants
  import opened AttackTypes
  import opened EntityTurns

  /** The panic check of take_turn (intern.py:20-25) on values: below 30 caffeine, and only when
    * not already panicking, attack x1.5, accuracy +0.1 and an uncapped +20 stamina. */
  function AfterPanic(v: Vitals): (r: Vitals)
    requires v.role.Intern?
    ensures r.role.Intern? && r.role.caffeine == v.role.caffeine
    ensures r.role.panic <==> v.role.panic || v.role.caffeine < 30.0
    ensures v.role.panic || v.role.caffeine >= 30.0 ==> r == v
    ensures !v.role.panic && v.role.caffeine < 30.0 ==> r.stamina == v.stamina + 20.0
  {
    if v.role.caffeine < 30.0 && !v.role.panic then
      v.(attack := v.attack * 1.5, accuracy := v.accuracy + 0.1, stamina := v.stamina + 20.0,
         role := Intern(v.role.caffeine, true))
    else v
  }

  /** The boost is applied at most once per panic: checking again changes nothing. */
  lemma PanicBoostOnce(v: Vitals)
    requires v.role.Intern?
    ensures AfterPanic(AfterPanic(v)) == AfterPanic(v)
  {
  }

  /** Panic's +20 stamina is not capped: an Intern at full stamina ends above max_stamina. */
  lemma PanicStaminaUncapped(v: Vitals, maxStamina: real)
    requires v.role == Intern(20.0, false) && v.stamina == maxStamina
    ensures AfterPanic(v).stamina > maxStamina
  {
  }

  /** The caffeine burnt at the end of an acting turn (intern.py:40), floored at 0; it stays in
    * [0, 100] when it was there. */
  function Drained(v: Vitals, burnt: real): (r: Vitals)
    requires v.role.Intern? && burnt >= 0.0
    ensures r.role.Intern? && r.role.panic == v.role.panic
    ensures r.role.caffeine >= 0.0
    ensures 0.0 <= v.role.caffeine <= 100.0 ==> r.role.caffeine <= v.role.caffeine && r.role.caffeine <= 100.0
    ensures v.role.caffeine >= burnt ==> r.role.caffeine == v.role.caffeine - burnt
    ensures r == v.(role := r.role)
  {
    v.(role := Intern(Max(0.0, v.role.caffeine - burnt), v.role.panic))
  }

  /** Entering panic mode (intern.py:20-25). */
  method EnterPanic(self: Entity)
    requires self.Valid() && self.role.Intern? && self.role.caffeine < 30.0 && !self.role.panic
    modifies self
    ensures self.Valid() && self.Snapshot() == AfterPanic(old(self.Snapshot()))
  {
    self.role := Intern(self.role.caffeine, true);
    self.attack := self.attack * 1.5;
    self.accuracy := self.accuracy + 0.1;
    self.stamina := self.stamina + 20.0;
  }

  /**
   * What Intern.take_turn (intern.py:12-40) does, on values (s, o before; s', o' after). A forget
   * draw below 0.1 only recovers a capped 5 stamina; caffeine and panic stay as they were.
   * Otherwise panic may engage (AfterPanic), then an action draw below 0.2 heals, below 0.4
   * rests, and anything else tries an affordable attack, doing nothing when choose_attack finds
   * none. Caffeine then drops by the burnt dr.caffeine, floored at 0.
   */
  ghost predicate InternTurn(self: Entity, s: Vitals, s': Vitals, o: Vitals, o': Vitals, move: Move, dr: TurnDraws) {
    && self.maxHealth > 0.0 && self.maxStamina > 0.0 && s.role.Intern? && dr.caffeine >= 0.0
    && (move == Forgot <==> dr.forget < 0.1)
    && (move == Forgot ==> s' == Recovered(s, 5.0, self.maxStamina) && o' == o)
    && (move == Chose(Action.Heal) <==> dr.forget >= 0.1 && dr.chance < 0.2)
    && (move == Chose(Action.Rest) <==> dr.forget >= 0.1 && 0.2 <= dr.chance < 0.4)
    && (move != Forgot && dr.chance >= 0.4 ==> move == Hesitated || (move.Chose? && move.action.Attack?))
    && (move != Forgot ==>
          var p := AfterPanic(s);
          && (move == Chose(Action.Heal) ==>
                && o' == o
                && s' == Drained(p.(health := p.health + Min(self.healingAbility, self.maxHealth - p.health),
                                    healTurns := p.healTurns + 1, karma := p.karma + 5,
                                    stamina := Min(p.stamina + 15.0, self.maxStamina)), dr.caffeine))
          && (move == Chose(Action.Rest) ==>
                && o' == o
                && s' == Drained(p.(stamina := Min(p.stamina + dr.restStamina, self.maxStamina),
                                    mana := Min(p.mana + dr.restMana, self.maxMana)), dr.caffeine))
          && (move == Hesitated ==>
                && (forall k :: !Offers(p, self.maxHealth, self.manaCost, Attack(k)))
                && o' == o && s' == Drained(p, dr.caffeine))
          && (move.Chose? && move.action.Attack? ==>
                && Offers(p, self.maxHealth, self.manaCost, move.action)
                && var r := Resolve(move.action.kind, p, self.maxStamina, self.specialAttackDamage, o, dr.roll, dr.noise);
                   s' == Drained(r.attacker, dr.caffeine) && o' == r.defender))
  }

  /**
   * The Intern's action (intern.py:28-38) on values (p, o before; p', o' after): a chance draw
   * below 0.2 heals, below 0.4 rests, and anything else tries an affordable attack, doing nothing
   * when choose_attack finds none.
   */
  ghost predicate InternActed(self: Entity, p: Vitals, p': Vitals, o: Vitals, o': Vitals, move: Move, dr: TurnDraws) {
    && self.maxHealth > 0.0 && self.maxStamina > 0.0
    && p'.role == p.role
    && (move == Chose(Action.Heal) <==> dr.chance < 0.2)
    && (move == Chose(Action.Rest) <==> 0.2 <= dr.chance < 0.4)
    && (dr.chance >= 0.4 ==> move == Hesitated || (move.Chose? && move.action.Attack?))
    && (move == Chose(Action.Heal) ==>
          && o' == o
          && p' == p.(health := p.health + Min(self.healingAbility, self.maxHealth - p.health),
                      healTurns := p.healTurns + 1, karma := p.karma + 5,
                      stamina := Min(p.stamina + 15.0, self.maxStamina)))
    && (move == Chose(Action.Rest) ==>
          && o' == o
          && p' == p.(stamina := Min(p.stamina + dr.restStamina, self.maxStamina),
                      mana := Min(p.mana + dr.restMana, self.maxMana)))
    && (move == Hesitated ==>
          && (forall k :: !Offers(p, self.maxHealth, self.manaCost, Attack(k)))
          && o' == o && p' == p)
    && (move.Chose? && move.action.Attack? ==>
          && Offers(p, self.maxHealth, self.manaCost, move.action)
          && var r := Resolve(move.action.kind, p, self.maxStamina, self.specialAttackDamage, o, dr.roll, dr.noise);
             p' == r.attacker && o' == r.defender)
  }

  /** An acting turn is the panic check, the action, then the caffeine drain. */
  lemma ActingTurn(self: Entity, s: Vitals, p': Vitals, s': Vitals, o: Vitals, o': Vitals, move: Move, dr: TurnDraws)
    requires s.role.Intern? && dr.caffeine >= 0.0 && dr.forget >= 0.1
    requires InternActed(self, AfterPanic(s), p', o, o', move, dr)
    requires s' == Drained(p', dr.caffeine)
    ensures InternTurn(self, s, s', o, o', move, dr)
  {
  }

  /** Intern.take_turn (intern.py:12-40), as InternTurn says; caffeine and panic are recomputed
    * only on a turn not forgotten. */
  method InternTakeTurn(self: Entity, opponent: Entity, dr: TurnDraws) returns (move: Move)
    requires self.Valid() && opponent.Valid() && self != opponent && self.role.Intern?
    requires ActionDraws(dr) && 0.0 <= dr.forget < 1.0 && 0.0 <= dr.chance < 1.0
    requires 5.0 <= dr.caffeine <= 15.0
    modifies self, opponent
    ensures self.Valid() && opponent.Valid() && self.role.Intern?
    ensures InternTurn(self, old(self.Snapshot()), self.Snapshot(), old(opponent.Snapshot()), opponent.Snapshot(), move, dr)
  {
    if dr.forget < 0.1 {
      self.RecoverStamina(5.0);
      return Forgot;
    }
    ghost var s, o := self.Snapshot(), opponent.Snapshot();
    if self.role.caffeine < 30.0 && !self.role.panic {
      EnterPanic(self);
    }
    assert self.Snapshot() == AfterPanic(s);
    move := InternAct(self, opponent, dr);
    ghost var acted := self.Snapshot();
    self.role := Intern(Max(0.0, self.role.caffeine - dr.caffeine), self.role.panic);
    assert self.Snapshot() == Drained(acted, dr.caffeine);
    ActingTurn(self, s, acted, self.Snapshot(), o, opponent.Snapshot(), move, dr);
  }

  /** The Intern's action (intern.py:28-38), as InternActed says. */
  method InternAct(self: Entity, opponent: Entity, dr: TurnDraws) returns (move: Move)
    requires self.Valid() && opponent.Valid() && self != opponent && self.role.Intern?
    requires ActionDraws(dr)
    modifies self, opponent
    ensures self.Valid() && opponent.Valid()
    ensures InternActed(self, old(self.Snapshot()), self.Snapshot(), old(opponent.Snapshot()), opponent.Snapshot(), move, dr)
  {
    if dr.chance < 0.2 {
      self.Heal();
      move := Chose(Action.Heal);
    } else if dr.chance < 0.4 {
      self.Rest(dr.restStamina, dr.restMana);
      move := Chose(Action.Rest);
    } else {
      var action := self.ChooseAttack(dr.choice);
      if action.Attack? {
        var _ := Apply(action.kind, self, opponent, dr.roll, dr.noise);
        move := Chose(action);
      } else {
        move := Hesitated;
      }
    }
  }
}
