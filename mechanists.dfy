/**
 * The Mechanist archetype (mechanist.py): heat that builds every turn, an overdrive strike paid
 * for with that heat, an EMP that drains the opponent's mana, and two cooldowns that tick down at
 * the end of each turn. The heal and reset_modifiers overrides are Entity.Heal's and
 * Entity.ResetModifiers's Mechanist cases.
 *
 * Mechanist.__init__ builds a table of stat overrides but passes only the logger to
 * Entity.__init__ (mechanist.py:7-20), so a Mechanist starts with the plain Entity defaults,
 * max_mana 100 included; nothing here depends on those stats.
 */
module Mechanists {
  import opened Combatants
  import opened AttackTypes
  import opened EntityTurns

  /** One cooldown after the end-of-turn tick: down by one while positive. */
  function Tick(c: int): (t: int)
    ensures t <= c
    ensures c >= 0 ==> t >= 0
    ensures c > 0 ==> t == c - 1
  {
    if c > 0 then c - 1 else c
  }

  /** The end-of-turn loop over the cooldowns dict (mechanist.py:47-50): every skill still
    * cooling down comes one turn closer; nothing is added or removed. */
  method TickCooldowns(cooldowns: map<Skill, int>) returns (ticked: map<Skill, int>)
    ensures ticked.Keys == cooldowns.Keys
    ensures forall s :: s in cooldowns ==> ticked[s] == Tick(cooldowns[s])
  {
    ticked := cooldowns;
    var pending := cooldowns.Keys;
    while pending != {}
      invariant pending <= cooldowns.Keys && ticked.Keys == cooldowns.Keys
      invariant forall s :: s in pending ==> ticked[s] == cooldowns[s]
      invariant forall s :: s in cooldowns && s !in pending ==> ticked[s] == Tick(cooldowns[s])
      decreases pending
    {
      var s :| s in pending;
      if ticked[s] > 0 {
        ticked := ticked[s := ticked[s] - 1];
      }
      pending := pending - {s};
    }
  }

  /** A cooldown set to 4 or 3 this turn and then ticked lies in [0, 3] again, as does one that
    * was already in [0, 3]. */
  lemma TickKeepsCooldownsInRange(c: int)
    requires 0 <= c <= 4
    ensures 0 <= Tick(c) <= 3
  {
  }

  /** emp_pulse (mechanist.py:54-55): the opponent loses 20 mana, never going below 0. */
  method EmpPulseOn(opponent: Entity)
    requires opponent.Valid()
    modifies opponent
    ensures opponent.Valid()
    ensures opponent.mana >= 0.0
    ensures opponent.Snapshot() == old(opponent.Snapshot()).(mana := Max(0.0, old(opponent.mana) - 20.0))
  {
    opponent.mana := Max(0.0, opponent.mana - 20.0);
  }

  /** overdrive (mechanist.py:58-61): 40 + 0.2 x heat damage through the opponent's take_damage,
    * and the heat is spent. */
  method OverdriveOn(self: Entity, opponent: Entity)
    requires self.Valid() && opponent.Valid() && self != opponent && self.role.Mechanist?
    modifies self, opponent
    ensures self.Valid() && opponent.Valid()
    ensures self.Snapshot() == old(self.Snapshot()).(role := old(self.role).(heat := 0.0))
    ensures opponent.Snapshot()
            == old(opponent.Snapshot()).(health := HealthAfterHit(old(opponent.health), old(opponent.defense),
                                                                  40.0 + old(self.role.heat) * 0.2))
  {
    var damage := 40.0 + self.role.heat * 0.2;
    self.role := self.role.(heat := 0.0);
    var _ := opponent.TakeDamage(damage);
  }

  /**
   * What Mechanist.take_turn (mechanist.py:30-52) does, on values (s, o before; s', o' after).
   * Heat rises by 5 first. Overdrive fires when health is below 40 and its cooldown is 0
   * (counting this turn's heat, which it spends); otherwise EMP fires when the opponent has mana
   * and its cooldown is 0; otherwise an attack drawn by choose_action, any other choice becoming
   * a rest. Both cooldowns then tick, and a capped recover_stamina of dr.recover closes the turn.
   * The Mechanist's own health and inventory never change.
   */
  ghost predicate MechanistTurn(self: Entity, s: Vitals, s': Vitals, o: Vitals, o': Vitals, move: Move, dr: TurnDraws) {
    && self.maxHealth > 0.0 && self.maxStamina > 0.0
    && s.role.Mechanist? && s.role.cooldowns.Keys == {Emp, Overdrive}
    && s'.role.Mechanist? && s'.role.cooldowns.Keys == {Emp, Overdrive}
    && s'.health == s.health && s'.inventory == s.inventory
    && (move == FiredOverdrive <==> s.health < 40.0 && s.role.cooldowns[Overdrive] == 0)
    && (move == FiredEmp <==> && !(s.health < 40.0 && s.role.cooldowns[Overdrive] == 0)
                              && o.mana > 0.0 && s.role.cooldowns[Emp] == 0)
    && (move == FiredOverdrive || move == FiredEmp || move == Chose(Action.Rest) || (move.Chose? && move.action.Attack?))
    && s'.role.heat == (if move == FiredOverdrive then 0.0 else s.role.heat + 5.0)
    && s'.role.cooldowns[Overdrive] == (if move == FiredOverdrive then 3 else Tick(s.role.cooldowns[Overdrive]))
    && s'.role.cooldowns[Emp] == (if move == FiredEmp then 2 else Tick(s.role.cooldowns[Emp]))
    && (move == FiredOverdrive ==>
          o' == o.(health := HealthAfterHit(o.health, o.defense, 40.0 + (s.role.heat + 5.0) * 0.2)))
    && (move == FiredEmp ==> o' == o.(mana := Max(0.0, o.mana - 20.0)))
    && (move == FiredOverdrive || move == FiredEmp ==>
          s' == Recovered(s, dr.recover, self.maxStamina).(role := s'.role))
    && (move == Chose(Action.Rest) ==>
          && o' == o
          && s' == Recovered(s.(stamina := Min(s.stamina + dr.restStamina, self.maxStamina),
                                mana := Min(s.mana + dr.restMana, self.maxMana)),
                             dr.recover, self.maxStamina).(role := s'.role))
    && (move.Chose? && move.action.Attack? ==>
          && Offers(s, self.maxHealth, self.manaCost, move.action)
          && var r := Resolve(move.action.kind, s, self.maxStamina, self.specialAttackDamage, o, dr.roll, dr.noise);
             s' == Recovered(r.attacker, dr.recover, self.maxStamina).(role := s'.role) && o' == r.defender)
  }

  /** Mechanist.take_turn (mechanist.py:30-52): as MechanistTurn says, so both cooldowns end in
    * [0, 3] and stamina at most max_stamina. */
  method MechanistTakeTurn(self: Entity, opponent: Entity, dr: TurnDraws) returns (move: Move)
    requires self.Valid() && opponent.Valid() && self != opponent && self.role.Mechanist?
    requires ActionDraws(dr) && 7.0 <= dr.recover <= 12.0
    modifies self, opponent
    ensures self.Valid() && opponent.Valid() && self.role.Mechanist?
    ensures self.stamina <= self.maxStamina
    ensures MechanistTurn(self, old(self.Snapshot()), self.Snapshot(), old(opponent.Snapshot()), opponent.Snapshot(), move, dr)
  {
    ghost var s, o := self.Snapshot(), opponent.Snapshot();
    self.role := self.role.(heat := self.role.heat + 5.0);
    move := MechanistAct(self, opponent, dr);
    ghost var acted := self.Snapshot();
    self.RecoverStamina(dr.recover);
    assert self.Snapshot() == Recovered(acted, dr.recover, self.maxStamina);
    if move.Chose? && move.action.Attack? {
      ResolveIgnoresRole(move.action.kind, s, self.maxStamina, self.specialAttackDamage, o, dr.roll, dr.noise,
                         s.role.(heat := s.role.heat + 5.0));
    }
  }

  /** The part of Mechanist.take_turn between the heat and the final recovery (mechanist.py:33-50):
    * one of overdrive, EMP, an attack or a rest, with the cooldown it sets, then the tick. */
  method MechanistAct(self: Entity, opponent: Entity, dr: TurnDraws) returns (move: Move)
    requires self.Valid() && opponent.Valid() && self != opponent && self.role.Mechanist?
    requires ActionDraws(dr)
    modifies self, opponent
    ensures self.Valid() && opponent.Valid() && self.role.Mechanist?
    ensures self.health == old(self.health) && self.inventory == old(self.inventory)
    ensures move == FiredOverdrive <==> old(self.health) < 40.0 && old(self.role.cooldowns[Overdrive]) == 0
    ensures move == FiredEmp <==> !(old(self.health) < 40.0 && old(self.role.cooldowns[Overdrive]) == 0)
                                  && old(opponent.mana) > 0.0 && old(self.role.cooldowns[Emp]) == 0
    ensures move == FiredOverdrive || move == FiredEmp || move == Chose(Action.Rest) || (move.Chose? && move.action.Attack?)
    ensures self.role.heat == if move == FiredOverdrive then 0.0 else old(self.role.heat)
    ensures self.role.cooldowns[Overdrive] == if move == FiredOverdrive then 3 else Tick(old(self.role.cooldowns[Overdrive]))
    ensures self.role.cooldowns[Emp] == if move == FiredEmp then 2 else Tick(old(self.role.cooldowns[Emp]))
    ensures move == FiredOverdrive ==>
      opponent.Snapshot() == old(opponent.Snapshot()).(health := HealthAfterHit(old(opponent.health),
                                                        old(opponent.defense), 40.0 + old(self.role.heat) * 0.2))
    ensures move == FiredEmp ==>
      opponent.Snapshot() == old(opponent.Snapshot()).(mana := Max(0.0, old(opponent.mana) - 20.0))
    ensures move == FiredOverdrive || move == FiredEmp ==>
      self.Snapshot() == old(self.Snapshot()).(role := self.role)
    ensures move == Chose(Action.Rest) ==>
      && opponent.Snapshot() == old(opponent.Snapshot())
      && self.Snapshot() == old(self.Snapshot()).(
           stamina := Min(old(self.stamina) + dr.restStamina, self.maxStamina),
           mana := Min(old(self.mana) + dr.restMana, self.maxMana), role := self.role)
    ensures move.Chose? && move.action.Attack? ==>
      && old(self.MenuAllows(move.action))
      && var o := Resolve(move.action.kind, old(self.Snapshot()), self.maxStamina, self.specialAttackDamage,
                          old(opponent.Snapshot()), dr.roll, dr.noise);
         && self.Snapshot() == o.attacker.(role := self.role)
         && opponent.Snapshot() == o.defender
  {
    if self.health < 40.0 && self.role.cooldowns[Overdrive] == 0 {
      OverdriveOn(self, opponent);
      self.role := self.role.(cooldowns := self.role.cooldowns[Overdrive := 4]);
      move := FiredOverdrive;
    } else if opponent.mana > 0.0 && self.role.cooldowns[Emp] == 0 {
      EmpPulseOn(opponent);
      self.role := self.role.(cooldowns := self.role.cooldowns[Emp := 3]);
      move := FiredEmp;
    } else {
      move := AttackOrRest(self, opponent, dr);
    }
    TickRole(self);
  }

  /** The Mechanist's fallback (mechanist.py:40-45): the choose_action draw if it is an attack,
    * and a rest for anything else. */
  method AttackOrRest(self: Entity, opponent: Entity, dr: TurnDraws) returns (move: Move)
    requires self.Valid() && opponent.Valid() && self != opponent
    requires ActionDraws(dr)
    modifies self, opponent
    ensures self.Valid() && opponent.Valid()
    ensures move == Chose(Action.Rest) || (move.Chose? && move.action.Attack?)
    ensures move == Chose(Action.Rest) ==>
      && opponent.Snapshot() == old(opponent.Snapshot())
      && self.Snapshot() == old(self.Snapshot()).(
           stamina := Min(old(self.stamina) + dr.restStamina, self.maxStamina),
           mana := Min(old(self.mana) + dr.restMana, self.maxMana))
    ensures move.Chose? && move.action.Attack? ==>
      && old(self.MenuAllows(move.action))
      && var o := Resolve(move.action.kind, old(self.Snapshot()), self.maxStamina, self.specialAttackDamage,
                          old(opponent.Snapshot()), dr.roll, dr.noise);
         self.Snapshot() == o.attacker && opponent.Snapshot() == o.defender
  {
    var action := self.ChooseAction(dr.choice);
    if action.Attack? {
      var _ := Apply(action.kind, self, opponent, dr.roll, dr.noise);
      move := Chose(action);
    } else {
      self.Rest(dr.restStamina, dr.restMana);
      move := Chose(Action.Rest);
    }
  }

  /** The cooldown tick applied to the Mechanist's own dict (mechanist.py:47-50): a cooldown just
    * set to 4 or 3 comes back within [0, 3]. */
  method TickRole(self: Entity)
    requires self.role.Mechanist? && self.role.heat >= 0.0
    requires self.role.cooldowns.Keys == {Emp, Overdrive}
    requires forall s :: s in self.role.cooldowns ==> 0 <= self.role.cooldowns[s] <= 4
    requires self.maxHealth > 0.0 && self.maxStamina > 0.0 && self.maxMana >= 0.0
    requires self.health <= self.maxHealth && self.mana <= self.maxMana
    requires forall it: Item :: it in self.inventory
    modifies self
    ensures self.Valid() && self.role.Mechanist? && self.role.heat == old(self.role.heat)
    ensures forall s :: s in self.role.cooldowns ==> self.role.cooldowns[s] == Tick(old(self.role.cooldowns[s]))
    ensures self.Snapshot() == old(self.Snapshot()).(role := self.role)
  {
    var ticked := TickCooldowns(self.role.cooldowns);
    self.role := self.role.(cooldowns := ticked);
  }
}
