/**
 * The early integer duel of warsim/entitywar.py: two fighters with whole-number stats take turns,
 * the first on odd turns and the second on even ones, until one of them is no longer alive.
 * Damage and healing are neither floored nor capped. The effect of a turn is stated once on
 * values (`Turn`, `RunDuel`); the fighter's methods and the duel loop promise exactly that effect.
 */
module EntityWar {

  function MaxInt(a: int, b: int): int { if a >= b then a else b }

  /** The stats a fighter never changes. */
  datatype Profile = Profile(attack: int, defense: int, healingAbility: int, manaCost: int, specialAttackDamage: int)

  /** The stats a fighter's actions change. */
  datatype Side = Side(health: int, mana: int)

  /** take_damage (warsim/entitywar.py:15-16): defense absorbs part of the blow, and health may
    * fall below 0. */
  function Damaged(health: int, defense: int, damage: int): (h: int)
    ensures h <= health
    ensures damage <= defense ==> h == health
  {
    health - MaxInt(damage - defense, 0)
  }

  /** Whether the special attack is affordable: enough mana and at least 10 health. */
  predicate CanSpecial(p: Profile, s: Side) {
    s.mana >= p.manaCost && s.health >= 10
  }

  /** take_turn (warsim/entitywar.py:38-47) on values: an actor below 30 health heals by its
    * healing ability; otherwise it uses an affordable special attack (10 health and mana_cost mana
    * for special_attack_damage); otherwise it strikes for its attack. */
  function Turn(p: Profile, actor: Side, opponentDefense: int, opponent: Side): (r: (Side, Side))
    ensures r.1.mana == opponent.mana && r.1.health <= opponent.health
    ensures r.0.mana == actor.mana || r.0.mana == actor.mana - p.manaCost >= 0
    ensures actor.health < 30 ==> r.1 == opponent
  {
    if actor.health < 30 then (actor.(health := actor.health + p.healingAbility), opponent)
    else if CanSpecial(p, actor) then
      (Side(actor.health - 10, actor.mana - p.manaCost),
       opponent.(health := Damaged(opponent.health, opponentDefense, p.specialAttackDamage)))
    else (actor, opponent.(health := Damaged(opponent.health, opponentDefense, p.attack)))
  }

  /** A turn never gives the opponent health, never costs the actor mana it does not have, and
    * changes the opponent's mana never. */
  lemma TurnBounds(p: Profile, actor: Side, opponentDefense: int, opponent: Side)
    requires actor.mana >= 0
    ensures var (a, o) := Turn(p, actor, opponentDefense, opponent);
            && o.health <= opponent.health && o.mana == opponent.mana && a.mana >= 0
            && (actor.health >= 30 ==> a.health <= actor.health)
  {
  }

  /** The state of a duel: both fighters' changing stats and the turn counter. */
  datatype Bout = Bout(first: Side, second: Side, turn: nat)

  predicate BothAlive(b: Bout) {
    b.first.health > 0 && b.second.health > 0
  }

  /** One pass of the duel loop (warsim/entitywar.py:56-61): the counter advances, and the first
    * fighter acts on odd turns, the second on even ones; the fighter that does not act gains no
    * health and keeps its mana. */
  function Round(p1: Profile, p2: Profile, b: Bout): (r: Bout)
    ensures r.turn == b.turn + 1
    ensures r.turn % 2 == 1 ==> r.second.mana == b.second.mana && r.second.health <= b.second.health
    ensures r.turn % 2 == 0 ==> r.first.mana == b.first.mana && r.first.health <= b.first.health
  {
    var t := b.turn + 1;
    if t % 2 == 1 then
      var (a, o) := Turn(p1, b.first, p2.defense, b.second);
      Bout(a, o, t)
    else
      var (a, o) := Turn(p2, b.second, p1.defense, b.first);
      Bout(o, a, t)
  }

  /** The duel loop, for at most `fuel` more turns: it stops as soon as a fighter is down. */
  function RunDuel(p1: Profile, p2: Profile, b: Bout, fuel: nat): (r: Bout)
    ensures r.turn >= b.turn
    ensures r.turn < b.turn + fuel ==> !BothAlive(r)
    decreases fuel
  {
    if !BothAlive(b) || fuel == 0 then b else RunDuel(p1, p2, Round(p1, p2, b), fuel - 1)
  }

  /** The two fighters the script creates (warsim/entitywar.py:50-51). */
  const First := Profile(20, 5, 15, 30, 50)
  const Second := Profile(15, 10, 10, 30, 60)
  const Start := Bout(Side(100, 100), Side(100, 100), 0)

  /** The scripted duel: the first fighter's special attacks bring the second to 10 health by
    * turn 3, both heal on turns 4 to 6, and the first fighter's third special on turn 7 leaves
    * the second at -10. The first fighter wins after 7 turns with 30 health and 10 mana. */
  lemma {:induction false} ScriptedDuel(fuel: nat)
    requires fuel >= 7
    ensures RunDuel(First, Second, Start, fuel) == Bout(Side(30, 10), Side(-10, 70), 7)
  {
    var b1 := Round(First, Second, Start);
    assert b1 == Bout(Side(90, 70), Side(60, 100), 1);
    var b2 := Round(First, Second, b1);
    assert b2 == Bout(Side(35, 70), Side(50, 70), 2);
    var b3 := Round(First, Second, b2);
    assert b3 == Bout(Side(25, 40), Side(10, 70), 3);
    var b4 := Round(First, Second, b3);
    assert b4 == Bout(Side(25, 40), Side(20, 70), 4);
    var b5 := Round(First, Second, b4);
    assert b5 == Bout(Side(40, 40), Side(20, 70), 5);
    var b6 := Round(First, Second, b5);
    assert b6 == Bout(Side(40, 40), Side(30, 70), 6);
    var b7 := Round(First, Second, b6);
    assert b7 == Bout(Side(30, 10), Side(-10, 70), 7);
    assert RunDuel(First, Second, b7, fuel - 7) == b7;
    assert RunDuel(First, Second, b6, fuel - 6) == b7;
    assert RunDuel(First, Second, b5, fuel - 5) == b7;
    assert RunDuel(First, Second, b4, fuel - 4) == b7;
    assert RunDuel(First, Second, b3, fuel - 3) == b7;
    assert RunDuel(First, Second, b2, fuel - 2) == b7;
    assert RunDuel(First, Second, b1, fuel - 1) == b7;
  }

  /** The Entity class of warsim/entitywar.py. Only health and mana ever change. */
  class Fighter {
    const name: string
    var health: int
    const attack: int
    const defense: int
    const healingAbility: int
    var mana: int
    const manaCost: int
    const specialAttackDamage: int

    function Stats(): Profile {
      Profile(attack, defense, healingAbility, manaCost, specialAttackDamage)
    }

    function State(): Side
      reads this
    {
      Side(health, mana)
    }

    /** is_alive (warsim/entitywar.py:35-36): health above 0; with no floor on damage, a fighter
      * below 0 has fallen too. */
    predicate IsAlive(): (alive: bool)
      reads this
      ensures alive <==> State().health > 0
      ensures health <= 0 ==> !alive
    {
      health > 0
    }

    /** Entity.__init__ (warsim/entitywar.py:5-13). */
    constructor (name: string, health: int, attack: int, defense: int, healingAbility: int,
                 mana: int, manaCost: int, specialAttackDamage: int)
      ensures this.name == name && State() == Side(health, mana)
      ensures Stats() == Profile(attack, defense, healingAbility, manaCost, specialAttackDamage)
    {
      this.name := name;
      this.health := health;
      this.attack := attack;
      this.defense := defense;
      this.healingAbility := healingAbility;
      this.mana := mana;
      this.manaCost := manaCost;
      this.specialAttackDamage := specialAttackDamage;
    }

    /** take_damage (warsim/entitywar.py:15-16). */
    method TakeDamage(damage: int)
      modifies this
      ensures State() == Side(Damaged(old(health), defense, damage), old(mana))
    {
      health := health - MaxInt(damage - defense, 0);
    }

    /** heal (warsim/entitywar.py:18-19): no cap. */
    method Heal()
      modifies this
      ensures State() == Side(old(health) + healingAbility, old(mana))
    {
      health := health + healingAbility;
    }

    /** attack_opponent (warsim/entitywar.py:21-24): the attacker is left as it was. */
    method AttackOpponent(opponent: Fighter)
      requires opponent != this
      modifies opponent
      ensures opponent.State() == Side(Damaged(old(opponent.health), opponent.defense, attack), old(opponent.mana))
    {
      var damage := attack;
      opponent.TakeDamage(damage);
    }

    /** special_attack (warsim/entitywar.py:26-33): only when affordable, paying 10 health and
      * mana_cost mana, so mana that was not negative stays so; otherwise nothing changes. */
    method SpecialAttack(opponent: Fighter)
      requires opponent != this
      modifies this, opponent
      ensures CanSpecial(Stats(), old(State())) ==>
        && State() == Side(old(health) - 10, old(mana) - manaCost)
        && opponent.State() == Side(Damaged(old(opponent.health), opponent.defense, specialAttackDamage), old(opponent.mana))
      ensures !CanSpecial(Stats(), old(State())) ==> State() == old(State()) && opponent.State() == old(opponent.State())
      ensures old(mana) >= 0 ==> mana >= 0
    {
      if mana >= manaCost && health >= 10 {
        mana := mana - manaCost;
        health := health - 10;
        opponent.TakeDamage(specialAttackDamage);
      }
    }

    /** take_turn (warsim/entitywar.py:38-47), with its two identical attacking branches. */
    method TakeTurn(opponent: Fighter)
      requires opponent != this
      modifies this, opponent
      ensures (State(), opponent.State()) == Turn(Stats(), old(State()), opponent.defense, old(opponent.State()))
    {
      if health < 30 {
        Heal();
      } else if mana >= manaCost && health >= 10 {
        SpecialAttack(opponent);
      } else if opponent.health < 30 {
        AttackOpponent(opponent);
      } else {
        AttackOpponent(opponent);
      }
    }
  }

  /**
   * The duel loop (warsim/entitywar.py:54-73), for at most `fuel` turns: the fighters end as
   * RunDuel says, the loop stops early only when one is down, and the winner is the first
   * fighter exactly when it is still alive.
   */
  method Duel(first: Fighter, second: Fighter, fuel: nat) returns (winner: Fighter, turn: nat)
    requires first != second
    modifies first, second
    ensures Bout(first.State(), second.State(), turn)
            == RunDuel(first.Stats(), second.Stats(), Bout(old(first.State()), old(second.State()), 0), fuel)
    ensures turn < fuel ==> !(first.IsAlive() && second.IsAlive())
    ensures winner == (if first.IsAlive() then first else second)
  {
    turn := 0;
    ghost var start := Bout(first.State(), second.State(), 0);
    while first.IsAlive() && second.IsAlive() && turn < fuel
      invariant turn <= fuel
      invariant RunDuel(first.Stats(), second.Stats(), Bout(first.State(), second.State(), turn), fuel - turn)
                == RunDuel(first.Stats(), second.Stats(), start, fuel)
      decreases fuel - turn
    {
      turn := turn + 1;
      if turn % 2 == 1 {
        first.TakeTurn(second);
      } else {
        second.TakeTurn(first);
      }
    }
    winner := if first.IsAlive() then first else second;
  }

  /** The script: the two fighters of lines 50-51 duel, and the first wins after 7 turns. */
  method Script() returns (winnerName: string, turns: nat)
    ensures winnerName == "Entity1" && turns == 7
  {
    var entity1 := new Fighter("Entity1", 100, 20, 5, 15, 100, 30, 50);
    var entity2 := new Fighter("Entity2", 100, 15, 10, 10, 100, 30, 60);
    ScriptedDuel(100);
    var winner, t := Duel(entity1, entity2, 100);
    winnerName := winner.name;
    turns := t;
  }
}
