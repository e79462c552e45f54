/**
 * The Priest archetype's prayer (priest.py:9-49). The deities' capabilities, which the source
 * probes with `hasattr`, are explicit booleans; what a responding deity's heal_entity,
 * bless_entity or cleanse_decay would do to the target is not part of this model, because no
 * deity class of the repository defines those methods.
 */
module Priests {
  import opened Combatants

  /** Which of the deity methods the prayer looks for exist: Brahma's heal_entity, Vishnu's
    * bless_entity and Shiva's cleanse_decay. */
  datatype Pantheon = Pantheon(brahmaHeals: bool, vishnuBlesses: bool, shivaCleanses: bool)

  /** The deity classes of gods/brahma.py, gods/vishnu.py and gods/shiva.py define none of them. */
  const ShownPantheon := Pantheon(false, false, false)

  /** Which deity answers a prayer. */
  datatype Answer = NoAnswer | BrahmaHealed | VishnuBlessed | ShivaCleansed

  /** The deities are tried in the order Brahma, Vishnu, Shiva; Shiva only for a target whose
    * karma is below 40. The first one able to act answers. */
  function Answering(gods: Pantheon, targetKarma: int): (a: Answer)
    ensures a == BrahmaHealed <==> gods.brahmaHeals
    ensures a == VishnuBlessed <==> !gods.brahmaHeals && gods.vishnuBlesses
    ensures a == ShivaCleansed <==> !gods.brahmaHeals && !gods.vishnuBlesses && gods.shivaCleanses && targetKarma < 40
  {
    if gods.brahmaHeals then BrahmaHealed
    else if gods.vishnuBlesses then VishnuBlessed
    else if gods.shivaCleanses && targetKarma < 40 then ShivaCleansed
    else NoAnswer
  }

  /** The karma the priest gains from an answered prayer. */
  function PrayerKarma(a: Answer): int {
    match a
    case NoAnswer => 0
    case BrahmaHealed => 10
    case VishnuBlessed => 8
    case ShivaCleansed => 5
  }

  /** Priest.ability on the priest's own state, for a target with the given karma. */
  function Pray(v: Vitals, gods: Pantheon, targetKarma: int): (r: Vitals)
    requires v.role.Priest?
    ensures r.role.Priest?
    ensures r == v.(mana := r.mana, karma := r.karma, role := r.role)
    ensures v.mana - 20.0 <= r.mana <= v.mana && r.karma >= v.karma
  {
    if v.role.cooldown > 0 then v.(role := Priest(v.role.cooldown - 1))
    else if v.mana < 20.0 then v
    else
      var a := Answering(gods, targetKarma);
      var paid := v.(mana := v.mana - 20.0);
      if a == NoAnswer then paid
      else paid.(karma := paid.karma + PrayerKarma(a), role := Priest(3))
  }

  /** While recharging, the prayer only counts the cooldown down; without 20 mana it does nothing. */
  lemma PrayerGates(v: Vitals, gods: Pantheon, targetKarma: int)
    requires v.role.Priest?
    ensures v.role.cooldown > 0 ==> Pray(v, gods, targetKarma) == v.(role := Priest(v.role.cooldown - 1))
    ensures v.role.cooldown <= 0 && v.mana < 20.0 ==> Pray(v, gods, targetKarma) == v
  {
  }

  /** An attempted prayer costs exactly 20 mana whether or not a deity answers; an answer grants
    * 10, 8 or 5 karma and a cooldown of 3, no answer leaves karma and cooldown as they were. */
  lemma PrayerAccounting(v: Vitals, gods: Pantheon, targetKarma: int)
    requires v.role.Priest? && v.role.cooldown <= 0 && v.mana >= 20.0
    ensures var r := Pray(v, gods, targetKarma);
            var a := Answering(gods, targetKarma);
            && r.mana == v.mana - 20.0
            && r.karma == v.karma + PrayerKarma(a)
            && r.role == (if a == NoAnswer then v.role else Priest(3))
            && r == v.(mana := r.mana, karma := r.karma, role := r.role)
  {
  }

  /** With the deity classes the repository defines, every attempted prayer costs 20 mana and
    * fails: no karma, and the cooldown stays where it was. */
  lemma ShownDeitiesNeverAnswer(v: Vitals, targetKarma: int)
    requires v.role.Priest? && v.role.cooldown <= 0 && v.mana >= 20.0
    ensures Pray(v, ShownPantheon, targetKarma) == v.(mana := v.mana - 20.0)
  {
  }

  /** Priest.ability (priest.py:9-49). */
  method Ability(priest: Entity, target: Entity, gods: Pantheon)
    requires priest.Valid() && priest.role.Priest?
    modifies priest
    ensures priest.Valid() && priest.role.Priest?
    ensures priest.Snapshot() == Pray(old(priest.Snapshot()), gods, old(target.karma))
  {
    if priest.role.cooldown > 0 {
      priest.role := Priest(priest.role.cooldown - 1);
      return;
    }
    if priest.mana < 20.0 {
      return;
    }
    priest.mana := priest.mana - 20.0;
    var success := false;
    if gods.brahmaHeals {
      priest.karma := priest.karma + 10;
      success := true;
    }
    if !success && gods.vishnuBlesses {
      priest.karma := priest.karma + 8;
      success := true;
    }
    if !success && gods.shivaCleanses && target.karma < 40 {
      priest.karma := priest.karma + 5;
      success := true;
    }
    if success {
      priest.role := Priest(3);
    }
  }
}
