/**
 * The cosmic events of cosmic_event.py. Each turn the two primary combatants have their
 * modifiers reset and then one of five events, drawn uniformly, touches them or the deities.
 * The event's effect on a combatant is stated once, on values, by `Effect`; the apply methods
 * promise exactly that effect.
 */
module CosmicEvents {
  import opened Combatants
  import opened Gods

  datatype Event = CelestialAlignment | CosmicDrought | MysticWinds | AstralSurge | TemporalFlux

  /** CosmicEvent.events (cosmic_event.py:61-68), in the order random.choice indexes it. */
  const Catalogue: seq<Event> := [CelestialAlignment, CosmicDrought, MysticWinds, AstralSurge, TemporalFlux]

  /** Each event's display name. */
  function Name(ev: Event): string {
    match ev
    case CelestialAlignment => "Celestial Alignment"
    case CosmicDrought => "Cosmic Drought"
    case MysticWinds => "Mystic Winds"
    case AstralSurge => "Astral Surge"
    case TemporalFlux => "Temporal Flux"
  }

  /** The catalogue lists every event exactly once, so random.choice can draw any of them. */
  lemma CatalogueIsComplete(ev: Event)
    ensures |Catalogue| == 5 && ev in Catalogue
    ensures forall i, j :: 0 <= i < j < |Catalogue| ==> Catalogue[i] != Catalogue[j]
  {
    match ev
    case CelestialAlignment => assert Catalogue[0] == ev;
    case CosmicDrought => assert Catalogue[1] == ev;
    case MysticWinds => assert Catalogue[2] == ev;
    case AstralSurge => assert Catalogue[3] == ev;
    case TemporalFlux => assert Catalogue[4] == ev;
  }

  /**
   * What an event does to one primary combatant with the given maxima (cosmic_event.py:17-58):
   * alignment scales attack by 1.1 and adds 5 mana up to the maximum; drought scales attack by
   * 0.95 and takes 5 mana with only an upper cap, so mana can fall below 0; winds add 0.05
   * accuracy and evasion; the surge leaves combatants alone; the flux recovers 10 stamina, capped.
   * No event touches health, defense, karma, inventory or role.
   */
  function Effect(ev: Event, v: Vitals, maxMana: real, maxStamina: real): (r: Vitals)
    ensures r == v.(attack := r.attack, mana := r.mana, accuracy := r.accuracy,
                    evasion := r.evasion, stamina := r.stamina)
    ensures v.mana <= maxMana ==> r.mana <= maxMana
    ensures ev != CelestialAlignment && ev != CosmicDrought ==> r.attack == v.attack && r.mana == v.mana
    ensures ev != MysticWinds ==> r.accuracy == v.accuracy && r.evasion == v.evasion
    ensures ev != TemporalFlux ==> r.stamina == v.stamina
  {
    match ev
    case CelestialAlignment => v.(attack := v.attack * 1.1, mana := Min(v.mana + 5.0, maxMana))
    case CosmicDrought => v.(attack := v.attack * 0.95, mana := Min(v.mana - 5.0, maxMana))
    case MysticWinds => v.(accuracy := v.accuracy + 0.05, evasion := v.evasion + 0.05)
    case AstralSurge => v
    case TemporalFlux => v.(stamina := Min(v.stamina + 10.0, maxStamina))
  }

  /** A deity's cost multiplier after an event: the surge sets it to 0.5, the others keep it. */
  function Multiplier(ev: Event, m: real): (r: real)
    ensures ev == AstralSurge ==> r == 0.5
    ensures ev != AstralSurge ==> r == m
  {
    if ev == AstralSurge then 0.5 else m
  }

  /** reset_modifiers on values (entity.py:73-76, intern.py:42-47): attack, accuracy and evasion
    * return to their bases, and a panicking Intern crashes back to 100 caffeine. */
  function Reset(v: Vitals, baseAttack: real, baseAccuracy: real, baseEvasion: real): (r: Vitals)
    ensures r.attack == baseAttack && r.accuracy == baseAccuracy && r.evasion == baseEvasion
    ensures r == v.(attack := baseAttack, accuracy := baseAccuracy, evasion := baseEvasion, role := r.role)
    ensures v.role.Intern? ==> r.role.Intern? && !r.role.panic
    ensures !v.role.Intern? ==> r.role == v.role
  {
    var role := if v.role.Intern? && v.role.panic then Intern(100.0, false) else v.role;
    v.(attack := baseAttack, accuracy := baseAccuracy, evasion := baseEvasion, role := role)
  }

  /** The cost multiplier after a run of events: once a surge has happened it stays at 0.5, since
    * nothing restores it; before any surge it is whatever it started at. */
  function MultiplierAfter(events: seq<Event>, m: real): (r: real)
    ensures r == m || r == 0.5
    ensures m == 0.5 ==> r == 0.5
  {
    if events == [] then m else Multiplier(events[|events| - 1], MultiplierAfter(events[..|events| - 1], m))
  }

  lemma {:induction false} SurgeIsPermanent(events: seq<Event>, m: real)
    ensures AstralSurge in events ==> MultiplierAfter(events, m) == 0.5
    ensures AstralSurge !in events ==> MultiplierAfter(events, m) == m
  {
    if events != [] {
      var init := events[..|events| - 1];
      SurgeIsPermanent(init, m);
      assert events == init + [events[|events| - 1]];
      assert AstralSurge in events <==> AstralSurge in init || events[|events| - 1] == AstralSurge;
    }
  }

  /** Alignment, winds and drought change only modifiers the next turn's reset restores, except
    * for mana: the turn after, attack, accuracy and evasion are back at base whatever the event
    * was. The winds leave nothing behind at all. */
  lemma ModifiersLastOneTurn(ev: Event, v: Vitals, maxMana: real, maxStamina: real,
                             baseAttack: real, baseAccuracy: real, baseEvasion: real)
    ensures var before := Reset(v, baseAttack, baseAccuracy, baseEvasion);
            var after := Reset(Effect(ev, before, maxMana, maxStamina), baseAttack, baseAccuracy, baseEvasion);
            && after == Effect(ev, before, maxMana, maxStamina).(attack := baseAttack, accuracy := baseAccuracy,
                                                                 evasion := baseEvasion)
            && (ev == MysticWinds ==> after == before)
  {
  }

  /** Drought caps mana only from above: a combatant with less than 5 mana ends with negative mana. */
  lemma DroughtDrivesManaNegative(v: Vitals, maxMana: real, maxStamina: real)
    requires v.mana < 5.0 && maxMana >= 0.0
    ensures Effect(CosmicDrought, v, maxMana, maxStamina).mana == v.mana - 5.0
    ensures Effect(CosmicDrought, v, maxMana, maxStamina).mana < 0.0
  {
  }

  /** CelestialAlignment.apply (cosmic_event.py:17-21). */
  method ApplyAlignment(e1: Entity, e2: Entity)
    requires e1.Valid() && e2.Valid() && e1 != e2
    modifies e1, e2
    ensures e1.Valid() && e2.Valid()
    ensures e1.Snapshot() == Effect(CelestialAlignment, old(e1.Snapshot()), e1.maxMana, e1.maxStamina)
    ensures e2.Snapshot() == Effect(CelestialAlignment, old(e2.Snapshot()), e2.maxMana, e2.maxStamina)
  {
    e1.attack := e1.attack * 1.1;
    e2.attack := e2.attack * 1.1;
    e1.mana := Min(e1.mana + 5.0, e1.maxMana);
    e2.mana := Min(e2.mana + 5.0, e2.maxMana);
  }

  /** CosmicDrought.apply (cosmic_event.py:27-31). */
  method ApplyDrought(e1: Entity, e2: Entity)
    requires e1.Valid() && e2.Valid() && e1 != e2
    modifies e1, e2
    ensures e1.Valid() && e2.Valid()
    ensures e1.Snapshot() == Effect(CosmicDrought, old(e1.Snapshot()), e1.maxMana, e1.maxStamina)
    ensures e2.Snapshot() == Effect(CosmicDrought, old(e2.Snapshot()), e2.maxMana, e2.maxStamina)
  {
    e1.attack := e1.attack * 0.95;
    e2.attack := e2.attack * 0.95;
    e1.mana := Min(e1.mana - 5.0, e1.maxMana);
    e2.mana := Min(e2.mana - 5.0, e2.maxMana);
  }

  /** MysticWinds.apply (cosmic_event.py:37-41). */
  method ApplyWinds(e1: Entity, e2: Entity)
    requires e1.Valid() && e2.Valid() && e1 != e2
    modifies e1, e2
    ensures e1.Valid() && e2.Valid()
    ensures e1.Snapshot() == Effect(MysticWinds, old(e1.Snapshot()), e1.maxMana, e1.maxStamina)
    ensures e2.Snapshot() == Effect(MysticWinds, old(e2.Snapshot()), e2.maxMana, e2.maxStamina)
  {
    e1.accuracy := e1.accuracy + 0.05;
    e2.accuracy := e2.accuracy + 0.05;
    e1.evasion := e1.evasion + 0.05;
    e2.evasion := e2.evasion + 0.05;
  }

  /** AstralSurge.apply (cosmic_event.py:47-50): only the three cost multipliers change. */
  method ApplySurge(brahma: Brahma, vishnu: Vishnu, shiva: Shiva)
    modifies brahma`costMultiplier, vishnu`costMultiplier, shiva`costMultiplier
    ensures brahma.costMultiplier == 0.5 && vishnu.costMultiplier == 0.5 && shiva.costMultiplier == 0.5
  {
    brahma.costMultiplier := 0.5;
    vishnu.costMultiplier := 0.5;
    shiva.costMultiplier := 0.5;
  }

  /** TemporalFlux.apply (cosmic_event.py:56-58). */
  method ApplyFlux(e1: Entity, e2: Entity)
    requires e1.Valid() && e2.Valid() && e1 != e2
    modifies e1, e2
    ensures e1.Valid() && e2.Valid()
    ensures e1.Snapshot() == Effect(TemporalFlux, old(e1.Snapshot()), e1.maxMana, e1.maxStamina)
    ensures e2.Snapshot() == Effect(TemporalFlux, old(e2.Snapshot()), e2.maxMana, e2.maxStamina)
  {
    e1.RecoverStamina(10.0);
    e2.RecoverStamina(10.0);
  }

  /**
   * CosmicEvent.apply_event (cosmic_event.py:70-84): both primaries reset their modifiers, then
   * the event at index `pick` of the catalogue (random.choice's draw) is applied and returned.
   * The deities are touched only by the surge, and only in their cost multipliers.
   */
  method ApplyEvent(e1: Entity, e2: Entity, brahma: Brahma, vishnu: Vishnu, shiva: Shiva, pick: int)
    returns (ev: Event)
    requires e1.Valid() && e2.Valid() && e1 != e2
    requires 0 <= pick < |Catalogue|
    modifies e1, e2, brahma`costMultiplier, vishnu`costMultiplier, shiva`costMultiplier
    ensures ev == Catalogue[pick]
    ensures e1.Valid() && e2.Valid()
    ensures e1.Snapshot() == Effect(ev, Reset(old(e1.Snapshot()), e1.baseAttack, e1.baseAccuracy, e1.baseEvasion),
                                    e1.maxMana, e1.maxStamina)
    ensures e2.Snapshot() == Effect(ev, Reset(old(e2.Snapshot()), e2.baseAttack, e2.baseAccuracy, e2.baseEvasion),
                                    e2.maxMana, e2.maxStamina)
    ensures brahma.costMultiplier == Multiplier(ev, old(brahma.costMultiplier))
    ensures vishnu.costMultiplier == Multiplier(ev, old(vishnu.costMultiplier))
    ensures shiva.costMultiplier == Multiplier(ev, old(shiva.costMultiplier))
  {
    e1.ResetModifiers();
    e2.ResetModifiers();
    ev := Catalogue[pick];
    match ev
    case CelestialAlignment => ApplyAlignment(e1, e2);
    case CosmicDrought => ApplyDrought(e1, e2);
    case MysticWinds => ApplyWinds(e1, e2);
    case AstralSurge => ApplySurge(brahma, vishnu, shiva);
    case TemporalFlux => ApplyFlux(e1, e2);
  }
}
