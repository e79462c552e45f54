/**
 * WarEngine (war_engine.py): the step-by-step driver of the war between the Priest, a plain
 * entity, the Mechanist and the Intern. Each step plays one turn: a cosmic event, every living
 * combatant's turn, the three deities' interventions with the Priest as the favoured candidate,
 * and the fifth-turn potion trade; the war is over once at most one combatant stands or the turn
 * limit is reached. Logging and the status table are not modelled.
 */
module Wars {
  import opened Wrappers
  import opened Combatants
  import opened Gods
  import opened CosmicEvents
  import opened Battle

  /** Brahma's intervention on the Priest (slot 0) and combatant j, on the vitals of the whole
    * cast: the two change as BrahmaActed says, and every other combatant keeps its vitals. */
  ghost predicate BrahmaStage(es: seq<Entity>, before: seq<Vitals>, after: seq<Vitals>, j: nat,
                              g: BrahmaState, g': BrahmaState, d: RoundDraws) {
    && PairStage(es, before, after, j)
    && BrahmaActed(g, g', es[0], es[j], before[0], after[0], before[j], after[j], d.brahmaNoise, d.brahmaCooldown)
  }

  /** Shiva's intervention on the Priest and combatant j, as ShivaActed says. */
  ghost predicate ShivaStage(es: seq<Entity>, before: seq<Vitals>, after: seq<Vitals>, j: nat,
                             g: ShivaState, g': ShivaState, d: RoundDraws) {
    && PairStage(es, before, after, j)
    && ShivaActed(g, g', before[0], after[0], before[j], after[j], d.shivaNoise, d.shivaCooldown)
  }

  /** Vishnu's intervention on the Priest and combatant j, as VishnuActed says. */
  ghost predicate VishnuStage(es: seq<Entity>, before: seq<Vitals>, after: seq<Vitals>, j: nat,
                              g: VishnuState, g': VishnuState, d: RoundDraws) {
    && PairStage(es, before, after, j)
    && VishnuActed(g, g', es[0], es[j], before[0], after[0], before[j], after[j], d.vishnuNoise, d.vishnuCooldown)
  }

  /** A deity's intervention touches at most the Priest and combatant j (j is not the Priest),
    * and changes nobody's role. */
  ghost predicate PairStage(es: seq<Entity>, before: seq<Vitals>, after: seq<Vitals>, j: nat) {
    && |before| == |es| && |after| == |es| && 0 < j < |es|
    && after[0].role == before[0].role && after[j].role == before[j].role
    && forall k :: 0 < k < |es| && k != j ==> after[k] == before[k]
  }

  /** Each combatant in b has the role it had in a. */
  ghost predicate RolesKept(a: seq<Vitals>, b: seq<Vitals>) {
    |a| == |b| && forall k :: 0 <= k < |a| ==> b[k].role == a[k].role
  }

  /**
   * The three interventions of a step, on values: stages[0] to stages[3] are the vitals of the
   * cast before Brahma, after Brahma, after Shiva and after Vishnu; picks are the slots of the
   * candidates chosen, in that order; b, s, v are the deities' states before and b', s', v' after.
   */
  ghost predicate DeitiesActed(es: seq<Entity>, stages: seq<seq<Vitals>>, picks: seq<nat>, chosen: seq<Entity>,
                               b: BrahmaState, b': BrahmaState, s: ShivaState, s': ShivaState,
                               v: VishnuState, v': VishnuState, d: RoundDraws) {
    && |stages| == 4 && |picks| == 3 && |chosen| == 3
    && (forall k :: 0 <= k < 3 ==> picks[k] < |es| && es[picks[k]] == chosen[k])
    && BrahmaStage(es, stages[0], stages[1], picks[0], b, b', d)
    && ShivaStage(es, stages[1], stages[2], picks[1], s, s', d)
    && VishnuStage(es, stages[2], stages[3], picks[2], v, v', d)
  }

  /**
   * The deities' pass of WarEngine.step (war_engine.py:94-99). The candidates are the living
   * combatants other than the Priest, listed once before any deity acts; Brahma, Shiva and
   * Vishnu, in that order, each draw their own second candidate from that list and act on the
   * Priest and it, as DeitiesActed says. No deity acts when nobody but the Priest is alive, and
   * then nothing changes. No combatant changes archetype.
   */
  method DivineInterventions(es: seq<Entity>, brahma: Brahma, shiva: Shiva, vishnu: Vishnu, d: RoundDraws)
    returns (chosen: seq<Entity>, ghost picks: seq<nat>, ghost stages: seq<seq<Vitals>>)
    requires Cast(es) && brahma.Valid() && shiva.Valid() && vishnu.Valid() && RoundDrawsFit(d)
    modifies es, brahma, shiva, vishnu
    ensures Cast(es) && brahma.Valid() && shiva.Valid() && vishnu.Valid()
    ensures |stages| > 0 && old(Shows(es, stages[0])) && Shows(es, stages[|stages| - 1])
    ensures RolesKept(stages[0], stages[|stages| - 1])
    ensures var candidates := old(Others(es, es[0]));
      && (candidates == [] ==> chosen == [] && |stages| == 1
                               && brahma.State() == old(brahma.State()) && shiva.State() == old(shiva.State())
                               && vishnu.State() == old(vishnu.State()))
      && (candidates != [] ==> chosen == [Choose(candidates, d.godTargets[0]), Choose(candidates, d.godTargets[1]),
                                          Choose(candidates, d.godTargets[2])])
      && (candidates != [] ==> DeitiesActed(es, stages, picks, chosen, old(brahma.State()), brahma.State(),
                                            old(shiva.State()), shiva.State(), old(vishnu.State()), vishnu.State(), d))
  {
    var candidates := Others(es, es[0]);
    ghost var v0 := Snapshots(es);
    assert Shows(es, v0);
    stages := [v0];
    chosen := [];
    picks := [];
    if |candidates| > 0 {
      chosen, picks := PickCandidates(es, candidates, d);
      stages := ThreeInterventions(es, brahma, shiva, vishnu, d, chosen, picks, v0);
      assert old(Others(es, es[0])) == candidates != [];
    } else {
      assert RolesKept(v0, v0);
    }
  }

  /** Each deity's second candidate: the draw for it taken modulo the number of candidates;
    * picks are their slots in the cast, none of them the Priest's. */
  method PickCandidates(es: seq<Entity>, candidates: seq<Entity>, d: RoundDraws)
    returns (chosen: seq<Entity>, ghost picks: seq<nat>)
    requires |es| > 0 && |candidates| > 0 && |d.godTargets| == 3
    requires forall e :: e in candidates ==> e in es && e != es[0]
    ensures chosen == [Choose(candidates, d.godTargets[0]), Choose(candidates, d.godTargets[1]),
                       Choose(candidates, d.godTargets[2])]
    ensures |picks| == 3 && forall k :: 0 <= k < 3 ==> 0 < picks[k] < |es| && es[picks[k]] == chosen[k]
  {
    chosen := [Choose(candidates, d.godTargets[0]), Choose(candidates, d.godTargets[1]),
               Choose(candidates, d.godTargets[2])];
    ghost var j :| 0 <= j < |es| && es[j] == chosen[0];
    ghost var k :| 0 <= k < |es| && es[k] == chosen[1];
    ghost var l :| 0 <= l < |es| && es[l] == chosen[2];
    picks := [j, k, l];
  }

  /** Brahma, Shiva and Vishnu act in turn, each on the Priest and the combatant it chose. */
  method ThreeInterventions(es: seq<Entity>, brahma: Brahma, shiva: Shiva, vishnu: Vishnu, d: RoundDraws,
                            chosen: seq<Entity>, ghost picks: seq<nat>, ghost v0: seq<Vitals>)
    returns (ghost stages: seq<seq<Vitals>>)
    requires Cast(es) && brahma.Valid() && shiva.Valid() && vishnu.Valid() && RoundDrawsFit(d) && Shows(es, v0)
    requires |chosen| == 3 && |picks| == 3
    requires forall k :: 0 <= k < 3 ==> 0 < picks[k] < |es| && es[picks[k]] == chosen[k]
    modifies es, brahma, shiva, vishnu
    ensures Cast(es) && brahma.Valid() && shiva.Valid() && vishnu.Valid()
    ensures |stages| == 4 && stages[0] == v0 && Shows(es, stages[3]) && RolesKept(v0, stages[3])
    ensures DeitiesActed(es, stages, picks, chosen, old(brahma.State()), brahma.State(),
                         old(shiva.State()), shiva.State(), old(vishnu.State()), vishnu.State(), d)
  {
    ghost var v1 := BrahmaIntervenes(es, brahma, chosen[0], picks[0], d, v0);
    ghost var v2 := ShivaIntervenes(es, shiva, chosen[1], picks[1], d, v1);
    ghost var v3 := VishnuIntervenes(es, vishnu, chosen[2], picks[2], d, v2);
    stages := [v0, v1, v2, v3];
    RolesKeptTrans(v0, v1, v2, v3);
  }

  lemma RolesKeptTrans(a: seq<Vitals>, b: seq<Vitals>, c: seq<Vitals>, e: seq<Vitals>)
    requires RolesKept(a, b) && RolesKept(b, c) && RolesKept(c, e)
    ensures RolesKept(a, e)
  {
  }

  /** Brahma acts on the Priest and combatant j, as BrahmaStage says, taking the cast's vitals
    * from before to after; the cast stays a cast. */
  method BrahmaIntervenes(es: seq<Entity>, brahma: Brahma, other: Entity, ghost j: nat, d: RoundDraws,
                          ghost before: seq<Vitals>) returns (ghost after: seq<Vitals>)
    requires Cast(es) && brahma.Valid() && 0 < j < |es| && es[j] == other && RoundDrawsFit(d) && Shows(es, before)
    modifies es[0], other, brahma
    ensures Cast(es) && brahma.Valid() && Shows(es, after) && RolesKept(before, after)
    ensures BrahmaStage(es, before, after, j, old(brahma.State()), brahma.State(), d)
  {
    brahma.InfluenceBattle(es[0], other, d.brahmaNoise, d.brahmaCooldown);
    after := Snapshots(es);
    assert after[0] == es[0].Snapshot() && after[j] == other.Snapshot();
  }

  /** Shiva acts on the Priest and combatant j, as ShivaStage says; the cast stays a cast. */
  method ShivaIntervenes(es: seq<Entity>, shiva: Shiva, other: Entity, ghost j: nat, d: RoundDraws,
                         ghost before: seq<Vitals>) returns (ghost after: seq<Vitals>)
    requires Cast(es) && shiva.Valid() && 0 < j < |es| && es[j] == other && RoundDrawsFit(d) && Shows(es, before)
    modifies es[0], other, shiva
    ensures Cast(es) && shiva.Valid() && Shows(es, after) && RolesKept(before, after)
    ensures ShivaStage(es, before, after, j, old(shiva.State()), shiva.State(), d)
  {
    shiva.InfluenceBattle(es[0], other, d.shivaNoise, d.shivaCooldown);
    after := Snapshots(es);
    assert after[0] == es[0].Snapshot() && after[j] == other.Snapshot();
  }

  /** Vishnu acts on the Priest and combatant j, as VishnuStage says; the cast stays a cast. */
  method VishnuIntervenes(es: seq<Entity>, vishnu: Vishnu, other: Entity, ghost j: nat, d: RoundDraws,
                          ghost before: seq<Vitals>) returns (ghost after: seq<Vitals>)
    requires Cast(es) && vishnu.Valid() && 0 < j < |es| && es[j] == other && RoundDrawsFit(d) && Shows(es, before)
    modifies es[0], other, vishnu
    ensures Cast(es) && vishnu.Valid() && Shows(es, after) && RolesKept(before, after)
    ensures VishnuStage(es, before, after, j, old(vishnu.State()), vishnu.State(), d)
  {
    vishnu.InfluenceBattle(es[0], other, d.vishnuNoise, d.vishnuCooldown);
    after := Snapshots(es);
    assert after[0] == es[0].Snapshot() && after[j] == other.Snapshot();
  }

  /** The body of one step after the turn counter advances (war_engine.py:76-110): the cosmic
    * event, the combatants' pass, the deities' pass and the trade. It returns the event drawn. */
  method PlayTurn(es: seq<Entity>, brahma: Brahma, shiva: Shiva, vishnu: Vishnu, d: RoundDraws, turn: int)
    returns (ev: Event)
    requires Cast(es) && brahma.Valid() && shiva.Valid() && vishnu.Valid() && RoundDrawsFit(d)
    modifies es, brahma, shiva, vishnu
    ensures Cast(es) && brahma.Valid() && shiva.Valid() && vishnu.Valid()
    ensures ev == Catalogue[d.event]
  {
    ev := EventPhase(es, brahma, vishnu, shiva, d.event);
    var moves, opponents, states := CastPass(es, d, false);
    var chosen, picks, stages := DivineInterventions(es, brahma, shiva, vishnu, d);
    var traded := TradeRound(es, turn);
  }

  class WarEngine {
    const maxTurns: int
    const entity1: Entity
    const entity2: Entity
    const entity3: Entity
    const entity4: Entity
    const brahma: Brahma
    const shiva: Shiva
    const vishnu: Vishnu
    var turn: int
    var currentEvent: Option<Event>

    /** self.entities, in turn order. */
    function Entities(): seq<Entity> {
      [entity1, entity2, entity3, entity4]
    }

    /** The cast stays in place and each step is counted: the turn never passes the limit
      * (unless the limit is below 0, when no step is ever played). */
    ghost predicate Valid()
      reads this, entity1, entity2, entity3, entity4, brahma, shiva, vishnu
    {
      && Cast(Entities()) && brahma.Valid() && shiva.Valid() && vishnu.Valid()
      && 0 <= turn && (turn <= maxTurns || turn == 0)
    }

    /** WarEngine.__init__ (war_engine.py:20-43) with its cast and deities given; the engine
      * starts at turn 0 with no event. */
    constructor (maxTurns: int, entity1: Entity, entity2: Entity, entity3: Entity, entity4: Entity,
                 brahma: Brahma, shiva: Shiva, vishnu: Vishnu)
      requires Cast([entity1, entity2, entity3, entity4])
      requires brahma.Valid() && shiva.Valid() && vishnu.Valid()
      ensures Valid() && turn == 0 && currentEvent == None && this.maxTurns == maxTurns
      ensures Entities() == [entity1, entity2, entity3, entity4]
      ensures this.brahma == brahma && this.shiva == shiva && this.vishnu == vishnu
    {
      this.maxTurns := maxTurns;
      this.entity1 := entity1;
      this.entity2 := entity2;
      this.entity3 := entity3;
      this.entity4 := entity4;
      this.brahma := brahma;
      this.shiva := shiva;
      this.vishnu := vishnu;
      turn := 0;
      currentEvent := None;
    }

    /** is_over (war_engine.py:64-66). */
    predicate IsOver(): (over: bool)
      reads this, entity1, entity2, entity3, entity4
      ensures turn >= maxTurns ==> over
      ensures (forall e :: e in Entities() ==> !e.IsAlive()) ==> over
      ensures !over ==> exists e :: e in Entities() && e.IsAlive()
      ensures !over <==> turn < maxTurns && |Living(Entities())| >= 2
    {
      var alive := Living(Entities());
      assert |alive| > 0 ==> alive[0] in alive;
      |alive| <= 1 || turn >= maxTurns
    }

    /**
     * step (war_engine.py:68-121). A finished war is left exactly as it is. Otherwise the turn
     * counter advances, which never takes it past the limit; the drawn event is recorded; and
     * when the step ends the war, the verdict is reported.
     */
    method Step(d: RoundDraws) returns (played: bool, ending: Option<EndMessage>)
      requires Valid() && RoundDrawsFit(d)
      modifies this, entity1, entity2, entity3, entity4, brahma, shiva, vishnu
      ensures Valid()
      ensures played <==> !old(IsOver())
      ensures !played ==> && turn == old(turn) && currentEvent == old(currentEvent) && ending == None
                          && unchanged(entity1, entity2, entity3, entity4, brahma, shiva, vishnu)
      ensures played ==> turn == old(turn) + 1 && turn <= maxTurns && currentEvent == Some(Catalogue[d.event])
      ensures played ==> (ending.Some? <==> IsOver())
      ensures ending.Some? ==> ending.value == Verdict(Entities(), turn)
    {
      if IsOver() {
        return false, None;
      }
      turn := turn + 1;
      var ev := PlayTurn(Entities(), brahma, shiva, vishnu, d, turn);
      currentEvent := Some(ev);
      played := true;
      ending := if IsOver() then Some(Verdict(Entities(), turn)) else None;
    }
  }
}
