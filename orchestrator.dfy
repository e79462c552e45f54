/**
 * run_simulation (orchestrator.py:133-234): the command-line driver that plays the whole war in
 * one loop. It differs from WarEngine.step in three ways: the Priest prays instead of taking its
 * turn on every fourth turn, the deities' favoured candidate is drawn between the first two
 * combatants (the first with weight 0.6), and the three deities share one second candidate and
 * act in the order Brahma, Vishnu, Shiva. The note logger, the database, the delay and the
 * printed tables are not modelled.
 */
module Orchestration {
  import opened Combatants
  import opened Gods
  import opened Battle
  import opened Wrappers

  /** random.choices([entity1, entity2], weights=[0.6, 0.4]): a uniform draw below 0.6 picks the
    * first combatant, any other the second. */
  function Favoured(es: seq<Entity>, draw: real): (e: Entity)
    requires |es| >= 2
    ensures e == es[0] <==> draw < 0.6 || es[0] == es[1]
    ensures e == es[0] || e == es[1]
  {
    if draw < 0.6 then es[0] else es[1]
  }

  /**
   * Brahma, Vishnu and Shiva, in that order, acting on the favoured combatant f and the second
   * candidate t: fs and ts are their vitals before Brahma, after Brahma, after Vishnu and after
   * Shiva; b, v, s are the deities' states before and b', v', s' after.
   */
  ghost predicate SharedActed(f: Entity, t: Entity, fs: seq<Vitals>, ts: seq<Vitals>,
                              b: BrahmaState, b': BrahmaState, v: VishnuState, v': VishnuState,
                              s: ShivaState, s': ShivaState, d: RoundDraws) {
    && |fs| == 4 && |ts| == 4
    && BrahmaActed(b, b', f, t, fs[0], fs[1], ts[0], ts[1], d.brahmaNoise, d.brahmaCooldown)
    && VishnuActed(v, v', f, t, fs[1], fs[2], ts[1], ts[2], d.vishnuNoise, d.vishnuCooldown)
    && ShivaActed(s, s', fs[2], fs[3], ts[2], ts[3], d.shivaNoise, d.shivaCooldown)
  }

  /**
   * The deities' pass of run_simulation (orchestrator.py:202-208): the favoured candidate is
   * drawn, the others still alive are listed, and if any is, one of them is drawn and Brahma,
   * Vishnu and Shiva act in turn on the favoured one and it, as SharedActed says, with fs and ts
   * the two's vitals along the way. Only those two change; with nobody to draw, nothing does.
   */
  method DivineRound(es: seq<Entity>, brahma: Brahma, vishnu: Vishnu, shiva: Shiva, d: RoundDraws)
    returns (favoured: Entity, chosen: Option<Entity>, ghost fs: seq<Vitals>, ghost ts: seq<Vitals>)
    requires Cast(es) && brahma.Valid() && vishnu.Valid() && shiva.Valid() && RoundDrawsFit(d)
    modifies es, brahma, vishnu, shiva
    ensures Cast(es) && brahma.Valid() && vishnu.Valid() && shiva.Valid()
    ensures forall i :: 0 <= i < |es| ==> es[i].role == old(es[i].role)
    ensures favoured == Favoured(es, d.favoured)
    ensures var candidates := old(Others(es, Favoured(es, d.favoured)));
      && (candidates == [] ==> chosen == None
                               && brahma.State() == old(brahma.State()) && vishnu.State() == old(vishnu.State())
                               && shiva.State() == old(shiva.State()))
      && (candidates != [] ==> chosen == Some(Choose(candidates, d.godTargets[0])))
    ensures chosen.Some? ==>
      && |fs| == 4 && |ts| == 4
      && fs[0] == old(favoured.Snapshot()) && fs[3] == favoured.Snapshot()
      && ts[0] == old(chosen.value.Snapshot()) && ts[3] == chosen.value.Snapshot()
      && SharedActed(favoured, chosen.value, fs, ts, old(brahma.State()), brahma.State(),
                     old(vishnu.State()), vishnu.State(), old(shiva.State()), shiva.State(), d)
    ensures forall i :: 0 <= i < |es| && es[i] != favoured && Some(es[i]) != chosen ==>
              es[i].Snapshot() == old(es[i].Snapshot())
  {
    favoured := Favoured(es, d.favoured);
    var others := Others(es, favoured);
    chosen := None;
    fs, ts := [], [];
    if |others| > 0 {
      var target := Choose(others, d.godTargets[0]);
      fs, ts := SharedIntervention(es, favoured, target, brahma, vishnu, shiva, d);
      chosen := Some(target);
      assert old(Others(es, Favoured(es, d.favoured))) == others != [];
    }
  }

  /** Brahma, Vishnu and Shiva, in that order, act on the same two members of the cast, as
    * SharedActed says; the two keep their roles. */
  method SharedIntervention(es: seq<Entity>, favoured: Entity, target: Entity,
                            brahma: Brahma, vishnu: Vishnu, shiva: Shiva, d: RoundDraws)
    returns (ghost fs: seq<Vitals>, ghost ts: seq<Vitals>)
    requires Cast(es) && favoured in es && target in es && favoured != target
    requires brahma.Valid() && vishnu.Valid() && shiva.Valid() && RoundDrawsFit(d)
    modifies favoured, target, brahma, vishnu, shiva
    ensures Cast(es) && brahma.Valid() && vishnu.Valid() && shiva.Valid()
    ensures favoured.role == old(favoured.role) && target.role == old(target.role)
    ensures |fs| == 4 && |ts| == 4
    ensures fs[0] == old(favoured.Snapshot()) && fs[3] == favoured.Snapshot()
    ensures ts[0] == old(target.Snapshot()) && ts[3] == target.Snapshot()
    ensures SharedActed(favoured, target, fs, ts, old(brahma.State()), brahma.State(),
                        old(vishnu.State()), vishnu.State(), old(shiva.State()), shiva.State(), d)
  {
    ghost var f0, t0 := favoured.Snapshot(), target.Snapshot();
    brahma.InfluenceBattle(favoured, target, d.brahmaNoise, d.brahmaCooldown);
    ghost var f1, t1 := favoured.Snapshot(), target.Snapshot();
    vishnu.InfluenceBattle(favoured, target, d.vishnuNoise, d.vishnuCooldown);
    ghost var f2, t2 := favoured.Snapshot(), target.Snapshot();
    shiva.InfluenceBattle(favoured, target, d.shivaNoise, d.shivaCooldown);
    fs, ts := [f0, f1, f2, favoured.Snapshot()], [t0, t1, t2, target.Snapshot()];
  }

  /** One turn of the loop after the counter advances (orchestrator.py:189-219): the cosmic
    * event, the combatants' pass (the Priest praying when the turn is a multiple of 4), the
    * deities' pass and the trade. */
  method PlayRound(es: seq<Entity>, brahma: Brahma, vishnu: Vishnu, shiva: Shiva, d: RoundDraws, turn: int)
    requires Cast(es) && brahma.Valid() && vishnu.Valid() && shiva.Valid() && RoundDrawsFit(d)
    modifies es, brahma, vishnu, shiva
    ensures Cast(es) && brahma.Valid() && vishnu.Valid() && shiva.Valid()
  {
    var _ := EventPhase(es, brahma, vishnu, shiva, d.event);
    var moves, opponents, states := CastPass(es, d, turn % 4 == 0);
    var favoured, chosen, fs, ts := DivineRound(es, brahma, vishnu, shiva, d);
    var traded := TradeRound(es, turn);
  }

  /**
   * run_simulation with its cast and deities given and the random draws of turn t in
   * draws[t - 1]. The loop plays turns while at least two combatants stand and the limit is not
   * reached, so it stops after at most max_turns turns, and then either one combatant or none
   * is left or the limit was reached. The closing message is the verdict on the final state.
   */
  method RunSimulation(es: seq<Entity>, brahma: Brahma, vishnu: Vishnu, shiva: Shiva,
                       maxTurns: int, draws: seq<RoundDraws>)
    returns (turn: int, ending: EndMessage)
    requires Cast(es) && brahma.Valid() && vishnu.Valid() && shiva.Valid()
    requires |draws| >= maxTurns && forall t :: 0 <= t < |draws| ==> RoundDrawsFit(draws[t])
    modifies es, brahma, vishnu, shiva
    ensures Cast(es)
    ensures 0 <= turn && (turn <= maxTurns || turn == 0)
    ensures |Living(es)| <= 1 || turn >= maxTurns
    ensures ending == Verdict(es, turn)
  {
    turn := 0;
    while |Living(es)| > 1 && turn < maxTurns
      invariant Cast(es) && brahma.Valid() && vishnu.Valid() && shiva.Valid()
      invariant 0 <= turn && (turn <= maxTurns || turn == 0)
      decreases maxTurns - turn
    {
      turn := turn + 1;
      PlayRound(es, brahma, vishnu, shiva, draws[turn - 1], turn);
    }
    ending := Verdict(es, turn);
  }
}
