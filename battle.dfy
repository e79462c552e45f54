/**
 * The parts of a round that war_engine.py's WarEngine.step and orchestrator.py's run_simulation
 * write out identically: who is alive, who each combatant may target, the dispatch of a turn to
 * the combatant's own take_turn, the pass in which every living combatant acts once, the
 * potion trade every fifth turn, and the closing verdict.
 */
module Battle {
  import opened Wrappers
  import opened Combatants
  import opened AttackTypes
  import opened EntityTurns
  import opened Mechanists
  import opened Interns
  import opened Priests
  import opened Gods
  import opened CosmicEvents

  /** `[e for e in entities if e.is_alive()]`. */
  function Living(es: seq<Entity>): (r: seq<Entity>)
    reads es
    ensures |r| <= |es|
    ensures forall e :: e in r ==> e in es && e.IsAlive()
    ensures forall e :: e in es && e.IsAlive() ==> e in r
  {
    if es == [] then []
    else (if es[0].IsAlive() then [es[0]] else []) + Living(es[1..])
  }

  /** `[e for e in entities if e != self and e.is_alive()]`: the candidates random.choice
    * draws an opponent from. */
  function Others(es: seq<Entity>, self: Entity): (r: seq<Entity>)
    reads es
    ensures |r| <= |es|
    ensures forall e :: e in r ==> e in es && e != self && e.IsAlive()
    ensures forall e :: e in es && e != self && e.IsAlive() ==> e in r
  {
    if es == [] then []
    else (if es[0] != self && es[0].IsAlive() then [es[0]] else []) + Others(es[1..], self)
  }

  /** The vitals of each combatant, in list order. */
  ghost function Snapshots(es: seq<Entity>): (vs: seq<Vitals>)
    reads es
    ensures |vs| == |es| && forall i :: 0 <= i < |es| ==> vs[i] == es[i].Snapshot()
  {
    if es == [] then [] else [es[0].Snapshot()] + Snapshots(es[1..])
  }

  /** vs holds the vitals of each combatant, in list order. */
  ghost predicate Shows(es: seq<Entity>, vs: seq<Vitals>)
    reads es
  {
    |vs| == |es| && forall i :: 0 <= i < |es| ==> vs[i] == es[i].Snapshot()
  }

  /** Others on values: the combatants other than self whose vitals in vs show health left. */
  function OthersIn(es: seq<Entity>, vs: seq<Vitals>, self: Entity): (r: seq<Entity>)
    requires |vs| == |es|
    ensures forall e :: e in r ==> e in es && e != self
  {
    if es == [] then []
    else (if es[0] != self && vs[0].health > 0.0 then [es[0]] else []) + OthersIn(es[1..], vs[1..], self)
  }

  /** The candidates are read off the combatants' current vitals. */
  lemma {:induction false} OthersAtSnapshots(es: seq<Entity>, self: Entity)
    ensures Others(es, self) == OthersIn(es, Snapshots(es), self)
  {
    if es != [] {
      OthersAtSnapshots(es[1..], self);
      assert Snapshots(es)[1..] == Snapshots(es[1..]);
    }
  }

  /** In a cast of distinct combatants, one that is a candidate had health left. */
  lemma {:induction false} CandidateHadHealth(es: seq<Entity>, vs: seq<Vitals>, self: Entity, j: nat)
    requires |vs| == |es| && j < |es|
    requires forall k, l :: 0 <= k < l < |es| ==> es[k] != es[l]
    ensures es[j] in OthersIn(es, vs, self) ==> vs[j].health > 0.0
  {
    if j > 0 {
      CandidateHadHealth(es[1..], vs[1..], self, j - 1);
      assert es[1..][j - 1] == es[j] && vs[1..][j - 1] == vs[j] && es[j] != es[0];
    } else {
      assert forall k :: 0 <= k < |es[1..]| ==> es[1..][k] == es[k + 1] != es[0];
      assert es[0] !in es[1..];
    }
  }

  /** random.choice: the draw is any natural number, taken modulo the number of candidates. */
  function Choose(candidates: seq<Entity>, draw: nat): (e: Entity)
    requires |candidates| > 0
    ensures e in candidates
  {
    candidates[draw % |candidates|]
  }

  /** Two roles are of the same archetype (the Python subclass never changes). */
  predicate SameKind(a: Role, b: Role) {
    && a.Generic? == b.Generic? && a.Priest? == b.Priest?
    && a.Mechanist? == b.Mechanist? && a.Intern? == b.Intern?
  }

  /** The ranges of the draws an archetype's take_turn makes: the closing recover_stamina draws
    * from [5, 10] in Entity.take_turn and from [7, 12] in Mechanist.take_turn; the Intern draws
    * its forget and action chances from [0, 1) and burns [5, 15] caffeine. */
  predicate DrawsFit(role: Role, dr: TurnDraws) {
    && ActionDraws(dr)
    && ((role.Generic? || role.Priest?) ==> 5.0 <= dr.recover <= 10.0)
    && (role.Mechanist? ==> 7.0 <= dr.recover <= 12.0)
    && (role.Intern? ==> 0.0 <= dr.forget < 1.0 && 0.0 <= dr.chance < 1.0 && 5.0 <= dr.caffeine <= 15.0)
  }

  /** The random values one round consumes. */
  datatype RoundDraws = RoundDraws(
    event: int,              // random.choice over the five cosmic events
    targets: seq<nat>,       // each combatant's random.choice of an opponent
    turns: seq<TurnDraws>,   // the draws inside each combatant's turn
    godTargets: seq<nat>,    // the deities' random.choice of the second candidate
    favoured: real,          // the orchestrator's random.choices draw between the first two
    brahmaNoise: real,       // uniform(-5, 5) added to Brahma's heal
    vishnuNoise: real,       // uniform(-0.1, 0.1) in Vishnu's blessing factor
    shivaNoise: real,        // uniform(-2, 2) added to Shiva's decay
    brahmaCooldown: int,     // each deity's randint(1, 3) after acting
    vishnuCooldown: int,
    shivaCooldown: int)

  /** The ranges of a round's draws for the four combatants of both drivers, in their order:
    * the Priest and the plain entity, the Mechanist, the Intern. */
  predicate RoundDrawsFit(d: RoundDraws) {
    && 0 <= d.event < 5 && |d.targets| == 4 && |d.turns| == 4 && |d.godTargets| == 3
    && 0.0 <= d.favoured < 1.0
    && -5.0 <= d.brahmaNoise <= 5.0 && -0.1 <= d.vishnuNoise <= 0.1 && -2.0 <= d.shivaNoise <= 2.0
    && 1 <= d.brahmaCooldown <= 3 && 1 <= d.vishnuCooldown <= 3 && 1 <= d.shivaCooldown <= 3
    && (forall i :: 0 <= i < 4 ==> ActionDraws(d.turns[i]))
    && 5.0 <= d.turns[0].recover <= 10.0 && 5.0 <= d.turns[1].recover <= 10.0
    && 7.0 <= d.turns[2].recover <= 12.0
    && 0.0 <= d.turns[3].forget < 1.0 && 0.0 <= d.turns[3].chance < 1.0 && 5.0 <= d.turns[3].caffeine <= 15.0
  }

  /** The cast both drivers field: a Priest, a plain entity, a Mechanist and an Intern, all
    * distinct. */
  ghost predicate Cast(es: seq<Entity>)
    reads es
  {
    && |es| == 4
    && (forall i, j :: 0 <= i < j < |es| ==> es[i] != es[j])
    && (forall i :: 0 <= i < |es| ==> es[i].Valid())
    && es[0].role.Priest? && es[1].role.Generic? && es[2].role.Mechanist? && es[3].role.Intern?
  }

  /** Each combatant in b is of the archetype it was in a. */
  predicate KindsKept(a: seq<Vitals>, b: seq<Vitals>) {
    |a| == |b| && forall j :: 0 <= j < |a| ==> SameKind(a[j].role, b[j].role)
  }

  /** Keeping kinds is transitive. */
  lemma KindsKeptTrans(a: seq<Vitals>, b: seq<Vitals>, c: seq<Vitals>)
    requires KindsKept(a, b) && KindsKept(b, c)
    ensures KindsKept(a, c)
  {
  }

  /** When only combatants i and j changed, and each kept its archetype, all did. */
  lemma KindsAroundPair(a: seq<Vitals>, b: seq<Vitals>, i: nat, j: nat)
    requires |a| == |b| && i < |a| && j < |a|
    requires SameKind(a[i].role, b[i].role) && SameKind(a[j].role, b[j].role)
    requires forall k :: 0 <= k < |a| && k != i && k != j ==> b[k] == a[k]
    ensures KindsKept(a, b)
  {
  }

  /** The moves an archetype's turn can produce: the plain entity and the Priest use an item or
    * act (never defend), the Priest prays only when prayers are due, the Mechanist fires a skill,
    * attacks or rests, the Intern may also forget or hesitate. */
  predicate MoveFits(role: Role, move: Move, pray: bool) {
    && (role.Generic? || (role.Priest? && !pray) ==>
          move.UsedItem? || (move.Chose? && move.action != Action.Defend))
    && (role.Priest? && pray ==> move == Prayed)
    && (role.Mechanist? ==>
          move == FiredOverdrive || move == FiredEmp || move == Chose(Action.Rest) || (move.Chose? && move.action.Attack?))
    && (role.Intern? ==>
          move == Forgot || move == Hesitated || move == Chose(Action.Heal) || move == Chose(Action.Rest)
          || (move.Chose? && move.action.Attack?))
  }

  /** What `entity.take_turn(target)` does, on values, by the archetype the role names (s, o
    * before; s', o' after): the Priest has no override and takes the plain turn. */
  ghost predicate TurnTaken(self: Entity, s: Vitals, s': Vitals, o: Vitals, o': Vitals, move: Move, dr: TurnDraws) {
    match s.role
    case Mechanist(_, _) => MechanistTurn(self, s, s', o, o', move, dr)
    case Intern(_, _) => InternTurn(self, s, s', o, o', move, dr)
    case _ => PlainTurn(self, s, s', o, o', move, dr)
  }

  /** What a combatant's slot does to it and its opponent, on values: when prayers are due the
    * Priest prays for the opponent (to none of the deities of the cast, whose classes lack the
    * methods the prayer looks for), and otherwise takes its turn. */
  ghost predicate Acted(self: Entity, s: Vitals, s': Vitals, o: Vitals, o': Vitals, move: Move, pray: bool,
                        dr: TurnDraws) {
    if pray && s.role.Priest? then move == Prayed && s' == Pray(s, ShownPantheon, o.karma) && o' == o
    else TurnTaken(self, s, s', o, o', move, dr)
  }

  /**
   * Slot i of the pass, on values (the vitals of all combatants before and after): the combatant
   * acts exactly when it is alive and some other combatant is; its opponent is the one random.choice
   * draws with `target` among the living others, in list order; the two change as Acted says and
   * every other combatant keeps its vitals. When it does not act, nothing changes.
   */
  ghost predicate SlotPlayed(es: seq<Entity>, before: seq<Vitals>, after: seq<Vitals>, i: nat, move: Option<Move>,
                             opponent: Option<Entity>, pray: bool, target: nat, dr: TurnDraws) {
    && SlotChosen(es, before, after, i, move, opponent, target)
    && (forall j :: OpponentActed(es, before, after, i, j, move, opponent, pray, dr))
  }

  /** Slot i of the pass, apart from what the turn does: who acts, against whom, and that every
    * combatant other than those two keeps its vitals. */
  ghost predicate SlotChosen(es: seq<Entity>, before: seq<Vitals>, after: seq<Vitals>, i: nat, move: Option<Move>,
                             opponent: Option<Entity>, target: nat) {
    && |before| == |es| && |after| == |es| && i < |es|
    && var others := OthersIn(es, before, es[i]);
    && (move.Some? <==> before[i].health > 0.0 && |others| > 0)
    && (move.Some? <==> opponent.Some?)
    && (move.None? ==> after == before)
    && (move.Some? ==> opponent.value == Choose(others, target))
    && (forall k :: 0 <= k < |es| && k != i && (move.None? || es[k] != opponent.value) ==> after[k] == before[k])
  }

  /** When combatant j is the opponent of combatant i's slot, the two changed as Acted says. */
  ghost predicate OpponentActed(es: seq<Entity>, before: seq<Vitals>, after: seq<Vitals>, i: nat, j: int,
                                move: Option<Move>, opponent: Option<Entity>, pray: bool, dr: TurnDraws) {
    0 <= j < |es| && |before| == |es| && |after| == |es| && i < |es| && move.Some? && opponent.Some?
    && es[j] == opponent.value ==>
      Acted(es[i], before[i], after[i], before[j], after[j], move.value, pray, dr)
  }

  /** The first n slots of the pass, on values: states[i] holds the vitals of all combatants
    * when slot i comes, and each slot is played from there as SlotPlayed says. */
  ghost predicate PassPlayed(es: seq<Entity>, states: seq<seq<Vitals>>, moves: seq<Option<Move>>,
                             opponents: seq<Option<Entity>>, pray: bool, targets: seq<nat>, turns: seq<TurnDraws>, n: nat)
    decreases n
  {
    && n <= |es| && |states| == n + 1 && |moves| == n && |opponents| == n && |targets| >= n && |turns| >= n
    && (forall i :: 0 <= i <= n ==> |states[i]| == |es|)
    && (n > 0 ==>
          && PassPlayed(es, states[..n], moves[..n - 1], opponents[..n - 1], pray, targets, turns, n - 1)
          && SlotPlayed(es, states[n - 1], states[n], n - 1, moves[n - 1], opponents[n - 1], pray,
                        targets[n - 1], turns[n - 1]))
  }

  /** Slot i of a pass recorded for n slots was played as SlotPlayed says. */
  lemma {:induction false} NthSlot(es: seq<Entity>, states: seq<seq<Vitals>>, moves: seq<Option<Move>>,
                                   opponents: seq<Option<Entity>>, pray: bool, targets: seq<nat>,
                                   turns: seq<TurnDraws>, n: nat, i: nat)
    requires PassPlayed(es, states, moves, opponents, pray, targets, turns, n) && i < n
    ensures |states| == n + 1 && |moves| == n && |opponents| == n && |targets| >= n && |turns| >= n
    ensures SlotPlayed(es, states[i], states[i + 1], i, moves[i], opponents[i], pray, targets[i], turns[i])
  {
    if i < n - 1 {
      NthSlot(es, states[..n], moves[..n - 1], opponents[..n - 1], pray, targets, turns, n - 1, i);
      assert states[..n][i] == states[i] && states[..n][i + 1] == states[i + 1];
    }
  }

  /** `entity.take_turn(target)`, dispatched to the override of the entity's class, as TurnTaken
    * says. */
  method ActorTurn(self: Entity, opponent: Entity, dr: TurnDraws) returns (move: Move)
    requires self.Valid() && opponent.Valid() && self != opponent && DrawsFit(self.role, dr)
    modifies self, opponent
    ensures self.Valid() && opponent.Valid()
    ensures SameKind(self.role, old(self.role)) && opponent.role == old(opponent.role)
    ensures MoveFits(old(self.role), move, false)
    ensures TurnTaken(self, old(self.Snapshot()), self.Snapshot(), old(opponent.Snapshot()), opponent.Snapshot(), move, dr)
  {
    match self.role
    case Generic => move := TakeTurn(self, opponent, dr);
    case Priest(_) => move := TakeTurn(self, opponent, dr);
    case Mechanist(_, _) => move := MechanistTakeTurn(self, opponent, dr);
    case Intern(_, _) => move := InternTakeTurn(self, opponent, dr);
  }

  /**
   * The pass of a round in which every combatant acts (war_engine.py:86-92, orchestrator.py:191-200):
   * in list order, each combatant still alive when its slot comes picks a living opponent with
   * `targets[i]` and takes its turn with `turns[i]`; when `pray` holds (the orchestrator's every
   * fourth turn) the Priest prays instead. Combatants already fallen when the pass begins take
   * no part: they do not act, nobody targets them, and their state is untouched. A combatant
   * acts exactly when it found an opponent, and that opponent is another member of the cast.
   */
  method EntityPhase(es: seq<Entity>, targets: seq<nat>, turns: seq<TurnDraws>, pray: bool)
    returns (moves: seq<Option<Move>>, opponents: seq<Option<Entity>>, ghost states: seq<seq<Vitals>>)
    requires |targets| == |es| && |turns| == |es|
    requires forall i, j :: 0 <= i < j < |es| ==> es[i] != es[j]
    requires forall i :: 0 <= i < |es| ==> es[i].Valid() && DrawsFit(es[i].role, turns[i])
    modifies es
    ensures |moves| == |es|
    ensures forall i :: 0 <= i < |es| ==> es[i].Valid() && SameKind(es[i].role, old(es[i].role))
    ensures forall i :: 0 <= i < |es| && !old(es[i].IsAlive()) ==>
              moves[i] == None && es[i].Snapshot() == old(es[i].Snapshot())
    ensures forall i :: 0 <= i < |es| && moves[i].Some? ==> MoveFits(old(es[i].role), moves[i].value, pray)
    ensures |opponents| == |es|
    ensures forall i :: 0 <= i < |es| ==> (moves[i].Some? <==> opponents[i].Some?)
    ensures forall i :: 0 <= i < |es| && opponents[i].Some? ==> opponents[i].value in es && opponents[i].value != es[i]
    ensures |states| == |es| + 1 && old(Shows(es, states[0])) && Shows(es, states[|es|])
    ensures PassPlayed(es, states, moves, opponents, pray, targets, turns, |es|)
  {
    moves, opponents, states := PlaySlots(es, targets, turns, pray);
    PassSparesTheFallen(es, states, moves, opponents, pray, targets, turns);
    forall i | 0 <= i < |es| ensures SameKind(es[i].role, old(es[i].role)) {
      assert SameKind(states[0][i].role, states[|es|][i].role);
    }
  }

  /**
   * Where the pass stands after its first n slots: the record so far as PassPlayed says, states[n]
   * holding the combatants' current vitals, every combatant valid and of the archetype it had
   * when the pass began, the draws fitting those archetypes, and each move fitting its mover's.
   */
  ghost predicate PassState(es: seq<Entity>, targets: seq<nat>, turns: seq<TurnDraws>, pray: bool,
                            states: seq<seq<Vitals>>, moves: seq<Option<Move>>, opponents: seq<Option<Entity>>, n: nat)
    reads es
  {
    && |targets| == |es| && |turns| == |es|
    && PassPlayed(es, states, moves, opponents, pray, targets, turns, n)
    && Shows(es, states[n])
    && (forall j :: 0 <= j < |es| ==> es[j].Valid())
    && KindsKept(states[0], states[n])
    && (forall j :: 0 <= j < |es| ==> DrawsFit(states[0][j].role, turns[j]))
    && MovesFit(states[0], moves, pray)
  }

  /** Each recorded move fits the archetype its mover had in entry. */
  predicate MovesFit(entry: seq<Vitals>, moves: seq<Option<Move>>, pray: bool) {
    |moves| <= |entry| && forall j :: 0 <= j < |moves| && moves[j].Some? ==> MoveFits(entry[j].role, moves[j].value, pray)
  }

  /** The loop of the pass: slot after slot in list order, recorded as PassPlayed says. */
  method PlaySlots(es: seq<Entity>, targets: seq<nat>, turns: seq<TurnDraws>, pray: bool)
    returns (moves: seq<Option<Move>>, opponents: seq<Option<Entity>>, ghost states: seq<seq<Vitals>>)
    requires |targets| == |es| && |turns| == |es|
    requires forall i, j :: 0 <= i < j < |es| ==> es[i] != es[j]
    requires forall i :: 0 <= i < |es| ==> es[i].Valid() && DrawsFit(es[i].role, turns[i])
    modifies es
    ensures PassState(es, targets, turns, pray, states, moves, opponents, |es|)
    ensures old(Shows(es, states[0]))
  {
    moves := [];
    opponents := [];
    states := [Snapshots(es)];
    var i := 0;
    while i < |es|
      invariant i <= |es|
      invariant PassState(es, targets, turns, pray, states, moves, opponents, i)
      invariant old(Shows(es, states[0]))
    {
      moves, opponents, states := PlaySlot(es, i, targets, turns, pray, moves, opponents, states);
      i := i + 1;
    }
  }

  /** A pass recorded for its first n slots, followed by slot n played from where it left off,
    * is the pass recorded for n + 1 slots. */
  lemma PassExtends(es: seq<Entity>, states: seq<seq<Vitals>>, moves: seq<Option<Move>>,
                    opponents: seq<Option<Entity>>, pray: bool, targets: seq<nat>, turns: seq<TurnDraws>, n: nat,
                    next: seq<Vitals>, move: Option<Move>, opponent: Option<Entity>)
    requires PassPlayed(es, states, moves, opponents, pray, targets, turns, n)
    requires n < |es| && n < |targets| && n < |turns|
    requires SlotPlayed(es, states[n], next, n, move, opponent, pray, targets[n], turns[n])
    ensures PassPlayed(es, states + [next], moves + [move], opponents + [opponent], pray, targets, turns, n + 1)
  {
    assert (states + [next])[..n + 1] == states;
    assert (moves + [move])[..n] == moves && (opponents + [opponent])[..n] == opponents;
  }

  /** Who acted against whom in each of the first n slots of a pass, apart from what the turns did. */
  ghost predicate PassChosen(es: seq<Entity>, states: seq<seq<Vitals>>, moves: seq<Option<Move>>,
                             opponents: seq<Option<Entity>>, targets: seq<nat>, n: nat) {
    && n <= |es| && |states| == n + 1 && |moves| == n && |opponents| == n && |targets| >= n
    && (forall i :: 0 <= i <= n ==> |states[i]| == |es|)
    && (forall i :: 0 <= i < n ==> ChosenAt(es, states, moves, opponents, targets, i))
  }

  /** Slot i of a pass as SlotChosen says. */
  ghost predicate ChosenAt(es: seq<Entity>, states: seq<seq<Vitals>>, moves: seq<Option<Move>>,
                           opponents: seq<Option<Entity>>, targets: seq<nat>, i: nat) {
    && i + 1 < |states| && i < |moves| && i < |opponents| && i < |targets|
    && SlotChosen(es, states[i], states[i + 1], i, moves[i], opponents[i], targets[i])
  }

  /** A recorded pass says who acted against whom in each slot. */
  lemma PassIsChosen(es: seq<Entity>, states: seq<seq<Vitals>>, moves: seq<Option<Move>>,
                     opponents: seq<Option<Entity>>, pray: bool, targets: seq<nat>, turns: seq<TurnDraws>, n: nat)
    requires PassPlayed(es, states, moves, opponents, pray, targets, turns, n)
    ensures PassChosen(es, states, moves, opponents, targets, n)
  {
    forall i | 0 <= i < n ensures ChosenAt(es, states, moves, opponents, targets, i) {
      NthSlot(es, states, moves, opponents, pray, targets, turns, n, i);
    }
  }

  /** Over a pass, a combatant already fallen when the pass begins keeps its vitals from slot to
    * slot up to slot m. */
  lemma {:induction false} FallenKeepVitals(es: seq<Entity>, states: seq<seq<Vitals>>, moves: seq<Option<Move>>,
                                            opponents: seq<Option<Entity>>, targets: seq<nat>, n: nat, k: nat, m: nat)
    requires PassChosen(es, states, moves, opponents, targets, n)
    requires forall a, b :: 0 <= a < b < |es| ==> es[a] != es[b]
    requires k < |es| && states[0][k].health <= 0.0 && m <= n
    ensures states[m][k] == states[0][k]
  {
    if m > 0 {
      FallenKeepVitals(es, states, moves, opponents, targets, n, k, m - 1);
      assert ChosenAt(es, states, moves, opponents, targets, m - 1);
      CandidateHadHealth(es, states[m - 1], es[m - 1], k);
    }
  }

  /**
   * What a whole pass promises, on values: a combatant fallen when the pass begins never acts and
   * ends it with its vitals unchanged; a combatant acts exactly when it found an opponent, and
   * that opponent is another member of the cast.
   */
  lemma PassSparesTheFallen(es: seq<Entity>, states: seq<seq<Vitals>>, moves: seq<Option<Move>>,
                            opponents: seq<Option<Entity>>, pray: bool, targets: seq<nat>, turns: seq<TurnDraws>)
    requires PassPlayed(es, states, moves, opponents, pray, targets, turns, |es|)
    requires forall a, b :: 0 <= a < b < |es| ==> es[a] != es[b]
    ensures forall k :: 0 <= k < |es| && states[0][k].health <= 0.0 ==>
              moves[k] == None && states[|es|][k] == states[0][k]
    ensures forall k :: 0 <= k < |es| ==> (moves[k].Some? <==> opponents[k].Some?)
    ensures forall k :: 0 <= k < |es| && opponents[k].Some? ==> opponents[k].value in es && opponents[k].value != es[k]
  {
    PassIsChosen(es, states, moves, opponents, pray, targets, turns, |es|);
    forall k | 0 <= k < |es|
      ensures states[0][k].health <= 0.0 ==> moves[k] == None && states[|es|][k] == states[0][k]
      ensures moves[k].Some? <==> opponents[k].Some?
      ensures opponents[k].Some? ==> opponents[k].value in es && opponents[k].value != es[k]
    {
      assert ChosenAt(es, states, moves, opponents, targets, k);
      if states[0][k].health <= 0.0 {
        FallenKeepVitals(es, states, moves, opponents, targets, |es|, k, k);
        FallenKeepVitals(es, states, moves, opponents, targets, |es|, k, |es|);
      }
    }
  }

  /** The combatants' pass over the cast with a round's draws: the cast stays a cast, and the
    * pass is played slot by slot as PassPlayed says. */
  method CastPass(es: seq<Entity>, d: RoundDraws, pray: bool)
    returns (moves: seq<Option<Move>>, opponents: seq<Option<Entity>>, ghost states: seq<seq<Vitals>>)
    requires Cast(es) && RoundDrawsFit(d)
    modifies es
    ensures Cast(es)
    ensures |states| == |es| + 1 && old(Shows(es, states[0])) && Shows(es, states[|es|])
    ensures PassPlayed(es, states, moves, opponents, pray, d.targets, d.turns, |es|)
  {
    moves, opponents, states := EntityPhase(es, d.targets, d.turns, pray);
  }

  /** Slot i of the pass played after the first i slots: the record of the pass grows by one slot. */
  method PlaySlot(es: seq<Entity>, i: nat, targets: seq<nat>, turns: seq<TurnDraws>, pray: bool,
                  moves: seq<Option<Move>>, opponents: seq<Option<Entity>>, ghost states: seq<seq<Vitals>>)
    returns (moves': seq<Option<Move>>, opponents': seq<Option<Entity>>, ghost states': seq<seq<Vitals>>)
    requires i < |es|
    requires forall j, k :: 0 <= j < k < |es| ==> es[j] != es[k]
    requires PassState(es, targets, turns, pray, states, moves, opponents, i)
    modifies es
    ensures PassState(es, targets, turns, pray, states', moves', opponents', i + 1)
    ensures states'[0] == states[0]
  {
    assert states[i] == Snapshots(es);
    var move, opponent := ActInSlot(es, i, targets[i], turns[i], pray);
    ghost var after := Snapshots(es);
    KindsKeptTrans(states[0], states[i], after);
    PassExtends(es, states, moves, opponents, pray, targets, turns, i, after, move, opponent);
    MovesFitExtend(states[0], moves, move, pray);
    moves', opponents', states' := moves + [move], opponents + [opponent], states + [after];
  }

  /** A move that fits its mover's archetype extends a record of fitting moves. */
  lemma MovesFitExtend(entry: seq<Vitals>, moves: seq<Option<Move>>, move: Option<Move>, pray: bool)
    requires MovesFit(entry, moves, pray) && |moves| < |entry|
    requires move.Some? ==> MoveFits(entry[|moves|].role, move.value, pray)
    ensures MovesFit(entry, moves + [move], pray)
  {
  }

  /** One slot of the pass: combatant i acts if it is alive and has a living opponent, which is
    * another member of the cast. Only that combatant and its opponent change. */
  method ActInSlot(es: seq<Entity>, i: nat, target: nat, dr: TurnDraws, pray: bool)
    returns (move: Option<Move>, opponent: Option<Entity>)
    requires i < |es|
    requires forall j, k :: 0 <= j < k < |es| ==> es[j] != es[k]
    requires forall j :: 0 <= j < |es| ==> es[j].Valid()
    requires DrawsFit(es[i].role, dr)
    modifies es
    ensures forall j :: 0 <= j < |es| ==> es[j].Valid()
    ensures KindsKept(old(Snapshots(es)), Snapshots(es))
    ensures move.Some? ==> MoveFits(old(es[i].role), move.value, pray)
    ensures SlotPlayed(es, old(Snapshots(es)), Snapshots(es), i, move, opponent, pray, target, dr)
  {
    move := None;
    opponent := None;
    var e := es[i];
    ghost var before := Snapshots(es);
    OthersAtSnapshots(es, e);
    if e.IsAlive() {
      var opponents := Others(es, e);
      if |opponents| > 0 {
        var chosen := Choose(opponents, target);
        ghost var j :| 0 <= j < |es| && es[j] == chosen;
        var m := ActAgainst(es, i, chosen, j, dr, pray);
        move := Some(m);
        opponent := Some(chosen);
        SlotFromActed(es, before, Snapshots(es), i, j, m, pray, target, dr);
      }
    }
  }

  /** Combatant i acted against combatant j, on values: the two changed as Acted says and kept
    * their archetypes, and every other combatant kept its vitals. */
  ghost predicate PairActed(es: seq<Entity>, before: seq<Vitals>, after: seq<Vitals>, i: nat, j: nat, move: Move,
                            pray: bool, dr: TurnDraws) {
    && |before| == |es| && |after| == |es| && i < |es| && j < |es|
    && Acted(es[i], before[i], after[i], before[j], after[j], move, pray, dr)
    && KindsKept(before, after)
    && (forall k :: 0 <= k < |es| && k != i && k != j ==> after[k] == before[k])
  }

  /** Combatant i's turn against combatant j: it prays when prayers are due and it is the Priest,
    * and otherwise takes its turn, as PairActed says. */
  method ActAgainst(es: seq<Entity>, i: nat, chosen: Entity, ghost j: nat, dr: TurnDraws, pray: bool)
    returns (move: Move)
    requires i < |es| && j < |es| && i != j && es[j] == chosen
    requires forall k, l :: 0 <= k < l < |es| ==> es[k] != es[l]
    requires forall k :: 0 <= k < |es| ==> es[k].Valid()
    requires DrawsFit(es[i].role, dr)
    modifies es[i], es[j]
    ensures forall k :: 0 <= k < |es| ==> es[k].Valid()
    ensures MoveFits(old(es[i].role), move, pray)
    ensures PairActed(es, old(Snapshots(es)), Snapshots(es), i, j, move, pray, dr)
  {
    if pray && es[i].role.Priest? {
      ghost var before := Snapshots(es);
      ghost var s, o := before[i], before[j];
      Ability(es[i], chosen, ShownPantheon);
      move := Prayed;
      ghost var now := Snapshots(es);
      assert now[i] == es[i].Snapshot() == Pray(s, ShownPantheon, o.karma) && now[j] == o;
      KindsAroundPair(before, now, i, j);
    } else {
      move := TurnAgainst(es, i, chosen, j, dr, pray);
    }
  }

  /** Combatant i's own turn against combatant j, as PairActed says. */
  method TurnAgainst(es: seq<Entity>, i: nat, chosen: Entity, ghost j: nat, dr: TurnDraws, ghost pray: bool)
    returns (move: Move)
    requires i < |es| && j < |es| && i != j && es[j] == chosen
    requires forall k, l :: 0 <= k < l < |es| ==> es[k] != es[l]
    requires forall k :: 0 <= k < |es| ==> es[k].Valid()
    requires DrawsFit(es[i].role, dr) && !(pray && es[i].role.Priest?)
    modifies es[i], es[j]
    ensures forall k :: 0 <= k < |es| ==> es[k].Valid()
    ensures MoveFits(old(es[i].role), move, false)
    ensures PairActed(es, old(Snapshots(es)), Snapshots(es), i, j, move, pray, dr)
  {
    ghost var before := Snapshots(es);
    ghost var s, o := before[i], before[j];
    move := ActorTurn(es[i], chosen, dr);
    ghost var now := Snapshots(es);
    assert now[i] == es[i].Snapshot() && now[j] == chosen.Snapshot();
    assert TurnTaken(es[i], s, now[i], o, now[j], move, dr);
    assert SameKind(s.role, now[i].role) && SameKind(o.role, now[j].role);
    KindsAroundPair(before, now, i, j);
  }

  /** Slot i as SlotPlayed lists it, when combatant i was alive, had living others and played
    * against the one the draw picked, combatant j. */
  lemma SlotFromActed(es: seq<Entity>, before: seq<Vitals>, after: seq<Vitals>, i: nat, j: nat, move: Move,
                      pray: bool, target: nat, dr: TurnDraws)
    requires forall k, l :: 0 <= k < l < |es| ==> es[k] != es[l]
    requires PairActed(es, before, after, i, j, move, pray, dr) && i != j
    requires before[i].health > 0.0 && |OthersIn(es, before, es[i])| > 0
    requires es[j] == Choose(OthersIn(es, before, es[i]), target)
    ensures SlotPlayed(es, before, after, i, Some(move), Some(es[j]), pray, target, dr)
  {
  }

  /** The offer and the request of the fifth-turn trade: one mana potion for one health potion. */
  const Offer: seq<(Item, int)> := [(ManaPotion, 1)]
  const Request: seq<(Item, int)> := [(HealthPotion, 1)]

  /**
   * The trade of every fifth turn (war_engine.py:101-110, orchestrator.py:210-219): when the
   * first combatant is below 50 health, holds no health potion and can spare a mana potion,
   * and the second holds a health potion, one mana potion goes from the first to the second and
   * one health potion the other way. Nothing else changes, and no potion is created or lost.
   */
  method TradePhase(e1: Entity, e2: Entity, turn: int) returns (traded: bool)
    requires e1.Valid() && e2.Valid() && e1 != e2
    modifies e1, e2
    ensures e1.Valid() && e2.Valid()
    ensures traded <==> && turn % 5 == 0 && old(e1.health) < 50.0
                        && old(e1.inventory[HealthPotion]) < 1 && old(e2.inventory[HealthPotion]) > 0
                        && old(e1.inventory[ManaPotion]) >= 1
    ensures !traded ==> e1.Snapshot() == old(e1.Snapshot()) && e2.Snapshot() == old(e2.Snapshot())
    ensures traded ==>
      && e1.Snapshot() == old(e1.Snapshot()).(inventory := old(e1.inventory)[
           ManaPotion := old(e1.inventory[ManaPotion]) - 1][HealthPotion := old(e1.inventory[HealthPotion]) + 1])
      && e2.Snapshot() == old(e2.Snapshot()).(inventory := old(e2.inventory)[
           ManaPotion := old(e2.inventory[ManaPotion]) + 1][HealthPotion := old(e2.inventory[HealthPotion]) - 1])
    ensures forall it: Item :: e1.inventory[it] + e2.inventory[it] == old(e1.inventory[it]) + old(e2.inventory[it])
  {
    traded := false;
    if turn % 5 == 0 {
      if e1.health < 50.0 && e1.inventory[HealthPotion] < 1 && e2.inventory[HealthPotion] > 0 {
        var ok := e1.ProposeTrade(e2, Offer, Request);
        assert Offer[0] == (ManaPotion, 1) && Request[0] == (HealthPotion, 1);
        if ok {
          TradeQuantities();
          e2.AcceptTrade(e1, Offer, Request);
          traded := true;
          assert e1.inventory == old(e1.inventory)[ManaPotion := old(e1.inventory[ManaPotion]) - 1]
                                                  [HealthPotion := old(e1.inventory[HealthPotion]) + 1];
          assert e2.inventory == old(e2.inventory)[ManaPotion := old(e2.inventory[ManaPotion]) + 1]
                                                  [HealthPotion := old(e2.inventory[HealthPotion]) - 1];
        }
      }
    }
  }

  /** The trade moves exactly one mana potion and one health potion. */
  lemma TradeQuantities()
    ensures forall it: Item :: Quantity(Offer, it) == (if it == ManaPotion then 1 else 0)
    ensures forall it: Item :: Quantity(Request, it) == (if it == HealthPotion then 1 else 0)
  {
    assert Offer[..0] == [] && Request[..0] == [];
  }

  /** The cosmic event of a round (war_engine.py:76-82, orchestrator.py:189), applied to the first
    * two of the cast; the cast stays a cast. */
  method EventPhase(es: seq<Entity>, brahma: Brahma, vishnu: Vishnu, shiva: Shiva, pick: int) returns (ev: Event)
    requires Cast(es) && 0 <= pick < 5
    modifies es[0], es[1], brahma`costMultiplier, vishnu`costMultiplier, shiva`costMultiplier
    ensures Cast(es) && ev == Catalogue[pick]
  {
    ev := ApplyEvent(es[0], es[1], brahma, vishnu, shiva, pick);
  }

  /**
   * The trade of a round on values (war_engine.py:101-110): a and b are the first two of the
   * cast before, a' and b' after. The trade happens exactly on a multiple of 5 when the first is
   * below 50 health with no health potion, the second has one and the first has a mana potion;
   * it swaps one mana potion for one health potion, and otherwise nothing changes.
   */
  ghost predicate TradeDone(a: Vitals, b: Vitals, a': Vitals, b': Vitals, turn: int, traded: bool) {
    && (traded <==> && turn % 5 == 0 && a.health < 50.0 && HealthPotion in a.inventory && ManaPotion in a.inventory
                    && HealthPotion in b.inventory && a.inventory[HealthPotion] < 1 && b.inventory[HealthPotion] > 0
                    && a.inventory[ManaPotion] >= 1)
    && (!traded ==> a' == a && b' == b)
    && (traded ==> ManaPotion in b.inventory
                   && a' == a.(inventory := a.inventory[ManaPotion := a.inventory[ManaPotion] - 1]
                                                       [HealthPotion := a.inventory[HealthPotion] + 1])
                   && b' == b.(inventory := b.inventory[ManaPotion := b.inventory[ManaPotion] + 1]
                                                       [HealthPotion := b.inventory[HealthPotion] - 1]))
  }

  /** The trade of a round between the first two of the cast, as TradeDone says; the cast stays a cast. */
  method TradeRound(es: seq<Entity>, turn: int) returns (traded: bool)
    requires Cast(es)
    modifies es[0], es[1]
    ensures Cast(es)
    ensures forall i :: 0 <= i < |es| ==> es[i].role == old(es[i].role)
    ensures TradeDone(old(es[0].Snapshot()), old(es[1].Snapshot()), es[0].Snapshot(), es[1].Snapshot(), turn, traded)
  {
    traded := TradePhase(es[0], es[1], turn);
  }

  /** How a war ends. The stalemate message is fixed text naming 50 turns whatever the limit was. */
  datatype EndMessage = Wins(name: string, turns: int) | Stalemate

  /** The closing message (war_engine.py:114-119, orchestrator.py:228-232): a win for the only
    * combatant left standing, a stalemate otherwise. */
  function Verdict(es: seq<Entity>, turn: int): (m: EndMessage)
    reads es
    ensures m.Wins? <==> |Living(es)| == 1
    ensures m.Wins? ==> m.turns == turn && m.name == Living(es)[0].name
    ensures (forall e :: e in es ==> !e.IsAlive()) ==> m == Stalemate
  {
    var alive := Living(es);
    assert |alive| > 0 ==> alive[0] in alive;
    if |alive| == 1 then Wins(alive[0].name, turn) else Stalemate
  }

  /** A win names the one combatant alive and no other is alive; a stalemate means all have
    * fallen or at least two still stand. */
  lemma VerdictNamesSoleSurvivor(es: seq<Entity>, turn: int)
    ensures Verdict(es, turn).Wins? ==>
      exists w :: w in es && w.IsAlive() && w.name == Verdict(es, turn).name
                  && forall e :: e in es && e.IsAlive() ==> e == w
    ensures Verdict(es, turn).Stalemate? ==> |Living(es)| != 1
  {
    var alive := Living(es);
    if |alive| == 1 {
      var w := alive[0];
      assert w in alive;
      forall e | e in es && e.IsAlive()
        ensures e == w
      {
        assert e in alive;
      }
    }
  }
}
