/** The conflict model: which logical goals durable allocator work already owns. */
module Conflict {
  import opened Types

  datatype Goal = FundInto(dst: FederationId) | EvacuateFrom(src: FederationId)

  /** The goal an action pursues, or none when it is not agent allocator work. A move is also the
      shape of a probe leg, so only the two funding reasons make it a goal. */
  function GoalOf(action: Action, reason: ReasonCode, actor: Actor): Option<Goal> {
    if !actor.Agent? then None
    else
      match action
      case Move(_, dst, _, _, _) =>
        if reason.SpendingBelowTarget? || reason.StandbyBelowTarget? then Some(FundInto(dst)) else None
      case Evacuate(src, _, _, _, _, _) => Some(EvacuateFrom(src))
      case _ => None
  }

  function GoalOfIntent(intent: Intent): Option<Goal> {
    GoalOf(intent.action, intent.reason, intent.actor)
  }

  function GoalOfDecision(d: Decision, actor: Actor): Option<Goal> {
    GoalOf(d.action, d.reason, actor)
  }

  predicate Touches(action: Action, fed: FederationId) {
    action.Move? && (action.src == fed || action.dst == fed)
  }

  /** A held goal conflicts with its own recurrence, and a held evacuation also with any funding
      move that touches the federation being drained. */
  predicate Conflicts(held: Goal, candidate: Goal, action: Action) {
    held == candidate || (held.EvacuateFrom? && Touches(action, held.src))
  }

  type Holders = set<(Goal, Key)>
  type Sources = set<(Goal, Key, FederationId)>

  predicate HolderBlocks(holder: (Goal, Key), d: Decision, candidate: Goal) {
    holder.1 != d.key && Conflicts(holder.0, candidate, d.action)
  }

  predicate Blocks(holders: Holders, d: Decision, actor: Actor) {
    var goal := GoalOfDecision(d, actor);
    goal.Some? && exists h :: h in holders && HolderBlocks(h, d, goal.value)
  }

  /** The goals the live intents of a scan hold, each with the key holding it. */
  function HoldersOf(intents: seq<Intent>): Holders {
    set x | x in intents && !x.status.IsTerminal() && GoalOfIntent(x).Some? :: (GoalOfIntent(x).value, x.key)
  }

  function SourceOf(goal: Goal, key: Key, action: Action): Sources {
    if action.Move? || action.Evacuate? then {(goal, key, action.src)} else {}
  }

  function SourcesOf(intents: seq<Intent>): Sources {
    set x | x in intents && !x.status.IsTerminal() && GoalOfIntent(x).Some? && (x.action.Move? || x.action.Evacuate?) ::
      (GoalOfIntent(x).value, x.key, x.action.src)
  }

  // ---------------------------------------------------------------- what blocks and what holds

  predicate IsFunding(action: Action, reason: ReasonCode) {
    action.Move? && (reason == SpendingBelowTarget || reason == StandbyBelowTarget)
  }

  /** Another key than `own` holds the goal. */
  ghost predicate HeldByOther(holders: Holders, goal: Goal, own: Key) {
    exists k :: k != own && (goal, k) in holders
  }

  /** Exactly what blocks a decision. A funding move is blocked by other work funding its
      destination or draining either of its ends, an evacuation by another drain of its source,
      and nothing else is ever blocked. */
  lemma BlockedExactly(holders: Holders, d: Decision, actor: Actor)
    ensures Blocks(holders, d, actor) <==>
            && actor.Agent?
            && match d.action
               case Move(src, dst, _, _, _) =>
                 && (d.reason == SpendingBelowTarget || d.reason == StandbyBelowTarget)
                 && (|| HeldByOther(holders, FundInto(dst), d.key)
                     || HeldByOther(holders, EvacuateFrom(src), d.key)
                     || HeldByOther(holders, EvacuateFrom(dst), d.key))
               case Evacuate(src, _, _, _, _, _) => HeldByOther(holders, EvacuateFrom(src), d.key)
               case _ => false
  {
    var goal := GoalOfDecision(d, actor);
    if goal.Some? {
      forall g, k | k != d.key && (g, k) in holders && Conflicts(g, goal.value, d.action)
        ensures HeldByOther(holders, g, d.key) && HolderBlocks((g, k), d, goal.value)
      {
      }
      if Blocks(holders, d, actor) {
        var h :| h in holders && HolderBlocks(h, d, goal.value);
        assert (h.0, h.1) == h;
        assert HeldByOther(holders, h.0, d.key);
      }
    }
  }

  /** Exactly what a scan holds: the destinations of live agent funding moves and the sources of
      live agent evacuations, each with its key. */
  lemma HeldExactly(intents: seq<Intent>, goal: Goal, key: Key)
    ensures (goal, key) in HoldersOf(intents) <==>
            exists x :: x in intents && x.key == key && x.status != Done && x.status != Failed && x.actor.Agent?
                        && match goal
                           case FundInto(dst) => IsFunding(x.action, x.reason) && x.action.dst == dst
                           case EvacuateFrom(src) => x.action.Evacuate? && x.action.src == src
  {
  }

  class GoalBlockers {
    var holders: Holders
    var sources: Sources

    /** Project the goals held by a scan of live intents. */
    constructor FromIntents(intents: seq<Intent>)
      ensures holders == HoldersOf(intents) && sources == SourcesOf(intents)
    {
      holders, sources := {}, {};
      new;
      for i := 0 to |intents|
        invariant holders == HoldersOf(intents[..i]) && sources == SourcesOf(intents[..i])
      {
        var x := intents[i];
        assert intents[..i + 1] == intents[..i] + [x];
        if !x.status.IsTerminal() && GoalOfIntent(x).Some? {
          Record(GoalOfIntent(x).value, x.key, x.action);
        }
      }
      assert intents[..|intents|] == intents;
    }

    method Record(goal: Goal, key: Key, action: Action)
      modifies this
      ensures holders == old(holders) + {(goal, key)}
      ensures sources == old(sources) + SourceOf(goal, key, action)
    {
      holders := holders + {(goal, key)};
      if action.Move? || action.Evacuate? {
        sources := sources + {(goal, key, action.src)};
      }
    }

    /** Hold a decision just made durable, so the rest of its batch sees the goal as taken: from
        here on every other key pursuing that goal is blocked, and nothing blocked is released. */
    method HoldDecision(d: Decision, actor: Actor)
      modifies this
      ensures GoalOfDecision(d, actor).None? ==> holders == old(holders) && sources == old(sources)
      ensures GoalOfDecision(d, actor).Some? ==>
                && holders == old(holders) + {(GoalOfDecision(d, actor).value, d.key)}
                && sources == old(sources) + SourceOf(GoalOfDecision(d, actor).value, d.key, d.action)
      ensures forall other, who :: GoalOfDecision(other, who).Some?
                && GoalOfDecision(other, who) == GoalOfDecision(d, actor) && other.key != d.key
                ==> Blocks(holders, other, who)
      ensures forall other, who :: Blocks(old(holders), other, who) ==> Blocks(holders, other, who)
    {
      var goal := GoalOfDecision(d, actor);
      if goal.Some? {
        Record(goal.value, d.key, d.action);
        assert (goal.value, d.key) in holders;
      }
      forall other, who | GoalOfDecision(other, who).Some?
                          && GoalOfDecision(other, who) == goal && other.key != d.key
        ensures Blocks(holders, other, who)
      {
        assert HolderBlocks((goal.value, d.key), other, goal.value);
      }
      forall other, who | Blocks(old(holders), other, who)
        ensures Blocks(holders, other, who)
      {
        var h :| h in old(holders) && HolderBlocks(h, other, GoalOfDecision(other, who).value);
        assert h in holders;
      }
    }

    method Extend(other: GoalBlockers)
      modifies this
      ensures holders == old(holders) + old(other.holders)
      ensures sources == old(sources) + old(other.sources)
    {
      holders, sources := holders + other.holders, sources + other.sources;
    }

    /** A live holder that conflicts with the decision under another key, if there is one. */
    method BlockingHolder(d: Decision, actor: Actor) returns (holder: Option<Key>)
      ensures holder.Some? <==> Blocks(holders, d, actor)
      ensures holder.Some? ==> exists goal :: (goal, holder.value) in holders
                                              && HolderBlocks((goal, holder.value), d, GoalOfDecision(d, actor).value)
    {
      var candidate := GoalOfDecision(d, actor);
      if candidate.None? {
        return None;
      }
      if h :| h in holders && HolderBlocks(h, d, candidate.value) {
        assert (h.0, h.1) == h;
        holder := Some(h.1);
      } else {
        holder := None;
      }
    }
  }
}
