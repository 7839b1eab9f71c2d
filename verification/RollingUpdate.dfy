/** Rolling updates in standalone mode: one pod per pass, replicas first, the primary last. */
module RollingUpdate {
  import opened Types
  import opened LayoutInvariant
  import opened Layout

  /** The data pods, those whose spec hash is not the desired one, and the primary if there is one. */
  datatype Rollout = Rollout(pods: set<Pod>, stale: set<Pod>, primary: Option<Pod>, supervised: bool, approved: bool) {

    predicate IsReplica(p: Pod) {
      p in pods && primary != Some(p)
    }

    ghost predicate Valid() {
      stale <= pods
    }

    /** The primary exists and needs replacing. */
    predicate StalePrimary() {
      primary.Some? && primary.value in stale
    }
  }

  datatype Action = Completed | DeleteReplica(pod: Pod) | Pause | DeletePrimary | Switch

  /** A stale replica comes first, from the highest ordinal down; then the primary, if it may be touched. */
  ghost predicate Decides(r: Rollout, action: Action) {
    if exists p :: p in r.stale && r.IsReplica(p) then
      action.DeleteReplica? && action.pod in r.stale && r.IsReplica(action.pod)
      && forall p :: p in r.stale && r.IsReplica(p) ==> p <= action.pod
    else if !r.StalePrimary() then action == Completed
    else if r.supervised && !r.approved then action == Pause
    else action == if exists p :: r.IsReplica(p) then Switch else DeletePrimary
  }

  /** One pass over the listed pods. */
  method Decide(r: Rollout, listed: seq<Pod>) returns (action: Action)
    requires r.Valid() && Distinct(listed) && forall p :: p in listed <==> p in r.pods
    ensures Decides(r, action)
  {
    hide SortPods, Distinct;
    SortPodsProperties(listed);
    var sorted := SortPods(listed);
    assert forall p :: p in sorted <==> p in r.pods;
    var hasReplica := false;
    var i := |sorted|;
    while i > 0
      invariant 0 <= i <= |sorted|
      invariant forall k :: i <= k < |sorted| ==> !(sorted[k] in r.stale && r.IsReplica(sorted[k]))
      invariant hasReplica <==> exists k :: i <= k < |sorted| && r.IsReplica(sorted[k])
    {
      i := i - 1;
      if r.IsReplica(sorted[i]) {
        hasReplica := true;
        if sorted[i] in r.stale {
          forall p | p in r.stale && r.IsReplica(p) ensures p <= sorted[i] {
            assert p in sorted;
            var k :| 0 <= k < |sorted| && sorted[k] == p;
          }
          return DeleteReplica(sorted[i]);
        }
      }
    }
    forall p | r.IsReplica(p) ensures p !in r.stale && hasReplica {
      assert p in sorted;
      var k :| 0 <= k < |sorted| && sorted[k] == p;
    }
    if !r.StalePrimary() {
      return Completed;
    }
    if r.supervised && !r.approved {
      return Pause;
    }
    if !hasReplica {
      return DeletePrimary;
    }
    return Switch;
  }

  predicate ReplacesPrimary(action: Action) {
    action == DeletePrimary || action == Switch
  }

  /** One pass: what was decided, whether it took effect, and whether the approval was cleared after it. A
      command that fails has no effect, except that a switchover may fail after it has moved the primary. */
  datatype Round = Round(before: Rollout, action: Action, took: bool, cleared: bool, after: Rollout) {

    /** The primary was deleted or moved in this pass. */
    predicate Replaced() {
      took && ReplacesPrimary(action)
    }

    /** The pass should have used up the approval, and did not. */
    predicate FailedClear() {
      Replaced() && before.supervised && !cleared
    }
  }

  /** The state a pass leaves behind: a deleted pod is back with the desired hash, and a switchover has made
      some replica the primary. The approval is cleared only after the primary was replaced. */
  ghost predicate Applied(round: Round) {
    var r, r' := round.before, round.after;
    && (round.cleared ==> round.Replaced() && r.supervised && r.approved)
    && r'.approved == (r.approved && !round.cleared)
    && r'.pods == r.pods && r'.supervised == r.supervised
    && if !round.took then r'.stale == r.stale && r'.primary == r.primary
       else match round.action
         case Completed => r'.stale == r.stale && r'.primary == r.primary
         case Pause => r'.stale == r.stale && r'.primary == r.primary
         case DeleteReplica(p) => r'.stale == r.stale - {p} && r'.primary == r.primary
         case DeletePrimary => r.primary.Some? && r'.stale == r.stale - {r.primary.value} && r'.primary == r.primary
         case Switch => r'.stale == r.stale && r'.primary.Some? && r.IsReplica(r'.primary.value)
  }

  ghost predicate IsRound(round: Round) {
    round.before.Valid() && Decides(round.before, round.action) && Applied(round)
  }

  /** Between passes the desired hash may change, which makes any pods stale or not, and the approval may
      be given or withdrawn. */
  ghost predicate Between(r: Rollout, r': Rollout) {
    r'.Valid() && r' == r.(stale := r'.stale, approved := r'.approved)
  }

  ghost predicate IsRun(rounds: seq<Round>) {
    && (forall i :: 0 <= i < |rounds| ==> IsRound(rounds[i]))
    && (forall i :: 0 < i < |rounds| ==> Between(rounds[i - 1].after, rounds[i].before))
  }

  /** The desired hash does not change during the run. */
  ghost predicate OneHash(rounds: seq<Round>) {
    forall i :: 0 < i < |rounds| ==> rounds[i].before.stale == rounds[i - 1].after.stale
  }

  // ---------------------------------------------------------------- a rollout ends

  /** The pass changed the cluster. */
  predicate Acted(round: Round) {
    round.took && round.action != Completed && round.action != Pause
  }

  /** Work left: a pass for every stale pod, and one more to demote a stale primary. */
  ghost function Work(r: Rollout): nat {
    |r.stale| + if r.StalePrimary() then 1 else 0
  }

  lemma PassReducesWork(round: Round)
    requires IsRound(round)
    ensures round.after.Valid()
    ensures Acted(round) ==> Work(round.after) < Work(round.before)
    ensures !Acted(round) ==> Work(round.after) == Work(round.before)
    ensures ReplacesPrimary(round.action) ==> round.before.StalePrimary() && forall p :: p in round.before.stale ==>
              !round.before.IsReplica(p)
  {
    var r, r' := round.before, round.after;
    if round.Replaced() && round.action == Switch {
      assert r'.primary.value !in r.stale;
    }
  }

  function Acting(rounds: seq<Round>): nat {
    if rounds == [] then 0 else Acting(rounds[..|rounds| - 1]) + if Acted(rounds[|rounds| - 1]) then 1 else 0
  }

  lemma {:induction false} WorkAccount(rounds: seq<Round>)
    requires IsRun(rounds) && OneHash(rounds) && rounds != []
    ensures Acting(rounds) + Work(rounds[|rounds| - 1].after) <= Work(rounds[0].before)
  {
    var last := rounds[|rounds| - 1];
    PassReducesWork(last);
    if |rounds| > 1 {
      var front := rounds[..|rounds| - 1];
      WorkAccount(front);
      assert Between(rounds[|rounds| - 2].after, last.before);
      assert Work(last.before) == Work(front[|front| - 1].after);
    } else {
      assert rounds[..0] == [];
    }
  }

  /** With a fixed hash a rolling update takes at most one acting pass per stale pod and one more, and with
      any hashes it touches the primary only once every replica is up to date. */
  lemma RolloutEnds(rounds: seq<Round>)
    requires IsRun(rounds) && rounds != []
    ensures OneHash(rounds) ==> Acting(rounds) <= |rounds[0].before.stale| + 1
    ensures forall i :: 0 <= i < |rounds| && ReplacesPrimary(rounds[i].action) ==>
              forall p :: p in rounds[i].before.stale ==> !rounds[i].before.IsReplica(p)
  {
    if OneHash(rounds) { WorkAccount(rounds); }
    forall i | 0 <= i < |rounds| && ReplacesPrimary(rounds[i].action)
      ensures forall p :: p in rounds[i].before.stale ==> !rounds[i].before.IsReplica(p)
    {
      PassReducesWork(rounds[i]);
    }
  }

  // ---------------------------------------------------------------- a rollout completes

  /** A pass whose commands take effect changes something, unless nothing is stale, or only the primary is and
      its replacement awaits approval. */
  lemma PassActs(round: Round)
    requires IsRound(round) && round.took && round.before.stale != {}
    ensures Acted(round) ||
            (round.before.supervised && !round.before.approved && exists p ::
                 round.before.primary == Some(p) && round.before.stale == {p})
    ensures round.after.stale <= round.before.stale
  {
    var r := round.before;
    if !Acted(round) {
      var p :| p in r.stale;
      assert r.primary == Some(p);
    }
  }

  /** The commands of the run take effect, and nobody waits for an approval. */
  ghost predicate Unhindered(rounds: seq<Round>) {
    forall i :: 0 <= i < |rounds| ==> rounds[i].took && (rounds[i].before.supervised ==> rounds[i].before.approved)
  }

  lemma {:induction false} AllAct(rounds: seq<Round>)
    requires IsRun(rounds) && OneHash(rounds) && Unhindered(rounds)
    requires rounds != [] ==> rounds[|rounds| - 1].before.stale != {}
    ensures Acting(rounds) == |rounds|
  {
    hide Decides, Applied;
    if rounds != [] {
      var front := rounds[..|rounds| - 1];
      PassActs(rounds[|rounds| - 1]);
      if front != [] {
        var previous := front[|front| - 1];
        if previous.before.stale == {} { StaysUpToDate(previous); }
      }
      AllAct(front);
    }
  }

  lemma StaysUpToDate(round: Round)
    requires IsRound(round) && round.before.stale == {}
    ensures round.after.stale == {}
  {
  }

  /** A rolling update completes: with a fixed hash, when commands take effect and nobody waits for an approval,
      the pass after as many as there were stale pods, and one more, finds nothing stale and completes. */
  lemma RolloutCompletes(rounds: seq<Round>)
    requires IsRun(rounds) && OneHash(rounds) && Unhindered(rounds)
    requires rounds != [] && |rounds| > |rounds[0].before.stale| + 1
    ensures rounds[|rounds| - 1].before.stale == {} && rounds[|rounds| - 1].action == Completed
  {
    var last := rounds[|rounds| - 1];
    if last.before.stale != {} {
      AllAct(rounds);
      RolloutEnds(rounds);
    }
  }

  // ---------------------------------------------------------------- in which order

  /** Between the two rounds no switchover moves the primary. */
  ghost predicate NoSwitch(rounds: seq<Round>, i: nat, j: nat)
    requires j <= |rounds|
  {
    forall k :: i <= k < j ==> rounds[k].action != Switch
  }

  lemma {:induction false} StaleShrinks(rounds: seq<Round>, i: nat, j: nat)
    requires IsRun(rounds) && OneHash(rounds) && i < j < |rounds| && NoSwitch(rounds, i, j)
    ensures rounds[j].before.stale <= rounds[i].after.stale && rounds[j].before.primary == rounds[i].before.primary
    ensures rounds[j].before.pods == rounds[i].before.pods
    decreases j
  {
    hide Decides;
    assert IsRound(rounds[i]) && IsRound(rounds[j - 1]) && Between(rounds[j - 1].after, rounds[j].before);
    if i < j - 1 { StaleShrinks(rounds, i, j - 1); }
  }

  /** With a fixed hash, replicas are replaced from the highest ordinal down, as long as the primary stays. */
  lemma ReplicasDescend(rounds: seq<Round>, i: nat, j: nat)
    requires IsRun(rounds) && OneHash(rounds) && i < j < |rounds| && NoSwitch(rounds, i, j)
    requires rounds[i].took && rounds[i].action.DeleteReplica? && rounds[j].action.DeleteReplica?
    ensures rounds[j].action.pod < rounds[i].action.pod
  {
    StaleShrinks(rounds, i, j);
    assert IsRound(rounds[i]) && IsRound(rounds[j]);
  }

  // ---------------------------------------------------------------- approvals

  function Bit(b: bool): nat {
    if b then 1 else 0
  }

  function Replacements(rounds: seq<Round>): nat {
    if rounds == [] then 0 else Replacements(rounds[..|rounds| - 1]) + Bit(rounds[|rounds| - 1].Replaced())
  }

  function FailedClears(rounds: seq<Round>): nat {
    if rounds == [] then 0 else FailedClears(rounds[..|rounds| - 1]) + Bit(rounds[|rounds| - 1].FailedClear())
  }

  /** How often an approval was there when it had not been after the round before. */
  function Approvals(rounds: seq<Round>): nat {
    if rounds == [] then 0
    else
      var i := |rounds| - 1;
      Approvals(rounds[..i]) + Bit(rounds[i].before.approved && (i == 0 || !rounds[i - 1].after.approved))
  }

  /** How often an approval was gone when it had been there after the round before. */
  function Withdrawals(rounds: seq<Round>): nat {
    if rounds == [] then 0
    else
      var i := |rounds| - 1;
      Withdrawals(rounds[..i]) + Bit(i > 0 && !rounds[i].before.approved && rounds[i - 1].after.approved)
  }

  /** Approvals are conserved: under supervision each one given is used up by one replacement of the primary,
      withdrawn, or still there, except that a clearing which fails leaves it for another replacement. */
  lemma {:induction false} ApprovalAccount(rounds: seq<Round>)
    requires IsRun(rounds) && rounds != [] && rounds[0].before.supervised
    ensures rounds[|rounds| - 1].after.supervised
    ensures Replacements(rounds) + Withdrawals(rounds) + Bit(rounds[|rounds| - 1].after.approved)
         == Approvals(rounds) + FailedClears(rounds)
  {
    hide Decides, Applied;
    var i := |rounds| - 1;
    var front := rounds[..i];
    assert IsRound(rounds[i]);
    if i == 0 {
      assert front == [];
    } else {
      assert forall k :: 0 <= k < |front| ==> front[k] == rounds[k];
      ApprovalAccount(front);
      assert front[|front| - 1] == rounds[i - 1];
      assert Between(rounds[i - 1].after, rounds[i].before);
    }
    ApprovalStep(rounds[i]);
  }

  lemma ApprovalStep(round: Round)
    requires IsRound(round) && round.before.supervised
    ensures round.after.supervised
    ensures Bit(round.Replaced()) + Bit(round.after.approved) == Bit(round.before.approved) + Bit(round.FailedClear())
  {
  }

  /** So no run replaces the primary more often than it was approved and clearing an approval failed. */
  lemma EachReplacementIsApproved(rounds: seq<Round>)
    requires IsRun(rounds) && rounds != [] && rounds[0].before.supervised
    ensures Replacements(rounds) <= Approvals(rounds) + FailedClears(rounds)
  {
    ApprovalAccount(rounds);
  }

  // ---------------------------------------------------------------- an approval used twice

  /** A single supervised pod that is out of date and approved. */
  const OUTDATED := Rollout({0}, {0}, Some(0), true, true)

  /** It is replaced, clearing the approval fails, the desired hash changes, and it is replaced again. */
  const TWICE := [
    Round(OUTDATED, DeletePrimary, true, false, OUTDATED.(stale := {})),
    Round(OUTDATED, DeletePrimary, true, true, OUTDATED.(stale := {}, approved := false))]

  /** One approval, two replacements of the primary. */
  lemma ApprovalUsedTwice()
    ensures IsRun(TWICE) && Replacements(TWICE) == 2 && Approvals(TWICE) == 1 && FailedClears(TWICE) == 1
  {
    assert IsRound(TWICE[0]) && IsRound(TWICE[1]);
    assert TWICE[..1] == [TWICE[0]] && [TWICE[0]][..0] == [];
    assert Replacements([TWICE[0]]) == 1 && Approvals([TWICE[0]]) == 1 && FailedClears([TWICE[0]]) == 1;
  }
}
