/** Clusters from which resharding never moves again. */
module Stall {
  import opened Types
  import opened Matching
  import opened Layout
  import opened PlanFacts
  import opened Ownership
  import opened Convergence
  import opened Reshard
  import opened ReshardRuns

  /** Every survivor owns slots, and a doomed pod claims a shard. */
  ghost predicate Stuck(n: nat, desired: nat, own: Owner)
    requires n > 0
  {
    && (forall p: Pod :: p < desired ==> OwnsSome(own, p))
    && exists claims :: Stable(OwnMarket(own, n), claims) && DoomedClaims(desired, claims)
  }

  ghost predicate OwnsSome(own: Owner, p: Pod) {
    exists x :: Owns(own, p, x)
  }

  ghost predicate DoomedClaims(desired: nat, claims: set<OwnerMatch>) {
    exists c :: c in claims && c.pod >= desired
  }

  /** No plan finds an heir for the doomed pod's shard, since every survivor has a shard of its own. */
  lemma NoHeirLeft(input: Input, own: Owner, l: ShardLayout)
    requires input.Valid() && Planned(input, l) && Observes(input, own) && Stuck(input.n, input.desired, own)
    ensures exists s :: 0 <= s < input.n && s !in l.primaryOf
  {
    hide Planned, Observes, Stable, OwnMarket;
    var claims: set<OwnerMatch> :| Stable(OwnMarket(own, input.n), claims) && DoomedClaims(input.desired, claims);
    var c :| c in claims && c.pod >= input.desired;
    assert c.shard < input.n by { ClaimsAreInMarket(own, input.n, claims, c); }
    var behind := ClaimsBehind(input, own, l);
    StableIsUnique(OwnMarket(own, input.n), claims, behind);
    PlanIsWellFormed(input, l);
    if c.shard in l.primaryOf {
      var p := l.primaryOf[c.shard];
      assert OwnsSome(own, p);
      OwnerServes(input, own, p);
      assert false;
    }
  }

  lemma ClaimsAreInMarket(own: Owner, n: nat, claims: set<OwnerMatch>, c: OwnerMatch)
    requires n > 0 && Stable(OwnMarket(own, n), claims) && c in claims
    ensures InOwnMarket(own, n, c)
  {
  }

  lemma StuckPass(n: nat, desired: nat, own: Owner, pass: Pass)
    requires n > 0 && IsPass(n, desired, own, pass) && Stuck(n, desired, own)
    ensures pass.action.Stop? && pass.moved == 0 && OwnersAfter(own, pass.action, pass.moved) == own
  {
    hide Observes, Planned, OwnerTable, Stuck;
    PassPlanned(n, desired, own, pass);
    NoHeirLeft(pass.input, own, Membership(pass.layout));
  }

  /** The stall is permanent: in every run from such a cluster every pass stops, and no slot ever moves. */
  lemma {:induction false} StuckForever(n: nat, desired: nat, owns: seq<Owner>, passes: seq<Pass>, k: nat)
    requires n > 0 && IsRun(n, desired, owns, passes) && k < |passes| && Stuck(n, desired, owns[0])
    ensures owns[k] == owns[0] && passes[k].action.Stop? && passes[k].moved == 0
  {
    hide IsPass, Stuck;
    if k > 0 { StuckForever(n, desired, owns, passes, k - 1); }
    assert IsPass(n, desired, owns[k], passes[k]);
    if k > 0 { assert owns[k] == OwnersAfter(owns[k - 1], passes[k - 1].action, passes[k - 1].moved); }
    StuckPass(n, desired, owns[k], passes[k]);
  }
}
