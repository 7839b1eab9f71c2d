/** Runs of writes by any actors, each from a copy of any age: when a fence survives them, and when setting
    one leaves the pod stopped. */
module FenceRuns {
  import opened Types
  import opened Fencing
  import opened Handover

  /** The histories before and after each write, made from a version that existed by then. */
  ghost predicate IsTrace(codec: Codec, trace: seq<History>, steps: seq<Step>) {
    && |trace| == |steps| + 1
    && forall k :: 0 <= k < |steps| ==> steps[k].seen < |trace[k]| && trace[k + 1] == Next(codec, trace[k], steps[k])
  }

  lemma NextGrows(codec: Codec, h: History, step: Step)
    requires step.seen < |h|
    ensures h <= Next(codec, h, step)
  {
    hide HandoverPods, FencedPods, WithFences;
  }

  lemma {:induction false} TraceGrows(codec: Codec, trace: seq<History>, steps: seq<Step>, k: nat)
    requires IsTrace(codec, trace, steps) && k <= |steps|
    ensures trace[0] <= trace[k]
  {
    if k > 0 {
      TraceGrows(codec, trace, steps, k - 1);
      NextGrows(codec, trace[k - 1], steps[k - 1]);
    }
  }

  // ---------------------------------------------------------------- what a step does to one pod

  /** The step begins a planned handover from the pod, with a marker that parses. */
  predicate Softens(codec: Codec, h: History, step: Step, pod: string) {
    Begins(codec, h, step) && Current(h).clusterMode && step.owner == pod && GoodPair(step.owner, step.heir)
  }

  /** The pod is named as the owner after a step exactly when the step softens it, or it was named before
      and the step does not end the handover. */
  lemma SoftAfter(codec: Codec, h: History, step: Step, pod: string)
    requires step.seen < |h| && pod != ""
    ensures HandoverPods(Current(Next(codec, h, step))).0 == pod <==>
            Softens(codec, h, step, pod) || (HandoverPods(Current(h)).0 == pod && !Ends(h, step))
  {
    hide HandoverPods, FencedPods, Next;
    var after := Current(Next(codec, h, step));
    MarkerAfter(codec, h, step);
    if Begins(codec, h, step) {
      MarkerNames(after, step.owner, step.heir, pod);
      EmptyMarkerNoOwner(Current(h));
    } else if Ends(h, step) {
      NoMarkerNoOwner(after);
    } else {
      SameMarkerSamePods(after, Current(h));
    }
  }

  lemma EmptyMarkerNoOwner(cluster: Cluster)
    requires MarkerText(cluster) == ""
    ensures HandoverPods(cluster) == ("", "")
  {
  }

  /** The step writes a fence list with the pod in it. */
  predicate Puts(codec: Codec, h: History, step: Step, pod: string) {
    step.seen < |h| && ListWritten(codec, h, step).Some? && pod in ListWritten(codec, h, step).value
  }

  /** The step writes a fence list without the pod. */
  predicate Lifts(codec: Codec, h: History, step: Step, pod: string) {
    step.seen < |h| && ListWritten(codec, h, step).Some? && pod !in ListWritten(codec, h, step).value
  }

  lemma FencedAfter(codec: Codec, h: History, step: Step, pod: string)
    requires codec.Sound() && step.seen < |h|
    ensures pod in FencedPods(codec, Current(Next(codec, h, step))) <==>
            Puts(codec, h, step, pod) || (pod in FencedPods(codec, Current(h)) && !Lifts(codec, h, step, pod))
  {
    hide FencedPods, Next, ListWritten;
    ListAfter(codec, h, step);
  }

  // ---------------------------------------------------------------- hard fences

  /** Nothing but clearing the pod's own fence softens or lifts a hard fence. */
  lemma HardFenceSurvivesStep(codec: Codec, h: History, step: Step, pod: string)
    requires codec.Sound() && step.seen < |h| && pod != "" && RequiresHardFence(codec, Current(h), pod)
    requires !(step.DropFence? && step.pod == pod) && !Overlooks(codec, h, step, pod)
    ensures RequiresHardFence(codec, Current(Next(codec, h, step)), pod)
  {
    hide HandoverPods, FencedPods, IsFenced, Next, WithFences;
    ReadersAgree(codec, Current(h), pod);
    ReadersAgree(codec, Current(Next(codec, h, step)), pod);
    SoftAfter(codec, h, step, pod);
    FencedAfter(codec, h, step, pod);
    if step.DropFence? { RemoveProperties(FencedPods(codec, h[step.seen]), step.pod); }
    if step.Finish? { RemoveProperties(FencedPods(codec, h[step.seen]), HandoverPods(Current(h)).0); }
  }

  /** A hard fence survives every run of handovers and other fences until it is cleared by name or its list
      is overwritten from a copy without it. */
  lemma {:induction false} HardFenceSurvivesRun(codec: Codec, trace: seq<History>, steps: seq<Step>, pod: string,
                                                k: nat)
    requires codec.Sound() && IsTrace(codec, trace, steps) && k <= |steps|
    requires pod != "" && RequiresHardFence(codec, Current(trace[0]), pod)
    requires forall j :: 0 <= j < k ==>
               !(steps[j].DropFence? && steps[j].pod == pod) && !Overlooks(codec, trace[j], steps[j], pod)
    ensures RequiresHardFence(codec, Current(trace[k]), pod)
  {
    hide RequiresHardFence, Overlooks, Next;
    if k > 0 {
      HardFenceSurvivesRun(codec, trace, steps, pod, k - 1);
      HardFenceSurvivesStep(codec, trace[k - 1], steps[k - 1], pod);
    }
  }

  // ---------------------------------------------------------------- switches

  predicate OnAt(first: bool, on: seq<bool>, k: nat)
    requires k <= |on|
  {
    if k == 0 then first else on[k - 1]
  }

  ghost predicate QuietFrom(off: seq<bool>, k: nat) {
    forall j :: k <= j < |off| ==> !off[j]
  }

  /** It was switched on, at first or by some step, and by no later step off. */
  ghost predicate LeftOn(first: bool, on: seq<bool>, off: seq<bool>) {
    exists k :: 0 <= k <= |on| && OnAt(first, on, k) && QuietFrom(off, k)
  }

  lemma {:induction false} LastSwitch(state: seq<bool>, on: seq<bool>, off: seq<bool>)
    requires |state| == |on| + 1 && |off| == |on|
    requires forall k :: 0 <= k < |on| ==> (state[k + 1] <==> on[k] || (state[k] && !off[k]))
    ensures state[|on|] <==> LeftOn(state[0], on, off)
  {
    var m := |on|;
    if m == 0 {
      assert OnAt(state[0], on, 0) == state[0] && QuietFrom(off, 0);
    } else {
      var on', off' := on[..m - 1], off[..m - 1];
      LastSwitch(state[..m], on', off');
      assert OnAt(state[0], on, m) == on[m - 1] && QuietFrom(off, m);
      forall k: nat | k < m ensures OnAt(state[0], on, k) == OnAt(state[0], on', k)
                              && (QuietFrom(off, k) <==> QuietFrom(off', k) && !off[m - 1])
      {
        if QuietFrom(off', k) && !off[m - 1] {
          forall j | k <= j < m ensures !off[j] {
            if j < m - 1 { assert !off'[j]; }
          }
        }
        if QuietFrom(off, k) {
          assert forall j :: k <= j < m - 1 ==> !off'[j] by {
            forall j | k <= j < m - 1 ensures !off'[j] { assert !off[j]; }
          }
          assert !off[m - 1];
        }
      }
    }
  }

  // ---------------------------------------------------------------- setting a fence

  ghost function Softenings(codec: Codec, trace: seq<History>, steps: seq<Step>, pod: string): seq<bool>
    requires |trace| == |steps| + 1
  {
    seq(|steps|, k requires 0 <= k < |steps| => Softens(codec, trace[k], steps[k], pod))
  }

  ghost function Endings(trace: seq<History>, steps: seq<Step>): seq<bool>
    requires |trace| == |steps| + 1
  {
    seq(|steps|, k requires 0 <= k < |steps| => Ends(trace[k], steps[k]))
  }

  ghost function Puttings(codec: Codec, trace: seq<History>, steps: seq<Step>, pod: string): seq<bool>
    requires |trace| == |steps| + 1
  {
    seq(|steps|, k requires 0 <= k < |steps| => Puts(codec, trace[k], steps[k], pod))
  }

  ghost function Liftings(codec: Codec, trace: seq<History>, steps: seq<Step>, pod: string): seq<bool>
    requires |trace| == |steps| + 1
  {
    seq(|steps|, k requires 0 <= k < |steps| => Lifts(codec, trace[k], steps[k], pod))
  }

  /** Exactly when the marker names the pod at the end of a run. */
  lemma SoftAtTheEnd(codec: Codec, trace: seq<History>, steps: seq<Step>, pod: string)
    requires IsTrace(codec, trace, steps) && pod != ""
    ensures HandoverPods(Current(trace[|steps|])).0 == pod <==>
            LeftOn(HandoverPods(Current(trace[0])).0 == pod, Softenings(codec, trace, steps, pod),
              Endings(trace, steps))
  {
    hide HandoverPods, Softens, Ends, Next, LeftOn;
    var state := seq(|trace|, k requires 0 <= k < |trace| => HandoverPods(Current(trace[k])).0 == pod);
    var on, off := Softenings(codec, trace, steps, pod), Endings(trace, steps);
    forall k | 0 <= k < |steps| ensures state[k + 1] <==> on[k] || (state[k] && !off[k]) {
      SoftAfter(codec, trace[k], steps[k], pod);
    }
    LastSwitch(state, on, off);
  }

  /** Exactly when the pod is in the fence list at the end of a run. */
  lemma FencedAtTheEnd(codec: Codec, trace: seq<History>, steps: seq<Step>, pod: string)
    requires codec.Sound() && IsTrace(codec, trace, steps)
    ensures pod in FencedPods(codec, Current(trace[|steps|])) <==>
            LeftOn(pod in FencedPods(codec, Current(trace[0])), Puttings(codec, trace, steps, pod),
              Liftings(codec, trace, steps, pod))
  {
    hide FencedPods, Puts, Lifts, Next, LeftOn;
    var state := seq(|trace|, k requires 0 <= k < |trace| => pod in FencedPods(codec, Current(trace[k])));
    var on, off := Puttings(codec, trace, steps, pod), Liftings(codec, trace, steps, pod);
    forall k | 0 <= k < |steps| ensures state[k + 1] <==> on[k] || (state[k] && !off[k]) {
      FencedAfter(codec, trace[k], steps[k], pod);
    }
    LastSwitch(state, on, off);
  }

  /** The version the second write of setting a fence is made from: the first write, if it was made, has
      brought the copy up to date. */
  function CopyFor(h: History, seen: nat, pod: string, h1: History): nat
    requires seen < |h|
  {
    if HandoverPods(h[seen]).0 == pod then |h1| - 1 else seen
  }

  /** The pod is the owner of a planned handover that the copy does not know of. */
  predicate Unaware(h: History, seen: nat, pod: string)
    requires seen < |h|
  {
    HandoverPods(Current(h)).0 == pod && HandoverPods(h[seen]).0 != pod
  }

  /** Setting a fence from a copy of any age, with any writes of others between its two writes: the pod
      ends up stopped if and only if no handover from it is left standing, whether begun after the copy was
      taken or between the writes, and the fence is still there in case the copy had it already and the second write
      was not made. */
  lemma SetFenceExactly(codec: Codec, h: History, seen: nat, pod: string, trace: seq<History>, steps: seq<Step>)
    requires codec.Sound() && seen < |h| && pod != ""
    requires IsTrace(codec, trace, steps) && trace[0] == Next(codec, h, Escalate(seen, pod))
    ensures var copy := CopyFor(h, seen, pod, trace[0]);
            && copy < |trace[0]| <= |trace[|steps|]|
            && (RequiresHardFence(codec, Current(Next(codec, trace[|steps|], AddFence(copy, pod))), pod) <==>
                  && !LeftOn(Unaware(h, seen, pod), Softenings(codec, trace, steps, pod), Endings(trace, steps))
                  && (pod in FencedPods(codec, trace[0][copy]) ==>
                        LeftOn(pod in FencedPods(codec, Current(h)),
                               Puttings(codec, trace, steps, pod), Liftings(codec, trace, steps, pod))))
  {
    hide HandoverPods, FencedPods, IsFenced, Next, LeftOn, Softenings, Endings, Puttings, Liftings;
    var last := trace[|steps|];
    var copy := CopyFor(h, seen, pod, trace[0]);
    NextGrows(codec, h, Escalate(seen, pod));
    TraceGrows(codec, trace, steps, |steps|);
    assert last[copy] == trace[0][copy];
    EscalationIs(codec, h, seen, pod);
    SoftAtTheEnd(codec, trace, steps, pod);
    FencedAtTheEnd(codec, trace, steps, pod);
    SecondWrite(codec, last, copy, pod);
  }

  lemma EscalationIs(codec: Codec, h: History, seen: nat, pod: string)
    requires codec.Sound() && seen < |h| && pod != ""
    ensures var h1 := Next(codec, h, Escalate(seen, pod));
            && (HandoverPods(Current(h1)).0 == pod <==> Unaware(h, seen, pod))
            && FencedPods(codec, Current(h1)) == FencedPods(codec, Current(h))
  {
    hide HandoverPods, FencedPods, Next;
    SoftAfter(codec, h, Escalate(seen, pod), pod);
    ListAfter(codec, h, Escalate(seen, pod));
    if h[seen].marker.None? { NoMarkerNoOwner(h[seen]); }
  }

  lemma SecondWrite(codec: Codec, h: History, copy: nat, pod: string)
    requires codec.Sound() && copy < |h| && pod != ""
    ensures RequiresHardFence(codec, Current(Next(codec, h, AddFence(copy, pod))), pod) <==>
            HandoverPods(Current(h)).0 != pod && (pod in FencedPods(codec, h[copy]) ==>
                pod in FencedPods(codec, Current(h)))
  {
    hide HandoverPods, FencedPods, IsFenced, Next;
    ReadersAgree(codec, Current(Next(codec, h, AddFence(copy, pod))), pod);
    SoftAfter(codec, h, AddFence(copy, pod), pod);
    FencedAfter(codec, h, AddFence(copy, pod), pod);
  }

  /** From the current version, and unless a handover of the pod is begun or its fence lifted between the two
      writes, setting a fence stops the pod. */
  lemma SetFenceIsHard(codec: Codec, h: History, pod: string, trace: seq<History>, steps: seq<Step>)
    requires codec.Sound() && pod != ""
    requires IsTrace(codec, trace, steps) && trace[0] == Next(codec, h, Escalate(|h| - 1, pod))
    requires forall k :: 0 <= k < |steps| ==>
               !Softens(codec, trace[k], steps[k], pod) && !Lifts(codec, trace[k], steps[k], pod)
    ensures var copy := CopyFor(h, |h| - 1, pod, trace[0]);
            && copy < |trace[|steps|]|
            && RequiresHardFence(codec, Current(Next(codec, trace[|steps|], AddFence(copy, pod))), pod)
  {
    hide HandoverPods, FencedPods, Next, Softens, Lifts, RequiresHardFence;
    SetFenceExactly(codec, h, |h| - 1, pod, trace, steps);
    EscalationIs(codec, h, |h| - 1, pod);
    NextGrows(codec, h, Escalate(|h| - 1, pod));
    assert forall k: nat :: k <= |steps| ==> !OnAt(false, Softenings(codec, trace, steps, pod), k);
    assert OnAt(pod in FencedPods(codec, Current(h)), Puttings(codec, trace, steps, pod), 0)
        == (pod in FencedPods(codec, Current(h)));
    assert QuietFrom(Liftings(codec, trace, steps, pod), 0);
  }

  // ---------------------------------------------------------------- two runs that leave the pod running

  const FREE := Cluster(true, None, None)

  lemma FreeAdmitsHandover(codec: Codec)
    requires codec.Sound()
    ensures var h: History := [FREE];
            && Softens(codec, h, Begin(0, "a", "b"), "a") && FencedPods(codec, FREE) == [] && HandoverPods(FREE).0 == ""
            && Next(codec, h, Escalate(0, "a")) == h && |Next(codec, h, Begin(0, "a", "b"))| == 2
  {
    NoMarkerNoOwner(FREE);
  }

  /** A handover begun after the copy was taken: the escalation looks for a marker the copy does not have. */
  lemma OldCopySoftensFence(codec: Codec)
    requires codec.Sound()
    ensures var h := Next(codec, [FREE], Begin(0, "a", "b"));
            var h1 := Next(codec, h, Escalate(0, "a"));
            var h2 := Next(codec, h1, AddFence(0, "a"));
            IsFenced(codec, Current(h2), "a") && !RequiresHardFence(codec, Current(h2), "a")
  {
    hide HandoverPods, FencedPods, IsFenced, Next;
    var h := Next(codec, [FREE], Begin(0, "a", "b"));
    FreeAdmitsHandover(codec);
    NextGrows(codec, [FREE], Begin(0, "a", "b"));
    assert h[0] == FREE;
    SoftAfter(codec, [FREE], Begin(0, "a", "b"), "a");
    var h1 := Next(codec, h, Escalate(0, "a"));
    EscalationIs(codec, h, 0, "a");
    NextGrows(codec, h, Escalate(0, "a"));
    assert h1[0] == FREE;
    SecondWrite(codec, h1, 0, "a");
    FencedAfter(codec, h1, AddFence(0, "a"), "a");
    ReadersAgree(codec, Current(Next(codec, h1, AddFence(0, "a"))), "a");
  }

  /** A handover begun between the two writes. */
  lemma HandoverBetweenSoftensFence(codec: Codec)
    requires codec.Sound()
    ensures var h1 := Next(codec, [FREE], Escalate(0, "a"));
            var h2 := Next(codec, h1, Begin(|h1| - 1, "a", "b"));
            var h3 := Next(codec, h2, AddFence(|h1| - 1, "a"));
            IsFenced(codec, Current(h3), "a") && !RequiresHardFence(codec, Current(h3), "a")
  {
    hide HandoverPods, FencedPods, IsFenced, Next;
    var h2 := Next(codec, [FREE], Begin(0, "a", "b"));
    FreeAdmitsHandover(codec);
    NextGrows(codec, [FREE], Begin(0, "a", "b"));
    assert h2[0] == FREE;
    SoftAfter(codec, [FREE], Begin(0, "a", "b"), "a");
    SecondWrite(codec, h2, 0, "a");
    FencedAfter(codec, h2, AddFence(0, "a"), "a");
    ReadersAgree(codec, Current(Next(codec, h2, AddFence(0, "a"))), "a");
  }
}
