/** Runs in which handovers are begun, looked at through copies of any age, and interrupted by fences: what
    holds of the object in force when a promotion is requested. */
module PromotionRuns {
  import opened Types
  import opened Fencing
  import opened Handover
  import opened FenceRuns

  /** What an actor does: a write, or a look at a pending handover through a copy and fresh observations. */
  datatype Act =
    | Write(step: Step)
    | Look(seen: nat, pods: map<string, PodView>, reports: map<string, Report>)

  /** A promotion request: the look that led to it, and the version in force when it was sent. */
  datatype Request = Request(look: Act, owner: string, heir: string, at: nat)

  /** The versions of the object, the writes that made them, and the requests sent so far. */
  datatype World = World(history: History, log: seq<Step>, requests: seq<Request>)

  /** Each version but the first was made by the write on record. */
  ghost predicate Recorded(codec: Codec, w: World) {
    && |w.log| == |w.history| - 1
    && forall i :: 0 <= i < |w.log| ==> Made(codec, w, i)
  }

  ghost predicate Made(codec: Codec, w: World, i: nat)
    requires i < |w.log| == |w.history| - 1
  {
    w.log[i].seen <= i && w.history[..i + 2] == Next(codec, w.history[..i + 1], w.log[i])
  }

  ghost predicate Possible(h: History, act: Act) {
    match act
    case Write(step) => step.seen < |h| && !step.Finish?
    case Look(seen, _, _) => seen < |h|
  }

  ghost function Wrote(codec: Codec, w: World, step: Step): World
    requires step.seen < |w.history|
  {
    var h := Next(codec, w.history, step);
    if h == w.history then w else w.(history := h, log := w.log + [step])
  }

  /** A look may send a request or end the handover; writes do neither. */
  ghost function After(codec: Codec, w: World, act: Act): World
    requires Possible(w.history, act)
  {
    match act
    case Write(step) => Wrote(codec, w, step)
    case Look(seen, pods, reports) =>
      var copy := w.history[seen];
      if MayConclude(codec, copy, pods, reports) then Wrote(codec, w, Finish(seen))
      else if MayPromote(codec, copy, pods, reports) then
        w.(requests := w.requests + [Request(act, HandoverPods(copy).0, HandoverPods(copy).1, |w.history| - 1)])
      else w
  }

  ghost predicate Unfolds(codec: Codec, w: World, acts: seq<Act>, w': World)
    decreases |acts|
  {
    if acts == [] then w' == w
    else Possible(w.history, acts[0]) && Unfolds(codec, After(codec, w, acts[0]), acts[1..], w')
  }

  // ---------------------------------------------------------------- a handover in force

  /** The marker names the pair, the owner is fenced and the heir is not. */
  ghost predicate InForce(codec: Codec, cluster: Cluster, owner: string, heir: string) {
    && GoodPair(owner, heir) && HandoverPods(cluster) == (owner, heir)
    && owner in FencedPods(codec, cluster) && heir !in FencedPods(codec, cluster)
  }

  /** A handover that begins between two good names in cluster mode is in force at once. */
  lemma BegunIsInForce(codec: Codec, h: History, owner: string, heir: string)
    requires codec.Sound() && Begins(codec, h, Begin(|h| - 1, owner, heir))
    requires Current(h).clusterMode && GoodPair(owner, heir)
    ensures InForce(codec, Current(Next(codec, h, Begin(|h| - 1, owner, heir))), owner, heir)
  {
    hide HandoverPods, FencedPods, Next;
    var step := Begin(|h| - 1, owner, heir);
    var after := Current(Next(codec, h, step));
    ListAfter(codec, h, step);
    MarkerAfter(codec, h, step);
    MarkerRoundTrip(after, owner, heir);
  }

  /** The write ends the handover, leaves the owner out of the fence list, or puts the heir on it. */
  predicate Disturbs(codec: Codec, h: History, step: Step, owner: string, heir: string) {
    Ends(h, step) || Lifts(codec, h, step, owner) || Puts(codec, h, step, heir)
  }

  /** A handover in force stays in force exactly when the write does not disturb it. */
  lemma ForceAfter(codec: Codec, h: History, step: Step, owner: string, heir: string)
    requires codec.Sound() && step.seen < |h| && InForce(codec, Current(h), owner, heir)
    ensures InForce(codec, Current(Next(codec, h, step)), owner, heir) <==> !Disturbs(codec, h, step, owner, heir)
  {
    hide HandoverPods, FencedPods, Next, Ends, Puts, Lifts;
    SoftAfter(codec, h, step, owner);
    FencedAfter(codec, h, step, owner);
    FencedAfter(codec, h, step, heir);
    PutsOrLifts(codec, h, step, owner);
    MarkerAfter(codec, h, step);
    if !Begins(codec, h, step) && !Ends(h, step) { SameMarkerSamePods(Current(Next(codec, h, step)), Current(h)); }
    if Begins(codec, h, step) { EmptyMarkerNoOwner(Current(h)); }
  }

  lemma PutsOrLifts(codec: Codec, h: History, step: Step, owner: string)
    ensures Puts(codec, h, step, owner) ==> !Lifts(codec, h, step, owner)
  {
  }

  /** In force in every version from one to another. */
  ghost predicate ForceBetween(codec: Codec, h: History, start: nat, last: nat, owner: string, heir: string)
    requires last < |h|
  {
    forall i :: start <= i <= last ==> InForce(codec, h[i], owner, heir)
  }

  /** None of the writes that led from one version to another disturbs it. */
  ghost predicate QuietBetween(codec: Codec, w: World, start: nat, last: nat, owner: string, heir: string)
    requires last <= |w.log| == |w.history| - 1
  {
    forall i :: start <= i < last ==> !Disturbs(codec, w.history[..i + 1], w.log[i], owner, heir)
  }

  /** From a version in which it is in force, a handover stays in force up to another version if and only if
      none of the writes in between disturbs it. */
  lemma {:induction false} ForceExactly(codec: Codec, w: World, start: nat, last: nat, owner: string, heir: string)
    requires codec.Sound() && Recorded(codec, w) && start <= last < |w.history|
             && InForce(codec, w.history[start], owner, heir)
    ensures ForceBetween(codec, w.history, start, last, owner, heir) <==>
            QuietBetween(codec, w, start, last, owner, heir)
    decreases last
  {
    hide InForce, Disturbs, Next;
    if start < last {
      ForceExactly(codec, w, start, last - 1, owner, heir);
      assert Made(codec, w, last - 1);
      assert Current(w.history[..last]) == w.history[last - 1] && Current(w.history[..last + 1]) == w.history[last];
      if InForce(codec, w.history[last - 1], owner, heir) {
        ForceAfter(codec, w.history[..last], w.log[last - 1], owner, heir);
      } else {
        assert !ForceBetween(codec, w.history, start, last - 1, owner, heir);
      }
      assert QuietBetween(codec, w, start, last, owner, heir) ==> QuietBetween(codec, w, start, last - 1, owner, heir);
      assert ForceBetween(codec, w.history, start, last, owner, heir) ==>
               ForceBetween(codec, w.history, start, last - 1, owner, heir);
    }
  }

  // ---------------------------------------------------------------- in force at one version

  /** The step begins the handover from the one pod to the other. */
  predicate BeginsPair(codec: Codec, h: History, step: Step, owner: string, heir: string) {
    Softens(codec, h, step, owner) && step.heir == heir
  }

  lemma PairAfter(codec: Codec, h: History, step: Step, owner: string, heir: string)
    requires step.seen < |h| && owner != ""
    ensures HandoverPods(Current(Next(codec, h, step))) == (owner, heir) <==>
            BeginsPair(codec, h, step, owner, heir) || (HandoverPods(Current(h)) == (owner, heir) && !Ends(h, step))
  {
    hide HandoverPods, FencedPods, Next;
    var after := Current(Next(codec, h, step));
    MarkerAfter(codec, h, step);
    if Begins(codec, h, step) {
      MarkerNames(after, step.owner, step.heir, owner);
      if after.clusterMode { MarkerRoundTrip(after, step.owner, step.heir); }
      EmptyMarkerNoOwner(Current(h));
    } else if Ends(h, step) {
      NoMarkerNoOwner(after);
    } else {
      SameMarkerSamePods(after, Current(h));
    }
  }

  ghost function Pairings(codec: Codec, trace: seq<History>, steps: seq<Step>, owner: string, heir: string): seq<bool>
    requires |trace| == |steps| + 1
  {
    seq(|steps|, k requires 0 <= k < |steps| => BeginsPair(codec, trace[k], steps[k], owner, heir))
  }

  lemma PairAtTheEnd(codec: Codec, trace: seq<History>, steps: seq<Step>, owner: string, heir: string)
    requires IsTrace(codec, trace, steps) && owner != ""
    ensures HandoverPods(Current(trace[|steps|])) == (owner, heir) <==>
            LeftOn(HandoverPods(Current(trace[0])) == (owner, heir), Pairings(codec, trace, steps, owner, heir),
                   Endings(trace, steps))
  {
    hide HandoverPods, BeginsPair, Ends, Next, LeftOn;
    var state := seq(|trace|, k requires 0 <= k < |trace| => HandoverPods(Current(trace[k])) == (owner, heir));
    var on, off := Pairings(codec, trace, steps, owner, heir), Endings(trace, steps);
    forall k | 0 <= k < |steps| ensures state[k + 1] <==> on[k] || (state[k] && !off[k]) {
      PairAfter(codec, trace[k], steps[k], owner, heir);
    }
    LastSwitch(state, on, off);
  }

  /** The handover stands after these writes: the last that began or ended it began it, or none did; and likewise
      the owner was left on the fence list, and the heir was not. */
  ghost predicate Stands(codec: Codec, trace: seq<History>, steps: seq<Step>, owner: string, heir: string)
    requires |trace| == |steps| + 1
  {
    && LeftOn(true, Pairings(codec, trace, steps, owner, heir), Endings(trace, steps))
    && LeftOn(true, Puttings(codec, trace, steps, owner), Liftings(codec, trace, steps, owner))
    && !LeftOn(false, Puttings(codec, trace, steps, heir), Liftings(codec, trace, steps, heir))
  }

  /** From a version in which it is in force, a handover is in force in a later one if and only if it stands
      after the writes in between, even if it was ended and begun again. */
  lemma ForceAtTheEnd(codec: Codec, trace: seq<History>, steps: seq<Step>, owner: string, heir: string)
    requires codec.Sound() && IsTrace(codec, trace, steps) && InForce(codec, Current(trace[0]), owner, heir)
    ensures InForce(codec, Current(trace[|steps|]), owner, heir) <==> Stands(codec, trace, steps, owner, heir)
  {
    hide HandoverPods, FencedPods, Next, LeftOn, Pairings, Endings, Puttings, Liftings;
    PairAtTheEnd(codec, trace, steps, owner, heir);
    FencedAtTheEnd(codec, trace, steps, owner);
    FencedAtTheEnd(codec, trace, steps, heir);
  }

  /** The histories from one version to another, as they grew. */
  ghost function Since(w: World, start: nat, last: nat): (trace: seq<History>)
    requires start <= last < |w.history|
    ensures |trace| == last - start + 1
    ensures forall k :: 0 <= k < |trace| ==> trace[k] == w.history[..start + k + 1]
  {
    seq(last - start + 1, k requires 0 <= k <= last - start => w.history[..start + k + 1])
  }

  lemma SinceIsTrace(codec: Codec, w: World, start: nat, last: nat)
    requires Recorded(codec, w) && start <= last < |w.history|
    ensures IsTrace(codec, Since(w, start, last), w.log[start..last])
  {
    hide Next;
    var trace, steps := Since(w, start, last), w.log[start..last];
    forall k | 0 <= k < |steps| ensures steps[k].seen < |trace[k]| && trace[k + 1] == Next(codec, trace[k], steps[k]) {
      assert Made(codec, w, start + k);
    }
  }

  lemma ForceAtVersion(codec: Codec, w: World, start: nat, last: nat, owner: string, heir: string)
    requires codec.Sound() && Recorded(codec, w) && start <= last < |w.history|
    requires InForce(codec, w.history[start], owner, heir)
    ensures InForce(codec, w.history[last], owner, heir) <==>
            Stands(codec, Since(w, start, last), w.log[start..last], owner, heir)
  {
    hide InForce, Stands, Recorded, IsTrace, Next;
    assert |w.log| == |w.history| - 1 by { LogLength(codec, w); }
    SinceIsTrace(codec, w, start, last);
    var trace := Since(w, start, last);
    assert Current(trace[0]) == w.history[start] && Current(trace[last - start]) == w.history[last];
    ForceAtTheEnd(codec, trace, w.log[start..last], owner, heir);
  }

  lemma LogLength(codec: Codec, w: World)
    requires Recorded(codec, w)
    ensures |w.log| == |w.history| - 1
  {
  }

  // ---------------------------------------------------------------- requests

  /** The look that led to the request found a version that justifies it. */
  ghost predicate Sent(codec: Codec, h: History, r: Request) {
    && r.look.Look? && r.look.seen <= r.at < |h|
    && MayPromote(codec, h[r.look.seen], r.look.pods, r.look.reports)
    && HandoverPods(h[r.look.seen]) == (r.owner, r.heir)
  }

  /** What the look saw of the two pods when it led to a promotion: the owner still a master but out of service,
      and the heir, which has an address, following it over a link that is up. */
  predicate ReadyToSwap(pods: map<string, PodView>, reports: map<string, Report>, owner: string, heir: string) {
    && owner in pods && !pods[owner].ready && heir in pods && pods[heir].hasIP
    && owner in reports && reports[owner].connected && reports[owner].role == Master
    && heir in reports && reports[heir].connected && reports[heir].role == Slave
    && reports[heir].primaryNodeID == reports[owner].nodeID && reports[heir].linkUp
  }

  /** What it sees when they have swapped: the heir is a master with slots, and the owner follows it without any. */
  predicate HaveSwapped(reports: map<string, Report>, owner: string, heir: string) {
    && owner in reports && reports[owner].connected && heir in reports && reports[heir].connected
    && reports[heir].role == Master && reports[heir].servesSlots
    && reports[owner].role == Slave && !reports[owner].servesSlots
    && reports[owner].primaryNodeID == reports[heir].nodeID
  }

  /** A look at a handover in force, through the current version. It requests the promotion of the heir if and only
      if the pair is ready to swap; and it ends the handover, leaving no marker and lifting the fence of the owner and
      of nobody else, if and only if the pair has swapped or one of the two is gone. */
  lemma LookExactly(codec: Codec, w: World, pods: map<string, PodView>, reports: map<string, Report>, owner: string,
                    heir: string)
    requires codec.Sound() && InForce(codec, Current(w.history), owner, heir)
    ensures var w' := After(codec, w, Look(|w.history| - 1, pods, reports));
            var before, after := Current(w.history), Current(w'.history);
            && (|w'.requests| == |w.requests| + 1 <==> ReadyToSwap(pods, reports, owner, heir))
            && (|w'.requests| == |w.requests| + 1 ==>
                  w'.requests[|w.requests|].heir == heir && w'.requests[|w.requests|].owner == owner)
            && (if HaveSwapped(reports, owner, heir) || owner !in pods || heir !in pods then
                  && after.marker == None
                  && forall p :: p in FencedPods(codec, after) <==> p in FencedPods(codec, before) && p != owner
                else w'.history == w.history)
  {
    hide HandoverPods, FencedPods, Next, Cut;
    var h, look := w.history, Look(|w.history| - 1, pods, reports);
    var finish := Finish(|h| - 1);
    ListAfter(codec, h, finish);
    MarkerAfter(codec, h, finish);
    RemoveProperties(FencedPods(codec, Current(h)), owner);
    WroteIs(codec, w, finish);
  }

  lemma WroteIs(codec: Codec, w: World, step: Step)
    requires step.seen < |w.history|
    ensures Wrote(codec, w, step).history == Next(codec, w.history, step)
    ensures Wrote(codec, w, step).requests == w.requests
  {
  }

  /** The handover was in force in the version looked at, and the pair ready to swap; it was in force at the request
      if and only if it stands after the writes in between; and it was in force all the way there if and only if none
      disturbed it. */
  ghost predicate Justified(codec: Codec, w: World, r: Request)
    requires Recorded(codec, w)
  {
    && Sent(codec, w.history, r) && InForce(codec, w.history[r.look.seen], r.owner, r.heir)
    && ReadyToSwap(r.look.pods, r.look.reports, r.owner, r.heir)
    && (ForceBetween(codec, w.history, r.look.seen, r.at, r.owner, r.heir) <==>
          QuietBetween(codec, w, r.look.seen, r.at, r.owner, r.heir))
    && (InForce(codec, w.history[r.at], r.owner, r.heir) <==>
          Stands(codec, Since(w, r.look.seen, r.at), w.log[r.look.seen..r.at], r.owner, r.heir))
  }

  ghost predicate AllSent(codec: Codec, w: World) {
    forall i :: 0 <= i < |w.requests| ==> Sent(codec, w.history, w.requests[i])
  }

  lemma WroteKeeps(codec: Codec, w: World, step: Step)
    requires Recorded(codec, w) && AllSent(codec, w) && step.seen < |w.history|
    ensures Recorded(codec, Wrote(codec, w, step)) && AllSent(codec, Wrote(codec, w, step))
  {
    hide Sent, Next;
    var w' := Wrote(codec, w, step);
    NextGrows(codec, w.history, step);
    NextIsLonger(codec, w.history, step);
    if w' != w {
      forall i | 0 <= i < |w'.log| ensures Made(codec, w', i) {
        if i < |w.log| {
          assert Made(codec, w, i);
          assert w'.history[..i + 1] == w.history[..i + 1] && w'.history[..i + 2] == w.history[..i + 2];
        } else {
          assert w'.history[..i + 1] == w.history && w'.history[..i + 2] == w'.history;
        }
      }
      forall i | 0 <= i < |w.requests| ensures Sent(codec, w'.history, w.requests[i]) {
        SentStays(codec, w.history, w'.history, w.requests[i]);
      }
    }
  }

  lemma NextIsLonger(codec: Codec, h: History, step: Step)
    requires step.seen < |h|
    ensures Next(codec, h, step) == h || |Next(codec, h, step)| == |h| + 1
  {
    hide HandoverPods, FencedPods, WithFences;
  }

  lemma SentStays(codec: Codec, h: History, h': History, r: Request)
    requires Sent(codec, h, r) && h <= h'
    ensures Sent(codec, h', r)
  {
    hide MayPromote, HandoverPods;
  }

  lemma ActKeeps(codec: Codec, w: World, act: Act)
    requires Recorded(codec, w) && AllSent(codec, w) && Possible(w.history, act)
    ensures Recorded(codec, After(codec, w, act)) && AllSent(codec, After(codec, w, act))
  {
    hide Next, MayPromote, MayConclude, HandoverPods, Made, Wrote;
    match act
    case Write(step) => WroteKeeps(codec, w, step);
    case Look(seen, pods, reports) =>
      WroteKeeps(codec, w, Finish(seen));
      var w' := After(codec, w, act);
      if w'.history == w.history {
        forall i | 0 <= i < |w'.requests| && w'.log == w.log ensures Sent(codec, w'.history, w'.requests[i]) {
          if i < |w.requests| { assert Sent(codec, w.history, w.requests[i]); }
        }
        forall i | 0 <= i < |w.log| ensures Made(codec, w.(requests := w'.requests),
          i) { SameMade(codec, w, w'.requests, i); }
      }
  }

  lemma SameMade(codec: Codec, w: World, requests: seq<Request>, i: nat)
    requires i < |w.log| == |w.history| - 1 && Made(codec, w, i)
    ensures Made(codec, w.(requests := requests), i)
  {
  }

  lemma {:induction false} RunKeeps(codec: Codec, w: World, acts: seq<Act>, w': World)
    requires Recorded(codec, w) && AllSent(codec, w) && Unfolds(codec, w, acts, w')
    ensures Recorded(codec, w') && AllSent(codec, w')
    decreases |acts|
  {
    hide Recorded, AllSent, After;
    if acts != [] {
      ActKeeps(codec, w, acts[0]);
      RunKeeps(codec, After(codec, w, acts[0]), acts[1..], w');
    }
  }

  /** Handover safety over every run, with emergency fences and looks through old copies anywhere: each
      promotion request was justified by the version looked at; the handover was in force at the request if and
      only if it stands after the writes in between, and all the way there if and only if none disturbed it. */
  lemma EveryPromotionIsJustified(codec: Codec, first: Cluster, acts: seq<Act>, w: World)
    requires codec.Sound() && Unfolds(codec, World([first], [], []), acts, w)
    ensures Recorded(codec, w) && forall i :: 0 <= i < |w.requests| ==> Justified(codec, w, w.requests[i])
  {
    hide Unfolds, MayPromote, ForceBetween, QuietBetween, Made, Stands;
    RunKeeps(codec, World([first], [], []), acts, w);
    forall i | 0 <= i < |w.requests| ensures Justified(codec, w, w.requests[i]) {
      var r := w.requests[i];
      assert Sent(codec, w.history, r);
      SentIsInForce(codec, w.history, r);
      ForceExactly(codec, w, r.look.seen, r.at, r.owner, r.heir);
      ForceAtVersion(codec, w, r.look.seen, r.at, r.owner, r.heir);
    }
  }

  lemma SentIsInForce(codec: Codec, h: History, r: Request)
    requires Sent(codec, h, r)
    ensures InForce(codec, h[r.look.seen], r.owner, r.heir)
    ensures ReadyToSwap(r.look.pods, r.look.reports, r.owner, r.heir)
  {
    MarkerIsCanonical(h[r.look.seen]);
  }

  /** A request from an up-to-date copy, or one no write has interfered with, finds the handover in force. */
  lemma UndisturbedRequestIsInForce(codec: Codec, first: Cluster, acts: seq<Act>, w: World, r: Request)
    requires codec.Sound() && Unfolds(codec, World([first], [], []), acts, w) && r in w.requests
    ensures Recorded(codec, w) && Sent(codec, w.history, r)
    ensures r.look.seen == r.at || QuietBetween(codec, w, r.look.seen, r.at, r.owner, r.heir) ==>
              InForce(codec, w.history[r.at], r.owner, r.heir)
  {
    hide Unfolds, MayPromote, InForce, Made, Disturbs;
    EveryPromotionIsJustified(codec, first, acts, w);
    var i :| 0 <= i < |w.requests| && w.requests[i] == r;
    assert Justified(codec, w, w.requests[i]);
  }

  // ---------------------------------------------------------------- a request that comes too late

  /** A handover in progress, before and after its owner's fence is escalated. */
  ghost function Pending(codec: Codec): Cluster {
    Cluster(true, Some(codec.marshal(["a"])), Some("a/b"))
  }

  const PODS := map["a" := PodView(true, false), "b" := PodView(true, true)]

  const REPORTS := map["a" := Report(true, Master, "na", "", false, true),
    "b" := Report(true, Slave, "nb", "na", true, false)]

  /** The owner's fence is escalated to a hard one while an operator works from the version before; the
      operator still requests the promotion, although no marker is left and the owner is to be stopped. */
  lemma EscalationOvertakesRequest(codec: Codec)
    requires codec.Sound()
    ensures var w := After(codec, World([Pending(codec)], [], []), Write(Escalate(0, "a")));
            var w' := After(codec, w, Look(0, PODS, REPORTS));
            && |w'.requests| == 1 && w'.requests[0].owner == "a" && w'.requests[0].heir == "b"
            && Current(w'.history).marker == None && RequiresHardFence(codec, Current(w'.history), "a")
  {
    var h: History := [Pending(codec)];
    var h' := Next(codec, h, Escalate(0, "a"));
    PendingIsInForce(codec);
    NextGrows(codec, h, Escalate(0, "a"));
    EscalationIs(codec, h, 0, "a");
    MarkerAfter(codec, h, Escalate(0, "a"));
    ReadersAgree(codec, Current(h'), "a");
    hide HandoverPods, FencedPods, IsFenced, Next;
    assert h'[0] == Pending(codec) && h' != h;
    LateLook(codec);
  }

  lemma PendingIsInForce(codec: Codec)
    requires codec.Sound()
    ensures HandoverPods(Pending(codec)) == ("a", "b") && FencedPods(codec, Pending(codec)) == ["a"]
  {
    assert MarkerFor("a", "b") == "a/b";
    MarkerRoundTrip(Pending(codec), "a", "b");
    FencesReadBack(codec, Cluster(true, None, Some("a/b")), ["a"]);
  }

  lemma LateLook(codec: Codec)
    requires codec.Sound()
    ensures MayPromote(codec, Pending(codec), PODS, REPORTS) && !MayConclude(codec, Pending(codec), PODS, REPORTS)
  {
    PendingIsInForce(codec);
    hide HandoverPods, FencedPods;
  }

  // ---------------------------------------------------------------- how a marker ends

  /** A marker that is in force goes away only when a look finds the handover pointless or complete, or
      when a fence is escalated. */
  lemma MarkerEndsForAReason(codec: Codec, w: World, act: Act)
    requires Possible(w.history, act) && MarkerText(Current(w.history)) != ""
    requires Current(After(codec, w, act).history).marker != Current(w.history).marker
    ensures (act.Look? && act.seen == |w.history| - 1 && Pointless(codec, Current(w.history), act.pods, act.reports))
         || (act.Write? && act.step.Escalate? && HandoverPods(w.history[act.step.seen]).0 == act.step.pod)
  {
    hide HandoverPods, FencedPods, MayPromote, Next;
    match act
    case Write(step) => MarkerAfter(codec, w.history, step);
    case Look(seen, _, _) => MarkerAfter(codec, w.history, Finish(seen));
  }

  /** The marker names a pair that has swapped, of which one is gone, or which is no longer in force. */
  ghost predicate Pointless(codec: Codec, cluster: Cluster, pods: map<string, PodView>, reports: map<string, Report>) {
    var (owner, heir) := HandoverPods(cluster);
    && owner != ""
    && (|| HaveSwapped(reports, owner, heir) || owner !in pods || heir !in pods
        || owner !in FencedPods(codec, cluster) || heir in FencedPods(codec, cluster))
  }
}
