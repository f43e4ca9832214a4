/** Running a scene: action by action, op by op, with the abort rule and the progress events. */
module Runner {
  import opened Basics
  import opened SceneActions
  import opened Optimizer
  import opened Planner
  import opened Fleet
  import CollapseMeaning

  datatype Kind = EffectAction(k: EffectKind) | SyncAction | DelayAction | OffsetGroupAction

  function KindOf(a: Action): Kind {
    match a
    case Act(e) => EffectAction(e.kind)
    case Sync => SyncAction
    case Delay(_) => DelayAction
    case OffsetGroup(_, _, _) => OffsetGroupAction
  }

  datatype ErrorTag = NoError | DegradedError | SendFailed | PartialFailure | ExceptionError | SkippedAborted

  datatype ActionResult = ActionResult(index: nat, kind: Kind, ok: bool, error: ErrorTag, degraded: bool)

  datatype Status = Running | StatusOk | StatusError | StatusDegraded | StatusSkipped

  datatype Progress = Progress(index: nat, kind: Kind, status: Status)

  /** Whether the transport is up when op j of action i is dispatched. */
  type Link = (nat, nat) -> bool

  /** One dispatch: the boolean the sender returns and what it put on the wire, or an exception. */
  datatype SendResult = Returned(ok: bool, packet: Option<Packet>) | Threw

  /** Only the preset sender looks at its parameters before it looks for a transport, and a sync without a
      transport is dropped silently. */
  function Dispatch(op: WireOp, up: bool, ts: int): SendResult {
    var p := Transmit(op, ts);
    match op.sender
    case SendPreset => if p.None? then Threw else if up then Returned(true, p) else Returned(false, None)
    case SendSync => if !up then Returned(true, None) else if p.None? then Threw else Returned(true, p)
    case _ => if !up then Returned(false, None) else if p.None? then Threw else Returned(true, p)
  }

  /** What executing a list of ops leaves behind. */
  datatype Trace = Trace(ops: seq<WireOp>, wire: seq<Packet>, allOk: bool, threw: bool)

  function Sent(p: Option<Packet>): seq<Packet> {
    if p.Some? then [p.value] else []
  }

  function OnWire(r: SendResult): seq<Packet> {
    if r.Threw? then [] else Sent(r.packet)
  }

  function Execute(ops: seq<WireOp>, i: nat, j: nat, link: Link, ts: int): Trace
    decreases |ops|
  {
    if ops == [] then Trace([], [], true, false)
    else
      match Dispatch(ops[0], link(i, j), ts)
      case Threw => Trace([ops[0]], [], false, true)
      case Returned(ok, packet) =>
        var rest := Execute(ops[1..], i, j + 1, link, ts);
        Trace([ops[0]] + rest.ops, Sent(packet) + rest.wire, ok && rest.allOk, rest.threw)
  }

  const NOTHING := Trace([], [], true, false)

  /** One action: its result and its trace. A degraded or raising plan sends nothing. */
  function RunAction(a: Action, i: nat, env: Env, link: Link, ts: int): (ActionResult, Trace) {
    var plan, kind := PlanAction(a, env), KindOf(a);
    if plan.Raised? then (ActionResult(i, kind, false, ExceptionError, false), NOTHING)
    else if plan.degraded then (ActionResult(i, kind, false, DegradedError, true), NOTHING)
    else
      var t := Execute(plan.ops, i, 0, link, ts);
      if t.threw then (ActionResult(i, kind, false, ExceptionError, false), t)
      else
        var error := if t.allOk then NoError else if a.OffsetGroup? then PartialFailure else SendFailed;
        (ActionResult(i, kind, t.allOk && !(a.OffsetGroup? && plan.ops == []), error, false), t)
  }

  predicate Fatal(r: ActionResult) {
    !r.ok && !r.degraded
  }

  function StatusOf(r: ActionResult): Status {
    if r.degraded then StatusDegraded else if r.ok then StatusOk else StatusError
  }

  /** Everything a run produces; `traces` has one entry per action. */
  datatype Outcome = Outcome(results: seq<ActionResult>, events: seq<Progress>, traces: seq<Trace>, aborted: Option<nat>)

  function Skip(actions: seq<Action>, i: nat): Outcome
    decreases |actions|
  {
    if actions == [] then Outcome([], [], [], None)
    else
      var kind, rest := KindOf(actions[0]), Skip(actions[1..], i + 1);
      Outcome([ActionResult(i, kind, false, SkippedAborted, false)] + rest.results,
              [Progress(i, kind, StatusSkipped)] + rest.events, [NOTHING] + rest.traces, None)
  }

  /** How an action at an index is run. */
  type Actor = (Action, nat) -> (ActionResult, Trace)

  function ActorOf(env: Env, link: Link, ts: int): Actor {
    (a: Action, i: nat) => RunAction(a, i, env, link, ts)
  }

  function RunFrom(actions: seq<Action>, i: nat, act: Actor, stop: bool): Outcome
    decreases |actions|
  {
    if actions == [] then Outcome([], [], [], None)
    else
      var (r, t) := act(actions[0], i);
      var abort := stop && Fatal(r);
      var rest := if abort then Skip(actions[1..], i + 1) else RunFrom(actions[1..], i + 1, act, stop);
      Outcome([r] + rest.results, [Progress(i, r.kind, Running), Progress(i, r.kind, StatusOf(r))] + rest.events,
              [t] + rest.traces, if abort then Some(i) else rest.aborted)
  }

  // ---- the runner --------------------------------------------------------------------------

  function OpsOf(traces: seq<Trace>): seq<WireOp> {
    if traces == [] then [] else traces[0].ops + OpsOf(traces[1..])
  }

  function WireOf(traces: seq<Trace>): seq<Packet> {
    if traces == [] then [] else traces[0].wire + WireOf(traces[1..])
  }

  /** Everything a run has produced so far. */
  datatype Log = Log(results: seq<ActionResult>, events: seq<Progress>, ops: seq<WireOp>, wire: seq<Packet>)

  /** What a log becomes with the rest of a run. */
  function Then(log: Log, o: Outcome): Log {
    Log(log.results + o.results, log.events + o.events, log.ops + OpsOf(o.traces), log.wire + WireOf(o.traces))
  }

  function Reported(r: ActionResult, i: nat): seq<Progress> {
    [Progress(i, r.kind, Running), Progress(i, r.kind, StatusOf(r))]
  }

  lemma {:induction false} ThenStep(log: Log, actions: seq<Action>, i: nat, act: Actor, stop: bool)
    requires actions != []
    ensures var (r, t) := act(actions[0], i);
            var tail := if stop && Fatal(r) then Skip(actions[1..], i + 1) else RunFrom(actions[1..], i + 1, act, stop);
            && Then(log, RunFrom(actions, i, act, stop))
               == Then(Log(log.results + [r], log.events + Reported(r, i), log.ops + t.ops, log.wire + t.wire), tail)
            && RunFrom(actions, i, act, stop).aborted == if stop && Fatal(r) then Some(i) else tail.aborted
  {
    var (r, t) := act(actions[0], i);
    var tail := if stop && Fatal(r) then Skip(actions[1..], i + 1) else RunFrom(actions[1..], i + 1, act, stop);
    RunCons(actions, i, act, stop);
    Associative(log.results, [r], tail.results);
    Associative(log.events, Reported(r, i), tail.events);
    assert ([t] + tail.traces)[1..] == tail.traces;
    Associative(log.ops, t.ops, OpsOf(tail.traces));
    Associative(log.wire, t.wire, WireOf(tail.traces));
  }

  lemma {:induction false} ThenSkip(log: Log, actions: seq<Action>, i: nat)
    ensures var o := Skip(actions, i);
            Then(log, o) == log.(results := log.results + o.results, events := log.events + o.events)
  {
    SkippedWire(actions, i);
  }

  /** A run `o` that began with the log `start` has got as far as `log`, with these actions to go. */
  ghost predicate GotTo(o: Outcome, start: Log, log: Log, actions: seq<Action>, i: nat, act: Actor, stop: bool) {
    Then(start, o) == Then(log, RunFrom(actions, i, act, stop)) && o.aborted == RunFrom(actions, i, act, stop).aborted
  }

  ghost predicate Finished(o: Outcome, start: Log, log: Log, aborted: Option<nat>) {
    Then(start, o) == log && o.aborted == aborted
  }

  function LogStep(log: Log, r: ActionResult, t: Trace, i: nat): Log {
    Log(log.results + [r], log.events + Reported(r, i), log.ops + t.ops, log.wire + t.wire)
  }

  lemma {:induction false} GoesOn(o: Outcome, start: Log, log: Log, actions: seq<Action>, i: nat, act: Actor, stop: bool)
    requires actions != [] && GotTo(o, start, log, actions, i, act, stop)
    ensures var (r, t) := act(actions[0], i);
            var next, skipped := LogStep(log, r, t, i), Skip(actions[1..], i + 1);
            if stop && Fatal(r)
            then Finished(o, start, next.(results := next.results + skipped.results, events := next.events + skipped.events), Some(i))
            else GotTo(o, start, next, actions[1..], i + 1, act, stop)
  {
    var (r, t) := act(actions[0], i);
    ThenStep(log, actions, i, act, stop);
    ThenSkip(LogStep(log, r, t, i), actions[1..], i + 1);
  }

  lemma {:induction false} GotThere(o: Outcome, start: Log, log: Log, i: nat, act: Actor, stop: bool)
    requires GotTo(o, start, log, [], i, act, stop)
    ensures Finished(o, start, log, None)
  {
    assert Then(log, RunFrom([], i, act, stop)) == log;
  }

  /** What executing ops becomes with the rest of them. */
  function Before(ops: seq<WireOp>, wire: seq<Packet>, allOk: bool, rest: Trace): Trace {
    Trace(ops + rest.ops, wire + rest.wire, allOk && rest.allOk, rest.threw)
  }

  lemma {:induction false} BeforeStep(sent: seq<WireOp>, out: seq<Packet>, allOk: bool, ops: seq<WireOp>, i: nat,
                                      j: nat, link: Link, ts: int)
    requires ops != []
    ensures var r := Dispatch(ops[0], link(i, j), ts);
            Before(sent, out, allOk, Execute(ops, i, j, link, ts))
            == if r.Threw? then Trace(sent + [ops[0]], out + OnWire(r), false, true)
               else Before(sent + [ops[0]], out + OnWire(r), allOk && r.ok, Execute(ops[1..], i, j + 1, link, ts))
  {
    var r := Dispatch(ops[0], link(i, j), ts);
    if r.Returned? {
      var rest := Execute(ops[1..], i, j + 1, link, ts);
      Associative(sent, [ops[0]], rest.ops);
      Associative(out, OnWire(r), rest.wire);
    }
  }

  lemma {:induction false} OneMore<T>(s: seq<T>, n: nat)
    requires n < |s|
    ensures s[..n + 1] == s[..n] + [s[n]]
  {
  }

  class SceneRunner {
    /** Every op handed to a sender, and every packet the senders transmitted, in order. */
    var dispatched: seq<WireOp>
    var wire: seq<Packet>
    var events: seq<Progress>

    constructor ()
      ensures dispatched == [] && wire == [] && events == []
    {
      dispatched, wire, events := [], [], [];
    }

    /** Hands one op to its sender; a sender that raises has transmitted nothing. */
    method DispatchOp(op: WireOp, up: bool, ts: int) returns (r: SendResult)
      modifies this`dispatched, this`wire
      ensures r == Dispatch(op, up, ts)
      ensures dispatched == old(dispatched) + [op]
      ensures wire == old(wire) + OnWire(r)
    {
      r := Dispatch(op, up, ts);
      dispatched := dispatched + [op];
      wire := wire + OnWire(r);
    }

    /** Dispatches op by op until the plan ends or a sender raises. */
    method ExecutePlan(ops: seq<WireOp>, i: nat, link: Link, ts: int) returns (allOk: bool, threw: bool)
      modifies this`dispatched, this`wire
      ensures var t := Execute(ops, i, 0, link, ts);
              && dispatched == old(dispatched) + t.ops
              && wire == old(wire) + t.wire
              && allOk == t.allOk && threw == t.threw
    {
      allOk, threw := true, false;
      var j := 0;
      ghost var sent: seq<WireOp>, out: seq<Packet> := [], [];
      ghost var all := Execute(ops, i, 0, link, ts);
      assert ops[0..] == ops;
      while j < |ops|
        invariant 0 <= j <= |ops|
        invariant dispatched == old(dispatched) + sent && wire == old(wire) + out
        invariant all == Before(sent, out, allOk, Execute(ops[j..], i, j, link, ts))
      {
        BeforeStep(sent, out, allOk, ops[j..], i, j, link, ts);
        assert ops[j..][1..] == ops[j + 1..] && ops[j..][0] == ops[j];
        var r := DispatchOp(ops[j], link(i, j), ts);
        sent, out := sent + [ops[j]], out + OnWire(r);
        if r.Threw? {
          return false, true;
        }
        if !r.ok {
          allOk := false;
        }
        j := j + 1;
      }
      assert sent + [] == sent && out + [] == out;
    }

    method RunOne(a: Action, i: nat, env: Env, link: Link, ts: int) returns (r: ActionResult)
      modifies this`dispatched, this`wire
      ensures var (want, t) := RunAction(a, i, env, link, ts);
              r == want && dispatched == old(dispatched) + t.ops && wire == old(wire) + t.wire
    {
      var plan := PlanAction(a, env);
      if plan.Raised? {
        return ActionResult(i, KindOf(a), false, ExceptionError, false);
      }
      if plan.degraded {
        return ActionResult(i, KindOf(a), false, DegradedError, true);
      }
      var allOk, threw := ExecutePlan(plan.ops, i, link, ts);
      if threw {
        return ActionResult(i, KindOf(a), false, ExceptionError, false);
      }
      var error := if allOk then NoError else if a.OffsetGroup? then PartialFailure else SendFailed;
      if a.OffsetGroup? && plan.ops == [] {
        allOk := false;
      }
      r := ActionResult(i, KindOf(a), allOk, error, false);
    }

    /** Placeholders for the actions from `i` on. */
    method SkipRest(actions: seq<Action>, i: nat) returns (skipped: seq<ActionResult>)
      requires i <= |actions|
      modifies this`events
      ensures skipped == Skip(actions[i..], i).results
      ensures events == old(events) + Skip(actions[i..], i).events
    {
      skipped := [];
      ghost var want := Skip(actions[i..], i);
      SkipShape(actions[i..], i);
      for k := i to |actions|
        invariant |skipped| == k - i && skipped == want.results[..k - i]
        invariant events == old(events) + want.events[..k - i]
      {
        var kind := KindOf(actions[k]);
        assert actions[i..][k - i] == actions[k];
        OneMore(want.results, k - i);
        OneMore(want.events, k - i);
        skipped := skipped + [ActionResult(k, kind, false, SkippedAborted, false)];
        events := events + [Progress(k, kind, StatusSkipped)];
      }
    }

    /** One action between its two progress events. */
    method RunReported(a: Action, i: nat, env: Env, link: Link, ts: int, ghost act: Actor) returns (r: ActionResult)
      requires Performs(act, env, link, ts)
      modifies this
      ensures r == act(a, i).0
      ensures events == old(events) + Reported(r, i)
      ensures dispatched == old(dispatched) + act(a, i).1.ops
      ensures wire == old(wire) + act(a, i).1.wire
    {
      events := events + [Progress(i, KindOf(a), Running)];
      r := RunOne(a, i, env, link, ts);
      events := events + [Progress(i, r.kind, StatusOf(r))];
    }

    /** The scene loop with its abort rule, for the actor that stands for `RunOne`. */
    method RunLoop(actions: seq<Action>, env: Env, link: Link, ts: int, stop: bool, ghost act: Actor)
      returns (results: seq<ActionResult>, aborted: Option<nat>)
      requires Performs(act, env, link, ts)
      modifies this
      ensures var o := RunFrom(actions, 0, act, stop);
              && results == o.results && aborted == o.aborted
              && events == old(events) + o.events
              && dispatched == old(dispatched) + OpsOf(o.traces)
              && wire == old(wire) + WireOf(o.traces)
    {
      results, aborted := [], None;
      ghost var o, start := RunFrom(actions, 0, act, stop), Log([], events, dispatched, wire);
      var i := 0;
      assert actions[0..] == actions;
      while i < |actions|
        invariant 0 <= i <= |actions|
        invariant GotTo(o, start, Log(results, events, dispatched, wire), actions[i..], i, act, stop)
      {
        GoesOn(o, start, Log(results, events, dispatched, wire), actions[i..], i, act, stop);
        assert actions[i..][1..] == actions[i + 1..] && actions[i..][0] == actions[i];
        var r := RunReported(actions[i], i, env, link, ts, act);
        results := results + [r];
        if stop && Fatal(r) {
          var skipped := SkipRest(actions, i + 1);
          results := results + skipped;
          aborted := Some(i);
          break;
        }
        i := i + 1;
      }
      if aborted.None? {
        GotThere(o, start, Log(results, events, dispatched, wire), i, act, stop);
      }
      assert Finished(o, start, Log(results, events, dispatched, wire), aborted);
      assert [] + o.results == o.results;
    }

    /** Run a scene: one result per action, whether and where it stopped, and whether every action was fine. */
    method Run(actions: seq<Action>, env: Env, link: Link, ts: int, stop: bool)
      returns (results: seq<ActionResult>, aborted: Option<nat>, ok: bool)
      modifies this
      ensures var o := RunFrom(actions, 0, ActorOf(env, link, ts), stop);
              && results == o.results && aborted == o.aborted
              && events == old(events) + o.events
              && dispatched == old(dispatched) + OpsOf(o.traces)
              && wire == old(wire) + WireOf(o.traces)
      ensures ok <==> forall i :: 0 <= i < |results| ==> results[i].ok
    {
      results, aborted := RunLoop(actions, env, link, ts, stop, ActorOf(env, link, ts));
      ok := forall x :: x in results ==> x.ok;
    }
  }

  /** `act` is what `RunOne` does. */
  ghost predicate Performs(act: Actor, env: Env, link: Link, ts: int) {
    forall a: Action, i: nat {:trigger RunAction(a, i, env, link, ts)} :: act(a, i) == RunAction(a, i, env, link, ts)
  }

  lemma {:induction false} RunCons(actions: seq<Action>, i: nat, act: Actor, stop: bool)
    requires actions != []
    ensures var o := RunFrom(actions, i, act, stop);
            var (r, t) := act(actions[0], i);
            var abort := stop && Fatal(r);
            var rest := if abort then Skip(actions[1..], i + 1) else RunFrom(actions[1..], i + 1, act, stop);
            && o.results == [r] + rest.results
            && o.events == Reported(r, i) + rest.events
            && o.traces == [t] + rest.traces
            && o.aborted == if abort then Some(i) else rest.aborted
  {
  }

  lemma {:induction false} SkippedWire(actions: seq<Action>, i: nat)
    ensures WireOf(Skip(actions, i).traces) == [] && OpsOf(Skip(actions, i).traces) == []
    decreases |actions|
  {
    if actions != [] {
      SkippedWire(actions[1..], i + 1);
      assert Skip(actions, i).traces[1..] == Skip(actions[1..], i + 1).traces;
    }
  }

  // ---- the shape of a run ------------------------------------------------------------------

  lemma {:induction false} SkipShape(actions: seq<Action>, i: nat)
    ensures var o := Skip(actions, i);
            && |o.results| == |o.traces| == |o.events| == |actions|
            && o.aborted.None?
            && forall k :: 0 <= k < |actions| ==>
                 o.results[k] == ActionResult(i + k, KindOf(actions[k]), false, SkippedAborted, false)
                 && o.traces[k] == NOTHING && o.events[k] == Progress(i + k, KindOf(actions[k]), StatusSkipped)
    decreases |actions|
  {
    if actions != [] {
      SkipShape(actions[1..], i + 1);
    }
  }

  /** How many actions a run executes. */
  function Executed(o: Outcome, i: nat, total: nat): int {
    if o.aborted.Some? then o.aborted.value - i + 1 else total
  }

  lemma {:induction false} RunLengths(actions: seq<Action>, i: nat, act: Actor, stop: bool)
    ensures var o := RunFrom(actions, i, act, stop);
            && |o.results| == |o.traces| == |actions|
            && 0 <= Executed(o, i, |actions|) <= |actions|
            && (o.aborted.Some? ==> i <= o.aborted.value)
    decreases |actions|
  {
    if actions != [] {
      RunCons(actions, i, act, stop);
      SkipShape(actions[1..], i + 1);
      RunLengths(actions[1..], i + 1, act, stop);
    }
  }

  lemma {:induction false} RunEntry(actions: seq<Action>, i: nat, act: Actor, stop: bool, k: nat)
    requires k < |actions|
    ensures var o := RunFrom(actions, i, act, stop);
            && |o.results| == |o.traces| == |actions|
            && (if k < Executed(o, i, |actions|)
                then o.results[k] == act(actions[k], i + k).0 && o.traces[k] == act(actions[k], i + k).1
                else o.results[k] == ActionResult(i + k, KindOf(actions[k]), false, SkippedAborted, false) && o.traces[k] == NOTHING)
    decreases |actions|
  {
    RunLengths(actions, i, act, stop);
    RunHead(actions, i, act, stop);
    if k > 0 {
      RunTail(actions, i, act, stop, k);
      if stop && Fatal(act(actions[0], i).0) {
        SkippedEntry(actions[1..], i + 1, k - 1);
      } else {
        RunEntry(actions[1..], i + 1, act, stop, k - 1);
      }
    }
  }

  lemma {:induction false} SkippedEntry(actions: seq<Action>, i: nat, k: nat)
    requires k < |actions|
    ensures var o := Skip(actions, i);
            && |o.results| == |o.traces| == |actions|
            && o.results[k] == ActionResult(i + k, KindOf(actions[k]), false, SkippedAborted, false) && o.traces[k] == NOTHING
  {
    SkipShape(actions, i);
  }

  lemma {:induction false} RunHead(actions: seq<Action>, i: nat, act: Actor, stop: bool)
    requires actions != []
    ensures var o := RunFrom(actions, i, act, stop);
            && o.results != [] && o.traces != []
            && o.results[0] == act(actions[0], i).0 && o.traces[0] == act(actions[0], i).1
            && 0 < Executed(o, i, |actions|)
  {
    RunCons(actions, i, act, stop);
    RunLengths(actions[1..], i + 1, act, stop);
  }

  lemma {:induction false} RunTail(actions: seq<Action>, i: nat, act: Actor, stop: bool, k: nat)
    requires 0 < k < |actions|
    ensures var o := RunFrom(actions, i, act, stop);
            var abort := stop && Fatal(act(actions[0], i).0);
            var rest := if abort then Skip(actions[1..], i + 1) else RunFrom(actions[1..], i + 1, act, stop);
            && |o.results| == |o.traces| == |actions| && |rest.results| == |rest.traces| == |actions| - 1
            && o.results[k] == rest.results[k - 1] && o.traces[k] == rest.traces[k - 1]
            && Executed(o, i, |actions|) == if abort then 1 else 1 + Executed(rest, i + 1, |actions| - 1)
  {
    RunCons(actions, i, act, stop);
    RunLengths(actions, i, act, stop);
    RunLengths(actions[1..], i + 1, act, stop);
    SkipShape(actions[1..], i + 1);
  }

  lemma {:induction false} RunEvents(actions: seq<Action>, i: nat, act: Actor, stop: bool)
    ensures var o := RunFrom(actions, i, act, stop);
            var n := Executed(o, i, |actions|);
            |o.events| == 2 * n + (|actions| - n)
    decreases |actions|
  {
    if actions != [] {
      SkipShape(actions[1..], i + 1);
      RunEvents(actions[1..], i + 1, act, stop);
    }
  }

  lemma {:induction false} RunAborts(actions: seq<Action>, i: nat, act: Actor, stop: bool)
    ensures var o := RunFrom(actions, i, act, stop);
            var n := Executed(o, i, |actions|);
            && (o.aborted.Some? ==> stop && 0 < n <= |o.results| && Fatal(o.results[n - 1]))
            && (stop ==> forall k :: 0 <= k < (if o.aborted.Some? then n - 1 else n) && k < |o.results| ==> !Fatal(o.results[k]))
    decreases |actions|
  {
    if actions != [] {
      RunAborts(actions[1..], i + 1, act, stop);
    }
  }

  /** Every result names its own action. */
  ghost predicate Labelled(act: Actor) {
    forall a: Action, i: nat :: act(a, i).0.index == i && act(a, i).0.kind == KindOf(a)
  }

  lemma {:induction false} RunnerLabels(env: Env, link: Link, ts: int)
    ensures Labelled(ActorOf(env, link, ts))
  {
    forall a: Action, i: nat
      ensures ActorOf(env, link, ts)(a, i).0.index == i && ActorOf(env, link, ts)(a, i).0.kind == KindOf(a)
    {
    }
  }

  /** The result list matches the actions one to one. Up to and including the abort index every action was
      run exactly once; the abort index is the first failed, non-degraded action and exists only under
      stop-on-error; everything after it is a placeholder that dispatched nothing. Two events per executed
      action, one per skipped one. */
  lemma {:induction false} RunShape(actions: seq<Action>, act: Actor, stop: bool)
    requires Labelled(act)
    ensures var o := RunFrom(actions, 0, act, stop);
            var n := Executed(o, 0, |actions|);
            && |o.results| == |o.traces| == |actions|
            && 0 <= n <= |actions|
            && |o.events| == 2 * n + (|actions| - n)
            && (forall k :: 0 <= k < |actions| ==> o.results[k].index == k && o.results[k].kind == KindOf(actions[k]))
            && (forall k :: 0 <= k < n ==> o.results[k] == act(actions[k], k).0 && o.traces[k] == act(actions[k], k).1)
            && (forall k :: n <= k < |actions| ==> o.results[k].error == SkippedAborted && o.traces[k] == NOTHING)
            && (stop ==>
                  if exists k :: 0 <= k < |actions| && Fatal(o.results[k])
                  then o.aborted == Some(n - 1) && n > 0 && Fatal(o.results[n - 1]) && forall k :: 0 <= k < n - 1 ==> !Fatal(o.results[k])
                  else o.aborted.None?)
            && (!stop ==> o.aborted.None?)
  {
    var o := RunFrom(actions, 0, act, stop);
    var n := Executed(o, 0, |actions|);
    RunLengths(actions, 0, act, stop);
    RunEvents(actions, 0, act, stop);
    AbortIsFirstFatal(actions, act, stop);
    forall k | 0 <= k < |actions|
      ensures o.results[k].index == k && o.results[k].kind == KindOf(actions[k])
      ensures if k < n then o.results[k] == act(actions[k], k).0 && o.traces[k] == act(actions[k], k).1
              else o.results[k].error == SkippedAborted && o.traces[k] == NOTHING
    {
      RunEntry(actions, 0, act, stop, k);
    }
  }

  lemma {:induction false} AbortIsFirstFatal(actions: seq<Action>, act: Actor, stop: bool)
    ensures var o := RunFrom(actions, 0, act, stop);
            var n := Executed(o, 0, |actions|);
            && |o.results| == |actions| && 0 <= n <= |actions|
            && (stop ==>
                  if exists k :: 0 <= k < |actions| && Fatal(o.results[k])
                  then o.aborted == Some(n - 1) && n > 0 && Fatal(o.results[n - 1]) && forall k :: 0 <= k < n - 1 ==> !Fatal(o.results[k])
                  else o.aborted.None?)
            && (!stop ==> o.aborted.None?)
  {
    RunLengths(actions, 0, act, stop);
    RunAborts(actions, 0, act, stop);
  }

  // ---- plan and wire -------------------------------------------------------------------------

  ghost predicate AlwaysUp(link: Link) {
    forall i, j :: link(i, j)
  }

  /** With the transport up, the wire carries the plan's packets up to the first sender that raises, and
      unless one raises every planned op is dispatched once, in order. */
  lemma {:induction false} ExecuteUp(ops: seq<WireOp>, i: nat, j: nat, link: Link, ts: int)
    requires AlwaysUp(link)
    ensures var t := Execute(ops, i, j, link, ts);
            && t.wire == PacketsOf(ops, ts)
            && t.threw == !AllSend(ops, ts) && t.allOk == AllSend(ops, ts)
            && (AllSend(ops, ts) ==> t.ops == ops)
    decreases |ops|
  {
    if ops != [] {
      ExecuteUp(ops[1..], i, j + 1, link, ts);
      assert ops == [ops[0]] + ops[1..];
      SendSplit(ops, ts);
      DispatchUp(ops[0], ts);
    }
  }

  lemma {:induction false} DispatchUp(op: WireOp, ts: int)
    ensures Dispatch(op, true, ts) == if Transmit(op, ts).None? then Threw else Returned(true, Transmit(op, ts))
  {
  }

  lemma {:induction false} SendSplit(ops: seq<WireOp>, ts: int)
    requires ops != []
    ensures AllSend(ops, ts) <==> Transmit(ops[0], ts).Some? && AllSend(ops[1..], ts)
    ensures PacketsOf(ops, ts)
         == if Transmit(ops[0], ts).None? then [] else [Transmit(ops[0], ts).value] + PacketsOf(ops[1..], ts)
  {
    var first := Transmit(ops[0], ts);
    assert Attempts(ops, ts) == [first] + Attempts(ops[1..], ts);
    AllSomeConcat([first], Attempts(ops[1..], ts));
    assert [first][0] == first;
  }

  /** A run with the transport up transmits exactly the scene's packets, so what `CollapseMeaning` and
      `Container` say about them is what devices receive. */
  lemma {:induction false} RunTransmitsScene(actions: seq<Action>, i: nat, env: Env, link: Link, ts: int, stop: bool)
    requires AlwaysUp(link)
    ensures WireOf(RunFrom(actions, i, ActorOf(env, link, ts), stop).traces) == CollapseMeaning.ScenePackets(actions, env, ts, stop)
    decreases |actions|
  {
    if actions != [] {
      var (r, t) := RunAction(actions[0], i, env, link, ts);
      var o := RunFrom(actions, i, ActorOf(env, link, ts), stop);
      ActionTransmits(actions[0], i, env, link, ts);
      if stop && Fatal(r) {
        assert o.traces[1..] == Skip(actions[1..], i + 1).traces;
        SkippedWire(actions[1..], i + 1);
      } else {
        assert o.traces[1..] == RunFrom(actions[1..], i + 1, ActorOf(env, link, ts), stop).traces;
        RunTransmitsScene(actions[1..], i + 1, env, link, ts, stop);
      }
    }
  }

  lemma {:induction false} ActionTransmits(a: Action, i: nat, env: Env, link: Link, ts: int)
    requires AlwaysUp(link)
    ensures RunAction(a, i, env, link, ts).1.wire == CollapseMeaning.ActionPackets(a, env, ts)
    ensures Fatal(RunAction(a, i, env, link, ts).0) <==> CollapseMeaning.Failed(a, env, ts)
  {
    var plan := PlanAction(a, env);
    if plan.Plan? {
      ExecuteUp(plan.ops, i, 0, link, ts);
    }
  }
}
