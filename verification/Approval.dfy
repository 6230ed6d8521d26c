/** One human approval in internal/approval/service.go: the run that waits for it, the replicas that decide
    it, and the row in internal/store/postgres/approvals.go that all of them race for. */
module Approval {
  import opened Common

  datatype Status = Pending | Approved | Rejected | Expired

  datatype Record = Record(status: Status, reason: string)

  /** Where the waiting run stands: inside Wait up to FallingBack, then with an answer or an error. */
  datatype Gate =
    | Idle
    | Requested
    | Waiting
    | Expiring(cancelled: bool)
    | FallingBack(cancelled: bool)
    | Returned(answer: Record)
    | Running(answer: Record)
    | Stopped(answer: Record)
    | Failed

  /** Where a call of Decide stands after its write: `local` on the replica of the waiting run. */
  datatype Decider = Resolved(answer: Record, local: bool) | Holding(answer: Record) | Done(answer: Record) | Refused

  /** The row, the waiter's map entry and channel of one element, the actors, and two records of the past:
      the writes that took the row out of pending, and the answers returned without an error. */
  datatype World = World(
    row: Option<Record>, registered: bool, channel: Option<Record>, gate: Gate, deciders: map<nat, Decider>,
    written: seq<Record>, answers: seq<Record>)

  const START := World(None, false, None, Idle, map[], [], [])

  datatype Label =
    | Request(call: Call)
    | FirstGet(ok: bool)
    | Receive
    | Poll(ok: bool)
    | Timeout
    | Cancel
    | Expire(reason: string, call: Call)
    | FallBack(ok: bool)
    | Proceed(ok: bool)
    | CrashGate
    | Decide(decider: nat, decision: Status, reason: string, local: bool, call: Call)
    | LookUp(decider: nat)
    | Notify(decider: nat)
    | CrashDecider(decider: nat)

  predicate OfGate(l: Label) { !(l.Decide? || l.LookUp? || l.Notify? || l.CrashDecider?) }

  predicate IsPending(w: World) { w.row.Some? && w.row.value.status == Pending }

  predicate IsDecided(w: World) { w.row.Some? && w.row.value.status != Pending }

  /** The guarded update: it takes a pending row out of pending and does nothing else. */
  function Resolve(w: World, r: Record, call: Call): World {
    if IsPending(w) && call != NoEffect then w.(row := Some(r), written := w.written + [r]) else w
  }

  /** Wait returns: the waiter's entry goes with it. */
  function Answer(w: World, r: Record): World {
    w.(gate := Returned(r), registered := false, answers := w.answers + [r])
  }

  function Fail(w: World): World { w.(gate := Failed, registered := false) }

  function StepExpire(w: World, reason: string, call: Call): Option<World> {
    if !w.gate.Expiring? then None
    else
      var r, next := Record(Expired, reason), Resolve(w, Record(Expired, reason), call);
      if IsPending(w) && call == Replied then Some(if w.gate.cancelled then Fail(next) else Answer(next, r))
      else Some(next.(gate := FallingBack(w.gate.cancelled)))
  }

  function StepFallBack(w: World, ok: bool): Option<World> {
    if !w.gate.FallingBack? then None
    else if ok && IsDecided(w) && !w.gate.cancelled then Some(Answer(w, w.row.value))
    else Some(Fail(w))
  }

  function StepDecide(w: World, d: nat, decision: Status, reason: string, local: bool, call: Call): Option<World> {
    if d in w.deciders || (decision != Approved && decision != Rejected) then None
    else
      var r, next := Record(decision, reason), Resolve(w, Record(decision, reason), call);
      var decider := if IsPending(w) && call == Replied then Resolved(r, local) else Refused;
      Some(next.(deciders := next.deciders[d := decider]))
  }

  function Step(w: World, l: Label): Option<World> {
    match l
    case Request(call) =>
      if w.gate != Idle then None
      else
        var created := if call == NoEffect then w else w.(row := Some(Record(Pending, "")));
        Some(if call == Replied then created.(gate := Requested, registered := true) else Fail(created))
    case FirstGet(ok) =>
      if w.gate != Requested then None
      else if !ok || w.row.None? then Some(w.(gate := Failed))
      else if IsDecided(w) then Some(w.(gate := Returned(w.row.value), answers := w.answers + [w.row.value]))
      else Some(w.(gate := Waiting))
    case Receive => if w.gate == Waiting && w.channel.Some? then Some(Answer(w.(channel := None), w.channel.value))
      else None
    case Poll(ok) =>
      if w.gate != Waiting then None
      else if ok && IsDecided(w) then Some(Answer(w, w.row.value))
      else Some(w)
    case Timeout => if w.gate == Waiting then Some(w.(gate := Expiring(false))) else None
    case Cancel => if w.gate == Waiting then Some(w.(gate := Expiring(true))) else None
    case Expire(reason, call) => StepExpire(w, reason, call)
    case FallBack(ok) => StepFallBack(w, ok)
    case Proceed(ok) =>
      if !w.gate.Returned? then None
      else if !ok then Some(w.(gate := Failed))
      else Some(w.(gate := if w.gate.answer.status == Approved then Running(w.gate.answer) else Stopped(w.gate.answer)))
    case CrashGate => Some(w.(gate := Failed, registered := false, channel := None))
    case Decide(d, decision, reason, local, call) => StepDecide(w, d, decision, reason, local, call)
    case LookUp(d) =>
      if d !in w.deciders || !w.deciders[d].Resolved? then None
      else
        var r := w.deciders[d].answer;
        if w.deciders[d].local && w.registered then Some(w.(deciders := w.deciders[d := Holding(r)]))
        else Some(w.(deciders := w.deciders[d := Done(r)], answers := w.answers + [r]))
    case Notify(d) =>
      if d !in w.deciders || !w.deciders[d].Holding? then None
      else
        var r := w.deciders[d].answer;
        Some(w.(channel := if w.channel.None? then Some(r) else w.channel,
                deciders := w.deciders[d := Done(r)], answers := w.answers + [r]))
    case CrashDecider(d) => if d in w.deciders then Some(w.(deciders := w.deciders[d := Refused])) else None
  }

  function Run(w: World, labels: seq<Label>): Option<World>
    decreases |labels|
  {
    if labels == [] then Some(w)
    else match Step(w, labels[0]) case Some(next) => Run(next, labels[1..]) case None => None
  }

  // ---------------------------------------------------------------- every answer is the stored one

  predicate Stored(w: World, r: Record) { w.row == Some(r) && r.status != Pending }

  predicate GateAgrees(w: World) {
    match w.gate
    case Returned(r) => Stored(w, r)
    case Running(r) => Stored(w, r) && r.status == Approved
    case Stopped(r) => Stored(w, r) && r.status != Approved
    case _ => true
  }

  predicate DeciderAgrees(w: World, d: Decider) { d.Refused? || Stored(w, d.answer) }

  predicate Inv(w: World) {
    && (w.gate == Idle ==> w.row == None)
    && w.written == (if IsDecided(w) then [w.row.value] else [])
    && (forall r | r in w.answers :: Stored(w, r))
    && (w.channel.Some? ==> Stored(w, w.channel.value))
    && GateAgrees(w)
    && (forall d | d in w.deciders :: DeciderAgrees(w, w.deciders[d]))
  }

  lemma ResolveKeeps(w: World, r: Record, call: Call)
    requires Inv(w) && r.status != Pending && w.gate != Idle
    ensures Inv(Resolve(w, r, call))
    ensures IsPending(w) && call != NoEffect ==> Stored(Resolve(w, r, call), r)
  {
  }

  lemma AnswersKeep(w: World, next: World, r: Record)
    requires Inv(w) && next.row == w.row && next.written == w.written && next.gate != Idle && GateAgrees(next)
    requires next.answers == w.answers || (next.answers == w.answers + [r] && Stored(w, r))
    requires next.channel == None || next.channel == w.channel
    requires next.deciders == w.deciders
    ensures Inv(next)
  {
  }

  lemma GateStepKeeps(w: World, l: Label)
    requires Inv(w) && Step(w, l).Some? && OfGate(l) && !l.Request? && !l.Expire?
    ensures Inv(Step(w, l).value)
  {
    hide Inv;
    var next := Step(w, l).value;
    InvParts(w);
    var r := if l.Receive? then w.channel.value else if w.row.Some? then w.row.value else Record(Pending, "");
    hide Stored, GateAgrees;
    assert GateAgrees(next) by { GateMoves(w, l, next); }
    AnswersKeep(w, next, r);
  }

  lemma InvParts(w: World)
    requires Inv(w)
    ensures GateAgrees(w) && (w.channel.Some? ==> Stored(w, w.channel.value))
    ensures IsDecided(w) ==> Stored(w, w.row.value)
  {
  }

  lemma GateMoves(w: World, l: Label, next: World)
    requires GateAgrees(w) && (w.channel.Some? ==> Stored(w, w.channel.value)) && Step(w, l) == Some(next)
    requires OfGate(l) && !l.Request? && !l.Expire?
    ensures GateAgrees(next)
  {
  }

  lemma DeciderMoves(w: World, next: World, d: nat, decider: Decider)
    requires Inv(w) && next.row == w.row && next.written == w.written && next.gate == w.gate
    requires next.deciders == w.deciders[d := decider] && DeciderAgrees(w, decider)
    requires next.answers == w.answers || (!decider.Refused? && next.answers == w.answers + [decider.answer]
      && Stored(w, decider.answer))
    requires next.channel == w.channel || (next.channel.Some? && Stored(w, next.channel.value))
    ensures Inv(next)
  {
  }

  lemma DeciderStepKeeps(w: World, l: Label)
    requires Inv(w) && Step(w, l).Some? && (l.LookUp? || l.Notify? || l.CrashDecider?)
    ensures Inv(Step(w, l).value)
  {
    assert DeciderAgrees(w, w.deciders[l.decider]);
    hide Inv;
    var next := Step(w, l).value;
    DeciderMoves(w, next, l.decider, next.deciders[l.decider]);
  }

  lemma RequestKeeps(w: World, call: Call)
    requires Inv(w) && w.gate == Idle
    ensures Inv(Step(w, Request(call)).value)
  {
    hide StepExpire, StepFallBack, StepDecide;
  }

  lemma ExpireKeeps(w: World, reason: string, call: Call)
    requires Inv(w) && w.gate.Expiring?
    ensures Inv(StepExpire(w, reason, call).value)
  {
    hide Inv, Resolve, Stored;
    var r := Record(Expired, reason);
    ResolveKeeps(w, r, call);
    AnswersKeep(Resolve(w, r, call), StepExpire(w, reason, call).value, r);
  }

  lemma DecideKeeps(w: World, d: nat, decision: Status, reason: string, local: bool, call: Call)
    requires Inv(w) && StepDecide(w, d, decision, reason, local, call).Some?
    ensures Inv(StepDecide(w, d, decision, reason, local, call).value)
  {
    if w.gate != Idle { ResolveKeeps(w, Record(decision, reason), call); }
  }

  lemma StepKeeps(w: World, l: Label)
    requires Inv(w) && Step(w, l).Some?
    ensures Inv(Step(w, l).value)
  {
    hide Inv, StepExpire, StepFallBack, StepDecide, Answer, Fail, Resolve;
    match l
    case Request(call) => RequestKeeps(w, call);
    case Expire(reason, call) => ExpireGate(w, reason, call);
    case Decide(d, decision, reason, local, call) => DecideKeeps(w, d, decision, reason, local, call);
    case LookUp(_) => DeciderStepKeeps(w, l);
    case Notify(_) => DeciderStepKeeps(w, l);
    case CrashDecider(_) => DeciderStepKeeps(w, l);
    case _ => GateStepKeeps(w, l);
  }

  lemma ExpireGate(w: World, reason: string, call: Call)
    requires Inv(w) && StepExpire(w, reason, call).Some?
    ensures Inv(StepExpire(w, reason, call).value)
  {
    hide Inv;
    ExpireKeeps(w, reason, call);
  }

  lemma {:induction false} RunKeeps(w: World, labels: seq<Label>)
    requires Inv(w) && Run(w, labels).Some?
    ensures Inv(Run(w, labels).value)
    decreases |labels|
  {
    hide Inv, Step;
    if labels != [] {
      StepKeeps(w, labels[0]);
      RunKeeps(Step(w, labels[0]).value, labels[1..]);
    }
  }

  lemma StartInv()
    ensures Inv(START)
  {
  }

  /** However waits, decisions, polls, timeouts, cancellations, lost confirmations and crashes interleave, the
      row leaves pending at most once, and every answer of Wait or Decide is the row's final state. */
  lemma OneDecision(labels: seq<Label>)
    requires Run(START, labels).Some?
    ensures var w := Run(START, labels).value;
      && |w.written| <= 1
      && (IsDecided(w) <==> w.written != []) && (IsDecided(w) ==> w.written == [w.row.value])
      && (forall r | r in w.answers :: Stored(w, r))
  {
    hide Step, Run, GateAgrees, DeciderAgrees;
    StartInv();
    RunKeeps(START, labels);
  }

  /** A gated run reaches the runtime only if the stored decision is an approval. */
  lemma OnlyApprovedRuns(labels: seq<Label>)
    requires Run(START, labels).Some? && Run(START, labels).value.gate.Running?
    ensures Run(START, labels).value.row == Some(Run(START, labels).value.gate.answer)
    ensures Run(START, labels).value.gate.answer.status == Approved
  {
    hide Step, Run, DeciderAgrees;
    StartInv();
    RunKeeps(START, labels);
  }

  /** The call that may have written a record: a person's decision, or the waiting run's timeout. */
  predicate Writes(l: Label, r: Record) {
    match l
    case Decide(_, decision, reason, _, call) =>
      call != NoEffect && r == Record(decision, reason) && decision in {Approved, Rejected}
    case Expire(reason, call) => call != NoEffect && r.status == Expired && r.reason == reason
    case _ => false
  }

  lemma StepWrites(w: World, l: Label)
    requires Step(w, l).Some? && IsDecided(Step(w, l).value)
    ensures Step(w, l).value.row == w.row || Writes(l, Step(w, l).value.row.value)
  {
  }

  lemma {:induction false} RunWrites(w: World, labels: seq<Label>)
    requires Run(w, labels).Some? && IsDecided(Run(w, labels).value)
    ensures Run(w, labels).value.row == w.row || exists l | l in labels :: Writes(l, Run(w, labels).value.row.value)
    decreases |labels|
  {
    hide Step, Writes;
    if labels != [] {
      var next, last := Step(w, labels[0]).value, Run(w, labels).value;
      RunWrites(next, labels[1..]);
      if next.row == last.row {
        StepWrites(w, labels[0]);
        assert next.row == w.row || Writes(labels[0], last.row.value);
      } else {
        var l :| l in labels[1..] && Writes(l, last.row.value);
        assert l in labels && Writes(l, last.row.value);
      }
    }
  }

  /** A decided record is what a call of that run wrote: an approval or rejection was somebody's decision, with that
      reason, and only the run's own timeout or cancellation makes it expired. */
  lemma DecidedByItsWriter(labels: seq<Label>)
    requires Run(START, labels).Some? && IsDecided(Run(START, labels).value)
    ensures var r := Run(START, labels).value.row.value;
      && (exists l | l in labels :: Writes(l, r))
      && (r.status in {Approved, Rejected} ==> exists l | l in labels ::
            l.Decide? && l.decision == r.status && l.reason == r.reason && l.call != NoEffect)
      && (r.status == Expired ==> exists l | l in labels :: l.Expire? && l.reason == r.reason && l.call != NoEffect)
  {
    hide Run, Step;
    RunWrites(START, labels);
    var r := Run(START, labels).value.row.value;
    var l :| l in labels && Writes(l, r);
  }

  /** A run goes ahead only after a person approved it. */
  lemma RunningWasApproved(labels: seq<Label>)
    requires Run(START, labels).Some? && Run(START, labels).value.gate.Running?
    ensures exists l | l in labels :: l.Decide? && l.decision == Approved && l.call != NoEffect
  {
    hide Run, Step;
    OnlyApprovedRuns(labels);
    DecidedByItsWriter(labels);
  }

  lemma DecidedStays(w: World, l: Label)
    requires Inv(w) && IsDecided(w) && Step(w, l).Some?
    ensures Step(w, l).value.row == w.row
  {
  }

  /** A decision is never taken back, whatever happens after it. */
  lemma {:induction false} DecisionIsFinal(w: World, labels: seq<Label>)
    requires Inv(w) && IsDecided(w) && Run(w, labels).Some?
    ensures Run(w, labels).value.row == w.row
    decreases |labels|
  {
    hide Inv, Step;
    if labels != [] {
      StepKeeps(w, labels[0]);
      DecidedStays(w, labels[0]);
      DecisionIsFinal(Step(w, labels[0]).value, labels[1..]);
    }
  }

  /** A timeout that comes after a decision still returns that decision, provided the row can be read. */
  lemma LateTimeoutKeepsDecision(w: World, reason: string, call: Call)
    requires Inv(w) && w.gate == Waiting && IsDecided(w)
    ensures Run(w, [Timeout, Expire(reason, call), FallBack(true)]).Some?
    ensures Run(w, [Timeout, Expire(reason, call), FallBack(true)]).value.gate == Returned(w.row.value)
  {
    var labels := [Timeout, Expire(reason, call), FallBack(true)];
    var a := Step(w, Timeout).value;
    var b := Step(a, Expire(reason, call)).value;
    assert labels[1..] == [Expire(reason, call), FallBack(true)] && labels[1..][1..] == [FallBack(true)];
    assert [FallBack(true)][1..] == [];
    assert Run(w, labels) == Run(a, labels[1..]);
    assert Run(a, labels[1..]) == Run(b, [FallBack(true)]);
  }

  lemma {:induction false} RunCons(w: World, l: Label, rest: seq<Label>)
    ensures Run(w, [l] + rest) == match Step(w, l) case Some(next) => Run(next, rest) case None => None
  {
    hide Step;
    assert ([l] + rest)[1..] == rest;
  }

  /** A decision made on the waiting run's own replica comes through the channel. */
  lemma DecisionReachesWaiter(w: World, d: nat, decision: Status, reason: string)
    requires w.gate == Waiting && IsPending(w) && w.registered && w.channel.None? && d !in w.deciders
    requires decision == Approved || decision == Rejected
    ensures var labels := [Decide(d, decision, reason, true, Replied)] +
      ([LookUp(d)] + ([Notify(d)] + ([Receive] + [])));
      Run(w, labels).Some? && Run(w, labels).value.gate == Returned(Record(decision, reason))
  {
    var a := Step(w, Decide(d, decision, reason, true, Replied)).value;
    var b := Step(a, LookUp(d)).value;
    var c := Step(b, Notify(d)).value;
    hide Run;
    RunCons(c, Receive, []);
    RunCons(b, Notify(d), [Receive] + []);
    RunCons(a, LookUp(d), [Notify(d)] + ([Receive] + []));
    RunCons(w, Decide(d, decision, reason, true, Replied), [LookUp(d)] + ([Notify(d)] + ([Receive] + [])));
    RunNothing(Step(c, Receive).value);
  }

  lemma RunNothing(w: World)
    ensures Run(w, []) == Some(w)
  {
  }

  /** A decision made on any other replica, even one whose confirmation was lost, is found by the next
      successful poll. */
  lemma DecisionReachesPoller(w: World, d: nat, decision: Status, reason: string, call: Call)
    requires w.gate == Waiting && IsPending(w) && d !in w.deciders && call != NoEffect
    requires decision == Approved || decision == Rejected
    ensures var labels := [Decide(d, decision, reason, false, call)] + ([Poll(true)] + []);
      Run(w, labels).Some? && Run(w, labels).value.gate == Returned(Record(decision, reason))
  {
    var a := Step(w, Decide(d, decision, reason, false, call)).value;
    hide Run;
    RunNothing(Step(a, Poll(true)).value);
    RunCons(a, Poll(true), []);
    RunCons(w, Decide(d, decision, reason, false, call), [Poll(true)] + []);
  }

  // ---------------------------------------------------------------- the code that waits

  /** What one turn of the select loop finds ready, after the others have moved. */
  datatype Ready =
    | FromWaiter
    | FromPoller(ok: bool)
    | FromTimer(expire: Call, fallBack: bool)
    | FromContext(expire: Call, fallBack: bool)

  datatype Turn = Turn(others: seq<Label>, ready: Ready)

  datatype WaitError = StoreFailed | Cancelled | Killed

  class Deployment {
    var world: World
    ghost var history: seq<Label>

    constructor ()
      ensures Valid() && world == START && history == []
    {
      world, history := START, [];
    }

    ghost predicate Valid()
      reads this
    {
      Run(START, history) == Some(world)
    }

    lemma ValidInv()
      requires Valid()
      ensures Inv(world)
    {
      StartInv();
      RunKeeps(START, history);
    }

    method Act(l: Label)
      requires Valid() && Step(world, l).Some?
      modifies this
      ensures Valid() && Some(world) == old(Step(world, l)) && history == old(history) + [l]
    {
      hide Step;
      RunAppend(START, history, l);
      world := Step(world, l).value;
      history := history + [l];
    }

    /** Any replicas decide and notify; the waiting run stands still. */
    method Yield(others: seq<Label>)
      requires Valid()
      modifies this
      ensures Valid() && world.gate == old(world).gate && old(history) <= history
    {
      hide Run;
      for i := 0 to |others|
        invariant Valid() && world.gate == old(world).gate && old(history) <= history
      {
        hide Step;
        if !OfGate(others[i]) && Step(world, others[i]).Some? {
          OthersLeaveGate(world, others[i]);
          Act(others[i]);
        }
      }
    }

    /** Creating the record, then waiting, then running or stopping. */
    method Gated(request: Call, first: bool, turns: seq<Turn>, emitted: bool, reason: string) returns (running: bool)
      requires Valid() && world.gate == Idle
      modifies this
      ensures Valid()
      ensures running <==> world.gate.Running?
      ensures running ==> world.row == Some(world.gate.answer) && world.gate.answer.status == Approved
      ensures running ==> exists l | l in history :: l.Decide? && l.decision == Approved && l.call != NoEffect
    {
      hide Inv;
      Act(Request(request));
      if request != Replied { return false; }
      var r := Wait(first, turns, reason);
      if r.Err? { return false; }
      Act(Proceed(emitted));
      running := emitted && r.value.status == Approved;
      if running { RunningWasApproved(history); }
    }

    /** Waiting for a decision made anywhere: the stored row first, then the waiter's channel, polling, the
        timer and the request's context, whichever is ready. An answer is the stored, final decision, and a call of
        the history wrote it. */
    method Wait(first: bool, turns: seq<Turn>, reason: string) returns (r: Result<Record, WaitError>)
      requires Valid() && world.gate == Requested
      modifies this
      ensures Valid()
      ensures r.Ok? ==> world.gate == Returned(r.value) && Stored(world, r.value)
      ensures r.Ok? ==> exists l | l in history :: Writes(l, r.value)
      ensures r.Err? ==> world.gate == Failed
    {
      hide Run, Inv, StepExpire, StepFallBack, Writes;
      ValidInv();
      Act(FirstGet(first));
      if world.gate != Waiting {
        r := Finished(StoreFailed);
        return;
      }
      for i := 0 to |turns|
        invariant Valid() && world.gate == Waiting
      {
        Yield(turns[i].others);
        match turns[i].ready {
          case FromWaiter =>
            if world.channel.Some? {
              Act(Receive);
              r := Finished(StoreFailed);
              return;
            }
          case FromPoller(ok) =>
            Act(Poll(ok));
            if world.gate.Returned? {
              r := Finished(StoreFailed);
              return;
            }
          case FromTimer(expire, fallBack) =>
            Act(Timeout);
            r := ResolveWithoutCancel(reason, expire, fallBack);
            return;
          case FromContext(expire, fallBack) =>
            Act(Cancel);
            r := ResolveWithoutCancel(reason, expire, fallBack);
            return;
        }
      }
      Act(CrashGate);
      r := Err(Killed);
    }

    /** Expire the row; if that is refused or unconfirmed, take the decision that is stored.  A pending row becomes
        expired, for the reason given, whenever the write reaches it. */
    method ResolveWithoutCancel(reason: string, expire: Call, fallBack: bool) returns (r: Result<Record, WaitError>)
      requires Valid() && world.gate.Expiring?
      modifies this
      ensures Valid()
      ensures r.Ok? ==> world.gate == Returned(r.value) && Stored(world, r.value)
      ensures r.Ok? ==> exists l | l in history :: Writes(l, r.value)
      ensures r.Err? ==> world.gate == Failed
      ensures if IsPending(old(world)) && expire != NoEffect
        then world.row.Some? && world.row.value.status == Expired && world.row.value.reason == reason
        else world.row == old(world).row
      ensures r.Ok? <==>
        !old(world).gate.cancelled && IsDecided(world) && (fallBack || (IsPending(old(world)) && expire == Replied))
    {
      hide Run, Inv, Writes;
      var cancelled := world.gate.cancelled;
      Act(Expire(reason, expire));
      if world.gate.FallingBack? { Act(FallBack(fallBack)); }
      r := Finished(if cancelled then Cancelled else StoreFailed);
    }

    method Finished(error: WaitError) returns (r: Result<Record, WaitError>)
      requires Valid() && (world.gate.Returned? || world.gate == Failed)
      ensures r == if world.gate.Returned? then Ok(world.gate.answer) else Err(error)
      ensures r.Ok? ==> Stored(world, r.value) && exists l | l in history :: Writes(l, r.value)
    {
      hide Run, Step, Writes;
      ValidInv();
      if world.gate.Returned? { DecidedByItsWriter(history); }
      r := if world.gate.Returned? then Ok(world.gate.answer) else Err(error);
    }

    /** The waiting run and other deciders take any steps; this one stands still. */
    method YieldAround(d: nat, others: seq<Label>)
      requires Valid()
      modifies this
      ensures Valid() && (d in world.deciders <==> d in old(world).deciders)
      ensures d in world.deciders ==> world.deciders[d] == old(world).deciders[d]
    {
      hide Run;
      for i := 0 to |others|
        invariant Valid() && (d in world.deciders <==> d in old(world).deciders)
        invariant d in world.deciders ==> world.deciders[d] == old(world).deciders[d]
      {
        hide Step;
        if !OfDecider(others[i], d) && Step(world, others[i]).Some? {
          OthersLeaveDecider(world, others[i], d);
          Act(others[i]);
        }
      }
    }

    /** Deciding, with others moving in between: it succeeds exactly on a row that is pending when the write
        comes and is confirmed, and then its decision is the stored, final one. */
    method Decide(d: nat, decision: Status, reason: string, local: bool, call: Call, others: seq<Label>,
        later: seq<Label>)
      returns (r: Result<Record, WaitError>)
      requires Valid() && d !in world.deciders && (decision == Approved || decision == Rejected)
      modifies this
      ensures Valid()
      ensures r.Ok? <==> IsPending(old(world)) && call == Replied
      ensures r.Ok? ==> r.value == Record(decision, reason) && Stored(world, r.value) && r.value in world.answers
    {
      hide Run, Inv;
      Act(Label.Decide(d, decision, reason, local, call));
      if world.deciders[d] == Refused { return Err(StoreFailed); }
      r := Ok(world.deciders[d].answer);
      YieldAround(d, others);
      Act(LookUp(d));
      if world.deciders[d].Holding? {
        YieldAround(d, later);
        Act(Notify(d));
      }
      ValidInv();
      InvDecider(world, d);
    }
  }

  lemma InvDecider(w: World, d: nat)
    requires Inv(w) && d in w.deciders
    ensures DeciderAgrees(w, w.deciders[d])
  {
  }

  predicate OfDecider(l: Label, d: nat) {
    match l
    case Decide(e, _, _, _, _) => d == e
    case LookUp(e) => d == e
    case Notify(e) => d == e
    case CrashDecider(e) => d == e
    case _ => false
  }

  lemma OthersLeaveDecider(w: World, l: Label, d: nat)
    requires Step(w, l).Some? && !OfDecider(l, d)
    ensures d in Step(w, l).value.deciders <==> d in w.deciders
    ensures d in w.deciders ==> Step(w, l).value.deciders[d] == w.deciders[d]
  {
  }

  lemma {:induction false} RunAppend(w: World, labels: seq<Label>, l: Label)
    requires Run(w, labels).Some?
    ensures Run(w, labels + [l]) == Step(Run(w, labels).value, l)
    decreases |labels|
  {
    hide Step;
    if labels == [] {
      assert [l][1..] == [];
    } else {
      assert (labels + [l])[1..] == labels[1..] + [l];
      RunAppend(Step(w, labels[0]).value, labels[1..], l);
    }
  }

  lemma OthersLeaveGate(w: World, l: Label)
    requires Step(w, l).Some? && !OfGate(l)
    ensures Step(w, l).value.gate == w.gate
  {
  }
}
