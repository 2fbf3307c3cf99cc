/** The single writer, its callers, and the write-behind persister, step by step (actor.go, persister.go). */
module Persistence {

  /** A session's goroutine: not in a call, waiting for the writer, being served, or about to return (or to panic again). */
  datatype Client = Away | Queued | Served | Answered(panicked: bool)

  /** Whose function the writer is running. */
  datatype Writer = Resting | ForSession(client: nat) | ForSnapshot

  /** The persister's goroutine. `final` marks the flush that ends it. */
  datatype Phase = Idle | Throttling | Draining | Asking(final: bool) | Snapping(final: bool) | Saving(final: bool) | Ended

  /**
    * Mutations are numbered in the order they happen, so a snapshot is the number of mutations it holds.
    * The kick channel holds one token or none.
    */
  datatype State = State(
    clients: seq<Client>,
    writer: Writer,
    done: nat,
    marked: nat,
    kick: bool,
    quit: bool,
    stopped: nat,
    phase: Phase,
    snap: nat,
    stored: nat,
    boundaries: set<nat>)

  datatype Step =
    | Submit(client: nat)
    | Accept(client: nat)
    | Mutate
    | MarkDirty
    | Finish(panicked: bool)
    | Return(client: nat)
    | Stop
    | QuitIdle
    | TakeKick
    | QuitWaiting
    | TimerFires
    | Drain
    | AcceptSnapshot
    | TakeSnapshot
    | SaveSucceeds
    | SaveFails

  ghost predicate Initial(s: State) {
    && (forall c :: c in s.clients ==> c.Away?)
    && s == State(s.clients, Resting, 0, 0, false, false, 0, Idle, 0, 0, {0})
  }

  /** What each step waits for. */
  predicate Enabled(s: State, step: Step) {
    match step
    case Submit(c) => c < |s.clients| && s.clients[c].Away?
    case Accept(c) => c < |s.clients| && s.clients[c].Queued? && s.writer.Resting?
    case Mutate => s.writer.ForSession?
    case MarkDirty => s.writer.ForSession?
    case Finish(_) => s.writer.ForSession? && s.writer.client < |s.clients|
    case Return(c) => c < |s.clients| && s.clients[c].Answered?
    case Stop => true
    case QuitIdle => s.phase.Idle? && s.quit
    case TakeKick => s.phase.Idle? && s.kick
    case QuitWaiting => s.phase.Throttling? && s.quit
    case TimerFires => s.phase.Throttling?
    case Drain => s.phase.Draining?
    case AcceptSnapshot => s.phase.Asking? && s.writer.Resting?
    case TakeSnapshot => s.phase.Snapping? && s.writer.ForSnapshot?
    case SaveSucceeds => s.phase.Saving?
    case SaveFails => s.phase.Saving?
  }

  function After(s: State, step: Step): State
    requires Enabled(s, step)
  {
    match step
    case Submit(c) => s.(clients := s.clients[c := Queued])
    case Accept(c) => s.(clients := s.clients[c := Served], writer := ForSession(c))
    case Mutate => s.(done := s.done + 1)
    case MarkDirty => s.(marked := s.done, kick := true)
    case Finish(panicked) =>
      s.(clients := s.clients[s.writer.client := Answered(panicked)], writer := Resting, boundaries := s.boundaries + {s.done})
    case Return(c) => s.(clients := s.clients[c := Away])
    case Stop => s.(quit := true, stopped := if s.quit then s.stopped else s.done)
    case QuitIdle => s.(phase := Asking(true))
    case TakeKick => s.(phase := Throttling, kick := false)
    case QuitWaiting => s.(phase := Asking(true))
    case TimerFires => s.(phase := Draining)
    case Drain => s.(phase := Asking(false), kick := false)
    case AcceptSnapshot => s.(phase := Snapping(s.phase.final), writer := ForSnapshot)
    case TakeSnapshot => s.(phase := Saving(s.phase.final), writer := Resting, snap := s.done)
    case SaveSucceeds => s.(phase := if s.phase.final then Ended else Idle, stored := s.snap)
    case SaveFails => s.(phase := if s.phase.final then Ended else Idle)
  }

  /** Whether the steps can be taken one after another. */
  predicate CanRun(s: State, steps: seq<Step>)
    decreases |steps|, 0
  {
    steps == [] || (CanRun(s, steps[..|steps| - 1]) && Enabled(Reached(s, steps[..|steps| - 1]), steps[|steps| - 1]))
  }

  function Reached(s: State, steps: seq<Step>): State
    requires CanRun(s, steps)
    decreases |steps|, 1
  {
    if steps == [] then s else After(Reached(s, steps[..|steps| - 1]), steps[|steps| - 1])
  }

  /** The writer serves whom it runs for, and nobody else. */
  ghost predicate OneAtATime(s: State) {
    && (s.writer.ForSession? ==> s.writer.client < |s.clients|)
    && (s.writer.ForSnapshot? <==> s.phase.Snapping?)
    && forall c :: 0 <= c < |s.clients| ==> (s.clients[c].Served? <==> s.writer == ForSession(c))
  }

  /** A flush that will see all that has been marked is on its way. */
  predicate Coming(s: State) {
    s.kick || s.phase.Throttling? || s.phase.Draining? || s.phase.Asking? || s.phase.Snapping?
  }

  ghost predicate Inv(s: State) {
    && OneAtATime(s)
    && s.stored <= s.snap <= s.done && s.marked <= s.done && s.stopped <= s.done
    && s.snap in s.boundaries && (forall b :: b in s.boundaries ==> b <= s.done)
    && (!s.writer.ForSession? ==> s.done in s.boundaries)
    && (s.marked <= s.snap || Coming(s))
    && (s.phase.Asking? || s.phase.Snapping? || s.phase.Saving? ==> (s.phase.final ==> s.quit))
    && (s.phase.Saving? && s.phase.final ==> s.stopped <= s.snap)
    && (s.phase.Ended? ==> s.quit && s.stopped <= s.snap)
  }

  lemma Starts(s: State)
    requires Initial(s)
    ensures Inv(s)
  {
    forall c | 0 <= c < |s.clients| ensures s.clients[c].Away? {
      assert s.clients[c] in s.clients;
    }
  }

  lemma Kept(s: State, step: Step)
    requires Inv(s) && Enabled(s, step)
    ensures Inv(After(s, step))
  {
  }

  /** Every state any interleaving can reach satisfies the invariant. */
  lemma {:induction false} Always(s: State, steps: seq<Step>)
    requires Initial(s) && CanRun(s, steps)
    ensures Inv(Reached(s, steps)) && |Reached(s, steps).clients| == |s.clients|
  {
    if steps == [] {
      Starts(s);
    } else {
      Always(s, steps[..|steps| - 1]);
      Kept(Reached(s, steps[..|steps| - 1]), steps[|steps| - 1]);
    }
  }

  /**
    * No lost write: whatever the interleaving, once the persister is idle with nothing in its channel, its latest
    * snapshot holds every mutation marked dirty; and no snapshot ever shows half a command.
    */
  lemma NoLostWrite(s: State, steps: seq<Step>)
    requires Initial(s) && CanRun(s, steps)
    ensures var t := Reached(s, steps); t.phase.Idle? && !t.kick ==> t.marked <= t.snap
    ensures Reached(s, steps).snap in Reached(s, steps).boundaries
  {
    Always(s, steps);
  }

  /** Once the persister has ended, its last snapshot holds every mutation made before it was told to stop. */
  lemma StopSavesAll(s: State, steps: seq<Step>)
    requires Initial(s) && CanRun(s, steps)
    ensures var t := Reached(s, steps); t.phase.Ended? ==> t.quit && t.stopped <= t.snap
  {
    Always(s, steps);
  }

  /** The last save that finished, if any did, succeeded. */
  predicate LastSaveWorked(steps: seq<Step>)
    decreases |steps|
  {
    steps == [] || match steps[|steps| - 1]
    case SaveSucceeds => true
    case SaveFails => false
    case _ => LastSaveWorked(steps[..|steps| - 1])
  }

  /** What a step does to the store. */
  lemma StoreStep(s: State, step: Step)
    requires Inv(s) && Enabled(s, step) && s.stored in s.boundaries
    ensures var t := After(s, step);
            && t.stored in t.boundaries
            && (step.SaveSucceeds? ==> t.stored == t.snap)
            && (!step.SaveSucceeds? && !step.SaveFails? && !t.phase.Saving? ==>
                  !s.phase.Saving? && t.stored == s.stored && t.snap == s.snap)
  {
  }

  /**
    * Whenever the last save that finished succeeded, whatever has been snapped and is not being saved right now is in
    * the store. A failed save leaves the store as it was, so it is always one of the snapshots, whole.
    */
  lemma {:induction false} StoredIfSaved(s: State, steps: seq<Step>)
    requires Initial(s) && CanRun(s, steps)
    ensures var t := Reached(s, steps); LastSaveWorked(steps) && !t.phase.Saving? ==> t.stored == t.snap
    ensures Reached(s, steps).stored in Reached(s, steps).boundaries
  {
    if steps != [] {
      StoredIfSaved(s, steps[..|steps| - 1]);
      Always(s, steps[..|steps| - 1]);
      hide Inv, After, Enabled;
      StoreStep(Reached(s, steps[..|steps| - 1]), steps[|steps| - 1]);
    }
  }

  /** Two commands are never served at once, nor a command and a snapshot. */
  lemma MutualExclusion(s: State, steps: seq<Step>, a: nat, b: nat)
    requires Initial(s) && CanRun(s, steps) && a < |s.clients| && b < |s.clients|
    ensures var t := Reached(s, steps);
            && |t.clients| == |s.clients|
            && (t.clients[a].Served? && t.clients[b].Served? ==> a == b)
            && (t.clients[a].Served? ==> !t.writer.ForSnapshot?)
  {
    Always(s, steps);
  }

  // ----- What happens when nobody disturbs it

  /** The persister's own steps, and the writer's step on its behalf. */
  predicate Own(step: Step) {
    step.QuitIdle? || step.TakeKick? || step.QuitWaiting? || step.TimerFires? || step.Drain? || step.AcceptSnapshot?
    || step.TakeSnapshot? || step.SaveSucceeds? || step.SaveFails?
  }

  /** On the way to the end, from where the channel is not read any more. */
  predicate LastRound(s: State) {
    match s.phase
    case Asking(final) => final
    case Snapping(final) => final
    case Saving(final) => final
    case Ended => true
    case _ => false
  }

  /** How many steps there may still be for the persister to take. */
  function Rank(s: State): nat {
    var idle := if s.quit then 4 else 0;
    (if s.kick && !LastRound(s) then 6 else 0)
    + match s.phase
      case Idle => idle
      case Throttling => idle + 5
      case Draining => idle + 4
      case Asking(final) => if final then 3 else idle + 3
      case Snapping(final) => if final then 2 else idle + 2
      case Saving(final) => if final then 1 else idle + 1
      case Ended => 0
  }

  /** Every step of its own, a failed save among them, brings the persister nearer to rest. */
  lemma OwnStepsEnd(s: State, step: Step)
    requires Enabled(s, step) && Own(step)
    ensures Rank(After(s, step)) < Rank(s)
  {
  }

  /** The writer is not in the middle of a command. */
  predicate Undisturbed(s: State) {
    !s.writer.ForSession?
  }

  /** Nothing the persister could do next. */
  ghost predicate AtRest(s: State) {
    forall step :: Own(step) ==> !Enabled(s, step)
  }

  /** With the writer at rest, the persister stops only where it has nothing to do: ended, or idle with nobody asking. */
  lemma OnlyThen(s: State)
    requires Inv(s) && Undisturbed(s)
    ensures AtRest(s) <==> s.phase.Ended? || (s.phase.Idle? && !s.kick && !s.quit)
  {
    if AtRest(s) {
      assert !Enabled(s, QuitIdle) && !Enabled(s, TakeKick) && !Enabled(s, TimerFires) && !Enabled(s, Drain);
      assert !Enabled(s, AcceptSnapshot) && !Enabled(s, TakeSnapshot) && !Enabled(s, SaveSucceeds);
    }
  }

  /** Anything made since the last snapshot came after the last snapshot there will be. */
  predicate TooLate(s: State) {
    s.phase.Ended? || (s.phase.Saving? && s.phase.final)
  }

  /** What one step of its own leaves alone, and what it brings about. */
  lemma OwnStepKeeps(s: State, step: Step)
    requires Inv(s) && Undisturbed(s) && Enabled(s, step) && Own(step)
    ensures var t := After(s, step);
            && Inv(t) && Undisturbed(t) && t.done == s.done && t.marked == s.marked && t.quit == s.quit && t.clients == s.clients
            && (!TooLate(s) && TooLate(t) ==> t.marked <= t.snap)
            && (TooLate(s) ==> TooLate(t) && t.snap == s.snap)
  {
    Kept(s, step);
  }

  /**
    * Whatever steps of its own it takes, left to itself with the writer at rest: there are never more of them than its
    * rank. When none is left to take it has ended, if it was told to stop, and is idle otherwise; no snapshot is still
    * being saved; everything marked is in its latest snapshot, unless it was marked after the last one there could be;
    * and everything made before it was told to stop is.
    */
  lemma {:induction false} Settles(s: State, steps: seq<Step>)
    requires Inv(s) && Undisturbed(s) && CanRun(s, steps) && forall step :: step in steps ==> Own(step)
    ensures var t := Reached(s, steps);
            && |steps| + Rank(t) <= Rank(s)
            && Inv(t) && Undisturbed(t) && t.done == s.done && t.marked == s.marked && t.quit == s.quit
            && (TooLate(t) ==> TooLate(s) || t.marked <= t.snap)
            && (AtRest(t) ==> && (if s.quit then t.phase.Ended? && t.stopped <= t.snap else t.phase.Idle? && !t.kick)
                              && (TooLate(s) || t.marked <= t.snap))
  {
    if steps == [] {
      OnlyThen(s);
    } else {
      var init, last := steps[..|steps| - 1], steps[|steps| - 1];
      Settles(s, init);
      assert last in steps;
      OwnStepKeeps(Reached(s, init), last);
      OwnStepsEnd(Reached(s, init), last);
      OnlyThen(Reached(s, steps));
    }
  }

  /** And it can always be left to go on until there is nothing left to do. */
  lemma {:induction false} CanSettle(s: State, steps: seq<Step>) returns (more: seq<Step>)
    requires Inv(s) && Undisturbed(s) && CanRun(s, steps) && forall step :: step in steps ==> Own(step)
    ensures CanRun(s, steps + more) && (forall step :: step in more ==> Own(step)) && AtRest(Reached(s, steps + more))
    decreases Rank(s) - |steps|
  {
    hide Inv, Rank, After, Own, Enabled, TooLate, Undisturbed;
    Settles(s, steps);
    if AtRest(Reached(s, steps)) {
      more := [];
      assert steps + more == steps;
    } else {
      var step :| Own(step) && Enabled(Reached(s, steps), step);
      assert (steps + [step])[..|steps|] == steps;
      var rest := CanSettle(s, steps + [step]);
      more := [step] + rest;
      assert steps + more == steps + [step] + rest;
    }
  }
}
