/** The player's brain and the stop handshake: a round thread that waits on two queues, transport
    threads that answer, and a stopper that must always get the round thread home. */
module Handshake {

  datatype Action = Play(n: int) | EndTurn
  datatype Choice = React(n: int) | Skip

  // An accepted answer, tagged with the number of the prompt it was accepted for.
  datatype Answer = Answer(choice: Choice, prompt: nat)

  // The brain's shared fields; `prompts` counts the prompts opened so far.
  datatype Channel = Channel(actions: seq<Action>, reactions: seq<Answer>, pending: bool, closed: bool, prompts: nat) {
    function SubmitAction(a: Action): Channel {
      this.(actions := actions + [a])
    }

    function SubmitReaction(c: Choice): Channel {
      if pending then this.(pending := false, reactions := reactions + [Answer(c, prompts)]) else this
    }

    function OpenPrompt(): Channel {
      if closed then this else this.(pending := true, prompts := prompts + 1)
    }
  }

  class PlayerBrain {
    var actionQueue: seq<Action>
    var reactionQueue: seq<Answer>
    var reactionPending: bool
    var closed: bool
    var prompts: nat

    ghost function View(): Channel
      reads this
    {
      Channel(actionQueue, reactionQueue, reactionPending, closed, prompts)
    }

    constructor ()
      ensures View() == Channel([], [], false, false, 0)
    {
      actionQueue, reactionQueue, reactionPending, closed, prompts := [], [], false, false, 0;
    }

    method SubmitAction(a: Action)
      modifies this`actionQueue
      ensures View() == old(View()).SubmitAction(a)
      ensures actionQueue == old(actionQueue) + [a]
    {
      actionQueue := actionQueue + [a];
    }

    // One answer per prompt: false, and no trace of the answer, when no prompt waits for one.
    method SubmitReaction(c: Choice) returns (accepted: bool)
      modifies this`reactionQueue, this`reactionPending
      ensures View() == old(View()).SubmitReaction(c) && accepted == old(reactionPending)
      ensures reactionQueue == old(reactionQueue) + (if accepted then [Answer(c, prompts)] else [])
      ensures !reactionPending
    {
      if !reactionPending {
        return false;
      }
      reactionPending := false;
      reactionQueue := reactionQueue + [Answer(c, prompts)];
      accepted := true;
    }

    // The locked part of choose_reaction: declined when the brain is closed, else a prompt is open.
    method OpenPrompt() returns (declined: bool)
      modifies this`reactionPending, this`prompts
      ensures View() == old(View()).OpenPrompt() && declined == old(closed)
      ensures !declined ==> reactionPending && prompts == old(prompts) + 1
    {
      if closed {
        return true;
      }
      reactionPending := true;
      prompts := prompts + 1;
      declined := false;
    }

    method Close()
      modifies this`closed, this`reactionQueue, this`reactionPending
      ensures View() == old(View()).(closed := true).SubmitReaction(Skip)
      ensures closed && !reactionPending
    {
      closed := true;
      var accepted := SubmitReaction(Skip);
    }
  }

  /** Where the round thread is. `late` remembers that a decision came back after the stop flag was
      set; `left` counts the reaction prompts the running action still has to offer; `prompted` tells a
      reaction that was asked for from one a closed brain declined unasked. */
  datatype Thread =
    | Top
    | Waiting
    | Decided(late: bool, action: Action)
    | Dispatching(left: nat)
    | Asking(left: nat)
    | Prompted(left: nat)
    | Reacted(left: nat, late: bool, choice: Choice, prompted: bool)
    | Done

  datatype Stopper = Running | FlagSet | EndTurnPut | Closing | Stopped

  // What went in and came out, recorded by those who gave it and took it: the choice each prompt was
  // answered with, and the actions submitted to and taken by the round thread.
  datatype Record = Record(answers: map<nat, Choice>, submitted: seq<Action>, taken: seq<Action>)

  // `lateDispatch` records a decision that came back after the flag and was applied all the same;
  // `misdelivered` an answer consumed by a prompt it was not accepted for.
  datatype State = State(flag: bool, chan: Channel, thread: Thread, stopper: Stopper, record: Record,
      lateDispatch: bool, misdelivered: bool)
  {
    // Somebody submits an action, or answers: what counts is what the channel held before.
    function Submitting(a: Action): State {
      this.(chan := chan.SubmitAction(a), record := record.(submitted := record.submitted + [a]))
    }

    function Answering(c: Choice): State {
      this.(chan := chan.SubmitReaction(c),
            record := if chan.pending then record.(answers := record.answers[chan.prompts := c]) else record)
    }
  }

  ghost predicate Init(s: State) {
    s == State(false, Channel([], [], false, false, 0), Top, Running, Record(map[], [], []), false, false)
  }

  // The round thread takes the first action, or the first answer, off its queue.
  function TakeAction(s: State): State
    requires s.chan.actions != []
  {
    var a := s.chan.actions[0];
    s.(chan := s.chan.(actions := s.chan.actions[1..]), thread := Decided(s.flag, a),
       record := s.record.(taken := s.record.taken + [a]))
  }

  function TakeAnswer(s: State, left: nat): State
    requires s.chan.reactions != []
  {
    var answer := s.chan.reactions[0];
    s.(chan := s.chan.(reactions := s.chan.reactions[1..]), thread := Reacted(left, s.flag, answer.choice, true),
       misdelivered := s.misdelivered || answer.prompt != s.chan.prompts)
  }

  // One atomic step of the round thread.
  ghost predicate ThreadStep(s: State, t: State) {
    match s.thread
    case Top =>
      || t == s.(thread := Done)
      || (!s.flag && (t == s.(thread := Waiting) || exists a :: t == s.(thread := Decided(s.flag, a))))
    case Waiting =>
      s.chan.actions != [] && t == TakeAction(s)
    case Decided(late, action) =>
      if s.flag then t == s.(thread := Done)
      else if action == EndTurn then t == s.(thread := Top)
      else exists left :: t == s.(thread := Dispatching(left), lateDispatch := s.lateDispatch || late)
    case Dispatching(left) =>
      t == s.(thread := if left == 0 then Top else Asking(left - 1))
    case Asking(left) =>
      t == s.(chan := s.chan.OpenPrompt(), thread := if s.chan.closed then Reacted(left, s.flag, Skip, false)
          else Prompted(left))
    case Prompted(left) =>
      s.chan.reactions != [] && t == TakeAnswer(s, left)
    case Reacted(left, late, choice, _) =>
      t == s.(thread := Dispatching(left), lateDispatch := s.lateDispatch || (late && choice != Skip && !s.flag))
    case Done => false
  }

  // The stop sequence, one lock scope at a time.
  ghost predicate StopStep(s: State, t: State) {
    match s.stopper
    case Running => t == s.(flag := true, stopper := FlagSet)
    case FlagSet => t == s.Submitting(EndTurn).(stopper := EndTurnPut)
    case EndTurnPut => t == s.(chan := s.chan.(closed := true), stopper := Closing)
    case Closing => t == s.Answering(Skip).(stopper := Stopped)
    case Stopped => false
  }

  // Transport threads may submit anything at any time, also after the stop.
  ghost predicate TransportStep(s: State, t: State) {
    (exists a :: t == s.Submitting(a)) || (exists c :: t == s.Answering(c))
  }

  ghost predicate Next(s: State, t: State) {
    ThreadStep(s, t) || StopStep(s, t) || TransportStep(s, t)
  }

  ghost predicate Inv(s: State) {
    && (s.flag <==> s.stopper != Running)
    // The reaction channel: at an open prompt exactly one of "still pending" and "one answer queued".
    && (if s.thread.Prompted? then
          (s.chan.pending && s.chan.reactions == [])
          || (!s.chan.pending && |s.chan.reactions| == 1 && s.chan.reactions[0].prompt == s.chan.prompts)
        else !s.chan.pending && s.chan.reactions == [])
    && (s.chan.closed <==> s.stopper.Closing? || s.stopper.Stopped?)
    // The wake-up is still in the queue while the thread waits for it.
    && (s.thread.Waiting? && (s.stopper.EndTurnPut? || s.stopper.Closing? || s.stopper.Stopped?)
        ==> s.chan.actions != [])
    && (s.stopper.Stopped? ==> !s.chan.pending)
    && (s.thread.Decided? && s.thread.late ==> s.flag)
    && (s.thread.Reacted? && s.thread.late ==> s.flag)
    && !s.lateDispatch && !s.misdelivered
    && RecordInv(s)
  }

  // The queues hold what was given and not yet taken, unchanged and in order.
  ghost predicate RecordInv(s: State) {
    && s.record.submitted == s.record.taken + s.chan.actions
    && (forall p :: p in s.record.answers ==> p <= s.chan.prompts)
    && (s.chan.pending <==> s.thread.Prompted? && s.chan.prompts !in s.record.answers)
    && (forall a :: a in s.chan.reactions ==> a.prompt in s.record.answers && s.record.answers[a.prompt] == a.choice)
    && (s.thread.Reacted? && s.thread.prompted ==>
          s.chan.prompts in s.record.answers && s.record.answers[s.chan.prompts] == s.thread.choice)
    && (s.thread.Reacted? && !s.thread.prompted ==> s.chan.closed && s.thread.choice == Skip)
  }

  lemma ThreadKeepsInv(s: State, t: State)
    requires Inv(s) && ThreadStep(s, t)
    ensures Inv(t)
  {
  }

  lemma StopKeepsInv(s: State, t: State)
    requires Inv(s) && StopStep(s, t)
    ensures Inv(t)
  {
  }

  lemma TransportKeepsInv(s: State, t: State)
    requires Inv(s) && TransportStep(s, t)
    ensures Inv(t)
  {
  }

  // A run: consecutive states are steps of the round thread, the stopper or a transport thread.
  ghost predicate Run(run: seq<State>) {
    run != [] && Init(run[0]) && forall i :: 0 <= i < |run| - 1 ==> StepAt(run, i)
  }

  ghost predicate StepAt(run: seq<State>, i: nat)
    requires i + 1 < |run|
  {
    Next(run[i], run[i + 1])
  }

  lemma {:induction false} RunsKeepInv(run: seq<State>, i: nat)
    requires Run(run) && i < |run|
    ensures Inv(run[i])
  {
    if i > 0 {
      RunsKeepInv(run, i - 1);
      assert StepAt(run, i - 1);
      if ThreadStep(run[i - 1], run[i]) {
        ThreadKeepsInv(run[i - 1], run[i]);
      } else if StopStep(run[i - 1], run[i]) {
        StopKeepsInv(run[i - 1], run[i]);
      } else {
        TransportKeepsInv(run[i - 1], run[i]);
      }
    }
  }

  /** In every interleaving the reaction queue holds at most one answer, every prompt is given only the
      answer accepted for it, and no decision that came back after the stop flag is ever applied. */
  lemma ChannelIsExact(run: seq<State>, i: nat)
    requires Run(run) && i < |run|
    ensures |run[i].chan.reactions| <= 1 && !run[i].misdelivered && !run[i].lateDispatch
    ensures run[i].chan.pending ==> run[i].thread.Prompted? && run[i].chan.reactions == []
  {
    RunsKeepInv(run, i);
  }

  /** What a prompt is given is what was answered to it: the choice of whoever answered first, recorded when
      it was accepted; and a prompt that was never opened is declined, by a closed brain only. */
  lemma AnswersArriveUnchanged(run: seq<State>, i: nat)
    requires Run(run) && i < |run| && run[i].thread.Reacted?
    ensures var (s, choice) := (run[i], run[i].thread.choice);
            if s.thread.prompted then s.chan.prompts in s.record.answers && choice == s.record.answers[s.chan.prompts]
            else s.chan.closed && choice == Skip
  {
    RunsKeepInv(run, i);
  }

  /** The first accepted answer stands. */
  lemma {:induction false} AnswersStand(run: seq<State>, i: nat, j: nat, prompt: nat)
    requires Run(run) && i <= j < |run| && prompt in run[i].record.answers
    ensures prompt in run[j].record.answers && run[j].record.answers[prompt] == run[i].record.answers[prompt]
  {
    if i < j {
      AnswersStand(run, i, j - 1, prompt);
      StepsKeepAnswers(run, j - 1, prompt);
    }
  }

  lemma StepsKeepAnswers(run: seq<State>, i: nat, prompt: nat)
    requires Run(run) && i + 1 < |run| && prompt in run[i].record.answers
    ensures prompt in run[i + 1].record.answers && run[i + 1].record.answers[prompt] == run[i].record.answers[prompt]
  {
    RunsKeepInv(run, i);
    var s, t := run[i], run[i + 1];
    assert StepAt(run, i);
    StepKeepsAnswer(s, t, prompt);
  }

  lemma StepKeepsAnswer(s: State, t: State, prompt: nat)
    requires Inv(s) && Next(s, t) && prompt in s.record.answers
    ensures prompt in t.record.answers && t.record.answers[prompt] == s.record.answers[prompt]
  {
  }

  /** Actions are neither lost, altered nor reordered: those taken and those still queued are, in this order,
      those submitted. */
  lemma ActionsArriveInOrder(run: seq<State>, i: nat)
    requires Run(run) && i < |run|
    ensures run[i].record.submitted == run[i].record.taken + run[i].chan.actions
  {
    RunsKeepInv(run, i);
  }

  /** What was decided is what was taken; it is dispatched, ends the turn, or is dropped for a stop that has
      arrived by then. */
  lemma DecisionsAreCarriedOut(run: seq<State>, i: nat)
    requires Run(run) && i + 1 < |run| && run[i].thread != run[i + 1].thread
    ensures var (s, t) := (run[i], run[i + 1]);
            && (s.thread.Waiting? ==> t.thread.Decided? && t.record.taken == s.record.taken + [t.thread.action])
            && (s.thread.Decided? ==> (t.thread.Done? <==> s.flag)
                                      && (t.thread.Top? <==> !s.flag && s.thread.action == EndTurn)
                                      && (t.thread.Dispatching? <==> !s.flag && s.thread.action != EndTurn))
  {
    assert StepAt(run, i);
    OnlyThreadMovesThread(run[i], run[i + 1]);
  }

  /** Once the stop sequence is through, the round thread is home or can take a step: it never blocks
      on an empty queue. */
  lemma NeverStuckAfterStop(run: seq<State>, i: nat)
    requires Run(run) && i < |run| && run[i].stopper.Stopped?
    ensures run[i].thread.Done? || exists t :: ThreadStep(run[i], t)
  {
    RunsKeepInv(run, i);
    var s := run[i];
    match s.thread {
      case Top => assert ThreadStep(s, s.(thread := Done));
      case Waiting =>
        assert ThreadStep(s, TakeAction(s));
      case Decided(late, action) => assert ThreadStep(s, s.(thread := Done));
      case Dispatching(left) => assert ThreadStep(s, s.(thread := if left == 0 then Top else Asking(left - 1)));
      case Asking(left) =>
        assert ThreadStep(s, s.(chan := s.chan.OpenPrompt(), thread := Reacted(left, s.flag, Skip, false)));
      case Prompted(left) =>
        assert ThreadStep(s, TakeAnswer(s, left));
      case Reacted(left, late, choice, _) =>
        assert ThreadStep(s, s.(thread := Dispatching(left),
                                lateDispatch := s.lateDispatch || (late && choice != Skip && !s.flag)));
      case Done =>
    }
  }

  // How many steps the round thread can still take once the flag is set.
  function Rank(t: Thread): nat {
    match t
    case Done => 0
    case Top => 1
    case Decided(_, _) => 2
    case Waiting => 3
    case Dispatching(left) => 2 + 4 * left
    case Asking(left) => 5 + 4 * left
    case Prompted(left) => 4 + 4 * left
    case Reacted(left, _, _, _) => 3 + 4 * left
  }

  lemma FlaggedThreadWindsDown(s: State, t: State)
    requires s.flag && Next(s, t)
    ensures t.flag && Rank(t.thread) <= Rank(s.thread)
    ensures ThreadStep(s, t) ==> Rank(t.thread) < Rank(s.thread)
  {
  }

  function ThreadSteps(run: seq<State>, from: nat): nat
    requires from < |run|
    decreases |run| - from
  {
    if from == |run| - 1 then 0
    else ThreadSteps(run, from + 1) + if run[from].thread != run[from + 1].thread then 1 else 0
  }

  /** After the flag the round thread takes boundedly many steps, however the other threads interleave;
      with `NeverStuckAfterStop` the join returns. */
  lemma {:induction false} StopIsBounded(run: seq<State>, i: nat)
    requires Run(run) && i < |run| && run[i].flag
    ensures ThreadSteps(run, i) + Rank(run[|run| - 1].thread) <= Rank(run[i].thread)
    decreases |run| - i
  {
    if i < |run| - 1 {
      assert StepAt(run, i);
      FlaggedThreadWindsDown(run[i], run[i + 1]);
      if run[i].thread != run[i + 1].thread {
        OnlyThreadMovesThread(run[i], run[i + 1]);
      }
      StopIsBounded(run, i + 1);
    }
  }

  lemma OnlyThreadMovesThread(s: State, t: State)
    requires Next(s, t) && s.thread != t.thread
    ensures ThreadStep(s, t)
  {
  }
}
