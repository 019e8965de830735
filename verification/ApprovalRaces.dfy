/**
 * Approvals, interrupts and new turns interleaved at the granularity of lock sections. A handler of
 * `process_approval` takes the pending request in one section and puts it back, executes or refuses it later.
 */
module ApprovalRaces {
  import opened Wrappers
  import opened Session

  /** `held` maps a handler to the request it has taken; `executed` lists requests in execution order. */
  datatype Sys = Sys(
    state: ThreadState,
    pending: Option<nat>,
    held: map<nat, nat>,
    executed: seq<nat>,
    minted: set<nat>)

  datatype Step =
    | Take(handler: nat)            // first lock section of an answer
    | PutBack(handler: nat)         // the answer named another request
    | MarkProcessing(handler: nat)
    | Execute(handler: nat)
    | Refuse(handler: nat)
    | Await(request: nat)           // the loop or a replay asks the user; the id is new
    | InterruptStep
    | StartTurnStep
    | TurnDone                      // completed or failed
    | Reset                         // clear, undo, redo, resume: idle, whatever is pending stays

  function Init(): Sys { Sys(Idle, None, map[], [], {}) }

  /** A step that cannot happen in a state leaves it alone. */
  function Next(s: Sys, step: Step): Sys {
    match step
    case Take(h) =>
      if h in s.held || s.state != AwaitingApproval || s.pending.None? then s
      else s.(pending := None, held := s.held[h := s.pending.value])
    case PutBack(h) =>
      if h in s.held then s.(state := AwaitingApproval, pending := Some(s.held[h]), held := s.held - {h}) else s
    case MarkProcessing(h) => if h in s.held then s.(state := Processing) else s
    case Execute(h) =>
      if h in s.held then s.(executed := s.executed + [s.held[h]], held := s.held - {h}) else s
    case Refuse(h) =>
      if h in s.held then s.(state := Idle, pending := None, held := s.held - {h}) else s
    case Await(r) =>
      if r in s.minted then s
      else s.(state := AwaitingApproval, pending := Some(r), minted := s.minted + {r})
    case InterruptStep =>
      if s.state == Processing || s.state == AwaitingApproval then s.(state := Interrupted) else s
    case StartTurnStep => s.(state := Processing)
    case TurnDone => s.(state := Idle)
    case Reset => s.(state := Idle)
  }

  function Run(s: Sys, steps: seq<Step>): Sys {
    if steps == [] then s else Next(Run(s, steps[..|steps| - 1]), steps[|steps| - 1])
  }

  predicate Distinct(s: seq<nat>) {
    forall i, j :: 0 <= i < j < |s| ==> s[i] != s[j]
  }

  /** Each request is in one place only: pending, held by one handler, or executed. */
  predicate OnePlace(s: Sys) {
    && Distinct(s.executed)
    && (forall r :: r in s.executed ==> r in s.minted)
    && (s.pending.Some? ==> s.pending.value in s.minted && s.pending.value !in s.executed)
    && (forall h :: h in s.held ==> s.held[h] in s.minted && s.held[h] !in s.executed)
    && (forall h :: h in s.held ==> s.pending != Some(s.held[h]))
    && (forall g, h :: g in s.held && h in s.held && g != h ==> s.held[g] != s.held[h])
  }

  lemma StepKeepsOnePlace(s: Sys, step: Step)
    requires OnePlace(s)
    ensures OnePlace(Next(s, step))
  {
  }

  /** At most once: no interleaving of answers, interrupts and new turns executes a request twice. */
  lemma {:induction false} ExecutedAtMostOnce(steps: seq<Step>)
    ensures OnePlace(Run(Init(), steps))
    ensures Distinct(Run(Init(), steps).executed)
  {
    if steps != [] {
      ExecutedAtMostOnce(steps[..|steps| - 1]);
      StepKeepsOnePlace(Run(Init(), steps[..|steps| - 1]), steps[|steps| - 1]);
    }
  }

  /** The request that waits goes to the handler of an answer; any other answer takes nothing. */
  lemma AnswerTakes(s: Sys, h: nat)
    requires h !in s.held
    ensures var s' := Next(s, Take(h));
            if s.state == AwaitingApproval && s.pending.Some?
            then h in s'.held && Some(s'.held[h]) == s.pending && s'.pending == None && s'.state == s.state
                 && s'.held.Keys == s.held.Keys + {h} && (forall g :: g in s.held ==> s'.held[g] == s.held[g])
                 && s'.executed == s.executed && s'.minted == s.minted
            else s' == s
  {
  }

  /** An approval runs exactly the request that waited, and a refusal ends it unexecuted. */
  lemma AnswerMeans(s: Sys, h: nat)
    requires s.state == AwaitingApproval && s.pending.Some? && h !in s.held
    ensures Next(Next(Next(s, Take(h)), MarkProcessing(h)), Execute(h))
            == Sys(Processing, None, s.held, s.executed + [s.pending.value], s.minted)
    ensures Next(Next(s, Take(h)), Refuse(h)) == Sys(Idle, None, s.held, s.executed, s.minted)
  {
    var taken := Next(s, Take(h));
    assert taken.held - {h} == s.held;
  }

  /** A handler that holds nothing changes nothing. */
  lemma EmptyHanded(s: Sys, h: nat)
    requires h !in s.held
    ensures Next(s, PutBack(h)) == s && Next(s, MarkProcessing(h)) == s
    ensures Next(s, Execute(h)) == s && Next(s, Refuse(h)) == s
  {
  }

  /** The loop asks anew: the latest request waits, and an interrupt shows only in a turn that is under way. */
  lemma AskAndInterrupt(s: Sys, request: nat)
    requires request !in s.minted
    ensures Next(s, Await(request)) == Sys(AwaitingApproval, Some(request), s.held, s.executed, s.minted + {request})
    ensures var s' := Next(s, InterruptStep);
            s' == s.(state := s'.state)
            && s'.state == if s.state in {Processing, AwaitingApproval} then Interrupted else s.state
    ensures Next(s, Reset) == s.(state := Idle) && Next(s, StartTurnStep) == s.(state := Processing)
  {
  }

  /** Steps that are not taken by handler `h`. */
  predicate ByOthers(h: nat, steps: seq<Step>) {
    forall i :: 0 <= i < |steps| ==>
      match steps[i]
      case Take(g) => g != h
      case PutBack(g) => g != h
      case MarkProcessing(g) => g != h
      case Execute(g) => g != h
      case Refuse(g) => g != h
      case _ => true
  }

  lemma {:induction false} OthersLeaveHeld(s: Sys, h: nat, steps: seq<Step>)
    requires h in s.held && ByOthers(h, steps)
    ensures h in Run(s, steps).held && Run(s, steps).held[h] == s.held[h]
  {
    if steps != [] {
      assert ByOthers(h, steps[..|steps| - 1]);
      OthersLeaveHeld(s, h, steps[..|steps| - 1]);
    }
  }

  /**
   * An answer with a wrong id, run alone, restores the thread. With other steps in its window the thread still
   * ends in `AwaitingApproval` on the old request, whatever those steps did: an interrupt or a newer request in
   * the window is lost.
   */
  lemma WrongIdAnswer(s: Sys, h: nat, steps: seq<Step>)
    requires s.state == AwaitingApproval && s.pending.Some? && h !in s.held && ByOthers(h, steps)
    ensures Next(Next(s, Take(h)), PutBack(h)) == s
    ensures var between := Run(Next(s, Take(h)), steps);
            var after := Next(between, PutBack(h));
            after.state == AwaitingApproval && after.pending == s.pending
  {
    var taken := Next(s, Take(h));
    assert taken.held - {h} == s.held;
    OthersLeaveHeld(taken, h, steps);
  }

  lemma {:induction false} RunKeepsOnePlace(s: Sys, steps: seq<Step>)
    requires OnePlace(s)
    ensures OnePlace(Run(s, steps))
  {
    if steps != [] {
      RunKeepsOnePlace(s, steps[..|steps| - 1]);
      StepKeepsOnePlace(Run(s, steps[..|steps| - 1]), steps[|steps| - 1]);
    }
  }

  /** The put-back keeps the state and any request that the window left. */
  predicate Survives(between: Sys, after: Sys) {
    after.state == between.state && (between.pending.Some? ==> after.pending == between.pending)
  }

  /** What the window did survives exactly when it left the thread waiting and nothing pending. */
  lemma WindowSurvivesIff(s: Sys, h: nat, steps: seq<Step>)
    requires OnePlace(s) && s.state == AwaitingApproval && s.pending.Some? && h !in s.held && ByOthers(h, steps)
    ensures var between := Run(Next(s, Take(h)), steps);
            Survives(between, Next(between, PutBack(h))) <==> between.state == AwaitingApproval && between.pending.None?
  {
    var taken := Next(s, Take(h));
    StepKeepsOnePlace(s, Take(h));
    RunKeepsOnePlace(taken, steps);
    OthersLeaveHeld(taken, h, steps);
  }

  /** The losing case: the user interrupts while a mistyped answer is being put back. */
  lemma InterruptLost()
    ensures var s := Run(Init(), [StartTurnStep, Await(7), Take(1), InterruptStep, PutBack(1)]);
            s.state == AwaitingApproval && s.pending == Some(7)
  {
    var steps := [StartTurnStep, Await(7), Take(1), InterruptStep, PutBack(1)];
    assert steps[..4][..3] == steps[..3] && steps[..3][..2] == steps[..2] && steps[..2][..1] == steps[..1];
    assert steps[..1][..0] == [];
    assert Run(Init(), steps[..1]) == Init().(state := Processing);
    assert Run(Init(), steps[..2]) == Sys(AwaitingApproval, Some(7), map[], [], {7});
    assert Run(Init(), steps[..3]) == Sys(AwaitingApproval, None, map[1 := 7], [], {7});
    assert Run(Init(), steps[..4]).state == Interrupted;
  }
}
