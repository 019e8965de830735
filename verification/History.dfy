/**
 * A thread with its undo manager refines a bounded past/present/future history. The abstract machine is
 * first; the handlers of src/agent/thread_ops.rs that move it are the methods of `Conversation`.
 */
module History {
  import opened Wrappers
  import opened Llm
  import opened Session
  import opened Undo
  import opened ContextMonitor
  import opened Compaction

  type Doc = seq<ChatMessage>

  datatype History = History(past: seq<Doc>, present: Doc, future: seq<Doc>)

  datatype Op =
    | BeginTurn(input: string)
    | Respond(text: string)
    | Keep(turns: nat)            // compaction to the most recent turns
    | UndoOp
    | RedoOp
    | BackTo(position: nat)       // resume from the checkpoint at this position
    | ClearOp
    | Nothing                     // fails, interrupts and refused requests leave the messages alone

  /** The response of the last turn is set, or replaced. */
  function SetResponse(doc: Doc, text: string): Doc {
    if doc == [] then []
    else if doc[|doc| - 1].role == User then doc + [AssistantMsg(text)]
    else doc[|doc| - 1 := AssistantMsg(text)]
  }

  /** The document from its `n`-th user message on. */
  function FromUser(doc: Doc, n: nat): Doc
    decreases |doc|
  {
    if doc == [] then []
    else if doc[0].role != User then FromUser(doc[1..], n)
    else if n == 0 then doc
    else FromUser(doc[1..], n - 1)
  }

  function RecentDoc(doc: Doc, keep: nat): Doc {
    if UserCount(doc) <= keep then doc else FromUser(doc, UserCount(doc) - keep)
  }

  function Apply(h: History, op: Op, max: nat): History {
    match op
    case BeginTurn(input) => History(LastN(h.past + [h.present], max), h.present + [UserMsg(input)], [])
    case Respond(text) => h.(present := SetResponse(h.present, text))
    case Keep(turns) => h.(present := RecentDoc(h.present, turns))
    case UndoOp =>
      if h.past == [] then h
      else History(h.past[..|h.past| - 1], h.past[|h.past| - 1], h.future + [h.present])
    case RedoOp =>
      if h.future == [] then h
      else History(LastN(h.past + [h.present], max), h.future[|h.future| - 1], h.future[..|h.future| - 1])
    case BackTo(position) =>
      if position < |h.past| then History(h.past[..position], h.past[position], []) else h
    case ClearOp => History([], [], [])
    case Nothing => h
  }

  function ApplyAll(h: History, ops: seq<Op>, max: nat): History {
    if ops == [] then h else Apply(ApplyAll(h, ops[..|ops| - 1], max), ops[|ops| - 1], max)
  }

  function ApplyGroups(h: History, groups: seq<seq<Op>>, max: nat): History {
    if groups == [] then h else ApplyAll(ApplyGroups(h, groups[..|groups| - 1], max), groups[|groups| - 1], max)
  }

  lemma GroupsGrow(h: History, groups: seq<seq<Op>>, more: seq<Op>, max: nat)
    ensures ApplyGroups(h, groups + [more], max) == ApplyAll(ApplyGroups(h, groups, max), more, max)
  {
    assert (groups + [more])[..|groups|] == groups;
  }

  /** Undo and redo steps never exceed the limit together, and every document is a printed one. */
  predicate Bounded(h: History, max: nat) {
    && |h.past| + |h.future| <= max
    && IsPrinted(h.present)
    && (forall i :: 0 <= i < |h.past| ==> IsPrinted(h.past[i]))
    && (forall i :: 0 <= i < |h.future| ==> IsPrinted(h.future[i]))
  }

  function Repeat(h: History, op: Op, k: nat, max: nat): History
    decreases k
  {
    if k == 0 then h else Repeat(Apply(h, op, max), op, k - 1, max)
  }

  // ----- Laws of the abstract history -----

  lemma {:induction false} FromUserPrinted(doc: Doc, n: nat)
    requires IsPrinted(doc)
    ensures IsPrinted(FromUser(doc, n))
    ensures FromUser(doc, n) != [] ==> FromUser(doc, n)[0].role == User
    decreases |doc|
  {
    var r := FromUser(doc, n);
    FromUserSuffix(doc, n);
    var d := |doc| - |r|;
    forall i | 0 <= i < |r|
      ensures PrintedAt(r, i)
    {
      assert PrintedAt(doc, i + d);
    }
  }

  lemma {:induction false} FromUserSuffix(doc: Doc, n: nat)
    ensures |FromUser(doc, n)| <= |doc| && FromUser(doc, n) == doc[|doc| - |FromUser(doc, n)|..]
    ensures FromUser(doc, n) != [] ==> FromUser(doc, n)[0].role == User
    decreases |doc|
  {
    if doc != [] {
      if doc[0].role != User {
        FromUserSuffix(doc[1..], n);
      } else if n > 0 {
        FromUserSuffix(doc[1..], n - 1);
      }
    }
  }

  lemma PrintedStep(h: History, op: Op, max: nat)
    requires Bounded(h, max)
    ensures IsPrinted(Apply(h, op, max).present)
  {
    var doc := Apply(h, op, max).present;
    match op {
      case Keep(turns) =>
        if UserCount(h.present) > turns {
          FromUserPrinted(h.present, UserCount(h.present) - turns);
        }
      case BeginTurn(input) =>
        forall i | 0 <= i < |doc| ensures PrintedAt(doc, i) {
          assert i < |h.present| ==> PrintedAt(h.present, i);
        }
      case Respond(text) =>
        forall i | 0 <= i < |doc| ensures PrintedAt(doc, i) {
          assert i < |h.present| ==> PrintedAt(h.present, i);
        }
      case _ =>
    }
  }

  /** Every operation keeps the bound. */
  lemma StepKeepsBound(h: History, op: Op, max: nat)
    requires Bounded(h, max)
    ensures Bounded(Apply(h, op, max), max)
  {
    PrintedStep(h, op, max);
  }

  /** Over every run of operations the bound holds, so a redo never trims the past. */
  lemma {:induction false} RunKeepsBound(h: History, ops: seq<Op>, max: nat)
    requires Bounded(h, max)
    ensures Bounded(ApplyAll(h, ops, max), max)
    ensures var h' := ApplyAll(h, ops, max);
            h'.future != [] ==> Apply(h', RedoOp, max).past == h'.past + [h'.present]
  {
    if ops != [] {
      RunKeepsBound(h, ops[..|ops| - 1], max);
      StepKeepsBound(ApplyAll(h, ops[..|ops| - 1], max), ops[|ops| - 1], max);
    }
  }

  /** Undo and redo keep the number of steps; going back to a checkpoint leaves as many as lie before it. */
  lemma StepTotals(h: History, op: Op, max: nat)
    requires Bounded(h, max)
    ensures var h' := Apply(h, op, max);
            var total := |h'.past| + |h'.future|;
            match op
            case BackTo(position) => position < |h.past| ==> total == position
            case BeginTurn(_) => total == if |h.past| + 1 <= max then |h.past| + 1 else max
            case ClearOp => total == 0
            case _ => total == |h.past| + |h.future|
  {
  }

  lemma UndoThenRedo(h: History, max: nat)
    requires Bounded(h, max) && h.past != []
    ensures Apply(Apply(h, UndoOp, max), RedoOp, max) == h
  {
    assert h.past == h.past[..|h.past| - 1] + [h.past[|h.past| - 1]];
  }

  lemma RedoThenUndo(h: History, max: nat)
    requires Bounded(h, max) && h.future != []
    ensures Apply(Apply(h, RedoOp, max), UndoOp, max) == h
  {
    assert h.future == h.future[..|h.future| - 1] + [h.future[|h.future| - 1]];
  }

  lemma {:induction false} RepeatEnd(h: History, op: Op, k: nat, max: nat)
    requires k > 0
    ensures Repeat(h, op, k, max) == Apply(Repeat(h, op, k - 1, max), op, max)
    decreases k
  {
    if k > 1 {
      RepeatEnd(Apply(h, op, max), op, k - 1, max);
    }
  }

  /** `k` undos can be taken back by `k` redos, for every `k` up to the undo count. */
  lemma {:induction false} UndosThenRedos(h: History, k: nat, max: nat)
    requires Bounded(h, max) && k <= |h.past|
    ensures Repeat(Repeat(h, UndoOp, k, max), RedoOp, k, max) == h
    decreases k
  {
    if k > 0 {
      var h' := Apply(h, UndoOp, max);
      StepKeepsBound(h, UndoOp, max);
      UndosThenRedos(h', k - 1, max);
      RepeatEnd(Repeat(h', UndoOp, k - 1, max), RedoOp, k, max);
      UndoThenRedo(h, max);
    }
  }

  /** And `k` redos by `k` undos. */
  lemma {:induction false} RedosThenUndos(h: History, k: nat, max: nat)
    requires Bounded(h, max) && k <= |h.future|
    ensures Repeat(Repeat(h, RedoOp, k, max), UndoOp, k, max) == h
    decreases k
  {
    if k > 0 {
      var h' := Apply(h, RedoOp, max);
      StepKeepsBound(h, RedoOp, max);
      RedosThenUndos(h', k - 1, max);
      RepeatEnd(Repeat(h', RedoOp, k - 1, max), UndoOp, k, max);
      RedoThenUndo(h, max);
    }
  }

  // ----- Undo takes turns back -----

  /** The messages before a turn come back with one undo, whatever was dropped at the other end. */
  lemma TurnThenUndo(h: History, input: string, text: string, max: nat)
    requires max > 0
    ensures Apply(Apply(h, BeginTurn(input), max), UndoOp, max).present == h.present
    ensures Apply(Apply(Apply(h, BeginTurn(input), max), Respond(text), max), UndoOp, max).present == h.present
    ensures Apply(Apply(h, BeginTurn(input), max), UndoOp, max).past
         == if |h.past| < max then h.past else h.past[|h.past| + 1 - max..]
  {
  }

  /** Input and answer of a turn. */
  datatype Said = Said(input: string, text: string)

  function Turned(h: History, said: Said, max: nat): History {
    Apply(Apply(h, BeginTurn(said.input), max), Respond(said.text), max)
  }

  /** The histories before each turn and after the last. */
  predicate AreTurns(hs: seq<History>, turns: seq<Said>, max: nat) {
    && |hs| == |turns| + 1
    && forall i :: 0 <= i < |turns| ==> TurnAt(hs, turns, max, i)
  }

  predicate TurnAt(hs: seq<History>, turns: seq<Said>, max: nat, i: nat)
    requires i + 1 < |hs| && i < |turns|
  {
    hs[i + 1] == Turned(hs[i], turns[i], max)
  }

  /** A turn puts the document before it at the end of the past and moves the others one back. */
  lemma OneMoreTurn(h: History, said: Said, j: nat, max: nat)
    requires j < max && j <= |h.past|
    ensures var past := Turned(h, said, max).past;
            |past| > j && past[|past| - 1 - j] == if j == 0 then h.present else h.past[|h.past| - j]
  {
  }

  /** The latest undo step leads to before the last turn, the one before it to before the turn before, and so on. */
  lemma {:induction false} PastOfTurns(hs: seq<History>, turns: seq<Said>, n: nat, j: nat, max: nat)
    requires AreTurns(hs, turns, max) && j < n <= |turns| && j < max
    ensures |hs[n].past| > j && hs[n].past[|hs[n].past| - 1 - j] == hs[n - 1 - j].present
    decreases j
  {
    if j > 0 {
      PastOfTurns(hs, turns, n - 1, j - 1, max);
    }
    assert TurnAt(hs, turns, max, n - 1);
    OneMoreTurn(hs[n - 1], turns[n - 1], j, max);
  }

  lemma {:induction false} UndosDig(h: History, k: nat, max: nat)
    requires 0 < k <= |h.past|
    ensures Repeat(h, UndoOp, k, max).present == h.past[|h.past| - k]
    decreases k
  {
    if k > 1 {
      UndosDig(Apply(h, UndoOp, max), k - 1, max);
    }
  }

  /** After any number of turns, `k` undos give back the messages before the last `k` turns, up to the limit. */
  lemma TurnsThenUndos(hs: seq<History>, turns: seq<Said>, k: nat, max: nat)
    requires AreTurns(hs, turns, max) && k <= |turns| && k <= max
    ensures Repeat(hs[|turns|], UndoOp, k, max).present == hs[|turns| - k].present
  {
    if k > 0 {
      PastOfTurns(hs, turns, |turns|, k - 1, max);
      UndosDig(hs[|turns|], k, max);
    }
  }

  // ----- Documents and turns -----

  lemma PrintSetsResponse(turns: seq<Turn>, text: string)
    ensures Print(WithLast(turns, (t: Turn) => t.Complete(text))) == SetResponse(Print(turns), text)
  {
    if turns != [] {
      var front, t := turns[..|turns| - 1], turns[|turns| - 1];
      PrintAppend(front, t);
      assert turns == front + [t];
      PrintAppend(front, t.Complete(text));
      assert WithLast(turns, (t: Turn) => t.Complete(text)) == front + [t.Complete(text)];
      SetLastResponse(Print(front), t, text);
    }
  }

  lemma SetLastResponse(before: Doc, t: Turn, text: string)
    ensures SetResponse(before + PrintTurn(t), text) == before + PrintTurn(t.Complete(text))
  {
    var doc := before + PrintTurn(t);
    match t.response
    case None => assert doc[|doc| - 1] == UserMsg(t.userInput);
    case Some(was) => assert doc[|doc| - 1] == AssistantMsg(was);
  }

  /** Changes that touch neither input nor response do not show. */
  lemma PrintIgnores(turns: seq<Turn>, f: Turn -> Turn)
    requires forall t: Turn :: f(t).userInput == t.userInput && f(t).response == t.response
    ensures Print(WithLast(turns, f)) == Print(turns)
  {
    if turns != [] {
      var front, t := turns[..|turns| - 1], turns[|turns| - 1];
      PrintAppend(front, t);
      PrintAppend(front, f(t));
      assert turns == front + [t] && WithLast(turns, f) == front + [f(t)];
    }
  }

  /** One printed turn is one user message further. */
  lemma SkipTurn(t: Turn, rest: Doc, n: nat)
    requires n > 0
    ensures FromUser(PrintTurn(t) + rest, n) == FromUser(rest, n - 1)
  {
    var doc := PrintTurn(t) + rest;
    assert doc[0].role == User;
    if t.response.Some? {
      assert doc[1..][0].role == Assistant && doc[1..][1..] == rest;
    } else {
      assert doc[1..] == rest;
    }
  }

  lemma {:induction false} PrintFromUser(turns: seq<Turn>, n: nat)
    requires n <= |turns|
    ensures FromUser(Print(turns), n) == Print(turns[n..])
  {
    if n == 0 {
      assert turns[0..] == turns;
      assert turns != [] ==> Print(turns)[0].role == User;
    } else {
      SkipTurn(turns[0], Print(turns[1..]), n);
      PrintFromUser(turns[1..], n - 1);
      assert turns[1..][n - 1..] == turns[n..];
    }
  }

  lemma PrintRecent(turns: seq<Turn>, keep: nat)
    ensures Print(Recent(turns, keep)) == RecentDoc(Print(turns), keep)
  {
    PrintIsPrinted(turns);
    if |turns| > keep {
      PrintFromUser(turns, |turns| - keep);
      RenumberPrints(turns[|turns| - keep..], Recent(turns, keep));
    }
  }

  function Docs(stack: seq<Checkpoint>): seq<Doc> {
    seq(|stack|, i requires 0 <= i < |stack| => stack[i].messages)
  }

  /** A checkpoint holds a printed document and the display number of the turn after it. */
  predicate GoodCheckpoint(c: Checkpoint) {
    IsPrinted(c.messages) && c.turnNumber == 1 + UserCount(c.messages)
  }

  predicate GoodStack(stack: seq<Checkpoint>) {
    forall i :: 0 <= i < |stack| ==> GoodCheckpoint(stack[i])
  }

  predicate SameUpToIds(a: seq<Checkpoint>, b: seq<Checkpoint>) {
    && |a| == |b|
    && forall i :: 0 <= i < |a| ==> a[i].messages == b[i].messages && a[i].turnNumber == b[i].turnNumber
  }

  /** Equal documents mean equal checkpoints up to ids and descriptions. */
  lemma StacksAgreeUpToIds(a: seq<Checkpoint>, b: seq<Checkpoint>)
    requires GoodStack(a) && GoodStack(b) && Docs(a) == Docs(b)
    ensures SameUpToIds(a, b)
  {
    assert |Docs(a)| == |a| && |Docs(b)| == |b|;
    forall i | 0 <= i < |a|
      ensures a[i].messages == b[i].messages && a[i].turnNumber == b[i].turnNumber
    {
      assert Docs(a)[i] == a[i].messages && Docs(b)[i] == b[i].messages;
      assert GoodCheckpoint(a[i]) && GoodCheckpoint(b[i]);
    }
  }

  lemma DocsPush(stack: seq<Checkpoint>, c: Checkpoint)
    ensures Docs(stack + [c]) == Docs(stack) + [c.messages]
    ensures GoodStack(stack + [c]) <==> GoodStack(stack) && GoodCheckpoint(c)
  {
    var all := stack + [c];
    assert all[|stack|] == c;
    assert forall i :: 0 <= i < |stack| ==> all[i] == stack[i];
  }

  lemma DocsLastN(stack: seq<Checkpoint>, n: nat)
    ensures Docs(LastN(stack, n)) == LastN(Docs(stack), n)
    ensures GoodStack(stack) ==> GoodStack(LastN(stack, n))
  {
  }

  lemma DocsPrefix(stack: seq<Checkpoint>, n: nat)
    requires n <= |stack|
    ensures Docs(stack[..n]) == Docs(stack)[..n]
    ensures GoodStack(stack) ==> GoodStack(stack[..n])
  {
  }

  /** What a valid conversation says of its abstract history. */
  lemma GoodIsBounded(undoStack: seq<Checkpoint>, turns: seq<Turn>, redoStack: seq<Checkpoint>, max: nat)
    requires |undoStack| + |redoStack| <= max && GoodStack(undoStack) && GoodStack(redoStack)
    ensures Bounded(History(Docs(undoStack), Print(turns), Docs(redoStack)), max)
  {
    PrintIsPrinted(turns);
    assert forall i :: 0 <= i < |undoStack| ==> GoodCheckpoint(undoStack[i]);
    assert forall i :: 0 <= i < |redoStack| ==> GoodCheckpoint(redoStack[i]);
  }

  // ----- The handlers -----

  /** What users and the agent loop ask of a conversation; a finished turn answers, fails or was interrupted. */
  datatype Request =
    | UserInput(input: string, blocked: bool)     // blocked: refused by validation, policy or secret scan, or a routed command
    | TurnAnswered(response: string)
    | TurnFailed(error: string)
    | InterruptRequest
    | CompactRequest
    | UndoRequest
    | RedoRequest
    | ResumeRequest(checkpointId: nat)
    | ClearRequest

  /** A conversation between two requests. */
  datatype Moment = Moment(state: ThreadState, turns: seq<Turn>, undoStack: seq<Checkpoint>, redoStack: seq<Checkpoint>)

  function AbsOf(m: Moment): History { History(Docs(m.undoStack), Print(m.turns), Docs(m.redoStack)) }

  function Ids(stack: seq<Checkpoint>): seq<nat> {
    seq(|stack|, i requires 0 <= i < |stack| => stack[i].id)
  }

  /** The context monitor's limit and threshold, and the number of checkpoints. */
  datatype Limits = Limits(context: nat, percent: nat, checkpoints: nat)

  /** Compacting keeps what the suggested strategy keeps, on request the last five; only a failed summary does nothing. */
  function CompactStep(turns: seq<Turn>, limits: Limits, auto: bool, env: CompactionEnv): Op {
    StepBy(SuggestCompaction(Print(turns), limits.context, limits.percent), turns, auto, env)
  }

  function StepBy(suggested: Option<CompactionStrategy>, turns: seq<Turn>, auto: bool, env: CompactionEnv): Op {
    if auto && suggested.None? then Nothing
    else
      var strategy := if suggested.Some? then suggested.value else Summarize(5);
      if Fails(turns, strategy, env) then Nothing else Keep(Keeps(strategy, env))
  }

  /** The last checkpoint holds the messages right before the input. */
  predicate CheckpointBefore(undoStack: seq<Checkpoint>, doc: Doc, input: string) {
    undoStack != [] && undoStack[|undoStack| - 1].messages + [UserMsg(input)] == doc
  }

  predicate IsFirst(stack: seq<Checkpoint>, i: nat, id: nat)
    requires i < |stack|
  {
    stack[i].id == id && forall j :: 0 <= j < i ==> stack[j].id != id
  }

  predicate Refuses(state: ThreadState, blocked: bool) {
    (state != Idle && state != Interrupted) || blocked
  }

  function ResumeStep(undoStack: seq<Checkpoint>, checkpointId: nat): Op {
    match Position(undoStack, checkpointId) case None => Nothing case Some(p) => BackTo(p)
  }

  /** Resuming goes back to the first checkpoint with the id, if there is one. */
  lemma ResumesFirst(stack: seq<Checkpoint>, id: nat, i: nat)
    requires i < |stack|
    ensures ResumeStep(stack, id) == BackTo(i) <==> IsFirst(stack, i, id)
    ensures ResumeStep(stack, id) == Nothing <==> forall j :: 0 <= j < |stack| ==> stack[j].id != id
  {
  }

  /** The operations a request amounts to. */
  function StepsFor(m: Moment, limits: Limits, request: Request, env: CompactionEnv): seq<Op> {
    match request
    case UserInput(input, blocked) =>
      if Refuses(m.state, blocked) then [Nothing] else [CompactStep(m.turns, limits, true, env), BeginTurn(input)]
    case TurnAnswered(response) => [Respond(response)]
    case TurnFailed(_) => [Nothing]
    case InterruptRequest => [Nothing]
    case CompactRequest => [CompactStep(m.turns, limits, false, env)]
    case UndoRequest => [UndoOp]
    case RedoRequest => [RedoOp]
    case ResumeRequest(id) => [ResumeStep(m.undoStack, id)]
    case ClearRequest => [ClearOp]
  }

  function StateAfter(m: Moment, request: Request): ThreadState {
    match request
    case UserInput(_, blocked) => if Refuses(m.state, blocked) then m.state else Processing
    case TurnAnswered(_) => Idle
    case TurnFailed(_) => Idle
    case InterruptRequest => if m.state == Processing || m.state == AwaitingApproval then Interrupted else m.state
    case CompactRequest => m.state
    case UndoRequest => if m.undoStack == [] then m.state else Idle
    case RedoRequest => if m.redoStack == [] then m.state else Idle
    case ResumeRequest(id) => if Position(m.undoStack, id).None? then m.state else Idle
    case ClearRequest => Idle
  }

  /** The ids by which the checkpoints can be resumed from afterwards. */
  function UndoIdsAfter(m: Moment, limits: Limits, request: Request, freshId: nat): seq<nat> {
    var ids := Ids(m.undoStack);
    match request
    case UserInput(_, blocked) => if Refuses(m.state, blocked) then ids else LastN(ids + [freshId], limits.checkpoints)
    case UndoRequest => if ids == [] then ids else ids[..|ids| - 1]
    case RedoRequest => if m.redoStack == [] then ids else LastN(ids + [freshId], limits.checkpoints)
    case ResumeRequest(id) => (match Position(m.undoStack, id) case None => ids case Some(p) => ids[..p])
    case ClearRequest => []
    case _ => ids
  }

  /** What serving a request makes of a conversation: its documents, its state, and the ids of its checkpoints. */
  predicate Moves(m: Moment, m': Moment, limits: Limits, request: Request, env: CompactionEnv, freshId: nat) {
    && AbsOf(m') == ApplyAll(AbsOf(m), StepsFor(m, limits, request, env), limits.checkpoints)
    && m'.state == StateAfter(m, request)
    && Ids(m'.undoStack) == UndoIdsAfter(m, limits, request, freshId)
  }

  /** A summary that fails stops the compaction unless there is nothing to sum up. */
  function Summarized(turns: seq<Turn>, env: CompactionEnv): Op {
    if |turns| > 5 && env.summary.None? then Nothing else Keep(5)
  }

  lemma StepByStrategy(turns: seq<Turn>, auto: bool, env: CompactionEnv)
    ensures StepBy(None, turns, auto, env) == if auto then Nothing else Summarized(turns, env)
    ensures StepBy(Some(Truncate(3)), turns, auto, env) == Keep(3)
    ensures StepBy(Some(Summarize(5)), turns, auto, env) == Summarized(turns, env)
    ensures StepBy(Some(MoveToWorkspace), turns, auto, env) == Keep(if env.hasWorkspace then 10 else 5)
  {
  }

  /** When and to how many turns a conversation is compacted, told from token count, limits and surroundings. */
  lemma CompactMeans(turns: seq<Turn>, limits: Limits, auto: bool, env: CompactionEnv)
    ensures var tokens, step := EstimateTokens(Print(turns)), CompactStep(turns, limits, auto, env);
            var due := IsDue(tokens, limits.context * limits.percent);
            && (!due ==> step == if auto then Nothing else Summarized(turns, env))
            && (due && 100 * tokens > 95 * limits.context ==> step == Keep(3))
            && (due && 85 * limits.context < 100 * tokens <= 95 * limits.context ==> step == Summarized(turns, env))
            && (due && 100 * tokens <= 85 * limits.context ==> step == Keep(if env.hasWorkspace then 10 else 5))
  {
    SuggestedBy(Print(turns), limits.context, limits.percent);
    StepByStrategy(turns, auto, env);
  }

  /** What each request makes of the documents. */
  lemma RequestsMean(m: Moment, limits: Limits, request: Request, env: CompactionEnv)
    ensures var h := AbsOf(m);
            var h' := ApplyAll(h, StepsFor(m, limits, request, env), limits.checkpoints);
            match request
            case UserInput(input, blocked) =>
              if blocked || m.state in {Processing, AwaitingApproval, Completed} then h' == h
              else
                && h'.present == Apply(h, CompactStep(m.turns, limits, true, env), limits.checkpoints).present + [UserMsg(input)]
                && h'.future == []
            case TurnAnswered(response) =>
              h'.past == h.past && h'.future == h.future
              && (h.present != [] ==> h'.present != [] && h'.present[|h'.present| - 1] == AssistantMsg(response))
            case TurnFailed(_) => h' == h
            case InterruptRequest => h' == h
            case CompactRequest => h' == Apply(h, CompactStep(m.turns, limits, false, env), limits.checkpoints)
            case UndoRequest =>
              if h.past == [] then h' == h
              else h == History(h'.past + [h'.present], h.present, h.future) && h'.future == h.future + [h.present]
            case RedoRequest =>
              if h.future == [] then h' == h
              else h.future == h'.future + [h'.present]
                   && (|h.past| < limits.checkpoints ==> h'.past == h.past + [h.present])
            case ResumeRequest(id) =>
              forall i :: 0 <= i < |m.undoStack| && IsFirst(m.undoStack, i, id) ==>
                h' == History(h.past[..i], m.undoStack[i].messages, [])
            case ClearRequest => h' == History([], [], [])
  {
    var steps := StepsFor(m, limits, request, env);
    if |steps| == 1 {
      ApplyOne(AbsOf(m), steps[0], limits.checkpoints);
    } else {
      ApplyTwo(AbsOf(m), steps[0], steps[1], limits.checkpoints);
    }
  }

  lemma IdsPush(stack: seq<Checkpoint>, c: Checkpoint, n: nat)
    ensures Ids(LastN(stack + [c], n)) == LastN(Ids(stack) + [c.id], n)
  {
  }

  lemma IdsPrefix(stack: seq<Checkpoint>, n: nat)
    requires n <= |stack|
    ensures Ids(stack[..n]) == Ids(stack)[..n]
  {
  }

  /** An undo takes the input back. */
  lemma AfterInput(h: History, steps: seq<Op>, input: string, max: nat)
    requires max > 0 && steps == [Nothing, BeginTurn(input)]
    ensures Apply(ApplyAll(h, steps, max), UndoOp, max).present == h.present
  {
    ApplyTwo(h, Nothing, BeginTurn(input), max);
    TurnThenUndo(h, input, "", max);
  }

  class Conversation {
    const thread: Thread
    const manager: UndoManager
    const contextLimit: nat
    const thresholdPercent: nat

    constructor (maxCheckpoints: nat, contextLimit: nat, thresholdPercent: nat)
      ensures Valid() && fresh(thread) && fresh(manager)
      ensures Abs() == History([], [], []) && manager.maxCheckpoints == maxCheckpoints
    {
      thread := new Thread();
      manager := new UndoManager(maxCheckpoints);
      this.contextLimit, this.thresholdPercent := contextLimit, thresholdPercent;
    }

    function Abs(): History
      reads thread, manager
    {
      History(Docs(manager.undoStack), Print(thread.turns), Docs(manager.redoStack))
    }

    function Now(): Moment
      reads thread, manager
    {
      Moment(thread.state, thread.turns, manager.undoStack, manager.redoStack)
    }

    function Bounds(): Limits { Limits(contextLimit, thresholdPercent, manager.maxCheckpoints) }

    ghost predicate Valid()
      reads thread, manager
    {
      && |manager.undoStack| + |manager.redoStack| <= manager.maxCheckpoints
      && GoodStack(manager.undoStack) && GoodStack(manager.redoStack)
    }

    /** The state a new checkpoint records. */
    method Current() returns (turnNumber: nat, messages: seq<ChatMessage>)
      ensures messages == Print(thread.turns) && turnNumber == |thread.turns| + 1
      ensures turnNumber == 1 + UserCount(messages) && IsPrinted(messages)
    {
      PrintIsPrinted(thread.turns);
      messages := thread.Messages();
      turnNumber := thread.TurnNumber();
    }

    method RestoreTo(checkpoint: Checkpoint)
      requires GoodCheckpoint(checkpoint)
      modifies thread
      ensures Print(thread.turns) == checkpoint.messages && thread.state == Idle
    {
      PrintParse(checkpoint.messages, 0);
      thread.RestoreFromMessages(checkpoint.messages);
    }

    /** `process_undo`. */
    method ProcessUndo(freshId: nat)
      requires Valid()
      modifies thread, manager
      ensures Valid() && Abs() == Apply(old(Abs()), UndoOp, manager.maxCheckpoints)
      ensures if old(manager.undoStack) == [] then Now() == old(Now())
              else
                && thread.state == Idle && Print(thread.turns) == old(manager.undoStack[|manager.undoStack| - 1].messages)
                && manager.redoStack != []
                && manager.redoStack[|manager.redoStack| - 1].messages == old(Print(thread.turns))
      ensures thread.state == StateAfter(old(Now()), UndoRequest)
      ensures Ids(manager.undoStack) == UndoIdsAfter(old(Now()), Bounds(), UndoRequest, freshId)
    {
      if |manager.undoStack| == 0 {
        return;
      }
      IdsPrefix(manager.undoStack, |manager.undoStack| - 1);
      var turnNumber, messages := Current();
      var checkpoint := manager.Undo(freshId, turnNumber, messages);
      DocsPush(manager.undoStack, checkpoint.value);
      DocsPush(old(manager.redoStack), Snapshot(freshId, turnNumber, messages, "Turn"));
      RestoreTo(checkpoint.value);
    }

    /** `process_redo`; nothing is trimmed off the undo stack. */
    method ProcessRedo(freshId: nat)
      requires Valid()
      modifies thread, manager
      ensures Valid() && Abs() == Apply(old(Abs()), RedoOp, manager.maxCheckpoints)
      ensures if old(manager.redoStack) == [] then Now() == old(Now())
              else
                && thread.state == Idle && Print(thread.turns) == old(manager.redoStack[|manager.redoStack| - 1].messages)
                && manager.undoStack != []
                && manager.undoStack[|manager.undoStack| - 1].messages == old(Print(thread.turns))
      ensures old(manager.redoStack) != [] ==> old(manager.undoStack) <= manager.undoStack
      ensures thread.state == StateAfter(old(Now()), RedoRequest)
      ensures Ids(manager.undoStack) == UndoIdsAfter(old(Now()), Bounds(), RedoRequest, freshId)
    {
      if |manager.redoStack| == 0 {
        return;
      }
      var turnNumber, messages := Current();
      var checkpoint := manager.Redo(freshId, turnNumber, messages);
      DocsPush(manager.redoStack, checkpoint.value);
      DocsPush(old(manager.undoStack), Snapshot(freshId, turnNumber, messages, "Turn"));
      IdsPush(old(manager.undoStack), Snapshot(freshId, turnNumber, messages, "Turn"), manager.maxCheckpoints);
      RestoreTo(checkpoint.value);
    }

    /** `process_resume`: the step is back to the first checkpoint with the id, if there is one. */
    method ProcessResume(checkpointId: nat) returns (step: Op)
      requires Valid()
      modifies thread, manager
      ensures Valid() && Abs() == Apply(old(Abs()), step, manager.maxCheckpoints)
      ensures step == ResumeStep(old(manager.undoStack), checkpointId)
      ensures step == Nothing ==> Now() == old(Now())
      ensures step.BackTo? ==>
                && thread.state == Idle && Print(thread.turns) == old(manager.undoStack)[step.position].messages
                && manager.undoStack == old(manager.undoStack)[..step.position] && manager.redoStack == []
      ensures thread.state == StateAfter(old(Now()), ResumeRequest(checkpointId))
      ensures Ids(manager.undoStack) == UndoIdsAfter(old(Now()), Bounds(), ResumeRequest(checkpointId), 0)
    {
      step := ResumeStep(manager.undoStack, checkpointId);
      var checkpoint := manager.Restore(checkpointId);
      if checkpoint.Some? {
        DocsPrefix(old(manager.undoStack), step.position);
        IdsPrefix(old(manager.undoStack), step.position);
        RestoreTo(checkpoint.value);
      }
    }

    /** `process_clear`. */
    method ProcessClear()
      requires Valid()
      modifies thread, manager
      ensures Valid() && Abs() == Apply(old(Abs()), ClearOp, manager.maxCheckpoints)
      ensures thread.state == Idle && thread.turns == [] && manager.undoStack == [] && manager.redoStack == []
    {
      thread.turns := [];
      thread.state := Idle;
      manager.Clear();
    }

    /** `process_compact`, and the automatic compaction when `auto` is set. */
    method ProcessCompact(auto: bool, env: CompactionEnv) returns (step: Op)
      requires Valid()
      modifies thread
      ensures Valid() && Abs() == Apply(old(Abs()), step, manager.maxCheckpoints)
      ensures step == CompactStep(old(thread.turns), Bounds(), auto, env)
      ensures thread.state == old(thread.state)
    {
      var messages := thread.Messages();
      var suggested := SuggestCompaction(messages, contextLimit, thresholdPercent);
      if auto && suggested.None? {
        return Nothing;
      }
      var strategy := if suggested.Some? then suggested.value else Summarize(5);
      PrintRecent(thread.turns, Keeps(strategy, env));
      var r := Compact(thread, strategy, env);
      step := if r.Ok? then Keep(Keeps(strategy, env)) else Nothing;
    }

    /** `process_user_input` up to the agent loop: compact if needed, checkpoint, start the turn. */
    method ProcessUserInput(input: string, blocked: bool, env: CompactionEnv, freshId: nat) returns (steps: seq<Op>)
      requires Valid()
      modifies thread, manager
      ensures Valid() && Abs() == ApplyAll(old(Abs()), steps, manager.maxCheckpoints)
      ensures steps == StepsFor(old(Now()), Bounds(), UserInput(input, blocked), env)
      ensures Refuses(old(thread.state), blocked) ==> Now() == old(Now()) && thread.View() == old(thread.View())
      ensures if blocked || old(thread.state) in {Processing, AwaitingApproval, Completed} then Now() == old(Now())
              else
                && thread.state == Processing && thread.turns != []
                && thread.turns[|thread.turns| - 1] == Turn(|thread.turns| - 1, input, None, [], TurnProcessing, None)
                && manager.redoStack == []
                && (manager.maxCheckpoints > 0 ==> CheckpointBefore(manager.undoStack, Print(thread.turns), input))
      ensures thread.state == StateAfter(old(Now()), UserInput(input, blocked))
      ensures Ids(manager.undoStack) == UndoIdsAfter(old(Now()), Bounds(), UserInput(input, blocked), freshId)
    {
      if thread.state != Idle && thread.state != Interrupted {
        ApplyOne(Abs(), Nothing, manager.maxCheckpoints);
        return [Nothing];
      }
      if blocked {
        ApplyOne(Abs(), Nothing, manager.maxCheckpoints);
        return [Nothing];
      }
      ghost var before := Abs();
      var compact := ProcessCompact(true, env);
      CheckpointAndStart(input, freshId);
      steps := [compact, Op.BeginTurn(input)];
      ApplyTwo(before, compact, Op.BeginTurn(input), manager.maxCheckpoints);
    }

    /** Checkpoint, then the new turn. */
    method CheckpointAndStart(input: string, freshId: nat)
      requires Valid()
      modifies thread, manager
      ensures Valid() && Abs() == Apply(old(Abs()), Op.BeginTurn(input), manager.maxCheckpoints)
      ensures thread.state == Processing
      ensures Ids(manager.undoStack) == LastN(Ids(old(manager.undoStack)) + [freshId], manager.maxCheckpoints)
      ensures thread.turns == old(thread.turns) + [Turn(old(|thread.turns|), input, None, [], TurnProcessing, None)]
      ensures manager.redoStack == []
      ensures manager.maxCheckpoints > 0 ==> CheckpointBefore(manager.undoStack, Print(thread.turns), input)
    {
      var turnNumber, messages := Current();
      IdsPush(manager.undoStack, Snapshot(freshId, turnNumber, messages, "Before turn"), manager.maxCheckpoints);
      manager.TakeCheckpoint(freshId, turnNumber, messages, "Before turn");
      DocsPush(old(manager.undoStack), Snapshot(freshId, turnNumber, messages, "Before turn"));
      DocsLastN(old(manager.undoStack) + [Snapshot(freshId, turnNumber, messages, "Before turn")], manager.maxCheckpoints);
      PrintAppend(thread.turns, NewTurn(|thread.turns|, input));
      thread.StartTurn(input);
    }

    /** How the turn ends once the agent loop returns. */
    method FinishTurn(response: Option<string>, error: string)
      requires Valid()
      modifies thread
      ensures Valid()
      ensures Abs() == Apply(old(Abs()), if response.Some? then Respond(response.value) else Nothing, manager.maxCheckpoints)
      ensures thread.state == Idle
    {
      if response.Some? {
        PrintSetsResponse(thread.turns, response.value);
        thread.CompleteTurn(response.value);
      } else {
        PrintIgnores(thread.turns, (t: Turn) => t.Fail(error));
        thread.FailTurn(error);
      }
    }

    /** `process_interrupt`. */
    method ProcessInterrupt()
      requires Valid()
      modifies thread
      ensures Valid() && Abs() == old(Abs())
      ensures thread.state == if old(thread.state) == Processing || old(thread.state) == AwaitingApproval
                              then Interrupted else old(thread.state)
    {
      if thread.state == Processing || thread.state == AwaitingApproval {
        PrintIgnores(thread.turns, (t: Turn) => t.Interrupt());
        thread.Interrupt();
      }
    }

    /** One request and the abstract operations it amounts to. */
    method Serve(request: Request, env: CompactionEnv, freshId: nat) returns (steps: seq<Op>)
      requires Valid()
      modifies thread, manager
      ensures Valid() && steps == StepsFor(old(Now()), Bounds(), request, env)
      ensures Moves(old(Now()), Now(), Bounds(), request, env, freshId)
    {
      ghost var before := Abs();
      match request {
        case UserInput(input, blocked) => steps := ProcessUserInput(input, blocked, env, freshId); return;
        case TurnAnswered(response) => FinishTurn(Some(response), ""); steps := [Respond(response)];
        case TurnFailed(error) => FinishTurn(None, error); steps := [Nothing];
        case InterruptRequest => ProcessInterrupt(); steps := [Nothing];
        case CompactRequest => var step := ProcessCompact(false, env); steps := [step];
        case UndoRequest => ProcessUndo(freshId); steps := [UndoOp];
        case RedoRequest => ProcessRedo(freshId); steps := [RedoOp];
        case ResumeRequest(id) => var step := ProcessResume(id); steps := [step];
        case ClearRequest => ProcessClear(); steps := [ClearOp];
      }
      ApplyOne(before, steps[0], manager.maxCheckpoints);
    }

    /** An accepted input without compaction, then an undo: the messages are those from before. */
    method InputThenUndo(input: string, env: CompactionEnv, turnId: nat, undoId: nat)
      requires Valid() && (thread.state == Idle || thread.state == Interrupted) && manager.maxCheckpoints > 0
      requires SuggestCompaction(Print(thread.turns), contextLimit, thresholdPercent).None?
      modifies thread, manager
      ensures Valid() && Print(thread.turns) == old(Print(thread.turns))
    {
      ghost var before := Abs();
      var steps := ProcessUserInput(input, false, env, turnId);
      AfterInput(before, steps, input, manager.maxCheckpoints);
      ProcessUndo(undoId);
    }

    /** `k` undo requests in a row. */
    method UndoTimes(k: nat, freshIds: nat -> nat)
      requires Valid()
      modifies thread, manager
      ensures Valid() && Abs() == Repeat(old(Abs()), UndoOp, k, manager.maxCheckpoints)
    {
      for i := 0 to k
        invariant Valid() && Abs() == Repeat(old(Abs()), UndoOp, i, manager.maxCheckpoints)
      {
        ProcessUndo(freshIds(i));
        RepeatEnd(old(Abs()), UndoOp, i + 1, manager.maxCheckpoints);
      }
    }

    /** `k` redo requests in a row. */
    method RedoTimes(k: nat, freshIds: nat -> nat)
      requires Valid()
      modifies thread, manager
      ensures Valid() && Abs() == Repeat(old(Abs()), RedoOp, k, manager.maxCheckpoints)
    {
      for i := 0 to k
        invariant Valid() && Abs() == Repeat(old(Abs()), RedoOp, i, manager.maxCheckpoints)
      {
        ProcessRedo(freshIds(i));
        RepeatEnd(old(Abs()), RedoOp, i + 1, manager.maxCheckpoints);
      }
    }

    /** On the thread itself: k undos and k redos give back the messages and, up to ids and descriptions, both stacks. */
    method UndoAndRedo(k: nat, undoIds: nat -> nat, redoIds: nat -> nat)
      requires Valid() && k <= |manager.undoStack|
      modifies thread, manager
      ensures Valid() && Print(thread.turns) == old(Print(thread.turns))
      ensures SameUpToIds(manager.undoStack, old(manager.undoStack)) && SameUpToIds(manager.redoStack, old(manager.redoStack))
    {
      ghost var before := Abs();
      GoodIsBounded(manager.undoStack, thread.turns, manager.redoStack, manager.maxCheckpoints);
      UndosThenRedos(before, k, manager.maxCheckpoints);
      UndoTimes(k, undoIds);
      RedoTimes(k, redoIds);
      StacksAgreeUpToIds(manager.undoStack, old(manager.undoStack));
      StacksAgreeUpToIds(manager.redoStack, old(manager.redoStack));
    }

    /**
     * Refinement over every run: whatever is asked, in whatever order, each request amounts to its operations
     * at the moment it is served, the conversation moves as the abstract history does, and stays within the bound.
     */
    method Run(requests: seq<Request>, envs: nat -> CompactionEnv, freshIds: nat -> nat)
      returns (steps: seq<seq<Op>>, ghost moments: seq<Moment>)
      requires Valid()
      modifies thread, manager
      ensures Valid() && Abs() == ApplyGroups(old(Abs()), steps, manager.maxCheckpoints)
      ensures |steps| == |requests| && IsHistory(old(Now()), Now(), Bounds(), requests, envs, freshIds, moments)
      ensures forall i :: 0 <= i < |steps| ==> steps[i] == StepsFor(moments[i], Bounds(), requests[i], envs(i))
      ensures Bounded(Abs(), manager.maxCheckpoints)
    {
      steps, moments := [], [Now()];
      for i := 0 to |requests|
        invariant Valid() && Abs() == ApplyGroups(old(Abs()), steps, manager.maxCheckpoints)
        invariant |steps| == i && IsHistory(old(Now()), Now(), Bounds(), requests[..i], envs, freshIds, moments)
        invariant forall j :: 0 <= j < i ==> steps[j] == StepsFor(moments[j], Bounds(), requests[j], envs(j))
      {
        ghost var before := Now();
        var more := Serve(requests[i], envs(i), freshIds(i));
        HistoryGrows(old(Now()), before, Now(), Bounds(), requests, envs, freshIds, moments, i);
        GroupsGrow(old(Abs()), steps, more, manager.maxCheckpoints);
        moments := moments + [Now()];
        steps := steps + [more];
      }
      assert requests[..|requests|] == requests;
      GoodIsBounded(manager.undoStack, thread.turns, manager.redoStack, manager.maxCheckpoints);
    }
  }

  /** The moments of a run: each is what serving the next request made of the one before. */
  predicate IsHistory(first: Moment, last: Moment, limits: Limits, requests: seq<Request>, envs: nat -> CompactionEnv,
                      freshIds: nat -> nat, moments: seq<Moment>)
  {
    && |moments| == |requests| + 1 && moments[0] == first && moments[|requests|] == last
    && forall i :: 0 <= i < |requests| ==> MovesAt(moments, limits, requests, envs, freshIds, i)
  }

  predicate MovesAt(moments: seq<Moment>, limits: Limits, requests: seq<Request>, envs: nat -> CompactionEnv,
                    freshIds: nat -> nat, i: nat)
    requires i < |requests| && i + 1 < |moments|
  {
    Moves(moments[i], moments[i + 1], limits, requests[i], envs(i), freshIds(i))
  }

  lemma HistoryGrows(first: Moment, last: Moment, next: Moment, limits: Limits, requests: seq<Request>,
                     envs: nat -> CompactionEnv, freshIds: nat -> nat, moments: seq<Moment>, n: nat)
    requires n < |requests| && IsHistory(first, last, limits, requests[..n], envs, freshIds, moments)
    requires Moves(last, next, limits, requests[n], envs(n), freshIds(n))
    ensures IsHistory(first, next, limits, requests[..n + 1], envs, freshIds, moments + [next])
  {
    var moments', served := moments + [next], requests[..n + 1];
    forall i | 0 <= i < |served|
      ensures MovesAt(moments', limits, served, envs, freshIds, i)
    {
      if i < n {
        assert MovesAt(moments, limits, requests[..n], envs, freshIds, i);
      }
    }
  }

  lemma ApplyOne(h: History, op: Op, max: nat)
    ensures ApplyAll(h, [op], max) == Apply(h, op, max)
  {
    assert [op][..0] == [];
  }

  lemma ApplyTwo(h: History, a: Op, b: Op, max: nat)
    ensures ApplyAll(h, [a, b], max) == Apply(Apply(h, a, max), b, max)
  {
    assert [a, b][..1] == [a];
    ApplyOne(h, a, max);
  }
}
