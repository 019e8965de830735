/**
 * One assistant message with tool calls: preflight, parallel execution into slots, post-flight in order.
 * The same three phases run twice in the source, over a fresh message and over a deferred tail.
 */
module ToolRound {
  import opened Wrappers
  import opened Llm
  import opened Protocol

  /** Output text, or the text of the error. */
  type ToolResult = Result<string, string>

  /** `Rewrite` is a hook's valid replacement of the arguments; anything unparsable is `Keep`. */
  datatype HookVerdict = Reject(reason: string) | Rewrite(arguments: string) | Keep

  /**
   * Everything the round asks of its surroundings, indexed by the position of the call. Every behaviour of
   * hooks, approval policy, tools and task scheduler is some value of this type.
   */
  datatype RoundEnv = RoundEnv(
    hook: nat -> HookVerdict,
    needsApproval: (nat, ToolCall) -> bool,
    execute: (nat, ToolCall) -> ToolResult,
    lost: nat -> bool,                        // the task panicked or was cancelled
    sanitize: (string, string) -> string,
    authInstructions: (string, ToolResult) -> Option<string>)

  /** Fresh calls pass through the hooks; a deferred tail does not, and words its errors differently. */
  datatype Site = Fresh | Deferred

  datatype Outcome = Rejected(message: string) | Runnable

  datatype Slot = Slot(call: ToolCall, outcome: Outcome)

  // ----- What a round is meant to do: the calls one after the other, in order -----

  function Verdict(env: RoundEnv, site: Site, i: nat): HookVerdict {
    if site == Fresh then env.hook(i) else Keep
  }

  /** The call after the hook; only its arguments can have changed. */
  function FinalCall(env: RoundEnv, site: Site, i: nat, call: ToolCall): (r: ToolCall)
    ensures r.id == call.id && r.name == call.name
  {
    match Verdict(env, site, i)
    case Rewrite(arguments) => call.(arguments := arguments)
    case _ => call
  }

  /** The round stops here and asks the user. */
  predicate StopsAt(env: RoundEnv, site: Site, i: nat, call: ToolCall) {
    !Verdict(env, site, i).Reject? && env.needsApproval(i, FinalCall(env, site, i, call))
  }

  /** How many calls are dealt with before the first that needs approval. */
  function Handled(env: RoundEnv, site: Site, calls: seq<ToolCall>, i: nat): (k: nat)
    requires i <= |calls|
    ensures i <= k <= |calls|
    ensures forall j :: i <= j < k ==> !StopsAt(env, site, j, calls[j])
    ensures k < |calls| ==> StopsAt(env, site, k, calls[k])
    decreases |calls| - i
  {
    if i == |calls| || StopsAt(env, site, i, calls[i]) then i else Handled(env, site, calls, i + 1)
  }

  function SlotFor(env: RoundEnv, site: Site, i: nat, call: ToolCall): Slot {
    match Verdict(env, site, i)
    case Reject(reason) => Slot(call, Rejected(reason))
    case _ => Slot(FinalCall(env, site, i, call), Runnable)
  }

  /** A lost task yields an error; a call that runs inline cannot be lost. */
  function ResultFor(env: RoundEnv, parallel: bool, i: nat, call: ToolCall): ToolResult {
    if parallel && env.lost(i) then Err("Task failed during execution") else env.execute(i, call)
  }

  function Render(env: RoundEnv, site: Site, call: ToolCall, result: ToolResult): string {
    match result
    case Ok(output) => env.sanitize(call.name, output)
    case Err(e) => (if site == Fresh then "Tool '" + call.name + "' failed: " else "Error: ") + e
  }

  function Reply(env: RoundEnv, site: Site, parallel: bool, i: nat, slot: Slot): ChatMessage {
    match slot.outcome
    case Rejected(message) => ToolResultMsg(slot.call.id, slot.call.name, message)
    case Runnable =>
      ToolResultMsg(slot.call.id, slot.call.name,
                    Render(env, site, slot.call, ResultFor(env, parallel, i, slot.call)))
  }

  /** The reference: replies of the first `k` calls, executed strictly one after the other. */
  function InOrder(env: RoundEnv, site: Site, parallel: bool, calls: seq<ToolCall>, k: nat): (r: seq<ChatMessage>)
    requires k <= |calls|
    ensures |r| == k
  {
    if k == 0 then []
    else InOrder(env, site, parallel, calls, k - 1)
         + [Reply(env, site, parallel, k - 1, SlotFor(env, site, k - 1, calls[k - 1]))]
  }

  /** The first instructions asking for a token among the first `k` calls. */
  function FirstAuth(env: RoundEnv, site: Site, parallel: bool, calls: seq<ToolCall>, k: nat): Option<string>
    requires k <= |calls|
  {
    if k == 0 then None
    else
      var earlier := FirstAuth(env, site, parallel, calls, k - 1);
      var slot := SlotFor(env, site, k - 1, calls[k - 1]);
      if earlier.Some? || slot.outcome.Rejected? then earlier
      else env.authInstructions(slot.call.name, ResultFor(env, parallel, k - 1, slot.call))
  }

  /** Positions, among the first `k`, of the calls that no hook rejected. */
  function RunnablePositions(env: RoundEnv, site: Site, k: nat): seq<nat> {
    if k == 0 then []
    else RunnablePositions(env, site, k - 1) + (if Verdict(env, site, k - 1).Reject? then [] else [k - 1])
  }

  lemma {:induction false} RunnablePositionsAre(env: RoundEnv, site: Site, k: nat)
    ensures forall i: nat :: i in RunnablePositions(env, site, k) <==> i < k && !Verdict(env, site, i).Reject?
  {
    if k > 0 {
      RunnablePositionsAre(env, site, k - 1);
    }
  }

  /** More than one call goes to the task set; a single one runs inline. */
  predicate IsParallel(env: RoundEnv, site: Site, k: nat) {
    |RunnablePositions(env, site, k)| > 1
  }

  // ----- What a round does, told call by call from the surroundings alone -----

  /** A hook rejected the call; deferred calls pass no hook. */
  predicate Blocked(env: RoundEnv, site: Site, j: nat) { site == Fresh && env.hook(j).Reject? }

  /** The call with the arguments a hook gave it. */
  function Asked(env: RoundEnv, site: Site, j: nat, call: ToolCall): ToolCall {
    if site == Fresh && env.hook(j).Rewrite? then ToolCall(call.id, call.name, env.hook(j).arguments) else call
  }

  /** A task can be lost only beside another one. */
  ghost predicate TaskLost(env: RoundEnv, site: Site, j: nat, k: nat) {
    env.lost(j) && exists i: nat :: i < k && i != j && !Blocked(env, site, i)
  }

  ghost function Outcomes(env: RoundEnv, site: Site, calls: seq<ToolCall>, k: nat, j: nat): ToolResult
    requires j < k <= |calls|
  {
    if TaskLost(env, site, j, k) then Err("Task failed during execution")
    else env.execute(j, Asked(env, site, j, calls[j]))
  }

  /** A rejected call is answered with the hook's reason, any other with its sanitized output or its error. */
  ghost predicate AnsweredAs(env: RoundEnv, site: Site, calls: seq<ToolCall>, k: nat, j: nat, reply: ChatMessage)
    requires j < k <= |calls|
  {
    var name := calls[j].name;
    && reply.role == Tool && reply.toolCallId == Some(calls[j].id) && reply.name == Some(name) && reply.toolCalls == []
    && reply.content ==
         if Blocked(env, site, j) then env.hook(j).reason
         else match Outcomes(env, site, calls, k, j)
           case Ok(output) => env.sanitize(name, output)
           case Err(e) => (if site == Fresh then "Tool '" + name + "' failed: " else "Error: ") + e
  }

  ghost function AuthFrom(env: RoundEnv, site: Site, calls: seq<ToolCall>, k: nat, j: nat): Option<string>
    requires j < k <= |calls|
  {
    if Blocked(env, site, j) then None else env.authInstructions(calls[j].name, Outcomes(env, site, calls, k, j))
  }

  /** The first instructions for a token that any of the first `k` calls yields. */
  ghost predicate AuthIs(env: RoundEnv, site: Site, calls: seq<ToolCall>, k: nat, auth: Option<string>)
    requires k <= |calls|
  {
    if auth.None? then forall j :: 0 <= j < k ==> AuthFrom(env, site, calls, k, j).None?
    else exists j :: 0 <= j < k && AuthFrom(env, site, calls, k, j) == auth
                     && forall i :: 0 <= i < j ==> AuthFrom(env, site, calls, k, i).None?
  }

  predicate NeedsApproval(env: RoundEnv, site: Site, calls: seq<ToolCall>, j: nat)
    requires j < |calls|
  {
    !Blocked(env, site, j) && env.needsApproval(j, Asked(env, site, j, calls[j]))
  }

  /** The round answers the calls before the first that no hook rejected and that needs approval. */
  ghost predicate RoundIs(env: RoundEnv, site: Site, calls: seq<ToolCall>, replies: seq<ChatMessage>, k: nat, auth: Option<string>) {
    && |replies| == k <= |calls|
    && (forall j :: 0 <= j < k ==> !NeedsApproval(env, site, calls, j))
    && (forall j :: 0 <= j < k ==> AnsweredAs(env, site, calls, k, j, replies[j]))
    && (k < |calls| ==> NeedsApproval(env, site, calls, k))
    && AuthIs(env, site, calls, k, auth)
  }

  predicate Increasing(r: seq<nat>, k: nat) {
    && (forall a :: 0 <= a < |r| ==> r[a] < k)
    && (forall a, b :: 0 <= a < b < |r| ==> r[a] < r[b])
  }

  lemma {:induction false} PositionsIncrease(env: RoundEnv, site: Site, k: nat)
    ensures Increasing(RunnablePositions(env, site, k), k)
  {
    if k > 0 {
      PositionsIncrease(env, site, k - 1);
      OneMorePosition(RunnablePositions(env, site, k - 1), k - 1);
    }
  }

  lemma OneMorePosition(p: seq<nat>, k: nat)
    requires Increasing(p, k)
    ensures Increasing(p, k + 1) && Increasing(p + [k], k + 1) && p + [] == p
  {
  }

  /** Calls run in parallel exactly when there are two that no hook rejected. */
  lemma ParallelBesides(env: RoundEnv, site: Site, j: nat, k: nat)
    requires j < k && !Blocked(env, site, j)
    ensures IsParallel(env, site, k) <==> exists i: nat :: i < k && i != j && !Blocked(env, site, i)
  {
    var r := RunnablePositions(env, site, k);
    RunnablePositionsAre(env, site, k);
    PositionsIncrease(env, site, k);
    assert j in r;
    if |r| > 1 {
      assert r[0] < r[1];
      var i := if r[0] == j then r[1] else r[0];
      assert i in r && i != j;
      assert i < k && !Blocked(env, site, i);
    }
    if i: nat :| i < k && i != j && !Blocked(env, site, i) {
      assert i in r;
      var a, b :| 0 <= a < |r| && 0 <= b < |r| && r[a] == i && r[b] == j;
    }
  }

  lemma ResultIs(env: RoundEnv, site: Site, calls: seq<ToolCall>, k: nat, j: nat)
    requires j < k <= |calls| && !Blocked(env, site, j)
    ensures ResultFor(env, IsParallel(env, site, k), j, FinalCall(env, site, j, calls[j])) == Outcomes(env, site, calls, k, j)
  {
    ParallelBesides(env, site, j, k);
    assert FinalCall(env, site, j, calls[j]) == Asked(env, site, j, calls[j]);
  }

  lemma ReplyIs(env: RoundEnv, site: Site, calls: seq<ToolCall>, k: nat, j: nat)
    requires j < k <= |calls|
    ensures AnsweredAs(env, site, calls, k, j, Reply(env, site, IsParallel(env, site, k), j, SlotFor(env, site, j, calls[j])))
  {
    if !Blocked(env, site, j) {
      ResultIs(env, site, calls, k, j);
    }
  }

  lemma {:induction false} InOrderAt(env: RoundEnv, site: Site, parallel: bool, calls: seq<ToolCall>, k: nat, j: nat)
    requires j < k <= |calls|
    ensures InOrder(env, site, parallel, calls, k)[j] == Reply(env, site, parallel, j, SlotFor(env, site, j, calls[j]))
  {
    if j < k - 1 {
      InOrderAt(env, site, parallel, calls, k - 1, j);
    }
  }

  lemma {:induction false} FirstAuthIs(env: RoundEnv, site: Site, calls: seq<ToolCall>, k: nat, n: nat)
    requires n <= k <= |calls|
    ensures var auth := FirstAuth(env, site, IsParallel(env, site, k), calls, n);
            if auth.None? then forall j :: 0 <= j < n ==> AuthFrom(env, site, calls, k, j).None?
            else exists j :: 0 <= j < n && AuthFrom(env, site, calls, k, j) == auth
                             && forall i :: 0 <= i < j ==> AuthFrom(env, site, calls, k, i).None?
    decreases n
  {
    if n > 0 {
      FirstAuthIs(env, site, calls, k, n - 1);
      if !Blocked(env, site, n - 1) {
        ResultIs(env, site, calls, k, n - 1);
      }
      assert AuthFrom(env, site, calls, k, n - 1)
          == if Blocked(env, site, n - 1) then None
             else env.authInstructions(calls[n - 1].name, Outcomes(env, site, calls, k, n - 1));
    }
  }

  /** The in-order reference says just that. */
  lemma RoundMeans(env: RoundEnv, site: Site, calls: seq<ToolCall>)
    ensures var k := Handled(env, site, calls, 0);
            var parallel := IsParallel(env, site, k);
            RoundIs(env, site, calls, InOrder(env, site, parallel, calls, k), k, FirstAuth(env, site, parallel, calls, k))
  {
    var k := Handled(env, site, calls, 0);
    forall j | 0 <= j < k
      ensures AnsweredAs(env, site, calls, k, j, InOrder(env, site, IsParallel(env, site, k), calls, k)[j])
    {
      InOrderAt(env, site, IsParallel(env, site, k), calls, k, j);
      ReplyIs(env, site, calls, k, j);
    }
    forall j | 0 <= j < |calls|
      ensures StopsAt(env, site, j, calls[j]) == NeedsApproval(env, site, calls, j)
    {
      StopIs(env, site, calls, j);
    }
    FirstAuthIs(env, site, calls, k, k);
  }

  lemma StopIs(env: RoundEnv, site: Site, calls: seq<ToolCall>, j: nat)
    requires j < |calls|
    ensures StopsAt(env, site, j, calls[j]) == NeedsApproval(env, site, calls, j)
  {
  }

  /** A rejected call keeps the hook's reason, any other is to run with the arguments the hook gave it, unasked. */
  predicate Classified(env: RoundEnv, site: Site, calls: seq<ToolCall>, j: nat, slot: Slot)
    requires j < |calls|
  {
    && !NeedsApproval(env, site, calls, j)
    && slot == if Blocked(env, site, j) then Slot(calls[j], Rejected(env.hook(j).reason))
               else Slot(Asked(env, site, j, calls[j]), Runnable)
  }

  lemma SlotIs(env: RoundEnv, site: Site, calls: seq<ToolCall>, j: nat)
    requires j < |calls| && !StopsAt(env, site, j, calls[j])
    ensures Classified(env, site, calls, j, SlotFor(env, site, j, calls[j]))
  {
  }

  lemma SlotsAre(env: RoundEnv, site: Site, calls: seq<ToolCall>)
    ensures var k := Handled(env, site, calls, 0);
            && (forall j :: 0 <= j < k ==> Classified(env, site, calls, j, SlotFor(env, site, j, calls[j])))
            && (k < |calls| ==>
                  NeedsApproval(env, site, calls, k) && FinalCall(env, site, k, calls[k]) == Asked(env, site, k, calls[k]))
  {
    var k := Handled(env, site, calls, 0);
    forall j | 0 <= j < k
      ensures Classified(env, site, calls, j, SlotFor(env, site, j, calls[j]))
    {
      SlotIs(env, site, calls, j);
    }
    if k < |calls| {
      StopIs(env, site, calls, k);
    }
  }

  // ----- The three phases -----

  /** Phase 1: classify until the first call that needs approval. */
  method Preflight(env: RoundEnv, site: Site, calls: seq<ToolCall>)
    returns (preflight: seq<Slot>, runnable: seq<nat>, approval: Option<ToolCall>)
    ensures |preflight| == Handled(env, site, calls, 0)
    ensures forall i :: 0 <= i < |preflight| ==> preflight[i] == SlotFor(env, site, i, calls[i])
    ensures approval.Some? <==> |preflight| < |calls|
    ensures approval.Some? ==> approval.value == FinalCall(env, site, |preflight|, calls[|preflight|])
    ensures runnable == RunnablePositions(env, site, |preflight|)
    ensures forall j :: 0 <= j < |preflight| ==> Classified(env, site, calls, j, preflight[j])
    ensures approval.Some? ==>
              && NeedsApproval(env, site, calls, |preflight|)
              && approval.value == Asked(env, site, |preflight|, calls[|preflight|])
  {
    preflight, runnable, approval := [], [], None;
    var idx := 0;
    while idx < |calls|
      invariant idx == |preflight| <= |calls|
      invariant Handled(env, site, calls, 0) == Handled(env, site, calls, idx)
      invariant forall i :: 0 <= i < idx ==> preflight[i] == SlotFor(env, site, i, calls[i])
      invariant runnable == RunnablePositions(env, site, idx)
    {
      var tc := FinalCall(env, site, idx, calls[idx]);
      if Verdict(env, site, idx).Reject? {
        preflight := preflight + [Slot(calls[idx], Rejected(Verdict(env, site, idx).reason))];
      } else if env.needsApproval(idx, tc) {
        approval := Some(tc);
        break;  // remaining calls are deferred
      } else {
        runnable := runnable + [|preflight|];
        preflight := preflight + [Slot(tc, Runnable)];
      }
      idx := idx + 1;
    }
    SlotsAre(env, site, calls);
  }

  /** `runnable` holds exactly the positions of the runnable slots. */
  ghost predicate IsRunnable(preflight: seq<Slot>, runnable: seq<nat>) {
    forall i: nat :: i in runnable <==> i < |preflight| && preflight[i].outcome.Runnable?
  }

  /**
   * Phase 2: tasks finish in any order (each pick below is arbitrary) and any of them may be lost; results are
   * put in the slot of their call and empty slots are filled with errors at the end.
   */
  method Execute(env: RoundEnv, preflight: seq<Slot>, runnable: seq<nat>) returns (results: seq<Option<ToolResult>>)
    requires IsRunnable(preflight, runnable)
    ensures |results| == |preflight|
    ensures forall i :: 0 <= i < |preflight| ==>
              results[i] == if preflight[i].outcome.Runnable?
                            then Some(ResultFor(env, |runnable| > 1, i, preflight[i].call)) else None
  {
    var slots := new Option<ToolResult>[|preflight|](_ => None);
    if |runnable| <= 1 {
      if |runnable| == 1 {
        var i := runnable[0];
        assert i in runnable;
        slots[i] := Some(env.execute(i, preflight[i].call));
      }
    } else {
      RunInParallel(env, preflight, runnable, slots);
      FillLost(env, preflight, runnable, slots);
    }
    results := slots[..];
  }

  method RunInParallel(env: RoundEnv, preflight: seq<Slot>, runnable: seq<nat>, slots: array<Option<ToolResult>>)
    requires IsRunnable(preflight, runnable) && slots.Length == |preflight|
    requires forall i :: 0 <= i < slots.Length ==> slots[i] == None
    modifies slots
    ensures forall i :: 0 <= i < slots.Length ==>
              slots[i] == if preflight[i].outcome.Runnable? && !env.lost(i)
                          then Some(env.execute(i, preflight[i].call)) else None
  {
    var running := set i | i in runnable;
    while running != {}
      invariant forall i :: i in running ==> i < slots.Length && preflight[i].outcome.Runnable?
      invariant forall i :: 0 <= i < slots.Length ==>
                  slots[i] == if preflight[i].outcome.Runnable? && i !in running && !env.lost(i)
                              then Some(env.execute(i, preflight[i].call)) else None
      decreases running
    {
      var i :| i in running;
      running := running - {i};
      if !env.lost(i) {
        slots[i] := Some(env.execute(i, preflight[i].call));
      }
    }
  }

  method FillLost(env: RoundEnv, preflight: seq<Slot>, runnable: seq<nat>, slots: array<Option<ToolResult>>)
    requires IsRunnable(preflight, runnable) && slots.Length == |preflight|
    modifies slots
    ensures forall i :: 0 <= i < slots.Length ==>
              slots[i] == if preflight[i].outcome.Runnable? && old(slots[i]) == None
                          then Some(Err("Task failed during execution")) else old(slots[i])
  {
    for r := 0 to |runnable|
      invariant forall i :: 0 <= i < slots.Length ==>
                  slots[i] == if i in runnable[..r] && old(slots[i]) == None
                              then Some(Err("Task failed during execution")) else old(slots[i])
    {
      assert runnable[r] in runnable;
      if slots[runnable[r]].None? {
        slots[runnable[r]] := Some(Err("Task failed during execution"));
      }
      assert runnable[..r + 1] == runnable[..r] + [runnable[r]];
    }
    assert runnable[..|runnable|] == runnable;
  }

  /** Phase 3: one result message per slot, in the original order; the auth return waits until all are recorded. */
  method PostFlight(env: RoundEnv, site: Site, parallel: bool, calls: seq<ToolCall>, context: seq<ChatMessage>,
                    preflight: seq<Slot>, results: seq<Option<ToolResult>>)
    returns (context': seq<ChatMessage>, auth: Option<string>)
    requires |preflight| == |results| <= |calls|
    requires forall i :: 0 <= i < |preflight| ==> preflight[i] == SlotFor(env, site, i, calls[i])
    requires forall i :: 0 <= i < |preflight| && preflight[i].outcome.Runnable? ==>
               results[i] == Some(ResultFor(env, parallel, i, preflight[i].call))
    ensures context' == context + InOrder(env, site, parallel, calls, |preflight|)
    ensures auth == FirstAuth(env, site, parallel, calls, |preflight|)
  {
    context', auth := context, None;
    for i := 0 to |preflight|
      invariant context' == context + InOrder(env, site, parallel, calls, i)
      invariant auth == FirstAuth(env, site, parallel, calls, i)
    {
      var reply;
      reply, auth := ReplyTo(env, site, parallel, calls, i, preflight[i], results[i], auth);
      OneMoreReply(env, site, parallel, calls, context, i, reply);
      context' := context' + [reply];
    }
  }

  /** The result message of one slot; the first instructions for a token are remembered. */
  method ReplyTo(env: RoundEnv, site: Site, parallel: bool, calls: seq<ToolCall>, i: nat, slot: Slot,
                 found: Option<ToolResult>, auth: Option<string>)
    returns (reply: ChatMessage, auth': Option<string>)
    requires i < |calls| && slot == SlotFor(env, site, i, calls[i])
    requires slot.outcome.Runnable? ==> found == Some(ResultFor(env, parallel, i, slot.call))
    requires auth == FirstAuth(env, site, parallel, calls, i)
    ensures reply == Reply(env, site, parallel, i, slot)
    ensures auth' == FirstAuth(env, site, parallel, calls, i + 1)
  {
    var tc := slot.call;
    auth' := auth;
    match slot.outcome {
      case Rejected(message) =>
        reply := ToolResultMsg(tc.id, tc.name, message);
      case Runnable =>
        var result := if found.Some? then found.value else Err("No result available");
        if auth.None? {
          auth' := env.authInstructions(tc.name, result);
        }
        reply := ToolResultMsg(tc.id, tc.name, Render(env, site, tc, result));
    }
  }

  lemma OneMoreReply(env: RoundEnv, site: Site, parallel: bool, calls: seq<ToolCall>, context: seq<ChatMessage>, i: nat,
                     reply: ChatMessage)
    requires i < |calls| && reply == Reply(env, site, parallel, i, SlotFor(env, site, i, calls[i]))
    ensures context + InOrder(env, site, parallel, calls, i) + [reply]
            == context + InOrder(env, site, parallel, calls, i + 1)
  {
  }

  /**
   * A whole round. Whatever order the tasks finish in and whichever are lost, the context grows by exactly the
   * replies of an in-order execution of the calls before the first one that needs approval.
   */
  method RunRound(env: RoundEnv, site: Site, calls: seq<ToolCall>, context: seq<ChatMessage>)
    returns (context': seq<ChatMessage>, auth: Option<string>, approval: Option<ToolCall>, handled: nat)
    ensures handled == Handled(env, site, calls, 0)
    ensures context' == context + InOrder(env, site, IsParallel(env, site, handled), calls, handled)
    ensures auth == FirstAuth(env, site, IsParallel(env, site, handled), calls, handled)
    ensures approval.Some? <==> handled < |calls|
    ensures approval.Some? ==> approval.value == FinalCall(env, site, handled, calls[handled])
    ensures approval.Some? ==> approval.value == Asked(env, site, handled, calls[handled])
    ensures context'[..|context|] == context && RoundIs(env, site, calls, context'[|context|..], handled, auth)
  {
    RoundMeans(env, site, calls);
    var preflight, runnable;
    preflight, runnable, approval := Preflight(env, site, calls);
    RunnablePositionsAre(env, site, |preflight|);
    var results := Execute(env, preflight, runnable);
    context', auth := PostFlight(env, site, |runnable| > 1, calls, context, preflight, results);
    handled := |preflight|;
  }

  // ----- What the round keeps -----

  /** Each reply answers its own call, whatever the hooks, the tools and the scheduler did. */
  lemma {:induction false} InOrderAnswers(env: RoundEnv, site: Site, parallel: bool, calls: seq<ToolCall>, k: nat)
    requires k <= |calls|
    ensures Answers(calls[..k], InOrder(env, site, parallel, calls, k))
  {
    if k > 0 {
      InOrderAnswers(env, site, parallel, calls, k - 1);
      var r := InOrder(env, site, parallel, calls, k);
      assert forall i :: 0 <= i < k - 1 ==> calls[..k][i] == calls[..k - 1][i];
      assert AnswersCall(calls[k - 1], r[k - 1]);
    }
  }

  /** A round takes a context open at `from` to one open at `from` plus the calls it dealt with. */
  lemma RoundExtends(ms: seq<ChatMessage>, before: seq<ChatMessage>, content: string, all: seq<ToolCall>, from: nat,
                     env: RoundEnv, site: Site, parallel: bool, k: nat)
    requires OpenRound(ms, before, content, all, from) && from + k <= |all|
    ensures OpenRound(ms + InOrder(env, site, parallel, all[from..], k), before, content, all, from + k)
  {
    var calls := all[from..];
    var replies := InOrder(env, site, parallel, calls, k);
    InOrderAnswers(env, site, parallel, calls, k);
    var ms' := ms + replies;
    assert ms'[..|before|] == ms[..|before|];
    assert ms'[|before| + 1..] == ms[|before| + 1..] + replies;
    var done, tail := all[..from + k], ms'[|before| + 1..];
    forall i | 0 <= i < |done|
      ensures AnswersCall(done[i], tail[i])
    {
      if i < from {
        assert AnswersCall(all[..from][i], ms[|before| + 1..][i]);
      } else {
        assert AnswersCall(calls[..k][i - from], replies[i - from]);
      }
    }
  }
}
