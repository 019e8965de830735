/** The audit trail of a turn: calls are recorded first, results as they come in (src/agent/session.rs). */
module Audit {
  import opened Wrappers
  import opened Llm
  import opened ToolRound
  import opened Session

  /** The dispatcher records all calls of a message before running any. */
  function RecordCalls(t: Turn, calls: seq<ToolCall>): Turn
    decreases |calls|
  {
    if calls == [] then t
    else RecordCalls(t.RecordToolCall(calls[0].name, calls[0].arguments), calls[1..])
  }

  /** Post-flight records one outcome per call, in order. */
  function RecordOutcomes(t: Turn, outcomes: seq<ToolResult>): Turn
    decreases |outcomes|
  {
    if outcomes == [] then t
    else
      var t' := match outcomes[0]
                case Ok(output) => t.RecordToolResult(output)
                case Err(message) => t.RecordToolError(message);
      RecordOutcomes(t', outcomes[1..])
  }

  /** What the trail promises: the entries from `from` on carry the outcome of their own call and nothing else. */
  predicate Faithful(t: Turn, from: nat, outcomes: seq<ToolResult>) {
    && |t.toolCalls| == from + |outcomes|
    && forall i :: 0 <= i < |outcomes| ==>
         var entry := t.toolCalls[from + i];
         match outcomes[i]
         case Ok(output) => entry.result == Some(output) && entry.error == None
         case Err(message) => entry.result == None && entry.error == Some(message)
  }

  lemma {:induction false} RecordCallsAppends(t: Turn, calls: seq<ToolCall>)
    ensures var r := RecordCalls(t, calls);
            && |r.toolCalls| == |t.toolCalls| + |calls|
            && (forall i :: 0 <= i < |calls| ==>
                  r.toolCalls[|t.toolCalls| + i] == TurnToolCall(calls[i].name, calls[i].arguments, None, None))
            && r.toolCalls[..|t.toolCalls|] == t.toolCalls
    decreases |calls|
  {
    if calls != [] {
      RecordCallsAppends(t.RecordToolCall(calls[0].name, calls[0].arguments), calls[1..]);
      var r := RecordCalls(t, calls);
      forall i | 0 <= i < |calls|
        ensures r.toolCalls[|t.toolCalls| + i] == TurnToolCall(calls[i].name, calls[i].arguments, None, None)
      {
        if i > 0 {
          assert calls[i] == calls[1..][i - 1];
        } else {
          assert r.toolCalls[..|t.toolCalls| + 1][|t.toolCalls|] == r.toolCalls[|t.toolCalls|];
        }
      }
    }
  }

  /** Outcomes only ever reach the last entry. */
  lemma {:induction false} OutcomesTouchLastOnly(t: Turn, outcomes: seq<ToolResult>)
    requires t.toolCalls != []
    ensures var r := RecordOutcomes(t, outcomes);
            |r.toolCalls| == |t.toolCalls| && r.toolCalls[..|t.toolCalls| - 1] == t.toolCalls[..|t.toolCalls| - 1]
    decreases |outcomes|
  {
    if outcomes != [] {
      var t' := match outcomes[0]
                case Ok(output) => t.RecordToolResult(output)
                case Err(message) => t.RecordToolError(message);
      OutcomesTouchLastOnly(t', outcomes[1..]);
    }
  }

  /**
   * The source's comments promise that every tool result is recorded in the audit trail. A message with more
   * than one call breaks that, whatever the outcomes are; with at most one call it holds.
   */
  lemma TrailFaithfulIffSingleCall(t: Turn, calls: seq<ToolCall>, outcomes: seq<ToolResult>)
    requires |outcomes| == |calls|
    ensures Faithful(RecordOutcomes(RecordCalls(t, calls), outcomes), |t.toolCalls|, outcomes) <==> |calls| <= 1
  {
    RecordCallsAppends(t, calls);
    var recorded := RecordCalls(t, calls);
    if |calls| == 1 {
      assert outcomes[1..] == [];
    } else if |calls| > 1 {
      OutcomesTouchLastOnly(recorded, outcomes);
      var r := RecordOutcomes(recorded, outcomes);
      var from := |t.toolCalls|;
      assert r.toolCalls[from] == r.toolCalls[..|recorded.toolCalls| - 1][from];
      assert r.toolCalls[from] == recorded.toolCalls[from + 0];
      assert !Faithful(r, from, outcomes);
    }
  }
}
