/** Compacting a thread to its most recent turns (src/agent/compaction.rs). */
module Compaction {
  import opened Wrappers
  import opened Session
  import opened ContextMonitor

  datatype CompactionResult = CompactionResult(
    turnsRemoved: nat, tokensBefore: nat, tokensAfter: nat, summaryWritten: bool, summary: Option<string>)

  /** What the LLM and the workspace do: the summary if one can be made, and whether a write succeeds. */
  datatype CompactionEnv = CompactionEnv(summary: Option<string>, hasWorkspace: bool, writeOk: bool)

  datatype CompactionError = SummaryFailed

  /** How many turns a strategy keeps. */
  function Keeps(strategy: CompactionStrategy, env: CompactionEnv): nat {
    match strategy
    case Summarize(keep) => keep
    case Truncate(keep) => keep
    case MoveToWorkspace => if env.hasWorkspace then 10 else 5
  }

  /** Only a needed summary can fail. */
  predicate Fails(turns: seq<Turn>, strategy: CompactionStrategy, env: CompactionEnv) {
    strategy.Summarize? && |turns| > strategy.keepRecent && env.summary.None?
  }

  method Compact(thread: Thread, strategy: CompactionStrategy, env: CompactionEnv)
    returns (r: Result<CompactionResult, CompactionError>)
    modifies thread
    ensures r.Err? <==> Fails(old(thread.turns), strategy, env)
    ensures r.Err? ==> thread.View() == old(thread.View())
    ensures r.Ok? ==> thread.View() == old(thread.View()).(turns := Recent(old(thread.turns), Keeps(strategy, env)))
    ensures r.Ok? ==> r.value.turnsRemoved + |thread.turns| == old(|thread.turns|)
    ensures r.Ok? ==>
              var kept := match strategy
                          case Summarize(n) => n
                          case Truncate(n) => n
                          case MoveToWorkspace => if env.hasWorkspace then 10 else 5;
              |thread.turns| == if old(|thread.turns|) <= kept then old(|thread.turns|) else kept
    ensures r.Err? <==> strategy.Summarize? && old(|thread.turns|) > strategy.keepRecent && env.summary.None?
    ensures r.Ok? ==> r.value.tokensBefore == old(EstimateTokens(Print(thread.turns)))
    ensures r.Ok? ==> r.value.tokensAfter == EstimateTokens(Print(thread.turns)) <= r.value.tokensBefore
    ensures r.Ok? ==> (r.value.summary.Some? <==> strategy.Summarize? && r.value.turnsRemoved > 0)
    ensures r.Ok? ==> (r.value.summaryWritten <==>
              !strategy.Truncate? && r.value.turnsRemoved > 0 && env.hasWorkspace && env.writeOk)
  {
    RecentShrinks(thread.turns, Keeps(strategy, env));
    var messages := thread.Messages();
    var before := Analyze(messages);
    var removed, written, summary := 0, false, None;
    match strategy {
      case Summarize(keepRecent) =>
        if |thread.turns| > keepRecent {
          if env.summary.None? {
            return Err(SummaryFailed);
          }
          summary := env.summary;
          written := env.hasWorkspace && env.writeOk;
          removed := |thread.turns| - keepRecent;
          thread.TruncateTurns(keepRecent);
        }
      case Truncate(keepRecent) =>
        removed := CompactTruncate(thread, keepRecent);
      case MoveToWorkspace =>
        if !env.hasWorkspace {
          removed := CompactTruncate(thread, 5);
        } else if |thread.turns| > 10 {
          written := env.writeOk;
          removed := |thread.turns| - 10;
          thread.TruncateTurns(10);
        }
    }
    var messagesAfter := thread.Messages();
    var after := Analyze(messagesAfter);
    r := Ok(CompactionResult(removed, before.totalTokens, after.totalTokens, written, summary));
  }

  method CompactTruncate(thread: Thread, keepRecent: nat) returns (removed: nat)
    modifies thread
    ensures thread.View() == old(thread.View()).(turns := Recent(old(thread.turns), keepRecent))
    ensures removed + |thread.turns| == old(|thread.turns|)
  {
    var turnsBefore := |thread.turns|;
    thread.TruncateTurns(keepRecent);
    removed := turnsBefore - |thread.turns|;
  }

  /** Truncating twice is truncating once to the smaller count. */
  lemma TruncateTwice(turns: seq<Turn>, a: nat, b: nat)
    ensures Recent(Recent(turns, a), b) == Recent(turns, if a < b then a else b)
  {
  }

  /** Renumbering does not show in the messages. */
  lemma {:induction false} RenumberPrints(a: seq<Turn>, b: seq<Turn>)
    requires |a| == |b| && forall i :: 0 <= i < |a| ==> b[i] == a[i].(number := b[i].number)
    ensures Print(b) == Print(a)
  {
    if a != [] {
      assert b[0] == a[0].(number := b[0].number);
      RenumberPrints(a[1..], b[1..]);
    }
  }

  /** Compaction keeps a suffix of the printed conversation, so the token total never rises. */
  lemma RecentShrinks(turns: seq<Turn>, keep: nat)
    ensures var gone := if |turns| <= keep then 0 else |turns| - keep;
            && Print(turns) == Print(turns[..gone]) + Print(Recent(turns, keep))
            && |Recent(turns, keep)| == |turns| - gone
    ensures EstimateTokens(Print(Recent(turns, keep))) <= EstimateTokens(Print(turns))
  {
    var gone := if |turns| <= keep then 0 else |turns| - keep;
    PrintSplit(turns[..gone], turns[gone..]);
    assert turns == turns[..gone] + turns[gone..];
    RenumberPrints(turns[gone..], Recent(turns, keep));
    EstimateAppend(Print(turns[..gone]), Print(turns[gone..]));
  }
}
