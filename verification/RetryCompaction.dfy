/** Emergency compaction of a context that the provider found too long (`compact_messages_for_retry`). */
module RetryCompaction {
  import opened Wrappers
  import opened Llm
  import opened Protocol

  /** The note that tells the LLM that history was dropped; its wording is abridged. */
  function Note(): ChatMessage { SystemMsg("[Note]") }

  /** The messages whose role passes the test, in order. */
  function WithSystem(ms: seq<ChatMessage>, system: bool): seq<ChatMessage> {
    if ms == [] then []
    else
      var front := WithSystem(ms[..|ms| - 1], system);
      var last := ms[|ms| - 1];
      if (last.role == System) == system then front + [last] else front
  }

  /** Every message is a system message (`system`), or none is. */
  predicate All(ms: seq<ChatMessage>, system: bool) {
    forall i :: 0 <= i < |ms| ==> (ms[i].role == System) == system
  }

  function Systems(ms: seq<ChatMessage>): seq<ChatMessage> { WithSystem(ms, true) }

  function LastUser(ms: seq<ChatMessage>): (r: Option<nat>)
    ensures r.Some? ==> r.value < |ms| && ms[r.value].role == User
    ensures r.Some? ==> forall i :: r.value < i < |ms| ==> ms[i].role != User
    ensures r.None? ==> forall i :: 0 <= i < |ms| ==> ms[i].role != User
  {
    if ms == [] then None
    else if ms[|ms| - 1].role == User then Some(|ms| - 1)
    else LastUser(ms[..|ms| - 1])
  }

  /** What is put before the exchange that starts at `cut`: earlier system messages and a note if history is dropped. */
  function Preface(ms: seq<ChatMessage>, cut: nat): seq<ChatMessage>
    requires cut <= |ms|
  {
    if cut > 0 then Systems(ms[..cut]) + [Note()] else []
  }

  /** What compaction is meant to keep. */
  function Compacted(ms: seq<ChatMessage>): seq<ChatMessage> {
    match LastUser(ms)
    case Some(cut) => Preface(ms, cut) + ms[cut..]
    case None => Systems(ms) + WithSystem(ms, false)
  }

  /** One copying loop: the messages before `upTo` that pass the test. */
  method Collect(messages: seq<ChatMessage>, upTo: nat, system: bool) returns (kept: seq<ChatMessage>)
    requires upTo <= |messages|
    ensures kept == WithSystem(messages[..upTo], system)
  {
    kept := [];
    for k := 0 to upTo
      invariant kept == WithSystem(messages[..k], system)
    {
      assert messages[..k + 1][..k] == messages[..k];
      if (messages[k].role == System) == system {
        kept := kept + [messages[k]];
      }
    }
  }

  /** The backwards search of `rposition`. */
  method FindLastUser(messages: seq<ChatMessage>) returns (at: Option<nat>)
    ensures at == LastUser(messages)
  {
    var i := |messages|;
    while i > 0 && messages[i - 1].role != User
      invariant 0 <= i <= |messages|
      invariant LastUser(messages) == LastUser(messages[..i])
    {
      assert messages[..i][..i - 1] == messages[..i - 1];
      i := i - 1;
    }
    assert messages[..|messages|] == messages;
    at := if i > 0 then Some(i - 1) else None;
  }

  method CompactMessagesForRetry(messages: seq<ChatMessage>) returns (compacted: seq<ChatMessage>)
    ensures compacted == Compacted(messages)
  {
    compacted := [];
    var lastUserIdx := FindLastUser(messages);
    if lastUserIdx.Some? {
      var cut := lastUserIdx.value;
      compacted := Collect(messages, cut, true);
      if cut > 0 {
        compacted := compacted + [Note()];
      }
      compacted := compacted + messages[cut..];
    } else {
      compacted := Collect(messages, |messages|, true);
      var others := Collect(messages, |messages|, false);
      compacted := compacted + others;
      assert messages[..|messages|] == messages;
    }
  }

  lemma {:induction false} WithSystemAppend(a: seq<ChatMessage>, b: seq<ChatMessage>, system: bool)
    ensures WithSystem(a + b, system) == WithSystem(a, system) + WithSystem(b, system)
    decreases |b|
  {
    if b == [] {
      assert a + b == a;
    } else {
      var b' := b[..|b| - 1];
      WithSystemAppend(a, b', system);
      assert (a + b)[..|a + b| - 1] == a + b';
    }
  }

  lemma {:induction false} WithSystemAll(ms: seq<ChatMessage>, system: bool)
    requires All(ms, system)
    ensures WithSystem(ms, system) == ms && WithSystem(ms, !system) == []
  {
    if ms != [] {
      WithSystemAll(ms[..|ms| - 1], system);
      assert ms == ms[..|ms| - 1] + [ms[|ms| - 1]];
    }
  }

  lemma {:induction false} WithSystemIsAll(ms: seq<ChatMessage>, system: bool)
    ensures All(WithSystem(ms, system), system)
    ensures forall m :: m in WithSystem(ms, system) ==> m in ms
  {
    if ms != [] {
      WithSystemIsAll(ms[..|ms| - 1], system);
    }
  }

  /** System messages that ask for nothing are well formed in any number. */
  lemma {:induction false} PlainIsWellFormed(ms: seq<ChatMessage>)
    requires All(ms, true)
    requires forall i :: 0 <= i < |ms| ==> !AsksForTools(ms[i])
    ensures WellFormed(ms)
  {
    if ms != [] {
      PlainIsWellFormed(ms[1..]);
    }
  }

  /** In a well-formed context only assistant messages ask for tools. */
  lemma OnlyAssistantsAsk(ms: seq<ChatMessage>)
    requires WellFormed(ms)
    ensures forall m :: m in ms && AsksForTools(m) ==> m.role == Assistant
  {
    WellFormedIffAnsweredEverywhere(ms);
    forall m | m in ms && AsksForTools(m)
      ensures m.role == Assistant
    {
      var i :| 0 <= i < |ms| && ms[i] == m;
      assert RequestAnswered(ms, i);
    }
  }

  /** A context opens with one plain message or one whole round; either stays in order without system messages. */
  lemma FirstRoundKept(ms: seq<ChatMessage>) returns (first: seq<ChatMessage>, rest: seq<ChatMessage>)
    requires ms != [] && WellFormed(ms)
    ensures first != [] && ms == first + rest && WellFormed(rest)
    ensures WellFormed(WithSystem(first, false))
  {
    var n := HeadLen(ms);
    first, rest := ms[..n], ms[n..];
    if AsksForTools(ms[0]) {
      RoundBody(ms);
      WithSystemAll(first, false);
      HeadOkAppend(first, rest);
      assert ms == first + rest && first[n..] == [];
    } else {
      assert first == [ms[0]] && first[1..] == [];
      WithSystemAll(first, ms[0].role == System);
    }
  }

  lemma KeptAppend(a: seq<ChatMessage>, b: seq<ChatMessage>)
    requires WellFormed(WithSystem(a, false)) && WellFormed(WithSystem(b, false))
    ensures WellFormed(WithSystem(a + b, false))
  {
    WithSystemAppend(a, b, false);
    WellFormedAppend(WithSystem(a, false), WithSystem(b, false));
  }

  /** Dropping the system messages leaves every round intact: rounds hold no system message. */
  lemma {:induction false} WithoutSystemsWellFormed(ms: seq<ChatMessage>)
    requires WellFormed(ms)
    ensures WellFormed(WithSystem(ms, false))
    decreases |ms|
  {
    if ms != [] {
      var first, rest := FirstRoundKept(ms);
      WithoutSystemsWellFormed(rest);
      KeptAppend(first, rest);
    }
  }

  lemma PrefaceIsAll(ms: seq<ChatMessage>, cut: nat)
    requires cut <= |ms|
    ensures All(Preface(ms, cut), true)
    ensures forall m :: m in Preface(ms, cut) ==> m in ms || m == Note()
  {
    WithSystemIsAll(ms[..cut], true);
  }

  /** Compaction never separates a tool result from its call. */
  lemma CompactionKeepsWellFormed(ms: seq<ChatMessage>)
    requires WellFormed(ms)
    ensures WellFormed(Compacted(ms))
  {
    OnlyAssistantsAsk(ms);
    match LastUser(ms)
    case Some(cut) =>
      CutWellFormed(ms, cut);
      PrefaceIsAll(ms, cut);
      PlainIsWellFormed(Preface(ms, cut));
      WellFormedAppend(Preface(ms, cut), ms[cut..]);
    case None =>
      WithSystemIsAll(ms, true);
      PlainIsWellFormed(Systems(ms));
      WithoutSystemsWellFormed(ms);
      WellFormedAppend(Systems(ms), WithSystem(ms, false));
  }

  lemma CutWellFormed(ms: seq<ChatMessage>, cut: nat)
    requires WellFormed(ms) && cut < |ms| && ms[cut].role == User
    ensures WellFormed(ms[cut..])
  {
    assert ms == ms[..cut] + ms[cut..];
    WellFormedSplit(ms[..cut], ms[cut..]);
  }

  /** Where the last user message of a compacted context lies. */
  lemma {:induction false} LastUserAfter(a: seq<ChatMessage>, b: seq<ChatMessage>)
    requires b != [] && b[0].role == User
    requires forall i :: 0 < i < |b| ==> b[i].role != User
    ensures LastUser(a + b) == Some(|a|)
    decreases |b|
  {
    if |b| > 1 {
      var b' := b[..|b| - 1];
      LastUserAfter(a, b');
      assert (a + b)[..|a + b| - 1] == a + b';
    }
  }

  /** What survives, first part: everything from the last user message on, which stays the last one. */
  lemma CompactionKeepsExchange(ms: seq<ChatMessage>, cut: nat)
    requires LastUser(ms) == Some(cut)
    ensures |ms| - cut <= |Compacted(ms)|
    ensures var start := |Compacted(ms)| - (|ms| - cut);
            Compacted(ms)[start..] == ms[cut..] && LastUser(Compacted(ms)) == Some(start)
  {
    LastUserAfter(Preface(ms, cut), ms[cut..]);
  }

  /**
   * Second part: each system message survives exactly once and in order, with at most the one note put
   * between the earlier and the later ones.
   */
  lemma CompactionKeepsSystems(ms: seq<ChatMessage>, cut: nat)
    requires LastUser(ms) == Some(cut)
    ensures Systems(ms) == Systems(ms[..cut]) + Systems(ms[cut..])
    ensures cut == 0 ==> Systems(Compacted(ms)) == Systems(ms)
    ensures cut > 0 ==> Systems(Compacted(ms)) == Systems(ms[..cut]) + [Note()] + Systems(ms[cut..])
  {
    assert ms == ms[..cut] + ms[cut..];
    WithSystemAppend(ms[..cut], ms[cut..], true);
    PrefaceIsAll(ms, cut);
    WithSystemAll(Preface(ms, cut), true);
    WithSystemAppend(Preface(ms, cut), ms[cut..], true);
  }

  /** Without a user message nothing is lost: the result is a permutation, system messages first. */
  lemma CompactionWithoutUser(ms: seq<ChatMessage>)
    requires LastUser(ms).None?
    ensures multiset(Compacted(ms)) == multiset(ms)
    ensures Compacted(Compacted(ms)) == Compacted(ms)
    ensures Systems(Compacted(ms)) == Systems(ms) && WithSystem(Compacted(ms), false) == WithSystem(ms, false)
    ensures |Systems(ms)| <= |Compacted(ms)|
    ensures All(Compacted(ms)[..|Systems(ms)|], true) && All(Compacted(ms)[|Systems(ms)|..], false)
  {
    Partition(ms);
    WithSystemIsAll(ms, true);
    WithSystemIsAll(ms, false);
    var r := Compacted(ms);
    var s, t := Systems(ms), WithSystem(ms, false);
    assert forall m :: m in r ==> m in ms && m.role != User;
    assert LastUser(r).None?;
    WithSystemAll(s, true);
    WithSystemAll(t, false);
    WithSystemAppend(s, t, true);
    WithSystemAppend(s, t, false);
    assert s + [] == s && [] + t == t;
  }

  lemma {:induction false} Partition(ms: seq<ChatMessage>)
    ensures multiset(WithSystem(ms, true) + WithSystem(ms, false)) == multiset(ms)
  {
    if ms != [] {
      var front := ms[..|ms| - 1];
      Partition(front);
      assert ms == front + [ms[|ms| - 1]];
    }
  }

  /** Compacting an already short context: system messages, then the last exchange. */
  lemma CompactShort(kept: seq<ChatMessage>, tail: seq<ChatMessage>)
    requires All(kept, true)
    requires kept != [] && tail != [] && tail[0].role == User
    requires forall i :: 0 < i < |tail| ==> tail[i].role != User
    ensures Compacted(kept + tail) == kept + [Note()] + tail
  {
    var ms := kept + tail;
    LastUserAfter(kept, tail);
    WithSystemAll(kept, true);
    assert ms[..|kept|] == kept && ms[|kept|..] == tail;
  }

  /** A second compaction changes nothing but one more note. */
  lemma CompactionTwice(ms: seq<ChatMessage>, cut: nat)
    requires LastUser(ms) == Some(cut)
    ensures cut == 0 ==> Compacted(ms) == ms
    ensures cut > 0 ==> Compacted(ms) == Systems(ms[..cut]) + [Note()] + ms[cut..]
    ensures cut > 0 ==> Compacted(Compacted(ms)) == Systems(ms[..cut]) + [Note()] + [Note()] + ms[cut..]
  {
    if cut == 0 {
      assert ms[0..] == ms;
    } else {
      PrefaceIsAll(ms, cut);
      CompactShort(Preface(ms, cut), ms[cut..]);
    }
  }
}
