/** Threads and their turns (src/agent/session.rs), and the messages they print to and are restored from. */
module Session {
  import opened Wrappers
  import opened Llm
  import opened Pending

  datatype ThreadState = Idle | Processing | AwaitingApproval | Completed | Interrupted

  datatype TurnState = TurnProcessing | TurnCompleted | TurnFailed | TurnInterrupted

  datatype TurnToolCall = TurnToolCall(name: string, parameters: string, result: Option<string>, error: Option<string>)

  /** A thread owns its turns, so a turn is a value; timestamps are left out. */
  datatype Turn = Turn(
    number: nat,
    userInput: string,
    response: Option<string>,
    toolCalls: seq<TurnToolCall>,
    state: TurnState,
    error: Option<string>)
  {
    function Complete(text: string): Turn { this.(response := Some(text), state := TurnCompleted) }

    function Fail(message: string): Turn { this.(error := Some(message), state := TurnFailed) }

    function Interrupt(): Turn { this.(state := TurnInterrupted) }

    function RecordToolCall(name: string, parameters: string): Turn {
      this.(toolCalls := toolCalls + [TurnToolCall(name, parameters, None, None)])
    }

    /** Results and errors go to the last recorded call. */
    function RecordToolResult(text: string): Turn {
      if toolCalls == [] then this
      else this.(toolCalls := toolCalls[|toolCalls| - 1 := toolCalls[|toolCalls| - 1].(result := Some(text))])
    }

    function RecordToolError(message: string): Turn {
      if toolCalls == [] then this
      else this.(toolCalls := toolCalls[|toolCalls| - 1 := toolCalls[|toolCalls| - 1].(error := Some(message))])
    }
  }

  function NewTurn(number: nat, userInput: string): Turn {
    Turn(number, userInput, None, [], TurnProcessing, None)
  }

  // ----- Turns to messages and back -----

  function PrintTurn(t: Turn): seq<ChatMessage> {
    match t.response
    case None => [UserMsg(t.userInput)]
    case Some(text) => [UserMsg(t.userInput), AssistantMsg(text)]
  }

  function Print(turns: seq<Turn>): seq<ChatMessage> {
    if turns == [] then [] else PrintTurn(turns[0]) + Print(turns[1..])
  }

  /** A user message opens a turn, an assistant message right after it completes it, all else is dropped. */
  function Parse(ms: seq<ChatMessage>, number: nat): seq<Turn>
    decreases |ms|
  {
    if ms == [] then []
    else if ms[0].role != User then Parse(ms[1..], number)
    else if |ms| > 1 && ms[1].role == Assistant then
      [NewTurn(number, ms[0].content).Complete(ms[1].content)] + Parse(ms[2..], number + 1)
    else [NewTurn(number, ms[0].content)] + Parse(ms[1..], number + 1)
  }

  /** One step of parsing, by position. */
  lemma ParseAt(ms: seq<ChatMessage>, i: nat, number: nat)
    requires i < |ms|
    ensures Parse(ms[i..], number) ==
            if ms[i].role != User then Parse(ms[i + 1..], number)
            else if i + 1 < |ms| && ms[i + 1].role == Assistant then
              [NewTurn(number, ms[i].content).Complete(ms[i + 1].content)] + Parse(ms[i + 2..], number + 1)
            else [NewTurn(number, ms[i].content)] + Parse(ms[i + 1..], number + 1)
  {
    var rest := ms[i..];
    assert rest[1..] == ms[i + 1..];
    assert i + 1 < |ms| ==> rest[2..] == ms[i + 2..];
  }

  /** The messages before `i` have been read into `turns`. */
  predicate ReadTo(turns: seq<Turn>, ms: seq<ChatMessage>, i: nat)
    requires i <= |ms|
  {
    turns + Parse(ms[i..], |turns|) == Parse(ms, 0)
  }

  lemma ReadsOn(turns: seq<Turn>, ms: seq<ChatMessage>, i: nat)
    requires i < |ms| && ReadTo(turns, ms, i)
    ensures if ms[i].role != User then ReadTo(turns, ms, i + 1)
            else if i + 1 < |ms| && ms[i + 1].role == Assistant then
              ReadTo(turns + [NewTurn(|turns|, ms[i].content).Complete(ms[i + 1].content)], ms, i + 2)
            else ReadTo(turns + [NewTurn(|turns|, ms[i].content)], ms, i + 1)
  {
    ParseAt(ms, i, |turns|);
    if ms[i].role == User {
      if i + 1 < |ms| && ms[i + 1].role == Assistant {
        ParseTaken(turns, ms, i, NewTurn(|turns|, ms[i].content).Complete(ms[i + 1].content), i + 2);
      } else {
        ParseTaken(turns, ms, i, NewTurn(|turns|, ms[i].content), i + 1);
      }
    }
  }

  lemma ReadsAll(turns: seq<Turn>, ms: seq<ChatMessage>)
    ensures ReadTo([], ms, 0)
    ensures ReadTo(turns, ms, |ms|) ==> turns == Parse(ms, 0)
  {
    assert ms[0..] == ms;
  }

  /** One turn taken off the front of what is still to be parsed. */
  lemma ParseTaken(turns: seq<Turn>, ms: seq<ChatMessage>, start: nat, turn: Turn, next: nat)
    requires start <= next <= |ms|
    requires Parse(ms[start..], |turns|) == [turn] + Parse(ms[next..], |turns| + 1)
    ensures turns + Parse(ms[start..], |turns|) == (turns + [turn]) + Parse(ms[next..], |turns + [turn]|)
  {
  }

  /** A bare user message, or a bare assistant message right after a user message. */
  predicate PrintedAt(ms: seq<ChatMessage>, i: nat)
    requires i < |ms|
  {
    || ms[i] == UserMsg(ms[i].content)
    || (ms[i] == AssistantMsg(ms[i].content) && i > 0 && ms[i - 1].role == User)
  }

  /** What printing can produce: user messages, each followed by at most one assistant message. */
  predicate IsPrinted(ms: seq<ChatMessage>) {
    forall i :: 0 <= i < |ms| ==> PrintedAt(ms, i)
  }

  /** What messages can carry of a turn. */
  datatype Exchange = Exchange(userInput: string, response: Option<string>)

  function Exchanges(turns: seq<Turn>): (r: seq<Exchange>)
    ensures |r| == |turns|
    ensures forall i :: 0 <= i < |turns| ==> r[i] == Exchange(turns[i].userInput, turns[i].response)
  {
    if turns == [] then []
    else [Exchange(turns[0].userInput, turns[0].response)] + Exchanges(turns[1..])
  }

  function UserCount(ms: seq<ChatMessage>): nat {
    if ms == [] then 0 else (if ms[0].role == User then 1 else 0) + UserCount(ms[1..])
  }

  function Renumber(turns: seq<Turn>): seq<Turn> {
    seq(|turns|, i requires 0 <= i < |turns| => turns[i].(number := i))
  }

  /** The last `keep` turns, or all if there are no more. */
  function Recent(turns: seq<Turn>, keep: nat): seq<Turn> {
    if |turns| <= keep then turns else Renumber(turns[|turns| - keep..])
  }

  /** Only the last turn, if there is one, changed: its state, and its response and error where one is given. */
  predicate LastIs(after: seq<Turn>, before: seq<Turn>, response: Option<string>, state: TurnState, error: Option<string>) {
    && |after| == |before|
    && (before != [] ==>
          var t, was := after[|after| - 1], before[|before| - 1];
          && after[..|after| - 1] == before[..|before| - 1]
          && t == Turn(was.number, was.userInput, if response.Some? then response else was.response, was.toolCalls, state,
                       if error.Some? then error else was.error))
  }

  datatype ThreadView = ThreadView(
    state: ThreadState, turns: seq<Turn>, pendingApproval: Option<PendingApproval>, pendingAuth: Option<string>)

  class Thread {
    var state: ThreadState
    var turns: seq<Turn>
    var pendingApproval: Option<PendingApproval>
    var pendingAuth: Option<string>

    function View(): ThreadView
      reads this
    {
      ThreadView(state, turns, pendingApproval, pendingAuth)
    }

    constructor ()
      ensures View() == ThreadView(Idle, [], None, None)
    {
      state, turns, pendingApproval, pendingAuth := Idle, [], None, None;
    }

    function TurnNumber(): nat
      reads this
    {
      |turns| + 1
    }

    method StartTurn(userInput: string)
      modifies this
      ensures View() == old(View()).(state := Processing, turns := old(turns) + [NewTurn(old(|turns|), userInput)])
      ensures turns == old(turns) + [Turn(old(|turns|), userInput, None, [], TurnProcessing, None)]
    {
      turns := turns + [NewTurn(|turns|, userInput)];
      state := Processing;
    }

    method CompleteTurn(response: string)
      modifies this
      ensures View() == old(View()).(state := Idle, turns := WithLast(old(turns), (t: Turn) => t.Complete(response)))
      ensures LastIs(turns, old(turns), Some(response), TurnCompleted, None)
    {
      if |turns| > 0 {
        turns := turns[|turns| - 1 := turns[|turns| - 1].Complete(response)];
      }
      state := Idle;
    }

    method FailTurn(error: string)
      modifies this
      ensures View() == old(View()).(state := Idle, turns := WithLast(old(turns), (t: Turn) => t.Fail(error)))
      ensures LastIs(turns, old(turns), None, TurnFailed, Some(error))
    {
      if |turns| > 0 {
        turns := turns[|turns| - 1 := turns[|turns| - 1].Fail(error)];
      }
      state := Idle;
    }

    method Interrupt()
      modifies this
      ensures View() == old(View()).(state := Interrupted, turns := WithLast(old(turns), (t: Turn) => t.Interrupt()))
      ensures LastIs(turns, old(turns), None, TurnInterrupted, None)
    {
      if |turns| > 0 {
        turns := turns[|turns| - 1 := turns[|turns| - 1].Interrupt()];
      }
      state := Interrupted;
    }

    method AwaitApproval(pending: PendingApproval)
      modifies this
      ensures View() == old(View()).(state := AwaitingApproval, pendingApproval := Some(pending))
    {
      state := AwaitingApproval;
      pendingApproval := Some(pending);
    }

    method TakePendingApproval() returns (taken: Option<PendingApproval>)
      modifies this
      ensures taken == old(pendingApproval)
      ensures View() == old(View()).(pendingApproval := None)
    {
      taken := pendingApproval;
      pendingApproval := None;
    }

    /** The first lock section of `process_approval`, then its wrong-id branch, with nothing in between. */
    method AnswerWithWrongId(requestId: nat) returns (mismatch: bool)
      modifies this
      ensures mismatch <==> old(state == AwaitingApproval && pendingApproval.Some?
                                && pendingApproval.value.requestId != requestId)
      ensures mismatch ==> View() == old(View())
      ensures old(state) != AwaitingApproval ==> View() == old(View())
    {
      mismatch := false;
      if state != AwaitingApproval {
        return;
      }
      var taken := TakePendingApproval();
      if taken.Some? && taken.value.requestId != requestId {
        AwaitApproval(taken.value);
        mismatch := true;
      }
    }

    method Messages() returns (messages: seq<ChatMessage>)
      ensures messages == Print(turns)
    {
      messages := [];
      for i := 0 to |turns|
        invariant messages == Print(turns[..i])
      {
        PrintAppend(turns[..i], turns[i]);
        assert turns[..i + 1] == turns[..i] + [turns[i]];
        messages := messages + [UserMsg(turns[i].userInput)];
        if turns[i].response.Some? {
          messages := messages + [AssistantMsg(turns[i].response.value)];
        }
      }
      assert turns[..|turns|] == turns;
    }

    method TruncateTurns(keep: nat)
      modifies this
      ensures View() == old(View()).(turns := Recent(old(turns), keep))
    {
      if |turns| > keep {
        turns := turns[|turns| - keep..];
        ghost var kept := turns;
        for i := 0 to |turns|
          invariant |turns| == |kept|
          invariant forall j :: 0 <= j < |turns| ==> turns[j] == if j < i then kept[j].(number := j) else kept[j]
          invariant state == old(state) && pendingApproval == old(pendingApproval) && pendingAuth == old(pendingAuth)
        {
          turns := turns[i := turns[i].(number := i)];
        }
      }
    }

    method RestoreFromMessages(messages: seq<ChatMessage>)
      modifies this
      ensures View() == old(View()).(state := Idle, turns := Parse(messages, 0))
    {
      turns := [];
      state := Idle;
      var i := 0;
      ReadsAll([], messages);
      while i < |messages|
        invariant i <= |messages| && ReadTo(turns, messages, i)
        invariant state == Idle && pendingApproval == old(pendingApproval) && pendingAuth == old(pendingAuth)
      {
        ReadsOn(turns, messages, i);
        var msg := messages[i];
        i := i + 1;
        if msg.role == User {
          var turn := NewTurn(|turns|, msg.content);
          if i < |messages| && messages[i].role == Assistant {
            turn := turn.Complete(messages[i].content);
            i := i + 1;
          }
          turns := turns + [turn];
        }
      }
      ReadsAll(turns, messages);
    }
  }

  function WithLast(turns: seq<Turn>, f: Turn -> Turn): seq<Turn> {
    if turns == [] then [] else turns[|turns| - 1 := f(turns[|turns| - 1])]
  }

  // ----- Printing and parsing undo each other -----

  lemma {:induction false} PrintSplit(a: seq<Turn>, b: seq<Turn>)
    ensures Print(a + b) == Print(a) + Print(b)
  {
    if a == [] {
      assert a + b == b;
    } else {
      calc {
        Print(a + b);
        { assert (a + b)[0] == a[0] && (a + b)[1..] == a[1..] + b; }
        PrintTurn(a[0]) + Print(a[1..] + b);
        { PrintSplit(a[1..], b); }
        PrintTurn(a[0]) + (Print(a[1..]) + Print(b));
        (PrintTurn(a[0]) + Print(a[1..])) + Print(b);
      }
    }
  }

  lemma PrintAppend(turns: seq<Turn>, t: Turn)
    ensures Print(turns + [t]) == Print(turns) + PrintTurn(t)
  {
    PrintSplit(turns, [t]);
    assert [t][1..] == [] && Print([t]) == PrintTurn(t);
  }

  /** One message more in front. */
  lemma UserCountBehind(m: ChatMessage, rest: seq<ChatMessage>)
    ensures UserCount([m] + rest) == (if m.role == User then 1 else 0) + UserCount(rest)
  {
    assert ([m] + rest)[1..] == rest;
  }

  /** A printed list behind one printed turn is printed. */
  lemma PrintedBehind(t: Turn, rest: seq<ChatMessage>)
    requires IsPrinted(rest)
    ensures IsPrinted(PrintTurn(t) + rest)
    ensures UserCount(PrintTurn(t) + rest) == 1 + UserCount(rest)
  {
    var head := PrintTurn(t);
    var ms := head + rest;
    forall i | 0 <= i < |ms|
      ensures PrintedAt(ms, i)
    {
      if i >= |head| {
        assert PrintedAt(rest, i - |head|);
      }
    }
    CountBehind(t, rest);
  }

  lemma CountBehind(t: Turn, rest: seq<ChatMessage>)
    ensures UserCount(PrintTurn(t) + rest) == 1 + UserCount(rest)
  {
    var head := PrintTurn(t);
    UserCountBehind(head[0], head[1..] + rest);
    assert [head[0]] + (head[1..] + rest) == head + rest;
    if |head| == 2 {
      UserCountBehind(head[1], rest);
      assert head[1..] + rest == [head[1]] + rest;
    } else {
      assert head[1..] + rest == rest;
    }
  }

  lemma {:induction false} PrintIsPrinted(turns: seq<Turn>)
    ensures IsPrinted(Print(turns)) && UserCount(Print(turns)) == |turns|
  {
    if turns != [] {
      PrintIsPrinted(turns[1..]);
      PrintedBehind(turns[0], Print(turns[1..]));
    }
  }

  /** Parsing takes one printed turn off the front. */
  lemma ParseStep(t: Turn, rest: seq<ChatMessage>, number: nat)
    requires IsPrinted(rest)
    ensures Parse(PrintTurn(t) + rest, number) ==
            [Parse(PrintTurn(t), number)[0]] + Parse(rest, number + 1)
    ensures var r := Parse(PrintTurn(t), number)[0];
            r.number == number && r.userInput == t.userInput && r.response == t.response
  {
    var ms := PrintTurn(t) + rest;
    if rest != [] {
      assert PrintedAt(rest, 0);
    }
    assert ms[|PrintTurn(t)|..] == rest;
    assert PrintTurn(t)[|PrintTurn(t)|..] == [];
  }

  /** Restoring printed turns gives back every input and every response, numbered from `number`. */
  lemma {:induction false} ParsePrint(turns: seq<Turn>, number: nat)
    ensures |Parse(Print(turns), number)| == |turns|
    ensures Exchanges(Parse(Print(turns), number)) == Exchanges(turns)
    ensures forall i :: 0 <= i < |turns| ==> Parse(Print(turns), number)[i].number == number + i
  {
    if turns != [] {
      ParsePrint(turns[1..], number + 1);
      PrintIsPrinted(turns[1..]);
      ParseStep(turns[0], Print(turns[1..]), number);
      var tail := Parse(Print(turns[1..]), number + 1);
      assert Parse(Print(turns), number)[1..] == tail;
    }
  }

  /** Printing a restored thread gives the same messages exactly when they were a printed list to begin with. */
  lemma {:induction false} PrintParse(ms: seq<ChatMessage>, number: nat)
    ensures Print(Parse(ms, number)) == ms <==> IsPrinted(ms)
    decreases |ms|
  {
    PrintIsPrinted(Parse(ms, number));
    if ms != [] && IsPrinted(ms) {
      assert PrintedAt(ms, 0);
      var n := if |ms| > 1 && ms[1].role == Assistant then 2 else 1;
      var rest := ms[n..];
      forall i | 0 <= i < |rest|
        ensures PrintedAt(rest, i)
      {
        assert PrintedAt(ms, i + n);
      }
      PrintParse(rest, number + 1);
      assert n == 2 ==> PrintedAt(ms, 1);
      var first := Parse(ms, number)[0];
      assert Parse(ms, number)[1..] == Parse(rest, number + 1);
      assert ms == PrintTurn(first) + rest;
    }
  }

  /** On every list each user message becomes a turn, and nothing else does. */
  lemma {:induction false} ParseCounts(ms: seq<ChatMessage>, number: nat)
    ensures |Parse(ms, number)| == UserCount(ms)
    decreases |ms|
  {
    if ms != [] {
      if ms[0].role == User && |ms| > 1 && ms[1].role == Assistant {
        ParseCounts(ms[2..], number + 1);
        assert ms[1..][1..] == ms[2..];
      } else {
        ParseCounts(ms[1..], if ms[0].role == User then number + 1 else number);
      }
    }
  }

  /** How many messages the parser takes at once. */
  function Taken(ms: seq<ChatMessage>): (n: nat)
    requires ms != []
    ensures 1 <= n <= |ms|
  {
    if |ms| > 1 && ms[0].role == User && ms[1].role == Assistant then 2 else 1
  }

  lemma ParseTakes(ms: seq<ChatMessage>, number: nat)
    requires ms != []
    ensures var rest := ms[Taken(ms)..];
            if ms[0].role == User
            then Parse(ms, number) != [] && Parse(ms, number)[1..] == Parse(rest, number + 1)
            else Parse(ms, number) == Parse(rest, number)
  {
  }

  /** The messages taken first hold one user message if they open with one. */
  lemma UsersTaken(ms: seq<ChatMessage>, i: nat)
    requires ms != [] && Taken(ms) <= i <= |ms|
    ensures UserCount(ms[..i]) == (if ms[0].role == User then 1 else 0) + UserCount(ms[Taken(ms)..][..i - Taken(ms)])
  {
    var rest := ms[Taken(ms)..][..i - Taken(ms)];
    assert ms[..i][1..] == ms[1..i];
    if Taken(ms) == 2 {
      assert ms[1..i][1..] == rest;
    } else {
      assert ms[1..i] == rest;
    }
  }

  /** The turn read from the user message at `i`: its text, and the response right behind it if there is one. */
  predicate IsTurnAt(t: Turn, ms: seq<ChatMessage>, i: nat)
    requires i < |ms|
  {
    && t.userInput == ms[i].content
    && t.response == if i + 1 < |ms| && ms[i + 1].role == Assistant then Some(ms[i + 1].content) else None
  }

  /** On every list each user message is read so, numbered by the user messages before it. */
  lemma {:induction false} ParseReads(ms: seq<ChatMessage>, number: nat, i: nat)
    requires i < |ms| && ms[i].role == User
    ensures var turns, u := Parse(ms, number), UserCount(ms[..i]);
            u < |turns| && turns[u].number == number + u && IsTurnAt(turns[u], ms, i)
    decreases |ms|
  {
    if i > 0 {
      var n := Taken(ms);
      var rest := ms[n..];
      ParseTakes(ms, number);
      UsersTaken(ms, i);
      ParseReads(rest, if ms[0].role == User then number + 1 else number, i - n);
      assert rest[i - n] == ms[i] && (i + 1 < |ms| ==> rest[i - n + 1] == ms[i + 1]);
    }
  }

  /** Restore-then-print is a normal form: doing it twice changes nothing more. */
  lemma NormalFormIdempotent(ms: seq<ChatMessage>)
    ensures Print(Parse(Print(Parse(ms, 0)), 0)) == Print(Parse(ms, 0))
  {
    PrintIsPrinted(Parse(ms, 0));
    PrintParse(Print(Parse(ms, 0)), 0);
  }

  /** Printing depends only on the exchanges, and tells them apart. */
  lemma PrintDeterminedByExchanges(a: seq<Turn>, b: seq<Turn>)
    ensures Print(a) == Print(b) <==> Exchanges(a) == Exchanges(b)
  {
    if Print(a) == Print(b) {
      ParsePrint(a, 0);
      ParsePrint(b, 0);
    }
    if Exchanges(a) == Exchanges(b) {
      SameExchangesSamePrint(a, b);
    }
  }

  lemma {:induction false} SameExchangesSamePrint(a: seq<Turn>, b: seq<Turn>)
    requires Exchanges(a) == Exchanges(b)
    ensures Print(a) == Print(b)
  {
    if a != [] {
      assert Exchanges(a)[0] == Exchanges(b)[0];
      assert Exchanges(a)[1..] == Exchanges(b)[1..];
      SameExchangesSamePrint(a[1..], b[1..]);
    }
  }
}
