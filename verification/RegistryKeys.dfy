/**
 * What a caller of `resolve_thread` may rely on while other calls run: its key keeps its thread, and mapped
 * threads are alive (src/agent/session_manager.rs). Then the three races as facts about the empty manager.
 */
module RegistryKeys {
  import opened Wrappers
  import opened Registry
  import opened RegistryRaces

  // ----- A key keeps its thread -----

  /** The three sections that write the map, each past its guard, and the thread they write. */
  function Written(s: Sys, a: Action): Option<(ThreadKey, Uuid)> {
    var c := CallOf(s, a.p);
    match a
    case AdoptWrite(_) => if c.Confirmed? && c.ext !in s.threadMap.Values then Some((c.key, c.ext)) else None
    case StoreMapping(_) => if c.CreatedThread? then Some((c.key, c.tid)) else None
    case RegisterKey(_) => if c.Inserted? then Some((c.key, c.ext)) else None
    case _ => None
  }

  /** The section gives a mapped key another thread. */
  predicate Overwrites(s: Sys, a: Action, k: ThreadKey)
    requires k in s.threadMap
  {
    match Written(s, a)
    case Some((key, id)) => key == k && id != s.threadMap[k]
    case None => false
  }

  lemma MapAfter(s: Sys, a: Action)
    ensures Next(s, a).threadMap == match Written(s, a)
                                    case Some((key, id)) => s.threadMap[key := id]
                                    case None => s.threadMap
  {
  }

  /** In one step a mapped key keeps its thread exactly when the step does not overwrite it. */
  lemma KeyKeptIffNotOverwritten(s: Sys, a: Action, k: ThreadKey)
    requires k in s.threadMap
    ensures k in Next(s, a).threadMap
    ensures Next(s, a).threadMap[k] == s.threadMap[k] <==> !Overwrites(s, a, k)
  {
    MapAfter(s, a);
  }

  /** A call that has its thread: mapped, and on its way to return it or returned. */
  predicate HasThread(c: Call) { c.StoredMapping? || c.NeedsManager? || c.Resolved? }

  predicate Mapped(s: Sys, c: Call) {
    HasThread(c) ==> c.key in s.threadMap && s.threadMap[c.key] == c.tid
  }

  /** Every call that has its thread has the one its key maps. */
  predicate KeysAgree(s: Sys) {
    forall p :: p in s.calls ==> Mapped(s, s.calls[p])
  }

  /** The step gives another thread to a key that some call already has one for. */
  predicate OverwritesHeld(s: Sys, a: Action) {
    exists q :: q in s.calls && HasThread(s.calls[q]) && s.calls[q].key in s.threadMap && Overwrites(s, a, s.calls[q].key)
  }

  /** A call gets its thread from the map, or by writing it there, in the same step. */
  lemma OwnThreadMapped(s: Sys, a: Action)
    requires Mapped(s, CallOf(s, a.p))
    ensures Mapped(Next(s, a), CallOf(Next(s, a), a.p))
  {
    if Written(s, a).Some? {
      WriterHasThread(s, a);
    } else {
      MapAfter(s, a);
      if HasThread(CallOf(Next(s, a), a.p)) {
        ThreadFromMap(s, a);
      }
    }
  }

  lemma WriterHasThread(s: Sys, a: Action)
    requires Written(s, a).Some?
    ensures Mapped(Next(s, a), CallOf(Next(s, a), a.p))
  {
  }

  /** Without a write a call has the thread it had, or one read from the map. */
  lemma ThreadFromMap(s: Sys, a: Action)
    requires Written(s, a).None? && HasThread(CallOf(Next(s, a), a.p))
    ensures var c, c' := CallOf(s, a.p), CallOf(Next(s, a), a.p);
            || (HasThread(c) && c'.key == c.key && c'.tid == c.tid)
            || (c'.key in s.threadMap && s.threadMap[c'.key] == c'.tid)
  {
  }

  lemma StepKeepsKeys(s: Sys, a: Action)
    requires KeysAgree(s)
    ensures KeysAgree(Next(s, a)) <==> !OverwritesHeld(s, a)
  {
    var s' := Next(s, a);
    if OverwritesHeld(s, a) {
      var q :| q in s.calls && HasThread(s.calls[q]) && s.calls[q].key in s.threadMap && Overwrites(s, a, s.calls[q].key);
      KeyKeptIffNotOverwritten(s, a, s.calls[q].key);
      OneCallMoves(s, a, q);
      assert !Mapped(s', CallOf(s', q));
    } else {
      forall q | q in s'.calls
        ensures Mapped(s', s'.calls[q])
      {
        if q == a.p {
          OwnThreadMapped(s, a);
        } else {
          OneCallMoves(s, a, q);
          if q in s.calls && HasThread(s.calls[q]) {
            KeyKeptIffNotOverwritten(s, a, s.calls[q].key);
          }
        }
      }
    }
  }

  predicate NoOverwrite(actions: seq<Action>) {
    forall i :: 0 <= i < |actions| ==> !OverwritesHeld(Run(Init(), actions[..i]), actions[i])
  }

  lemma {:induction false} RunKeepsKeys(actions: seq<Action>)
    requires NoOverwrite(actions)
    ensures KeysAgree(Run(Init(), actions))
  {
    if actions != [] {
      var front := actions[..|actions| - 1];
      forall i | 0 <= i < |front|
        ensures !OverwritesHeld(Run(Init(), front[..i]), front[i])
      {
        assert front[..i] == actions[..i];
        assert !OverwritesHeld(Run(Init(), actions[..i]), actions[i]);
      }
      RunKeepsKeys(front);
      StepKeepsKeys(Run(Init(), front), actions[|actions| - 1]);
    }
  }

  /** Two calls resolved for one key have one thread, the mapped one, in every run without such a write. */
  lemma OneThreadPerKey(actions: seq<Action>, p: Pid, q: Pid)
    requires NoOverwrite(actions)
    requires var s := Run(Init(), actions);
             CallOf(s, p).Resolved? && CallOf(s, q).Resolved? && CallOf(s, p).key == CallOf(s, q).key
    ensures var s := Run(Init(), actions);
            var c := CallOf(s, p);
            c.tid == CallOf(s, q).tid && c.key in s.threadMap && s.threadMap[c.key] == c.tid
  {
    RunKeepsKeys(actions);
    var s := Run(Init(), actions);
    assert Mapped(s, s.calls[p]) && Mapped(s, s.calls[q]);
  }

  // ----- Mapped threads are alive -----

  predicate Alive(s: Sys, user: string, id: Uuid) {
    user in s.sessions && id in ThreadsOf(s, s.sessions[user])
  }

  predicate OwnSession(s: Sys, user: string, sid: SessionId) {
    user in s.sessions && s.sessions[user] == sid
  }

  /** A call knows the one session of its user, and what it is about to map is alive there. */
  predicate CallLive(s: Sys, c: Call) {
    match c
    case HasSession(user, sid) => OwnSession(s, user, sid)
    case KeyMissed(key, sid) => OwnSession(s, key.user, sid)
    case Candidate(key, sid, _) => OwnSession(s, key.user, sid)
    case Confirmed(key, sid, ext) => OwnSession(s, key.user, sid) && Alive(s, key.user, ext)
    case MustCreate(key, sid) => OwnSession(s, key.user, sid)
    case CreatedThread(key, tid) => Alive(s, key.user, tid)
    case Loading(key, sid, _) => OwnSession(s, key.user, sid)
    case Inserted(key, ext) => Alive(s, key.user, ext)
    case _ => true
  }

  predicate Live(s: Sys) {
    && (forall k :: k in s.threadMap ==> Alive(s, k.user, s.threadMap[k]))
    && (forall p :: p in s.calls ==> CallLive(s, s.calls[p]))
  }

  /** Sessions and their threads only grow. */
  lemma StepGrows(s: Sys, a: Action)
    ensures SessionsGrow(s, Next(s, a))
    ensures forall sid: SessionId :: ThreadsOf(s, sid) <= ThreadsOf(Next(s, a), sid)
  {
    StepGrowsSessions(s, a);
  }

  lemma GrowthKeepsLive(s: Sys, s': Sys, c: Call)
    requires SessionsGrow(s, s') && (forall sid: SessionId :: ThreadsOf(s, sid) <= ThreadsOf(s', sid))
    requires CallLive(s, c)
    ensures CallLive(s', c)
  {
  }

  lemma OwnCallLive(s: Sys, a: Action)
    requires CallLive(s, CallOf(s, a.p))
    ensures CallLive(Next(s, a), CallOf(Next(s, a), a.p))
  {
    if AsksSession(a) {
      AskerLive(s, a);
    } else if a.CreateInSession? || a.HydrateInsert? {
      CreatorLive(s, a);
    } else if a.CheckKey? || a.ReadMap? || a.CheckThread? || a.AdoptWrite? || a.HydrateCheck? {
      SearcherLive(s, a);
    } else {
      FinisherLive(s, a);
    }
  }

  lemma AskerLive(s: Sys, a: Action)
    requires AsksSession(a) && CallLive(s, CallOf(s, a.p))
    ensures CallLive(Next(s, a), CallOf(Next(s, a), a.p))
  {
  }

  lemma CreatorLive(s: Sys, a: Action)
    requires (a.CreateInSession? || a.HydrateInsert?) && CallLive(s, CallOf(s, a.p))
    ensures CallLive(Next(s, a), CallOf(Next(s, a), a.p))
  {
  }

  lemma SearcherLive(s: Sys, a: Action)
    requires a.CheckKey? || a.ReadMap? || a.CheckThread? || a.AdoptWrite? || a.HydrateCheck?
    requires CallLive(s, CallOf(s, a.p))
    ensures CallLive(Next(s, a), CallOf(Next(s, a), a.p))
  {
  }

  lemma FinisherLive(s: Sys, a: Action)
    requires a.ManagerFast? || a.ManagerSlow? || a.StoreMapping? || a.InsertManager? || a.EnsureManager? || a.RegisterKey?
    requires CallLive(s, CallOf(s, a.p))
    ensures CallLive(Next(s, a), CallOf(Next(s, a), a.p))
  {
  }

  lemma WrittenIsAlive(s: Sys, a: Action)
    requires CallLive(s, CallOf(s, a.p))
    ensures match Written(s, a) case Some((key, id)) => Alive(s, key.user, id) case None => true
  {
  }

  lemma StepKeepsLive(s: Sys, a: Action)
    requires Live(s)
    ensures Live(Next(s, a))
  {
    var s' := Next(s, a);
    StepGrows(s, a);
    MapAfter(s, a);
    WrittenIsAlive(s, a);
    forall q | q in s'.calls
      ensures CallLive(s', s'.calls[q])
    {
      if q == a.p {
        OwnCallLive(s, a);
      } else {
        OneCallMoves(s, a, q);
        GrowthKeepsLive(s, s', CallOf(s, q));
      }
    }
  }

  /** In every interleaving each mapped thread is alive in the session of its key's user. */
  lemma {:induction false} RunKeepsLive(actions: seq<Action>)
    ensures Live(Run(Init(), actions))
  {
    if actions != [] {
      RunKeepsLive(actions[..|actions| - 1]);
      StepKeepsLive(Run(Init(), actions[..|actions| - 1]), actions[|actions| - 1]);
    }
  }

  // ----- Schedules that overwrite nothing -----

  /** A call that may still write the map for its key. */
  predicate Working(c: Call) {
    c.KeyMissed? || c.Candidate? || c.Confirmed? || c.MustCreate? || c.CreatedThread? || c.Loading? || c.Inserted?
  }

  predicate WorksOn(s: Sys, p: Pid, k: ThreadKey) { Working(CallOf(s, p)) && CallOf(s, p).key == k }

  /** A call sets out for a key that another call is at work on. */
  predicate Overlaps(s: Sys, a: Action) {
    (a.CheckKey? || a.HydrateCheck?) && exists q :: q in s.calls && q != a.p && WorksOn(s, q, a.key)
  }

  /** A hydration sets out for a key that is mapped. */
  predicate HydratesMapped(s: Sys, a: Action) { a.HydrateCheck? && a.key in s.threadMap }

  /** Calls at work are at work on unmapped keys, each on its own. */
  predicate Alone(s: Sys) {
    && (forall p :: p in s.calls && Working(s.calls[p]) ==> s.calls[p].key !in s.threadMap)
    && (forall p, q :: p in s.calls && q in s.calls && p != q && Working(s.calls[p]) && Working(s.calls[q]) ==>
          s.calls[p].key != s.calls[q].key)
  }

  /** A call at work was at work on the same key before, or has just set out for it. */
  lemma WorkBegins(s: Sys, a: Action)
    requires Working(CallOf(Next(s, a), a.p))
    ensures var k := CallOf(Next(s, a), a.p).key;
            WorksOn(s, a.p, k) || ((a.CheckKey? || a.HydrateCheck?) && a.key == k)
  {
    if SetsOut(a) {
      SetterWorks(s, a);
    } else if a.ReadMap? || a.CheckThread? || a.AdoptWrite? || a.CreateInSession? || a.HydrateInsert? {
      WorkerWorks(s, a);
    } else {
      OthersWorkNot(s, a);
    }
  }

  predicate SetsOut(a: Action) { a.CheckKey? || a.HydrateCheck? }

  lemma SetterWorks(s: Sys, a: Action)
    requires SetsOut(a) && Working(CallOf(Next(s, a), a.p))
    ensures var k := CallOf(Next(s, a), a.p).key; WorksOn(s, a.p, k) || a.key == k
  {
  }

  lemma WorkerWorks(s: Sys, a: Action)
    requires a.ReadMap? || a.CheckThread? || a.AdoptWrite? || a.CreateInSession? || a.HydrateInsert?
    requires Working(CallOf(Next(s, a), a.p))
    ensures WorksOn(s, a.p, CallOf(Next(s, a), a.p).key)
  {
  }

  lemma OthersWorkNot(s: Sys, a: Action)
    requires AsksSession(a) || a.ManagerFast? || a.ManagerSlow? || a.StoreMapping? || a.InsertManager? || a.EnsureManager?
          || a.RegisterKey?
    requires Working(CallOf(Next(s, a), a.p))
    ensures WorksOn(s, a.p, CallOf(Next(s, a), a.p).key)
  {
  }

  /** A call sets out only for a key that has no live thread. */
  lemma SetsOutUnmapped(s: Sys, a: Action)
    requires Live(s) && !HydratesMapped(s, a) && (a.CheckKey? || a.HydrateCheck?) && !Working(CallOf(s, a.p))
    ensures Working(CallOf(Next(s, a), a.p)) ==> a.key !in s.threadMap
  {
    assert CallLive(s, CallOf(s, a.p));
  }

  /** After writing, a call works no more. */
  lemma WriterIsDone(s: Sys, a: Action)
    requires Written(s, a).Some?
    ensures WorksOn(s, a.p, Written(s, a).value.0) && !Working(CallOf(Next(s, a), a.p))
  {
  }

  lemma NothingOverwritten(s: Sys, a: Action)
    requires Alone(s)
    ensures !OverwritesHeld(s, a)
  {
    if Written(s, a).Some? {
      WriterIsDone(s, a);
    }
  }

  /** What a step tells of the call at `p`: it is as before, or it has just set out for its unmapped key. */
  predicate Continues(s: Sys, s': Sys, a: Action, p: Pid) {
    Working(CallOf(s', p)) ==>
      var k := CallOf(s', p).key;
      || WorksOn(s, p, k)
      || (p == a.p && (a.CheckKey? || a.HydrateCheck?) && a.key == k && k !in s.threadMap)
  }

  lemma StepContinues(s: Sys, a: Action, p: Pid)
    requires Live(s) && !HydratesMapped(s, a)
    ensures Continues(s, Next(s, a), a, p)
  {
    if p == a.p {
      if Working(CallOf(Next(s, a), p)) {
        WorkBegins(s, a);
        if !Working(CallOf(s, p)) && (a.CheckKey? || a.HydrateCheck?) {
          SetsOutUnmapped(s, a);
        } else {
          WorkKeepsKey(s, a);
        }
      }
    } else {
      OneCallMoves(s, a, p);
    }
  }

  lemma WorkKeepsKey(s: Sys, a: Action)
    requires Working(CallOf(s, a.p)) && Working(CallOf(Next(s, a), a.p))
    ensures CallOf(Next(s, a), a.p).key == CallOf(s, a.p).key
  {
  }

  /** Work continued on keys that were alone stays so, whatever the one finished call wrote. */
  lemma AloneContinues(s: Sys, s': Sys, a: Action, w: Option<(ThreadKey, Uuid)>)
    requires Alone(s) && !Overlaps(s, a) && forall p :: p in s'.calls ==> Continues(s, s', a, p)
    requires s'.threadMap == match w case Some((key, id)) => s.threadMap[key := id] case None => s.threadMap
    requires w.Some? ==> WorksOn(s, a.p, w.value.0) && !Working(CallOf(s', a.p))
    ensures Alone(s')
  {
    forall p | p in s'.calls && Working(s'.calls[p])
      ensures s'.calls[p].key !in s'.threadMap
    {
      assert Continues(s, s', a, p);
    }
    forall p, q | p in s'.calls && q in s'.calls && p != q && Working(s'.calls[p]) && Working(s'.calls[q])
      ensures s'.calls[p].key != s'.calls[q].key
    {
      assert Continues(s, s', a, p) && Continues(s, s', a, q);
    }
  }

  lemma StepKeepsAlone(s: Sys, a: Action)
    requires Live(s) && Alone(s) && !Overlaps(s, a) && !HydratesMapped(s, a)
    ensures Alone(Next(s, a))
  {
    MapAfter(s, a);
    var w := Written(s, a);
    if w.Some? {
      WriterIsDone(s, a);
    }
    forall p
      ensures Continues(s, Next(s, a), a, p)
    {
      StepContinues(s, a, p);
    }
    AloneContinues(s, Next(s, a), a, w);
  }

  /** No two calls for one key overlap, and no hydration is for a mapped key. */
  predicate KeysApart(actions: seq<Action>) {
    forall i :: 0 <= i < |actions| ==> ApartAt(actions, i)
  }

  predicate ApartAt(actions: seq<Action>, i: nat)
    requires i < |actions|
  {
    var s := Run(Init(), actions[..i]);
    !Overlaps(s, actions[i]) && !HydratesMapped(s, actions[i])
  }

  lemma KeysApartPrefix(actions: seq<Action>, n: nat)
    requires KeysApart(actions) && n <= |actions|
    ensures KeysApart(actions[..n])
  {
    forall i | 0 <= i < n
      ensures ApartAt(actions[..n], i)
    {
      assert actions[..n][..i] == actions[..i];
      assert ApartAt(actions, i);
    }
  }

  lemma {:induction false} RunKeepsAlone(actions: seq<Action>)
    requires KeysApart(actions)
    ensures Alone(Run(Init(), actions))
  {
    if actions != [] {
      var n := |actions| - 1;
      KeysApartPrefix(actions, n);
      RunKeepsAlone(actions[..n]);
      RunKeepsLive(actions[..n]);
      assert ApartAt(actions, n);
      StepKeepsAlone(Run(Init(), actions[..n]), actions[n]);
    }
  }

  /** In such a schedule no section overwrites, so two calls resolved for one key hold one thread, the mapped one. */
  lemma ApartOverwritesNothing(actions: seq<Action>)
    requires KeysApart(actions)
    ensures NoOverwrite(actions) && KeysAgree(Run(Init(), actions))
  {
    forall i | 0 <= i < |actions|
      ensures !OverwritesHeld(Run(Init(), actions[..i]), actions[i])
    {
      KeysApartPrefix(actions, i);
      RunKeepsAlone(actions[..i]);
      NothingOverwritten(Run(Init(), actions[..i]), actions[i]);
    }
    RunKeepsKeys(actions);
  }

  // ----- The races happen -----

  /** Some interleaving makes two keys of a user share a thread. */
  lemma SharingHappens()
    ensures exists s :: Reachable(s) && !NoSharing(s)
  {
    var s := HydrationRaceReachable();
    HydrationRace(s, 1, 2, KeyOn("web"), KeyOn("signal"), 10, 7);
    var s1 := Next(s, HydrateInsert(1));
    var s2 := Next(s1, HydrateInsert(2));
    var s3 := Next(s2, RegisterKey(1));
    Reach(s, HydrateInsert(1), s1);
    Reach(s1, HydrateInsert(2), s2);
    Reach(s2, RegisterKey(1), s3);
    Reach(s3, RegisterKey(2), Next(s3, RegisterKey(2)));
  }

  /** Some interleaving leaves a call on a thread that its key does not map. */
  lemma LostThreadHappens()
    ensures exists s :: Reachable(s) && !KeysAgree(s)
  {
    var s := CreationRaceReachable();
    CreationRace(s, 1, 2, KeyOn("web"), 10, 5, 6);
    var s1 := Next(s, CreateInSession(1, 5));
    var s2 := Next(s1, CreateInSession(2, 6));
    var s3 := Next(s2, StoreMapping(1));
    var s4 := Next(s3, StoreMapping(2));
    Reach(s, CreateInSession(1, 5), s1);
    Reach(s1, CreateInSession(2, 6), s2);
    Reach(s2, StoreMapping(1), s3);
    Reach(s3, StoreMapping(2), s4);
    assert !Mapped(s4, s4.calls[1]);
  }

  /** Some interleaving replaces a manager that a call was given. */
  lemma LostManagerHappens()
    ensures exists s :: Reachable(s) && !ManagerHandlesAgree(s)
  {
    var s := ManagerRaceReachable();
    ManagerRace(s, 1, 2, KeyOn("web"), 100, 1, 2);
    var s1 := Next(s, ManagerFast(2, 100));
    var s2 := Next(s1, ManagerSlow(2, 1));
    var s3 := Next(s2, InsertManager(1, 2));
    Reach(s, ManagerFast(2, 100), s1);
    Reach(s1, ManagerSlow(2, 1), s2);
    Reach(s2, InsertManager(1, 2), s3);
    assert CallOf(s3, 2) == HasManager(100, 1) && s3.managers[100] == 2;
  }
}
