/**
 * The session manager with its operations cut at their lock sections and interleaved in any order, while
 * nothing is pruned or removed. Sessions and undo managers are shared objects, so they have identities here.
 */
module RegistryRaces {
  import opened Wrappers
  import opened Registry

  type Pid = nat
  type SessionId = nat
  type ManagerId = nat

  /** Where a call stands between two lock sections, or what it has returned. */
  datatype Call =
    | Ready
    | SessionMissed(user: string)                                   // fast path failed
    | HasSession(user: string, sid: SessionId)                      // returned
    | ManagerMissed(tid: Uuid)
    | HasManager(tid: Uuid, mid: ManagerId)                         // returned
    | KeyMissed(key: ThreadKey, sid: SessionId)                     // no live mapping
    | Candidate(key: ThreadKey, sid: SessionId, ext: Uuid)          // read: not mapped elsewhere
    | Confirmed(key: ThreadKey, sid: SessionId, ext: Uuid)          // and alive in the session
    | MustCreate(key: ThreadKey, sid: SessionId)
    | CreatedThread(key: ThreadKey, tid: Uuid)                      // in the session, not yet mapped
    | StoredMapping(key: ThreadKey, tid: Uuid)                      // mapped, manager not yet inserted
    | NeedsManager(key: ThreadKey, tid: Uuid)                       // adopted or registered
    | Resolved(key: ThreadKey, tid: Uuid)                           // returned
    | Loading(key: ThreadKey, sid: SessionId, ext: Uuid)            // hydration: not in memory
    | Inserted(key: ThreadKey, ext: Uuid)                           // hydrated, not yet registered

  datatype Sys = Sys(
    sessions: map<string, SessionId>,
    threads: map<SessionId, set<Uuid>>,
    threadMap: map<ThreadKey, Uuid>,
    managers: map<Uuid, ManagerId>,
    calls: map<Pid, Call>,
    seen: set<Uuid>,                 // every thread UUID minted or named by a caller so far
    unreturned: set<Uuid>)           // minted, in a session, but not yet in the map or returned to anyone

  /** One lock section of call `p`; fresh ids are chosen by the step. */
  datatype Action =
    | SessionFast(p: Pid, user: string)
    | SessionSlow(p: Pid, freshSid: SessionId)
    | ManagerFast(p: Pid, tid: Uuid)
    | ManagerSlow(p: Pid, freshMid: ManagerId)
    | CheckKey(p: Pid, key: ThreadKey)
    | ReadMap(p: Pid, ext: Option<Uuid>)
    | CheckThread(p: Pid)
    | AdoptWrite(p: Pid)
    | CreateInSession(p: Pid, freshTid: Uuid)
    | StoreMapping(p: Pid)
    | InsertManager(p: Pid, freshMid: ManagerId)
    | EnsureManager(p: Pid, freshMid: ManagerId)
    | HydrateCheck(p: Pid, key: ThreadKey, id: Uuid)
    | HydrateInsert(p: Pid)
    | RegisterKey(p: Pid)

  function CallOf(s: Sys, p: Pid): Call { if p in s.calls then s.calls[p] else Ready }

  function ThreadsOf(s: Sys, sid: SessionId): set<Uuid> { if sid in s.threads then s.threads[sid] else {} }

  function Goto(s: Sys, p: Pid, c: Call): Sys { s.(calls := s.calls[p := c]) }

  /** A step that cannot happen leaves the state alone. New ids are new; callers cannot name an unreturned one. */
  function Next(s: Sys, a: Action): Sys {
    match a
    case SessionFast(p, user) =>
      if !CallOf(s, p).Ready? then s
      else Goto(s, p, if user in s.sessions then HasSession(user, s.sessions[user]) else SessionMissed(user))
    case SessionSlow(p, freshSid) =>
      var c := CallOf(s, p);
      if !c.SessionMissed? then s
      else if c.user in s.sessions then Goto(s, p, HasSession(c.user, s.sessions[c.user]))
      else if freshSid in s.sessions.Values || freshSid in s.threads then s
      else Goto(s.(sessions := s.sessions[c.user := freshSid], threads := s.threads[freshSid := {}]),
                p, HasSession(c.user, freshSid))
    case ManagerFast(p, tid) =>
      if !CallOf(s, p).Ready? then s
      else Goto(s, p, if tid in s.managers then HasManager(tid, s.managers[tid]) else ManagerMissed(tid))
    case ManagerSlow(p, freshMid) =>
      var c := CallOf(s, p);
      if !c.ManagerMissed? then s
      else if c.tid in s.managers then Goto(s, p, HasManager(c.tid, s.managers[c.tid]))
      else if freshMid in s.managers.Values then s
      else Goto(s.(managers := s.managers[c.tid := freshMid]), p, HasManager(c.tid, freshMid))
    case CheckKey(p, key) =>
      var c := CallOf(s, p);
      if !c.HasSession? || c.user != key.user then s
      else if key in s.threadMap && s.threadMap[key] in ThreadsOf(s, c.sid) then Goto(s, p, Resolved(key, s.threadMap[key]))
      else Goto(s, p, KeyMissed(key, c.sid))
    case ReadMap(p, ext) =>
      var c := CallOf(s, p);
      if !c.KeyMissed? || (ext.Some? && ext.value in s.unreturned) then s
      else
        var s' := if ext.Some? then s.(seen := s.seen + {ext.value}) else s;
        if ext.Some? && ext.value !in s.threadMap.Values then Goto(s', p, Candidate(c.key, c.sid, ext.value))
        else Goto(s', p, MustCreate(c.key, c.sid))
    case CheckThread(p) =>
      var c := CallOf(s, p);
      if !c.Candidate? then s
      else if c.ext in ThreadsOf(s, c.sid) then Goto(s, p, Confirmed(c.key, c.sid, c.ext))
      else Goto(s, p, MustCreate(c.key, c.sid))
    case AdoptWrite(p) =>
      var c := CallOf(s, p);
      if !c.Confirmed? then s
      else if c.ext in s.threadMap.Values then Goto(s, p, MustCreate(c.key, c.sid))
      else Goto(s.(threadMap := s.threadMap[c.key := c.ext]), p, NeedsManager(c.key, c.ext))
    case CreateInSession(p, freshTid) =>
      var c := CallOf(s, p);
      if !c.MustCreate? || freshTid in s.seen then s
      else Goto(s.(threads := s.threads[c.sid := ThreadsOf(s, c.sid) + {freshTid}],
                   seen := s.seen + {freshTid}, unreturned := s.unreturned + {freshTid}),
                p, CreatedThread(c.key, freshTid))
    case StoreMapping(p) =>
      var c := CallOf(s, p);
      if !c.CreatedThread? then s
      else Goto(s.(threadMap := s.threadMap[c.key := c.tid], unreturned := s.unreturned - {c.tid}),
                p, StoredMapping(c.key, c.tid))
    case InsertManager(p, freshMid) =>
      var c := CallOf(s, p);
      if !c.StoredMapping? || freshMid in s.managers.Values then s
      else Goto(s.(managers := s.managers[c.tid := freshMid]), p, Resolved(c.key, c.tid))
    case EnsureManager(p, freshMid) =>
      var c := CallOf(s, p);
      if !c.NeedsManager? then s
      else if c.tid in s.managers then Goto(s, p, Resolved(c.key, c.tid))
      else if freshMid in s.managers.Values then s
      else Goto(s.(managers := s.managers[c.tid := freshMid]), p, Resolved(c.key, c.tid))
    case HydrateCheck(p, key, ext) =>
      var c := CallOf(s, p);
      if !c.HasSession? || c.user != key.user || ext in s.unreturned then s
      else if ext in ThreadsOf(s, c.sid) then s
      else Goto(s.(seen := s.seen + {ext}), p, Loading(key, c.sid, ext))
    case HydrateInsert(p) =>
      var c := CallOf(s, p);
      if !c.Loading? then s
      else Goto(s.(threads := s.threads[c.sid := ThreadsOf(s, c.sid) + {c.ext}]), p, Inserted(c.key, c.ext))
    case RegisterKey(p) =>
      var c := CallOf(s, p);
      if !c.Inserted? then s
      else Goto(s.(threadMap := s.threadMap[c.key := c.ext]), p, NeedsManager(c.key, c.ext))
  }

  function Init(): Sys { Sys(map[], map[], map[], map[], map[], {}, {}) }

  function Run(s: Sys, actions: seq<Action>): Sys {
    if actions == [] then s else Next(Run(s, actions[..|actions| - 1]), actions[|actions| - 1])
  }

  // ----- One session per user -----

  predicate SessionHandlesAgree(s: Sys) {
    forall p :: p in s.calls && s.calls[p].HasSession? ==>
      s.calls[p].user in s.sessions && s.sessions[s.calls[p].user] == s.calls[p].sid
  }

  predicate SessionsGrow(s: Sys, s': Sys) {
    forall u :: u in s.sessions ==> u in s'.sessions && s'.sessions[u] == s.sessions[u]
  }

  /** No step replaces a user's session. */
  lemma StepGrowsSessions(s: Sys, a: Action)
    ensures SessionsGrow(s, Next(s, a))
  {
  }

  /** Only its own call moves in a step. */
  lemma OneCallMoves(s: Sys, a: Action, q: Pid)
    requires q != a.p
    ensures CallOf(Next(s, a), q) == CallOf(s, q)
  {
  }

  predicate AsksSession(a: Action) { a.SessionFast? || a.SessionSlow? }

  lemma SessionReturned(s: Sys, a: Action)
    requires AsksSession(a)
    ensures var c, s' := CallOf(Next(s, a), a.p), Next(s, a);
            c == CallOf(s, a.p) || !c.HasSession? || (c.user in s'.sessions && s'.sessions[c.user] == c.sid)
  {
  }

  lemma NoSessionReturned(s: Sys, a: Action)
    requires !AsksSession(a)
    ensures CallOf(Next(s, a), a.p) == CallOf(s, a.p) || !CallOf(Next(s, a), a.p).HasSession?
  {
  }

  /** A step returns only the session in the map. */
  lemma StepReturnsSession(s: Sys, a: Action, p: Pid)
    ensures var c := CallOf(Next(s, a), p);
            c == CallOf(s, p) || !c.HasSession? || (c.user in Next(s, a).sessions && Next(s, a).sessions[c.user] == c.sid)
  {
    if p != a.p {
      OneCallMoves(s, a, p);
    } else if AsksSession(a) {
      SessionReturned(s, a);
    } else {
      NoSessionReturned(s, a);
    }
  }

  lemma StepKeepsSessions(s: Sys, a: Action)
    requires SessionHandlesAgree(s)
    ensures SessionHandlesAgree(Next(s, a)) && SessionsGrow(s, Next(s, a))
  {
    StepGrowsSessions(s, a);
    forall p | p in Next(s, a).calls
      ensures var c := CallOf(Next(s, a), p); c.HasSession? ==> c.user in Next(s, a).sessions && Next(s, a).sessions[c.user] == c.sid
    {
      StepReturnsSession(s, a, p);
    }
  }

  lemma {:induction false} RunKeepsSessions(actions: seq<Action>)
    ensures SessionHandlesAgree(Run(Init(), actions))
  {
    if actions != [] {
      RunKeepsSessions(actions[..|actions| - 1]);
      StepKeepsSessions(Run(Init(), actions[..|actions| - 1]), actions[|actions| - 1]);
    }
  }

  /** In every interleaving, two calls for one user have been given one session. */
  lemma OneSessionPerUser(actions: seq<Action>, p: Pid, q: Pid)
    requires var s := Run(Init(), actions);
             CallOf(s, p).HasSession? && CallOf(s, q).HasSession? && CallOf(s, p).user == CallOf(s, q).user
    ensures var s := Run(Init(), actions); CallOf(s, p).sid == CallOf(s, q).sid
  {
    RunKeepsSessions(actions);
  }

  // ----- Undo managers -----

  predicate ManagerHandlesAgree(s: Sys) {
    forall p :: p in s.calls && s.calls[p].HasManager? ==>
      s.calls[p].tid in s.managers && s.managers[s.calls[p].tid] == s.calls[p].mid
  }

  /** `resolve_thread` inserts a new manager where one is already in use. */
  predicate ReplacesManager(s: Sys, a: Action) {
    && a.InsertManager?
    && CallOf(s, a.p).StoredMapping? && a.freshMid !in s.managers.Values
    && exists q :: q in s.calls && s.calls[q].HasManager? && s.calls[q].tid == CallOf(s, a.p).tid
  }

  /** `get_undo_manager` itself never breaks the agreement; only the insert at the end of a creation can. */
  lemma StepKeepsManagers(s: Sys, a: Action)
    requires ManagerHandlesAgree(s)
    ensures ManagerHandlesAgree(Next(s, a)) <==> !ReplacesManager(s, a)
  {
    if ReplacesManager(s, a) {
      var q :| q in s.calls && s.calls[q].HasManager? && s.calls[q].tid == CallOf(s, a.p).tid;
      var s' := Next(s, a);
      assert s'.calls[q] == s.calls[q] && s.managers[s.calls[q].tid] in s.managers.Values;
    }
  }

  predicate NoReplacement(actions: seq<Action>) {
    forall i :: 0 <= i < |actions| ==> !ReplacesManager(Run(Init(), actions[..i]), actions[i])
  }

  lemma {:induction false} RunKeepsManagers(actions: seq<Action>)
    requires NoReplacement(actions)
    ensures ManagerHandlesAgree(Run(Init(), actions))
  {
    if actions != [] {
      var front := actions[..|actions| - 1];
      forall i | 0 <= i < |front|
        ensures !ReplacesManager(Run(Init(), front[..i]), front[i])
      {
        assert front[..i] == actions[..i];
        assert !ReplacesManager(Run(Init(), actions[..i]), actions[i]);
      }
      RunKeepsManagers(front);
      StepKeepsManagers(Run(Init(), front), actions[|actions| - 1]);
    }
  }

  /** Two calls for one thread have one undo manager in every interleaving without such a replacement. */
  lemma OneManagerPerThread(actions: seq<Action>, p: Pid, q: Pid)
    requires NoReplacement(actions)
    requires var s := Run(Init(), actions);
             CallOf(s, p).HasManager? && CallOf(s, q).HasManager? && CallOf(s, p).tid == CallOf(s, q).tid
    ensures var s := Run(Init(), actions); CallOf(s, p).mid == CallOf(s, q).mid
  {
    RunKeepsManagers(actions);
  }

  // ----- Channel isolation -----

  predicate NoSharing(s: Sys) {
    forall j, k :: j in s.threadMap && k in s.threadMap && j.user == k.user && j != k ==> s.threadMap[j] != s.threadMap[k]
  }

  predicate NamesExternal(c: Call) { c.Candidate? || c.Confirmed? || c.Loading? || c.Inserted? }

  /** Threads under creation are known to no key and to no other call. */
  predicate CreationsPrivate(s: Sys) {
    && s.unreturned <= s.seen
    && (forall k :: k in s.threadMap ==> s.threadMap[k] in s.seen && s.threadMap[k] !in s.unreturned)
    && (forall p :: p in s.calls && s.calls[p].CreatedThread? ==> s.calls[p].tid in s.unreturned)
    && (forall p, q :: p in s.calls && q in s.calls && p != q && s.calls[p].CreatedThread? && s.calls[q].CreatedThread? ==>
          s.calls[p].tid != s.calls[q].tid)
    && (forall p :: p in s.calls && NamesExternal(s.calls[p]) ==>
          s.calls[p].ext in s.seen && s.calls[p].ext !in s.unreturned)
  }

  /** The steps that touch neither the thread map nor the id sets. */
  predicate IsLookup(a: Action) {
    a.SessionFast? || a.SessionSlow? || a.ManagerFast? || a.ManagerSlow? || a.CheckKey? || a.CheckThread?
    || a.InsertManager? || a.EnsureManager? || a.HydrateInsert?
  }

  predicate SameNames(s: Sys, s': Sys) {
    s'.threadMap == s.threadMap && s'.seen == s.seen && s'.unreturned == s.unreturned
  }

  lemma LookupsKeepNames(s: Sys, a: Action)
    requires IsLookup(a)
    ensures SameNames(s, Next(s, a))
  {
  }

  lemma LookupsNameNothing(s: Sys, a: Action)
    requires IsLookup(a)
    ensures var c, c' := CallOf(s, a.p), CallOf(Next(s, a), a.p);
            c' == c || (!c'.CreatedThread? && (NamesExternal(c') ==> NamesExternal(c) && c'.ext == c.ext))
  {
  }

  lemma StepKeepsCreationsPrivate(s: Sys, a: Action)
    requires CreationsPrivate(s)
    ensures CreationsPrivate(Next(s, a))
  {
    if IsLookup(a) {
      LookupsKeepNames(s, a);
      LookupsNameNothing(s, a);
      forall q | q in Next(s, a).calls && q != a.p
        ensures SameCall(s, Next(s, a), q)
      {
        OneCallMoves(s, a, q);
      }
      CallsOnly(s, Next(s, a), a.p);
    } else {
      match a
      case ReadMap(p, ext) => ReadKeepsPrivate(s, p, ext);
      case HydrateCheck(p, key, id) => HydrateKeepsPrivate(s, p, key, id);
      case CreateInSession(p, freshTid) => CreateKeepsPrivate(s, p, freshTid);
      case StoreMapping(p) => StoreKeepsPrivate(s, p);
      case AdoptWrite(p) => AdoptKeepsPrivate(s, p);
      case RegisterKey(p) => RegisterKeepsPrivate(s, p);
    }
  }

  predicate SameCall(s: Sys, s': Sys, q: Pid)
    requires q in s'.calls
  {
    if q in s.calls then s'.calls[q] == s.calls[q] else s'.calls[q].Ready?
  }

  lemma CallsOnly(s: Sys, s': Sys, p: Pid)
    requires CreationsPrivate(s) && SameNames(s, s')
    requires forall q :: q in s'.calls && q != p ==> SameCall(s, s', q)
    requires var c, c' := CallOf(s, p), CallOf(s', p);
             c' == c || (!c'.CreatedThread? && (NamesExternal(c') ==> NamesExternal(c) && c'.ext == c.ext))
    ensures CreationsPrivate(s')
  {
  }

  lemma ReadKeepsPrivate(s: Sys, p: Pid, ext: Option<Uuid>)
    requires CreationsPrivate(s)
    ensures CreationsPrivate(Next(s, ReadMap(p, ext)))
  {
  }

  lemma HydrateKeepsPrivate(s: Sys, p: Pid, key: ThreadKey, id: Uuid)
    requires CreationsPrivate(s)
    ensures CreationsPrivate(Next(s, HydrateCheck(p, key, id)))
  {
  }

  lemma CreateKeepsPrivate(s: Sys, p: Pid, freshTid: Uuid)
    requires CreationsPrivate(s)
    ensures CreationsPrivate(Next(s, CreateInSession(p, freshTid)))
  {
  }

  lemma StoreKeepsPrivate(s: Sys, p: Pid)
    requires CreationsPrivate(s)
    ensures CreationsPrivate(Next(s, StoreMapping(p)))
  {
  }

  lemma AdoptKeepsPrivate(s: Sys, p: Pid)
    requires CreationsPrivate(s)
    ensures CreationsPrivate(Next(s, AdoptWrite(p)))
  {
  }

  lemma RegisterKeepsPrivate(s: Sys, p: Pid)
    requires CreationsPrivate(s)
    ensures CreationsPrivate(Next(s, RegisterKey(p)))
  {
  }

  lemma InsertKeepsSharing(s: Sys, key: ThreadKey, id: Uuid)
    requires NoSharing(s)
    ensures NoSharing(s.(threadMap := s.threadMap[key := id])) <==>
            !exists k :: k in s.threadMap && k.user == key.user && k != key && s.threadMap[k] == id
  {
    var tm := s.threadMap[key := id];
    if k :| k in s.threadMap && k.user == key.user && k != key && s.threadMap[k] == id {
      assert tm[k] == id && tm[key] == id;
    }
  }

  /** A hydration registers a UUID that another key of its user already maps. */
  predicate RegistersShared(s: Sys, a: Action) {
    && a.RegisterKey? && CallOf(s, a.p).Inserted?
    && var c := CallOf(s, a.p);
       exists k :: k in s.threadMap && k.user == c.key.user && k != c.key && s.threadMap[k] == c.ext
  }

  /** The re-check under the write lock makes adoption safe; of all sections only a hydration's last can share a thread. */
  lemma StepKeepsIsolation(s: Sys, a: Action)
    requires NoSharing(s) && CreationsPrivate(s)
    ensures NoSharing(Next(s, a)) <==> !RegistersShared(s, a)
  {
    var c := CallOf(s, a.p);
    match a {
      case AdoptWrite(p) =>
        if c.Confirmed? && c.ext !in s.threadMap.Values {
          InsertKeepsSharing(s, c.key, c.ext);
        }
      case StoreMapping(p) =>
        if c.CreatedThread? {
          InsertKeepsSharing(s, c.key, c.tid);
        }
      case RegisterKey(p) =>
        if c.Inserted? {
          InsertKeepsSharing(s, c.key, c.ext);
        }
      case ReadMap(p, ext) =>
      case HydrateCheck(p, key, id) =>
      case CreateInSession(p, freshTid) =>
      case _ =>
        LookupsKeepNames(s, a);
    }
  }

  /** An adoption never maps a UUID that is already mapped, by any user, when it writes. */
  lemma AdoptionMapsUnmapped(s: Sys, p: Pid)
    requires CallOf(s, p).Confirmed?
    ensures var c := CallOf(s, p);
            var s' := Next(s, AdoptWrite(p));
            if c.ext in s.threadMap.Values then s'.threadMap == s.threadMap && CallOf(s', p) == MustCreate(c.key, c.sid)
            else s'.threadMap == s.threadMap[c.key := c.ext] && CallOf(s', p) == NeedsManager(c.key, c.ext)
  {
  }

  predicate NoSharedRegistration(actions: seq<Action>) {
    forall i :: 0 <= i < |actions| ==> !RegistersShared(Run(Init(), actions[..i]), actions[i])
  }

  /** Channel isolation in every interleaving in which no hydration registers a UUID that is already mapped. */
  lemma {:induction false} RunKeepsIsolation(actions: seq<Action>)
    requires NoSharedRegistration(actions)
    ensures NoSharing(Run(Init(), actions)) && CreationsPrivate(Run(Init(), actions))
  {
    if actions != [] {
      var front := actions[..|actions| - 1];
      forall i | 0 <= i < |front|
        ensures !RegistersShared(Run(Init(), front[..i]), front[i])
      {
        assert front[..i] == actions[..i];
        assert !RegistersShared(Run(Init(), actions[..i]), actions[i]);
      }
      RunKeepsIsolation(front);
      StepKeepsIsolation(Run(Init(), front), actions[|actions| - 1]);
      StepKeepsCreationsPrivate(Run(Init(), front), actions[|actions| - 1]);
    }
  }

  // ----- The three races, each a run from the empty manager -----

  lemma Snoc(front: seq<Action>, a: Action)
    ensures Run(Init(), front + [a]) == Next(Run(Init(), front), a)
  {
    assert (front + [a])[..|front|] == front;
  }

  /** Reached by some run from the empty manager. */
  ghost predicate Reachable(s: Sys) {
    exists actions: seq<Action> :: Run(Init(), actions) == s
  }

  /** One more step. */
  lemma Reach(s: Sys, a: Action, s': Sys)
    requires Reachable(s) && Next(s, a) == s'
    ensures Reachable(s')
  {
    var actions: seq<Action> :| Run(Init(), actions) == s;
    Snoc(actions, a);
  }

  function KeyOn(channel: string): ThreadKey { ThreadKey("u", channel, Some("7")) }

  /** A first call of user "u" has the session 10. */
  function OneCall(): Sys {
    var s := Goto(Init(), 1, SessionMissed("u"));
    Goto(s.(sessions := s.sessions["u" := 10], threads := s.threads[10 := {}]), 1, HasSession("u", 10))
  }

  function TwoCalls(): Sys { Goto(OneCall(), 2, HasSession("u", 10)) }

  lemma OneCallReachable()
    ensures Reachable(OneCall())
  {
    assert Run(Init(), []) == Init();
    Reach(Init(), SessionFast(1, "u"), Goto(Init(), 1, SessionMissed("u")));
    Reach(Goto(Init(), 1, SessionMissed("u")), SessionSlow(1, 10), OneCall());
  }

  lemma TwoCallsReachable()
    ensures Reachable(TwoCalls())
  {
    OneCallReachable();
    Reach(OneCall(), SessionFast(2, "u"), TwoCalls());
  }

  /**
   * Two hydrations of one UUID by one user, both past their check: once both are done the two keys share the
   * thread, whatever else the state holds.
   */
  lemma HydrationRace(s: Sys, p: Pid, q: Pid, j: ThreadKey, k: ThreadKey, sid: SessionId, ext: Uuid)
    requires p != q && j.user == k.user && j != k
    requires CallOf(s, p) == Loading(j, sid, ext) && CallOf(s, q) == Loading(k, sid, ext)
    ensures var s' := Next(Next(Next(Next(s, HydrateInsert(p)), HydrateInsert(q)), RegisterKey(p)), RegisterKey(q));
            !NoSharing(s')
  {
    var s1 := Next(s, HydrateInsert(p));
    assert CallOf(s1, p) == Inserted(j, ext) && CallOf(s1, q) == CallOf(s, q);
    var s2 := Next(s1, HydrateInsert(q));
    assert CallOf(s2, p) == Inserted(j, ext) && CallOf(s2, q) == Inserted(k, ext);
    var s4 := Next(Next(s2, RegisterKey(p)), RegisterKey(q));
    assert s4.threadMap == s2.threadMap[j := ext][k := ext];
    assert s4.threadMap[j] == ext && s4.threadMap[k] == ext;
  }

  lemma HydrationRaceReachable() returns (s: Sys)
    ensures Reachable(s)
    ensures CallOf(s, 1) == Loading(KeyOn("web"), 10, 7) && CallOf(s, 2) == Loading(KeyOn("signal"), 10, 7)
  {
    TwoCallsReachable();
    var s1 := Goto(TwoCalls().(seen := {7}), 1, Loading(KeyOn("web"), 10, 7));
    assert TwoCalls().seen + {7} == {7};
    Reach(TwoCalls(), HydrateCheck(1, KeyOn("web"), 7), s1);
    s := Goto(s1, 2, Loading(KeyOn("signal"), 10, 7));
    assert s1.seen + {7} == {7};
    Reach(s1, HydrateCheck(2, KeyOn("signal"), 7), s);
  }

  /** Two first messages on one key: both calls create, and the key maps only the second one's thread. */
  lemma CreationRace(s: Sys, p: Pid, q: Pid, k: ThreadKey, sid: SessionId, t: Uuid, u: Uuid)
    requires p != q && t != u && t !in s.seen && u !in s.seen
    requires CallOf(s, p) == MustCreate(k, sid) && CallOf(s, q) == MustCreate(k, sid)
    ensures var s' := Next(Next(Next(Next(s, CreateInSession(p, t)), CreateInSession(q, u)), StoreMapping(p)), StoreMapping(q));
            CallOf(s', p) == StoredMapping(k, t) && CallOf(s', q) == StoredMapping(k, u) && s'.threadMap[k] == u
  {
    var s1 := Next(s, CreateInSession(p, t));
    assert CallOf(s1, p) == CreatedThread(k, t) && CallOf(s1, q) == CallOf(s, q) && u !in s1.seen;
    var s2 := Next(s1, CreateInSession(q, u));
    assert CallOf(s2, p) == CreatedThread(k, t) && CallOf(s2, q) == CreatedThread(k, u);
  }

  lemma CreationRaceReachable() returns (s: Sys)
    ensures Reachable(s) && s.seen == {}
    ensures CallOf(s, 1) == MustCreate(KeyOn("web"), 10) && CallOf(s, 2) == MustCreate(KeyOn("web"), 10)
  {
    TwoCallsReachable();
    var key := KeyOn("web");
    var s1 := Goto(TwoCalls(), 1, KeyMissed(key, 10));
    Reach(TwoCalls(), CheckKey(1, key), s1);
    var s2 := Goto(s1, 2, KeyMissed(key, 10));
    Reach(s1, CheckKey(2, key), s2);
    s := BothMustCreate(s2);
  }

  lemma BothMustCreate(s2: Sys) returns (s: Sys)
    requires Reachable(s2) && CallOf(s2, 1) == KeyMissed(KeyOn("web"), 10) && CallOf(s2, 2) == KeyMissed(KeyOn("web"), 10)
    ensures Reachable(s) && s.seen == s2.seen
    ensures CallOf(s, 1) == MustCreate(KeyOn("web"), 10) && CallOf(s, 2) == MustCreate(KeyOn("web"), 10)
  {
    var s3 := Goto(s2, 1, MustCreate(KeyOn("web"), 10));
    Reach(s2, ReadMap(1, None), s3);
    s := Goto(s3, 2, MustCreate(KeyOn("web"), 10));
    Reach(s3, ReadMap(2, None), s);
  }

  /** A manager handed out between mapping and insert is replaced: its holder and later callers disagree. */
  lemma ManagerRace(s: Sys, p: Pid, q: Pid, k: ThreadKey, t: Uuid, m: ManagerId, n: ManagerId)
    requires p != q && CallOf(s, p) == StoredMapping(k, t) && CallOf(s, q) == Ready
    requires t !in s.managers && m != n && m !in s.managers.Values && n !in s.managers.Values
    ensures var s' := Next(Next(Next(s, ManagerFast(q, t)), ManagerSlow(q, m)), InsertManager(p, n));
            CallOf(s', q) == HasManager(t, m) && s'.managers[t] == n
  {
    var s2 := Next(Next(s, ManagerFast(q, t)), ManagerSlow(q, m));
    assert CallOf(s2, q) == HasManager(t, m) && CallOf(s2, p) == StoredMapping(k, t);
    assert s2.managers == s.managers[t := m];
    assert forall x :: x in s2.managers.Values ==> x in s.managers.Values || x == m;
  }

  lemma ManagerRaceReachable() returns (s: Sys)
    ensures Reachable(s) && s.managers == map[]
    ensures CallOf(s, 1) == StoredMapping(KeyOn("web"), 100) && CallOf(s, 2) == Ready
  {
    OneCallReachable();
    var key := KeyOn("web");
    var s1 := Goto(OneCall(), 1, KeyMissed(key, 10));
    Reach(OneCall(), CheckKey(1, key), s1);
    var s2 := Goto(s1, 1, MustCreate(key, 10));
    Reach(s1, ReadMap(1, None), s2);
    s := CreatedAndStored(s2);
  }

  lemma CreatedAndStored(s2: Sys) returns (s: Sys)
    requires Reachable(s2) && CallOf(s2, 1) == MustCreate(KeyOn("web"), 10) && 100 !in s2.seen
    ensures Reachable(s) && s.managers == s2.managers && CallOf(s, 2) == CallOf(s2, 2)
    ensures CallOf(s, 1) == StoredMapping(KeyOn("web"), 100)
  {
    var s3 := Next(s2, CreateInSession(1, 100));
    Reach(s2, CreateInSession(1, 100), s3);
    s := Next(s3, StoreMapping(1));
    Reach(s3, StoreMapping(1), s);
  }
}
