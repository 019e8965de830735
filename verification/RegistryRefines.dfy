/**
 * The lock sections of `resolve_thread` and of a hydration, run with nothing in between, are the operations of
 * the registry (src/agent/session_manager.rs, src/agent/thread_ops.rs).
 */
module RegistryRefines {
  import opened Wrappers
  import opened Registry
  import opened RegistryRaces
  import opened RegistryKeys

  /** The registry a system stands for; active threads are not part of it. */
  function Abs(s: Sys): State {
    State(map user | user in s.sessions :: SessionData(ThreadsOf(s, s.sessions[user]), None), s.threadMap, s.managers.Keys)
  }

  /** Nothing but calls and seen ids differ. */
  predicate SameRegistry(s: Sys, s': Sys) {
    s'.sessions == s.sessions && s'.threads == s.threads && s'.threadMap == s.threadMap && s'.managers == s.managers
  }

  /** Both sections of a session call, run alone, keep the user's session or make a new, empty one. */
  lemma SessionInOneGo(s: Sys, p: Pid, user: string, freshSid: SessionId)
    requires CallOf(s, p) == Ready && freshSid !in s.sessions.Values && freshSid !in s.threads
    ensures var s' := Next(Next(s, SessionFast(p, user)), SessionSlow(p, freshSid));
            && s'.sessions == (if user in s.sessions then s.sessions else s.sessions[user := freshSid])
            && CallOf(s', p) == HasSession(user, s'.sessions[user])
            && Abs(s') == GetOrCreate(Abs(s), user)
  {
    var s1 := Next(s, SessionFast(p, user));
    if user in s.sessions {
      assert CallOf(s1, p) == HasSession(user, s.sessions[user]) && Next(s1, SessionSlow(p, freshSid)) == s1;
    } else {
      assert CallOf(s1, p) == SessionMissed(user);
      SessionMade(s1, p, user, freshSid);
    }
  }

  lemma SessionMade(s: Sys, p: Pid, user: string, freshSid: SessionId)
    requires CallOf(s, p) == SessionMissed(user) && user !in s.sessions
    requires freshSid !in s.sessions.Values && freshSid !in s.threads
    ensures var s' := Next(s, SessionSlow(p, freshSid));
            && s'.sessions == s.sessions[user := freshSid] && CallOf(s', p) == HasSession(user, freshSid)
            && Abs(s') == GetOrCreate(Abs(s), user)
  {
    var s' := Next(s, SessionSlow(p, freshSid));
    assert s'.threads == s.threads[freshSid := {}];
    forall u | u in s.sessions
      ensures ThreadsOf(s', s'.sessions[u]) == ThreadsOf(s, s.sessions[u])
    {
    }
    assert Abs(s').sessions == Abs(s).sessions[user := SessionData({}, None)];
  }

  /** Both sections of a manager call, run alone, keep the thread's manager or make a new one. */
  lemma ManagerInOneGo(s: Sys, p: Pid, tid: Uuid, freshMid: ManagerId)
    requires CallOf(s, p) == Ready && freshMid !in s.managers.Values
    ensures var s' := Next(Next(s, ManagerFast(p, tid)), ManagerSlow(p, freshMid));
            && s'.managers == (if tid in s.managers then s.managers else s.managers[tid := freshMid])
            && CallOf(s', p) == HasManager(tid, s'.managers[tid])
            && s'.sessions == s.sessions && s'.threads == s.threads && s'.threadMap == s.threadMap
  {
    var s1 := Next(s, ManagerFast(p, tid));
    assert CallOf(s1, p) == if tid in s.managers then HasManager(tid, s.managers[tid]) else ManagerMissed(tid);
  }

  /** The sections that look for a thread. */
  function Search(s: Sys, p: Pid, key: ThreadKey, ext: Option<Uuid>): Sys {
    Next(Next(Next(s, CheckKey(p, key)), ReadMap(p, ext)), CheckThread(p))
  }

  /** The sections that write. */
  function Finish(s: Sys, p: Pid, freshId: Uuid, freshMid: ManagerId): Sys {
    var written := Next(Next(Next(s, AdoptWrite(p)), CreateInSession(p, freshId)), StoreMapping(p));
    Next(Next(written, InsertManager(p, freshMid)), EnsureManager(p, freshMid))
  }

  /** A thread that no key maps and that is alive in the session. */
  predicate Adopts(s: Sys, sid: SessionId, ext: Option<Uuid>) {
    ext.Some? && ext.value !in s.threadMap.Values && ext.value in ThreadsOf(s, sid)
  }

  lemma SearchMapped(s: Sys, p: Pid, key: ThreadKey, sid: SessionId, ext: Option<Uuid>)
    requires CallOf(s, p) == HasSession(key.user, sid)
    requires key in s.threadMap && s.threadMap[key] in ThreadsOf(s, sid)
    ensures Search(s, p, key, ext) == Goto(s, p, Resolved(key, s.threadMap[key]))
  {
    var s1 := Next(s, CheckKey(p, key));
    assert CallOf(s1, p) == Resolved(key, s.threadMap[key]);
  }

  lemma KeyNotFound(s: Sys, p: Pid, key: ThreadKey, sid: SessionId)
    requires CallOf(s, p) == HasSession(key.user, sid)
    requires !(key in s.threadMap && s.threadMap[key] in ThreadsOf(s, sid))
    ensures Next(s, CheckKey(p, key)) == Goto(s, p, KeyMissed(key, sid))
  {
  }

  lemma SearchUnmapped(s: Sys, p: Pid, key: ThreadKey, sid: SessionId, ext: Option<Uuid>)
    requires CallOf(s, p) == HasSession(key.user, sid) && (ext.Some? ==> ext.value !in s.unreturned)
    requires !(key in s.threadMap && s.threadMap[key] in ThreadsOf(s, sid))
    ensures var s' := Search(s, p, key, ext);
            && SameRegistry(s, s') && s'.seen == s.seen + (if ext.Some? then {ext.value} else {})
            && CallOf(s', p) == if Adopts(s, sid, ext) then Confirmed(key, sid, ext.value) else MustCreate(key, sid)
  {
    KeyNotFound(s, p, key, sid);
    var s1 := Goto(s, p, KeyMissed(key, sid));
    assert CallOf(s1, p) == KeyMissed(key, sid);
    SearchRest(s1, p, key, sid, ext);
  }

  lemma ReadsMap(s: Sys, p: Pid, key: ThreadKey, sid: SessionId, ext: Option<Uuid>)
    requires CallOf(s, p) == KeyMissed(key, sid) && (ext.Some? ==> ext.value !in s.unreturned)
    ensures var s' := Next(s, ReadMap(p, ext));
            && SameRegistry(s, s') && s'.seen == s.seen + (if ext.Some? then {ext.value} else {})
            && CallOf(s', p) == if ext.Some? && ext.value !in s.threadMap.Values
                                then Candidate(key, sid, ext.value)
                                else MustCreate(key, sid)
  {
  }

  lemma ChecksThread(s: Sys, p: Pid, key: ThreadKey, sid: SessionId, id: Uuid)
    requires CallOf(s, p) == Candidate(key, sid, id)
    ensures var s' := Next(s, CheckThread(p));
            && SameRegistry(s, s') && s'.seen == s.seen
            && CallOf(s', p) == if id in ThreadsOf(s, sid) then Confirmed(key, sid, id) else MustCreate(key, sid)
  {
  }

  lemma NoCandidate(s: Sys, p: Pid)
    requires CallOf(s, p).MustCreate?
    ensures Next(s, CheckThread(p)) == s
  {
  }

  lemma SearchRest(s: Sys, p: Pid, key: ThreadKey, sid: SessionId, ext: Option<Uuid>)
    requires CallOf(s, p) == KeyMissed(key, sid) && (ext.Some? ==> ext.value !in s.unreturned)
    ensures var s' := Next(Next(s, ReadMap(p, ext)), CheckThread(p));
            && SameRegistry(s, s') && s'.seen == s.seen + (if ext.Some? then {ext.value} else {})
            && CallOf(s', p) == if Adopts(s, sid, ext) then Confirmed(key, sid, ext.value) else MustCreate(key, sid)
  {
    ReadsMap(s, p, key, sid, ext);
    var s1 := Next(s, ReadMap(p, ext));
    if ext.Some? && ext.value !in s.threadMap.Values {
      ChecksThread(s1, p, key, sid, ext.value);
    } else {
      NoCandidate(s1, p);
    }
  }

  lemma FinishResolved(s: Sys, p: Pid, freshId: Uuid, freshMid: ManagerId)
    requires CallOf(s, p).Resolved?
    ensures Finish(s, p, freshId, freshMid) == s
  {
  }

  lemma FinishAdopted(s: Sys, p: Pid, key: ThreadKey, sid: SessionId, id: Uuid, freshId: Uuid, freshMid: ManagerId)
    requires CallOf(s, p) == Confirmed(key, sid, id) && id !in s.threadMap.Values && freshMid !in s.managers.Values
    ensures var s' := Finish(s, p, freshId, freshMid);
            && CallOf(s', p) == Resolved(key, id) && s'.threadMap == s.threadMap[key := id]
            && s'.sessions == s.sessions && s'.threads == s.threads && s'.managers.Keys == s.managers.Keys + {id}
  {
    var s1 := Next(s, AdoptWrite(p));
    assert CallOf(s1, p) == NeedsManager(key, id) && s1.managers == s.managers;
    var s2 := Next(Next(Next(s1, CreateInSession(p, freshId)), StoreMapping(p)), InsertManager(p, freshMid));
    assert s2 == s1;
  }

  lemma CreateNew(s: Sys, p: Pid, key: ThreadKey, sid: SessionId, freshId: Uuid)
    requires CallOf(s, p) == MustCreate(key, sid) && freshId !in s.seen
    ensures var s' := Next(s, CreateInSession(p, freshId));
            && CallOf(s', p) == CreatedThread(key, freshId) && s'.threadMap == s.threadMap
            && s'.sessions == s.sessions && s'.threads == s.threads[sid := ThreadsOf(s, sid) + {freshId}]
            && s'.managers == s.managers
  {
  }

  lemma StoreNew(s: Sys, p: Pid, key: ThreadKey, id: Uuid)
    requires CallOf(s, p) == CreatedThread(key, id)
    ensures var s' := Next(s, StoreMapping(p));
            && CallOf(s', p) == StoredMapping(key, id) && s'.threadMap == s.threadMap[key := id]
            && s'.sessions == s.sessions && s'.threads == s.threads && s'.managers == s.managers
  {
  }

  lemma InsertNew(s: Sys, p: Pid, key: ThreadKey, id: Uuid, freshMid: ManagerId)
    requires CallOf(s, p) == StoredMapping(key, id) && freshMid !in s.managers.Values
    ensures var s' := Next(Next(s, InsertManager(p, freshMid)), EnsureManager(p, freshMid));
            && CallOf(s', p) == Resolved(key, id) && s'.threadMap == s.threadMap
            && s'.sessions == s.sessions && s'.threads == s.threads && s'.managers.Keys == s.managers.Keys + {id}
  {
    var s1 := Next(s, InsertManager(p, freshMid));
    assert CallOf(s1, p) == Resolved(key, id) && s1.managers == s.managers[id := freshMid];
  }

  lemma FinishCreated(s: Sys, p: Pid, key: ThreadKey, sid: SessionId, freshId: Uuid, freshMid: ManagerId)
    requires CallOf(s, p) == MustCreate(key, sid) && freshId !in s.seen && freshMid !in s.managers.Values
    ensures var s' := Finish(s, p, freshId, freshMid);
            && CallOf(s', p) == Resolved(key, freshId) && s'.threadMap == s.threadMap[key := freshId]
            && s'.sessions == s.sessions && s'.threads == s.threads[sid := ThreadsOf(s, sid) + {freshId}]
            && s'.managers.Keys == s.managers.Keys + {freshId}
  {
    NoAdoption(s, p);
    CreateNew(s, p, key, sid, freshId);
    var s1 := Next(s, CreateInSession(p, freshId));
    StoreNew(s1, p, key, freshId);
    InsertNew(Next(s1, StoreMapping(p)), p, key, freshId, freshMid);
  }

  lemma NoAdoption(s: Sys, p: Pid)
    requires CallOf(s, p).MustCreate?
    ensures Next(s, AdoptWrite(p)) == s
  {
  }

  function External(key: ThreadKey, text: UuidText): Option<Uuid> {
    if key.external.Some? then text.parse(key.external.value) else None
  }

  predicate IsMapped(s: Sys, key: ThreadKey, sid: SessionId) {
    key in s.threadMap && s.threadMap[key] in ThreadsOf(s, sid)
  }

  /** The whole operation on the registry, by case. */
  lemma ResolveByCase(s: Sys, key: ThreadKey, sid: SessionId, text: UuidText, freshId: Uuid)
    requires OwnSession(s, key.user, sid)
    ensures var id, s' := ResolvedTo(Abs(s), key, text, freshId), Resolve(Abs(s), key, text, freshId);
            if IsMapped(s, key, sid)
            then id == s.threadMap[key] && s'.threadMap == s.threadMap && s'.managers == s.managers.Keys
                 && Threads(s', key.user) == ThreadsOf(s, sid)
            else if Adopts(s, sid, External(key, text))
            then id == External(key, text).value && s'.threadMap == s.threadMap[key := id]
                 && s'.managers == s.managers.Keys + {id} && Threads(s', key.user) == ThreadsOf(s, sid)
            else id == freshId && s'.threadMap == s.threadMap[key := id]
                 && s'.managers == s.managers.Keys + {id} && Threads(s', key.user) == ThreadsOf(s, sid) + {id}
  {
    assert Threads(Abs(s), key.user) == ThreadsOf(s, sid);
  }

  /** All sections of a resolution, run alone, find, adopt or create exactly the thread of the whole operation. */
  lemma ResolveInOneGo(s: Sys, p: Pid, key: ThreadKey, sid: SessionId, text: UuidText, freshId: Uuid, freshMid: ManagerId)
    requires CallOf(s, p) == HasSession(key.user, sid) && OwnSession(s, key.user, sid)
    requires freshId !in s.seen && freshMid !in s.managers.Values
    requires External(key, text).Some? ==>
               External(key, text).value !in s.unreturned && External(key, text).value != freshId
    ensures var s' := Finish(Search(s, p, key, External(key, text)), p, freshId, freshMid);
            && CallOf(s', p) == Resolved(key, ResolvedTo(Abs(s), key, text, freshId))
            && s'.threadMap == Resolve(Abs(s), key, text, freshId).threadMap
            && s'.managers.Keys == Resolve(Abs(s), key, text, freshId).managers
            && s'.sessions == s.sessions
            && ThreadsOf(s', sid) == Threads(Resolve(Abs(s), key, text, freshId), key.user)
  {
    var ext := External(key, text);
    ResolveByCase(s, key, sid, text, freshId);
    if IsMapped(s, key, sid) {
      SearchMapped(s, p, key, sid, ext);
      FinishResolved(Search(s, p, key, ext), p, freshId, freshMid);
    } else {
      SearchUnmapped(s, p, key, sid, ext);
      if Adopts(s, sid, ext) {
        FinishAdopted(Search(s, p, key, ext), p, key, sid, ext.value, freshId, freshMid);
      } else {
        FinishCreated(Search(s, p, key, ext), p, key, sid, freshId, freshMid);
      }
    }
  }

  /** The sections of a hydration, run alone, add and map exactly the thread of the whole operation. */
  lemma HydrateInOneGo(s: Sys, p: Pid, key: ThreadKey, sid: SessionId, id: Uuid, freshMid: ManagerId)
    requires CallOf(s, p) == HasSession(key.user, sid) && OwnSession(s, key.user, sid)
    requires id !in s.unreturned && freshMid !in s.managers.Values && sid in s.threads
    ensures var checked := Next(s, HydrateCheck(p, key, id));
            var s' := Next(Next(Next(checked, HydrateInsert(p)), RegisterKey(p)), EnsureManager(p, freshMid));
            if id in ThreadsOf(s, sid) then s' == s
            else
              && CallOf(s', p) == Resolved(key, id) && s'.threadMap == s.threadMap[key := id]
              && s'.sessions == s.sessions && ThreadsOf(s', sid) == ThreadsOf(s, sid) + {id}
              && s'.managers.Keys == s.managers.Keys + {id}
  {
    var s1 := Next(s, HydrateCheck(p, key, id));
    HydrateChecks(s, p, key, sid, id);
    if id !in ThreadsOf(s, sid) {
      HydrateInserts(s1, p, key, sid, id);
      RegisterMaps(Next(s1, HydrateInsert(p)), p, key, id, freshMid);
    }
  }

  lemma HydrateChecks(s: Sys, p: Pid, key: ThreadKey, sid: SessionId, id: Uuid)
    requires CallOf(s, p) == HasSession(key.user, sid) && id !in s.unreturned
    ensures var s' := Next(s, HydrateCheck(p, key, id));
            if id in ThreadsOf(s, sid)
            then s' == s && Next(s, HydrateInsert(p)) == s && Next(s, RegisterKey(p)) == s
                 && forall m: ManagerId :: Next(s, EnsureManager(p, m)) == s
            else CallOf(s', p) == Loading(key, sid, id) && SameRegistry(s, s')
  {
  }

  lemma HydrateInserts(s: Sys, p: Pid, key: ThreadKey, sid: SessionId, id: Uuid)
    requires CallOf(s, p) == Loading(key, sid, id)
    ensures var s' := Next(s, HydrateInsert(p));
            && CallOf(s', p) == Inserted(key, id) && s'.threadMap == s.threadMap && s'.managers == s.managers
            && s'.sessions == s.sessions && ThreadsOf(s', sid) == ThreadsOf(s, sid) + {id}
  {
  }

  lemma RegisterMaps(s: Sys, p: Pid, key: ThreadKey, id: Uuid, freshMid: ManagerId)
    requires CallOf(s, p) == Inserted(key, id) && freshMid !in s.managers.Values
    ensures var s' := Next(Next(s, RegisterKey(p)), EnsureManager(p, freshMid));
            && CallOf(s', p) == Resolved(key, id) && s'.threadMap == s.threadMap[key := id]
            && s'.sessions == s.sessions && s'.threads == s.threads && s'.managers.Keys == s.managers.Keys + {id}
  {
    var s1 := Next(s, RegisterKey(p));
    assert CallOf(s1, p) == NeedsManager(key, id) && s1.managers == s.managers;
  }
}
