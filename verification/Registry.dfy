/** Sessions, the thread map and the undo managers of all users (src/agent/session_manager.rs), one operation at a time. */
module Registry {
  import opened Wrappers

  type Uuid = nat

  datatype ThreadKey = ThreadKey(user: string, channel: string, external: Option<string>)

  datatype SessionData = SessionData(threads: set<Uuid>, activeThread: Option<Uuid>)

  /** `managers` holds the ids of the threads that have an undo manager. */
  datatype State = State(sessions: map<string, SessionData>, threadMap: map<ThreadKey, Uuid>, managers: set<Uuid>)

  /** Reading and writing of UUIDs: several texts may read as one UUID, only one of them is what it writes as. */
  datatype UuidText = UuidText(parse: string -> Option<Uuid>, format: Uuid -> string)

  ghost predicate Lawful(text: UuidText) {
    forall u: Uuid :: text.parse(text.format(u)) == Some(u)
  }

  // ----- The operations on values -----

  function GetOrCreate(s: State, user: string): State {
    if user in s.sessions then s else s.(sessions := s.sessions[user := SessionData({}, None)])
  }

  function Threads(s: State, user: string): set<Uuid> {
    if user in s.sessions then s.sessions[user].threads else {}
  }

  function WithThread(s: State, user: string, id: Uuid): State
    requires user in s.sessions
  {
    s.(sessions := s.sessions[user := SessionData(s.sessions[user].threads + {id}, Some(id))])
  }

  datatype Resolution = Mapped | Adopted | Created

  /** The UUID an external id could be adopted as. */
  function Adoptable(s: State, key: ThreadKey, text: UuidText): Option<Uuid> {
    if key.external.None? then None
    else match text.parse(key.external.value)
      case None => None
      case Some(u) => if u !in s.threadMap.Values && u in Threads(s, key.user) then Some(u) else None
  }

  function HowResolved(s: State, key: ThreadKey, text: UuidText): Resolution {
    if key in s.threadMap && s.threadMap[key] in Threads(s, key.user) then Mapped
    else if Adoptable(s, key, text).Some? then Adopted
    else Created
  }

  function ResolvedTo(s: State, key: ThreadKey, text: UuidText, freshId: Uuid): Uuid {
    match HowResolved(s, key, text)
    case Mapped => s.threadMap[key]
    case Adopted => Adoptable(s, key, text).value
    case Created => freshId
  }

  function Resolve(s: State, key: ThreadKey, text: UuidText, freshId: Uuid): State {
    var s1 := GetOrCreate(s, key.user);
    match HowResolved(s, key, text)
    case Mapped => s1
    case Adopted =>
      var u := Adoptable(s, key, text).value;
      s1.(threadMap := s1.threadMap[key := u], managers := s1.managers + {u})
    case Created =>
      var s2 := WithThread(s1, key.user, freshId);
      s2.(threadMap := s2.threadMap[key := freshId], managers := s2.managers + {freshId})
  }

  /** `maybe_hydrate_thread` with `register_thread`: the key is built from the canonical text. */
  function Hydrate(s: State, user: string, channel: string, external: string, text: UuidText): State {
    match text.parse(external)
    case None => s
    case Some(u) =>
      var s1 := GetOrCreate(s, user);
      if u in Threads(s1, user) then s1
      else
        var s2 := WithThread(s1, user, u);
        s2.(threadMap := s2.threadMap[ThreadKey(user, channel, Some(text.format(u))) := u],
            managers := s2.managers + {u})
  }

  function NewThread(s: State, user: string, freshId: Uuid): State {
    WithThread(GetOrCreate(s, user), user, freshId)
  }

  function Remove(s: State, user: string, id: Uuid): State {
    var s1 := GetOrCreate(s, user);
    var session := s1.sessions[user];
    State(
      s1.sessions[user := SessionData(session.threads - {id},
                                      if session.activeThread == Some(id) then None else session.activeThread)],
      map k | k in s1.threadMap && s1.threadMap[k] != id :: s1.threadMap[k],
      s1.managers - {id})
  }

  function StaleThreads(s: State, stale: set<string>): set<Uuid> {
    set user, id | user in stale && user in s.sessions && id in s.sessions[user].threads :: id
  }

  function Prune(s: State, stale: set<string>): State {
    State(
      s.sessions - stale,
      map k | k in s.threadMap && k.user !in stale :: s.threadMap[k],
      s.managers - StaleThreads(s, stale))
  }

  datatype Op =
    | CreateOp(user: string)
    | ResolveOp(key: ThreadKey, freshId: Uuid)
    | HydrateOp(user: string, channel: string, external: string)
    | NewThreadOp(user: string, freshId: Uuid)
    | RemoveOp(user: string, id: Uuid)
    | PruneOp(stale: set<string>)

  function Apply(s: State, op: Op, text: UuidText): State {
    match op
    case CreateOp(user) => GetOrCreate(s, user)
    case ResolveOp(key, freshId) => Resolve(s, key, text, freshId)
    case HydrateOp(user, channel, external) => Hydrate(s, user, channel, external, text)
    case NewThreadOp(user, freshId) => NewThread(s, user, freshId)
    case RemoveOp(user, id) => Remove(s, user, id)
    case PruneOp(stale) => Prune(s, stale)
  }

  /** A new UUID is one that appears nowhere yet. */
  predicate Fresh(s: State, id: Uuid) {
    && id !in s.threadMap.Values
    && forall user :: user in s.sessions ==> id !in s.sessions[user].threads
  }

  predicate FreshIn(s: State, op: Op) {
    match op
    case ResolveOp(_, freshId) => Fresh(s, freshId)
    case NewThreadOp(_, freshId) => Fresh(s, freshId)
    case _ => true
  }

  // ----- Channel isolation over every run -----

  /** Each entry points to a live thread of its own user, and no two keys of a user share one. */
  predicate Isolated(s: State) {
    && (forall k :: k in s.threadMap ==> s.threadMap[k] in Threads(s, k.user))
    && (forall j, k :: j in s.threadMap && k in s.threadMap && j.user == k.user && j != k ==>
          s.threadMap[j] != s.threadMap[k])
  }

  lemma StepKeepsIsolation(s: State, op: Op, text: UuidText)
    requires Isolated(s) && FreshIn(s, op)
    ensures Isolated(Apply(s, op, text))
  {
    match op {
      case ResolveOp(key, freshId) =>
        ResolveKeepsIsolation(s, key, text, freshId);
      case HydrateOp(user, channel, external) =>
        HydrateKeepsIsolation(s, user, channel, external, text);
      case _ =>
    }
  }

  lemma ResolveKeepsIsolation(s: State, key: ThreadKey, text: UuidText, freshId: Uuid)
    requires Isolated(s) && Fresh(s, freshId)
    ensures Isolated(Resolve(s, key, text, freshId))
  {
    var s1 := GetOrCreate(s, key.user);
    var id := ResolvedTo(s, key, text, freshId);
    SessionKeepsIsolation(s, key.user);
    if !HowResolved(s, key, text).Mapped? {
      assert forall k :: k in s.threadMap ==> s.threadMap[k] in s.threadMap.Values;
      var s2 := if HowResolved(s, key, text).Created? then WithThread(s1, key.user, freshId) else s1;
      ThreadKeepsIsolation(s1, key.user, freshId);
      MappingKeepsIsolation(s2, key, id, s2.managers + {id});
    }
  }

  lemma SessionKeepsIsolation(s: State, user: string)
    requires Isolated(s)
    ensures Isolated(GetOrCreate(s, user)) && Threads(GetOrCreate(s, user), user) == Threads(s, user)
  {
  }

  lemma ThreadKeepsIsolation(s: State, user: string, id: Uuid)
    requires Isolated(s) && user in s.sessions
    ensures Isolated(WithThread(s, user, id)) && id in Threads(WithThread(s, user, id), user)
  {
  }

  /** Mapping a key to a live thread of its user that no other key of the user maps. */
  lemma MappingKeepsIsolation(s: State, key: ThreadKey, id: Uuid, managers: set<Uuid>)
    requires Isolated(s) && id in Threads(s, key.user)
    requires forall k :: k in s.threadMap && k.user == key.user ==> s.threadMap[k] != id
    ensures Isolated(s.(threadMap := s.threadMap[key := id], managers := managers))
  {
  }

  lemma HydrateKeepsIsolation(s: State, user: string, channel: string, external: string, text: UuidText)
    requires Isolated(s)
    ensures Isolated(Hydrate(s, user, channel, external, text))
  {
    var u := text.parse(external);
    SessionKeepsIsolation(s, user);
    if u.Some? && u.value !in Threads(s, user) {
      var s1 := GetOrCreate(s, user);
      var s2 := WithThread(s1, user, u.value);
      ThreadKeepsIsolation(s1, user, u.value);
      assert forall k :: k in s1.threadMap && k.user == user ==> s1.threadMap[k] in Threads(s1, user);
      MappingKeepsIsolation(s2, ThreadKey(user, channel, Some(text.format(u.value))), u.value, s2.managers + {u.value});
    }
  }

  // ----- What a key resolves to -----

  /** A thread alive in the user's session. */
  predicate IsLive(s: State, user: string, id: Uuid) { user in s.sessions && id in s.sessions[user].threads }

  /** The thread a key's text names, if it is alive for the user and no key at all maps it. */
  ghost predicate Names(s: State, key: ThreadKey, text: UuidText, id: Uuid) {
    && key.external.Some? && text.parse(key.external.value) == Some(id) && IsLive(s, key.user, id)
    && forall k :: k in s.threadMap ==> s.threadMap[k] != id
  }

  /** A live mapping first, then the thread that the text names, and only else a new one. */
  lemma ResolvesTo(s: State, key: ThreadKey, text: UuidText, freshId: Uuid)
    ensures var id := ResolvedTo(s, key, text, freshId);
            var mapped := key in s.threadMap && IsLive(s, key.user, s.threadMap[key]);
            && (mapped ==> id == s.threadMap[key])
            && (!mapped ==> forall u: Uuid :: Names(s, key, text, u) ==> id == u)
            && (!mapped && (forall u: Uuid :: !Names(s, key, text, u)) ==> id == freshId)
  {
    var a := Adoptable(s, key, text);
    assert a.Some? ==> Names(s, key, text, a.value);
  }

  /** What resolving leaves behind: the key on its thread, and every other key and user as before. */
  lemma ResolveMeans(s: State, key: ThreadKey, text: UuidText, freshId: Uuid)
    requires Isolated(s) && Fresh(s, freshId)
    ensures var s', id := Resolve(s, key, text, freshId), ResolvedTo(s, key, text, freshId);
            && key in s'.threadMap && s'.threadMap[key] == id && IsLive(s', key.user, id)
            && (forall k :: k != key ==> (k in s'.threadMap <==> k in s.threadMap))
            && (forall k :: k != key && k in s.threadMap ==> s'.threadMap[k] == s.threadMap[k])
            && (key !in s.threadMap || s.threadMap[key] != id ==> s'.managers == s.managers + {id})
  {
    ResolveKeepsIsolation(s, key, text, freshId);
  }

  lemma ResolveLeaves(s: State, key: ThreadKey, text: UuidText, freshId: Uuid)
    ensures var s', id := Resolve(s, key, text, freshId), ResolvedTo(s, key, text, freshId);
            && (forall user :: user != key.user ==> (user in s'.sessions <==> user in s.sessions))
            && (forall user :: user != key.user && user in s.sessions ==> s'.sessions[user] == s.sessions[user])
            && key.user in s'.sessions && s'.sessions[key.user].threads == Threads(s, key.user) + {id}
            && (!IsLive(s, key.user, id) ==> s'.sessions[key.user].activeThread == Some(id))
            && (IsLive(s, key.user, id) && id != freshId ==> s'.sessions[key.user] == s.sessions[key.user])
  {
  }

  /** A thread that the user made is found by its UUID on a key that is not mapped yet. */
  lemma NewThreadThenResolve(s: State, key: ThreadKey, t: Uuid, text: UuidText, freshId: Uuid)
    requires Isolated(s) && Lawful(text) && Fresh(s, t) && key !in s.threadMap && key.external == Some(text.format(t))
    ensures ResolvedTo(NewThread(s, key.user, t), key, text, freshId) == t
  {
    var s' := NewThread(s, key.user, t);
    assert s'.threadMap == s.threadMap;
    assert t in Threads(s', key.user);
  }

  /** A run is a sequence of operations whose new ids are new when used. */
  predicate IsRun(s: State, ops: seq<Op>, text: UuidText)
    decreases |ops|
  {
    ops == [] || (FreshIn(s, ops[0]) && IsRun(Apply(s, ops[0], text), ops[1..], text))
  }

  function RunOps(s: State, ops: seq<Op>, text: UuidText): State
    decreases |ops|
  {
    if ops == [] then s else RunOps(Apply(s, ops[0], text), ops[1..], text)
  }

  lemma {:induction false} RunKeepsIsolation(s: State, ops: seq<Op>, text: UuidText)
    requires Isolated(s) && IsRun(s, ops, text)
    ensures Isolated(RunOps(s, ops, text))
    decreases |ops|
  {
    if ops != [] {
      StepKeepsIsolation(s, ops[0], text);
      RunKeepsIsolation(Apply(s, ops[0], text), ops[1..], text);
    }
  }

  /** Removing its thread, pruning its user, or hydrating its very key can change what a key resolves to. */
  predicate Touches(op: Op, key: ThreadKey, id: Uuid, text: UuidText) {
    match op
    case RemoveOp(_, removed) => removed == id
    case PruneOp(stale) => key.user in stale
    case HydrateOp(user, channel, external) =>
      var u := text.parse(external);
      u.Some? && key == ThreadKey(user, channel, Some(text.format(u.value)))
    case _ => false
  }

  predicate Untouched(ops: seq<Op>, key: ThreadKey, id: Uuid, text: UuidText) {
    forall i :: 0 <= i < |ops| ==> !Touches(ops[i], key, id, text)
  }

  lemma StepKeepsKey(s: State, op: Op, key: ThreadKey, text: UuidText)
    requires Isolated(s) && FreshIn(s, op) && key in s.threadMap
    requires !Touches(op, key, s.threadMap[key], text)
    ensures var s' := Apply(s, op, text); key in s'.threadMap && s'.threadMap[key] == s.threadMap[key]
  {
    assert s.threadMap[key] in Threads(s, key.user);
  }

  lemma {:induction false} RunKeepsKey(s: State, ops: seq<Op>, key: ThreadKey, id: Uuid, text: UuidText)
    requires Isolated(s) && IsRun(s, ops, text) && key in s.threadMap && s.threadMap[key] == id
    requires Untouched(ops, key, id, text)
    ensures var s' := RunOps(s, ops, text); Isolated(s') && key in s'.threadMap && s'.threadMap[key] == id
    decreases |ops|
  {
    if ops != [] {
      assert !Touches(ops[0], key, id, text);
      StepKeepsIsolation(s, ops[0], text);
      StepKeepsKey(s, ops[0], key, text);
      RunKeepsKey(Apply(s, ops[0], text), ops[1..], key, id, text);
    }
  }

  /** A key keeps resolving to the same thread through every run that does not touch it. */
  lemma ResolvesToSameThread(s: State, key: ThreadKey, freshId: Uuid, ops: seq<Op>, laterId: Uuid, text: UuidText)
    requires Isolated(s) && Fresh(s, freshId)
    requires var s1 := Resolve(s, key, text, freshId);
             IsRun(s1, ops, text) && Untouched(ops, key, ResolvedTo(s, key, text, freshId), text)
    ensures var s1 := Resolve(s, key, text, freshId);
            ResolvedTo(RunOps(s1, ops, text), key, text, laterId) == ResolvedTo(s, key, text, freshId)
  {
    ResolveKeepsIsolation(s, key, text, freshId);
    RunKeepsKey(Resolve(s, key, text, freshId), ops, key, ResolvedTo(s, key, text, freshId), text);
  }

  /**
   * Hydration is meant to make the next resolution find the thread with the UUID the frontend sent. It does
   * exactly when the frontend sent the canonical text; any other spelling resolves to some other thread.
   */
  lemma HydrateThenResolve(s: State, user: string, channel: string, external: string, text: UuidText, freshId: Uuid)
    requires Isolated(s) && Lawful(text) && text.parse(external).Some?
    requires text.parse(external).value !in Threads(s, user)
    requires Fresh(Hydrate(s, user, channel, external, text), freshId)
    ensures var u := text.parse(external).value;
            ResolvedTo(Hydrate(s, user, channel, external, text), ThreadKey(user, channel, Some(external)), text, freshId) == u
            <==> external == text.format(u)
  {
    var u := text.parse(external).value;
    var s' := Hydrate(s, user, channel, external, text);
    var canonical := ThreadKey(user, channel, Some(text.format(u)));
    assert s'.threadMap[canonical] == u && u in s'.threadMap.Values;
    HydrateKeepsIsolation(s, user, channel, external, text);
  }

  /** Every mapped thread has an undo manager. */
  predicate Managed(s: State) {
    forall k :: k in s.threadMap ==> s.threadMap[k] in s.managers
  }

  /**
   * The three maps agree after every operation but one: pruning takes a manager away from a surviving key
   * exactly when that key's thread id also lives in a pruned session, as when two users hydrated one UUID.
   */
  lemma StepKeepsManaged(s: State, op: Op, text: UuidText)
    requires Managed(s) && FreshIn(s, op)
    ensures Managed(Apply(s, op, text)) <==>
            !(op.PruneOp? && exists k :: k in s.threadMap && k.user !in op.stale && s.threadMap[k] in StaleThreads(s, op.stale))
  {
    match op {
      case PruneOp(stale) =>
        var s' := Prune(s, stale);
        assert forall k :: k in s'.threadMap <==> k in s.threadMap && k.user !in stale;
      case _ =>
    }
  }

  /** Two users hydrate one UUID on a channel, then the first is pruned: the second's key has lost its manager. */
  function SharedUuidRun(a: string, b: string, channel: string, external: string): seq<Op> {
    [HydrateOp(a, channel, external), HydrateOp(b, channel, external), PruneOp({a})]
  }

  lemma RunThree(s: State, x: Op, y: Op, z: Op, text: UuidText)
    ensures RunOps(s, [x, y, z], text) == Apply(Apply(Apply(s, x, text), y, text), z, text)
    ensures IsRun(s, [x, y, z], text) <==>
            FreshIn(s, x) && FreshIn(Apply(s, x, text), y) && FreshIn(Apply(Apply(s, x, text), y, text), z)
  {
    var s1, s2 := Apply(s, x, text), Apply(Apply(s, x, text), y, text);
    assert [x, y, z][1..] == [y, z] && [y, z][1..] == [z] && [z][1..] == [];
    assert RunOps(s1, [y, z], text) == RunOps(s2, [z], text) == Apply(s2, z, text);
    assert IsRun(s2, [z], text) <==> FreshIn(s2, z);
    assert IsRun(s1, [y, z], text) <==> FreshIn(s1, y) && IsRun(s2, [z], text);
  }

  lemma PruneTakesManager(a: string, b: string, channel: string, external: string, text: UuidText)
    requires a != b && text.parse(external).Some?
    ensures var empty := State(map[], map[], {});
            var run := SharedUuidRun(a, b, channel, external);
            Managed(empty) && IsRun(empty, run, text) && !Managed(RunOps(empty, run, text))
  {
    var empty := State(map[], map[], {});
    var u := text.parse(external).value;
    var x, y := HydrateOp(a, channel, external), HydrateOp(b, channel, external);
    RunThree(empty, x, y, PruneOp({a}), text);
    var s := Apply(Apply(empty, x, text), y, text);
    var key := ThreadKey(b, channel, Some(text.format(u)));
    assert s.threadMap[key] == u && u in s.sessions[a].threads;
    assert u in StaleThreads(s, {a});
    var s' := Apply(s, PruneOp({a}), text);
    assert key in s'.threadMap && s'.threadMap[key] == u && u !in s'.managers;
  }

  // ----- The class -----

  class SessionManager {
    var sessions: map<string, SessionData>
    var threadMap: map<ThreadKey, Uuid>
    var undoManagers: set<Uuid>

    function View(): State
      reads this
    {
      State(sessions, threadMap, undoManagers)
    }

    constructor ()
      ensures View() == State(map[], map[], {}) && Isolated(View())
    {
      sessions, threadMap, undoManagers := map[], map[], {};
    }

    method GetOrCreateSession(user: string)
      modifies this
      ensures View() == GetOrCreate(old(View()), user)
      ensures sessions == if user in old(sessions) then old(sessions) else old(sessions)[user := SessionData({}, None)]
      ensures threadMap == old(threadMap) && undoManagers == old(undoManagers)
    {
      if user in sessions {
        return;
      }
      sessions := sessions[user := SessionData({}, None)];
    }

    method CreateThread(user: string, freshId: Uuid)
      requires user in sessions
      modifies this
      ensures View() == WithThread(old(View()), user, freshId)
      ensures sessions == old(sessions)[user := SessionData(old(sessions)[user].threads + {freshId}, Some(freshId))]
      ensures threadMap == old(threadMap) && undoManagers == old(undoManagers)
    {
      sessions := sessions[user := SessionData(sessions[user].threads + {freshId}, Some(freshId))];
    }

    method ResolveThread(key: ThreadKey, text: UuidText, freshId: Uuid) returns (id: Uuid)
      requires Isolated(View()) && Fresh(View(), freshId)
      modifies this
      ensures View() == Resolve(old(View()), key, text, freshId) && Isolated(View())
      ensures id == ResolvedTo(old(View()), key, text, freshId)
      ensures key in threadMap && threadMap[key] == id
    {
      ResolveKeepsIsolation(View(), key, text, freshId);
      GetOrCreateSession(key.user);
      if key in threadMap {
        id := threadMap[key];
        if id in sessions[key.user].threads {
          return;
        }
      }
      if key.external.Some? && text.parse(key.external.value).Some? {
        var ext := text.parse(key.external.value).value;
        var mappedElsewhere := ext in threadMap.Values;
        if !mappedElsewhere && ext in sessions[key.user].threads {
          threadMap := threadMap[key := ext];
          undoManagers := undoManagers + {ext};
          return ext;
        }
      }
      CreateThread(key.user, freshId);
      threadMap := threadMap[key := freshId];
      undoManagers := undoManagers + {freshId};
      id := freshId;
    }

    method MaybeHydrateThread(user: string, channel: string, external: string, text: UuidText)
      requires Isolated(View())
      modifies this
      ensures View() == Hydrate(old(View()), user, channel, external, text) && Isolated(View())
      ensures text.parse(external).None? ==> View() == old(View())
      ensures text.parse(external).Some? ==>
                var u := text.parse(external).value;
                && user in sessions && u in sessions[user].threads
                && (IsLive(old(View()), user, u) ==> View() == old(View()))
                && (!IsLive(old(View()), user, u) ==>
                      && sessions[user] == SessionData(Threads(old(View()), user) + {u}, Some(u))
                      && threadMap == old(threadMap)[ThreadKey(user, channel, Some(text.format(u))) := u]
                      && undoManagers == old(undoManagers) + {u})
      ensures forall other :: other != user && other in old(sessions) ==> other in sessions && sessions[other] == old(sessions)[other]
    {
      HydrateKeepsIsolation(View(), user, channel, external, text);
      var parsed := text.parse(external);
      if parsed.None? {
        return;
      }
      GetOrCreateSession(user);
      if parsed.value in sessions[user].threads {
        return;
      }
      CreateThread(user, parsed.value);
      threadMap := threadMap[ThreadKey(user, channel, Some(text.format(parsed.value))) := parsed.value];
      undoManagers := undoManagers + {parsed.value};
    }

    method RemoveThread(user: string, id: Uuid)
      requires Isolated(View())
      modifies this
      ensures View() == Remove(old(View()), user, id) && Isolated(View())
      ensures id !in threadMap.Values && undoManagers == old(undoManagers) - {id}
      ensures forall k :: k in threadMap <==> k in old(threadMap) && old(threadMap)[k] != id
      ensures forall k :: k in threadMap ==> threadMap[k] == old(threadMap)[k]
      ensures user in sessions && sessions[user].threads == Threads(old(View()), user) - {id}
      ensures user in old(sessions) ==>
                sessions[user].activeThread
                == if old(sessions)[user].activeThread == Some(id) then None else old(sessions)[user].activeThread
      ensures forall other :: other != user ==> (other in sessions <==> other in old(sessions))
      ensures forall other :: other != user && other in sessions ==> sessions[other] == old(sessions)[other]
    {
      GetOrCreateSession(user);
      var session := sessions[user];
      sessions := sessions[user := SessionData(session.threads - {id},
                                               if session.activeThread == Some(id) then None else session.activeThread)];
      threadMap := map k | k in threadMap && threadMap[k] != id :: threadMap[k];
      undoManagers := undoManagers - {id};
    }

    method PruneStaleSessions(stale: set<string>)
      requires Isolated(View())
      modifies this
      ensures View() == Prune(old(View()), stale) && Isolated(View())
      ensures forall user :: user in sessions <==> user in old(sessions) && user !in stale
      ensures forall user :: user in sessions ==> sessions[user] == old(sessions)[user]
      ensures forall k :: k in threadMap <==> k in old(threadMap) && k.user !in stale
      ensures forall k :: k in threadMap ==> threadMap[k] == old(threadMap)[k]
      ensures forall id :: id in undoManagers <==>
                id in old(undoManagers) && !exists user :: user in stale && IsLive(old(View()), user, id)
    {
      var ids := StaleThreads(View(), stale);
      sessions := sessions - stale;
      threadMap := map k | k in threadMap && k.user !in stale :: threadMap[k];
      undoManagers := undoManagers - ids;
    }
  }
}
