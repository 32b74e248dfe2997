/** The pool of managed Claude Code sessions (cli/managed/manager.py): four dictionaries that move
    a session from a temporary id to the one its process reports. Each operation runs under the
    pool's lock and is one step here. */
module SessionPool {
  import opened Text

  /** Sessions are numbered in the order of their creation. */
  type Session = nat

  datatype Pool = Pool(
    sessions: map<string, Session>,
    pending: map<string, Session>,
    tempToReal: map<string, string>,
    realToTemp: map<string, string>,
    created: nat,
    stopped: set<Session>)

  const EMPTY := Pool(map[], map[], map[], map[], 0, {})

  // ---------------------------------------------------------------- the operations

  function Without<V>(m: map<string, V>, k: string): map<string, V> {
    map x | x in m && x != k :: m[x]
  }

  function LookupId(p: Pool, id: string): string {
    if id in p.tempToReal then p.tempToReal[id] else id
  }

  /** What is found under an id: live sessions before pending ones. */
  function Found(p: Pool, id: string): Option<Session> {
    var actual := LookupId(p, id);
    if actual in p.sessions then Some(p.sessions[actual])
    else if actual in p.pending then Some(p.pending[actual])
    else None
  }

  function Create(p: Pool, id: string): Pool {
    p.(pending := p.pending[id := p.created], created := p.created + 1)
  }

  /** `newId` is the id a caller without one is given. */
  function Get(p: Pool, id: string, newId: string): Pool {
    if id != "" && Found(p, id).Some? then p else Create(p, if id != "" then id else newId)
  }

  function Register(p: Pool, temp: string, actual: string): Pool {
    if temp !in p.pending then p
    else p.(sessions := p.sessions[actual := p.pending[temp]],
            pending := Without(p.pending, temp),
            tempToReal := p.tempToReal[temp := actual],
            realToTemp := p.realToTemp[actual := temp])
  }

  function Remove(p: Pool, id: string): Pool {
    if id in p.pending then
      p.(pending := Without(p.pending, id), stopped := p.stopped + {p.pending[id]})
    else if id in p.sessions then
      var q := p.(sessions := Without(p.sessions, id), stopped := p.stopped + {p.sessions[id]},
                  realToTemp := Without(p.realToTemp, id));
      if id in p.realToTemp then q.(tempToReal := Without(p.tempToReal, p.realToTemp[id])) else q
    else p
  }

  function StopAll(p: Pool): Pool {
    EMPTY.(created := p.created, stopped := p.stopped + p.sessions.Values + p.pending.Values)
  }

  datatype Action =
    | GetAction(id: string, newId: string)
    | RegisterAction(temp: string, actual: string)
    | RemoveAction(id: string)
    | StopAllAction

  function Apply(p: Pool, a: Action): Pool {
    match a
    case GetAction(id, newId) => Get(p, id, newId)
    case RegisterAction(temp, actual) => Register(p, temp, actual)
    case RemoveAction(id) => Remove(p, id)
    case StopAllAction => StopAll(p)
  }

  function Run(p: Pool, actions: seq<Action>): Pool
    decreases |actions|
  {
    if actions == [] then p else Run(Apply(p, actions[0]), actions[1..])
  }

  // ---------------------------------------------------------------- the invariant

  /** The two id maps are inverse to each other, and the real ids are the live ones. */
  ghost predicate Paired(p: Pool) {
    && (forall t :: t in p.tempToReal ==> p.tempToReal[t] in p.realToTemp && p.realToTemp[p.tempToReal[t]] == t)
    && (forall r :: r in p.realToTemp ==> p.realToTemp[r] in p.tempToReal && p.tempToReal[p.realToTemp[r]] == r)
    && p.realToTemp.Keys == p.sessions.Keys
  }

  /** An id stands in one place. */
  ghost predicate Apart(p: Pool) {
    p.pending.Keys !! p.sessions.Keys && p.pending.Keys !! p.tempToReal.Keys
  }

  ghost predicate Injective(m: map<string, Session>) {
    forall x, y :: x in m && y in m && m[x] == m[y] ==> x == y
  }

  predicate Lives(p: Pool, h: Session) {
    h < p.created && h !in p.stopped
  }

  /** Each session that was created and not stopped is in exactly one pool, under one id. */
  ghost predicate Accounted(p: Pool) {
    && Injective(p.sessions) && Injective(p.pending)
    && (forall h: Session :: Lives(p, h) <==> h in p.sessions.Values + p.pending.Values)
    && p.sessions.Values !! p.pending.Values
    && (forall h :: h in p.stopped ==> h < p.created)
  }

  ghost predicate Inv(p: Pool) {
    Paired(p) && Apart(p) && Accounted(p)
  }

  /** A given id that is new must be new everywhere, as random ids are. */
  predicate IsFresh(p: Pool, id: string) {
    id !in p.pending && id !in p.sessions && id !in p.tempToReal
  }

  /** A reported id is in neither pool, except as the temporary id itself. */
  predicate MayRegister(p: Pool, temp: string, actual: string) {
    actual !in p.sessions && (actual in p.pending ==> actual == temp)
  }

  predicate Legal(p: Pool, a: Action) {
    match a
    case GetAction(id, newId) => id == "" ==> IsFresh(p, newId)
    case RegisterAction(temp, actual) => temp in p.pending ==> MayRegister(p, temp, actual)
    case _ => true
  }

  predicate AllLegal(p: Pool, actions: seq<Action>)
    decreases |actions|
  {
    actions == [] || (Legal(p, actions[0]) && AllLegal(Apply(p, actions[0]), actions[1..]))
  }

  lemma ValuesOfUpdate(m: map<string, Session>, k: string, h: Session)
    requires k !in m && h !in m.Values && Injective(m)
    ensures Injective(m[k := h]) && m[k := h].Values == m.Values + {h}
  {
    var n := m[k := h];
    forall v | v in m.Values + {h}
      ensures v in n.Values
    {
      if v == h {
        assert n[k] == v;
      } else {
        var x :| x in m && m[x] == v;
        assert n[x] == v;
      }
    }
  }

  lemma ValuesOfWithout(m: map<string, Session>, k: string)
    requires k in m && Injective(m)
    ensures Injective(Without(m, k)) && Without(m, k).Values == m.Values - {m[k]}
  {
    var n := Without(m, k);
    forall v | v in m.Values - {m[k]}
      ensures v in n.Values
    {
      var x :| x in m && m[x] == v;
      assert n[x] == v;
    }
  }

  lemma FoundIsFresh(p: Pool, id: string)
    requires Inv(p) && Found(p, id) == None
    ensures IsFresh(p, id)
  {
  }

  lemma CreateKeepsInv(p: Pool, id: string)
    requires Inv(p) && IsFresh(p, id)
    ensures Inv(Create(p, id))
  {
    assert !Lives(p, p.created) && p.created !in p.stopped;
    ValuesOfUpdate(p.pending, id, p.created);
    var q := Create(p, id);
    forall h: Session
      ensures Lives(q, h) <==> h in q.sessions.Values + q.pending.Values
    {
      assert Lives(p, h) <==> h in p.sessions.Values + p.pending.Values;
    }
  }

  lemma RegisterKeepsPaired(p: Pool, temp: string, actual: string)
    requires Inv(p) && temp in p.pending && actual !in p.sessions
    ensures Paired(Register(p, temp, actual))
  {
  }

  lemma RegisterKeepsInv(p: Pool, temp: string, actual: string)
    requires Inv(p) && temp in p.pending && MayRegister(p, temp, actual)
    ensures Inv(Register(p, temp, actual))
  {
    RegisterKeepsPaired(p, temp, actual);
    var q, h0 := Register(p, temp, actual), p.pending[temp];
    assert h0 in p.pending.Values;
    ValuesOfUpdate(p.sessions, actual, h0);
    ValuesOfWithout(p.pending, temp);
    forall h: Session
      ensures Lives(q, h) <==> h in q.sessions.Values + q.pending.Values
    {
      assert Lives(p, h) <==> h in p.sessions.Values + p.pending.Values;
    }
  }

  /** Registering an id that is taken loses a session or puts an id in two places. */
  lemma IllegalRegisterBreaks(p: Pool, temp: string, actual: string)
    requires Inv(p) && temp in p.pending && !MayRegister(p, temp, actual)
    ensures !Inv(Register(p, temp, actual))
  {
    var q := Register(p, temp, actual);
    if actual in p.sessions {
      var lost := p.sessions[actual];
      assert lost in p.sessions.Values && Lives(p, lost) && Lives(q, lost);
      LostSession(p, temp, actual);
      assert lost !in q.sessions.Values + q.pending.Values;
    } else {
      assert actual in q.sessions && actual in q.pending;
    }
  }

  lemma LostSession(p: Pool, temp: string, actual: string)
    requires Inv(p) && temp in p.pending && actual in p.sessions
    ensures var q := Register(p, temp, actual);
            p.sessions[actual] !in q.sessions.Values && p.sessions[actual] !in q.pending.Values
  {
    var q, lost := Register(p, temp, actual), p.sessions[actual];
    assert lost in p.sessions.Values && p.pending[temp] in p.pending.Values;
    forall x | x in q.sessions
      ensures q.sessions[x] != lost
    {
      assert x != actual ==> x in p.sessions && q.sessions[x] == p.sessions[x];
    }
    forall x | x in q.pending
      ensures q.pending[x] != lost
    {
      assert p.pending[x] in p.pending.Values;
    }
  }

  lemma RemoveKeepsPaired(p: Pool, id: string)
    requires Inv(p)
    ensures Paired(Remove(p, id)) && Apart(Remove(p, id))
  {
  }

  lemma RemoveKeepsInv(p: Pool, id: string)
    requires Inv(p)
    ensures Inv(Remove(p, id))
  {
    RemoveKeepsPaired(p, id);
    var q := Remove(p, id);
    if id in p.pending {
      ValuesOfWithout(p.pending, id);
      assert p.pending[id] in p.pending.Values;
    } else if id in p.sessions {
      ValuesOfWithout(p.sessions, id);
      assert p.sessions[id] in p.sessions.Values;
    }
    forall h: Session
      ensures Lives(q, h) <==> h in q.sessions.Values + q.pending.Values
    {
      assert Lives(p, h) <==> h in p.sessions.Values + p.pending.Values;
    }
    forall h | h in q.stopped
      ensures h < q.created
    {
      assert h in p.stopped || Lives(p, h);
    }
  }

  lemma StopAllKeepsInv(p: Pool)
    requires Inv(p)
    ensures Inv(StopAll(p)) && forall h: Session :: !Lives(StopAll(p), h)
  {
    var q := StopAll(p);
    forall h: Session
      ensures !Lives(q, h) && (h in q.stopped ==> h < q.created)
    {
      assert Lives(p, h) <==> h in p.sessions.Values + p.pending.Values;
    }
  }

  lemma ApplyKeepsInv(p: Pool, a: Action)
    requires Inv(p) && Legal(p, a)
    ensures Inv(Apply(p, a))
  {
    match a
    case GetAction(id, newId) =>
      if id == "" {
        CreateKeepsInv(p, newId);
      } else if Found(p, id) == None {
        FoundIsFresh(p, id);
        CreateKeepsInv(p, id);
      }
    case RegisterAction(temp, actual) =>
      if temp in p.pending {
        RegisterKeepsInv(p, temp, actual);
      }
    case RemoveAction(id) => RemoveKeepsInv(p, id);
    case StopAllAction => StopAllKeepsInv(p);
  }

  lemma {:induction false} RunKeepsInv(p: Pool, actions: seq<Action>)
    requires Inv(p) && AllLegal(p, actions)
    ensures Inv(Run(p, actions))
    decreases |actions|
  {
    if actions != [] {
      ApplyKeepsInv(p, actions[0]);
      RunKeepsInv(Apply(p, actions[0]), actions[1..]);
    }
  }

  /** Over every run from an empty pool in which reported ids are in neither pool: the id maps
      are inverse, the real ids are the live ones, and every session that was created and not
      stopped is in exactly one pool. */
  lemma EveryRunKeepsInv(actions: seq<Action>)
    requires AllLegal(EMPTY, actions)
    ensures Inv(Run(EMPTY, actions))
  {
    forall h: Session
      ensures Lives(EMPTY, h) <==> h in EMPTY.sessions.Values + EMPTY.pending.Values
    {
    }
    RunKeepsInv(EMPTY, actions);
  }

  /** The condition on reported ids is the exact one. */
  lemma RegisterKeepsInvExactly(p: Pool, temp: string, actual: string)
    requires Inv(p) && temp in p.pending
    ensures Inv(Register(p, temp, actual)) <==> MayRegister(p, temp, actual)
  {
    if MayRegister(p, temp, actual) {
      RegisterKeepsInv(p, temp, actual);
    } else {
      IllegalRegisterBreaks(p, temp, actual);
    }
  }

  /** The failing side does occur: two new sessions whose processes report one id. The first of
      them runs on, but no id leads to it any more. */
  lemma SharedIdLosesSession()
    ensures var actions := [GetAction("a", ""), GetAction("b", ""), RegisterAction("a", "r"), RegisterAction("b", "r")];
            var p := Run(EMPTY, actions);
            Lives(p, 0) && (forall id :: Found(p, id) != Some(0)) && !Inv(p)
  {
    var actions := [GetAction("a", ""), GetAction("b", ""), RegisterAction("a", "r"), RegisterAction("b", "r")];
    var p2 := Pool(map[], map["a" := 0, "b" := 1], map[], map[], 2, {});
    var p3 := Pool(map["r" := 0], map["b" := 1], map["a" := "r"], map["r" := "a"], 2, {});
    var p4 := Pool(map["r" := 1], map[], map["a" := "r", "b" := "r"], map["r" := "b"], 2, {});
    TwoCreated(p2);
    assert Without(p2.pending, "a") == p3.pending;
    assert Apply(p2, actions[2]) == p3;
    assert Without(p3.pending, "b") == p4.pending && p3.sessions["r" := 1] == p4.sessions;
    assert p3.tempToReal["b" := "r"] == p4.tempToReal && p3.realToTemp["r" := "b"] == p4.realToTemp;
    assert Apply(p3, actions[3]) == p4;
    var first, second := RegisterAction("a", "r"), RegisterAction("b", "r");
    RunTwo(EMPTY, actions[0], actions[1], [first, second]);
    RunTwo(p2, first, second, []);
    assert [first, second] + [] == [first, second];
    assert actions == [actions[0], actions[1]] + [first, second];
    assert Run(EMPTY, actions) == p4;
    assert 0 !in p4.sessions.Values + p4.pending.Values;
    forall id
      ensures Found(p4, id) != Some(0)
    {
    }
  }

  lemma RunTwo(p: Pool, a: Action, b: Action, rest: seq<Action>)
    ensures Run(p, [a, b] + rest) == Run(Apply(Apply(p, a), b), rest)
  {
    var actions := [a, b] + rest;
    assert actions[1..] == [b] + rest && actions[1..][1..] == rest;
  }

  lemma TwoCreated(p: Pool)
    requires p == Pool(map[], map["a" := 0, "b" := 1], map[], map[], 2, {})
    ensures Apply(Apply(EMPTY, GetAction("a", "")), GetAction("b", "")) == p
  {
    var p1 := Pool(map[], map["a" := 0], map[], map[], 1, {});
    assert EMPTY.pending["a" := 0] == p1.pending;
    assert Apply(EMPTY, GetAction("a", "")) == p1;
    assert p1.pending["b" := 1] == p.pending;
  }

  // ---------------------------------------------------------------- a conversation's session

  /** The action takes the session of an id away. */
  predicate Ends(p: Pool, a: Action, h: Session) {
    a.StopAllAction? || (a.RemoveAction? && h in Remove(p, a.id).stopped)
  }

  predicate NoneEnds(p: Pool, actions: seq<Action>, h: Session)
    decreases |actions|
  {
    actions == [] || (!Ends(p, actions[0], h) && NoneEnds(Apply(p, actions[0]), actions[1..], h))
  }

  /** The session of a temporary id: pending under it, or live under the id registered for it. */
  predicate Owns(p: Pool, temp: string, h: Session) {
    (temp in p.pending && p.pending[temp] == h && temp !in p.tempToReal)
    || (temp in p.tempToReal && p.tempToReal[temp] in p.sessions && p.sessions[p.tempToReal[temp]] == h)
  }

  lemma OwnerIsFound(p: Pool, temp: string, h: Session)
    requires Inv(p) && Owns(p, temp, h)
    ensures Found(p, temp) == Some(h) && Lives(p, h)
  {
    if temp in p.pending {
      assert temp !in p.sessions;
      assert h in p.pending.Values;
    } else {
      assert h in p.sessions.Values;
    }
  }

  lemma RegisterKeepsOwner(p: Pool, temp: string, h: Session, temp': string, actual: string)
    requires Inv(p) && Owns(p, temp, h) && temp' in p.pending && MayRegister(p, temp', actual)
    ensures Owns(Register(p, temp', actual), temp, h)
  {
  }

  lemma RemoveKeepsOwner(p: Pool, temp: string, h: Session, id: string)
    requires Inv(p) && Owns(p, temp, h) && h !in Remove(p, id).stopped
    ensures Owns(Remove(p, id), temp, h)
  {
    if id !in p.pending && id in p.sessions {
      assert id in p.realToTemp;
      if temp in p.tempToReal {
        assert p.tempToReal[temp] != id;
      }
    }
  }

  lemma ApplyKeepsOwner(p: Pool, temp: string, h: Session, a: Action)
    requires Inv(p) && Legal(p, a) && Owns(p, temp, h) && !Ends(p, a, h)
    ensures Owns(Apply(p, a), temp, h)
  {
    OwnerIsFound(p, temp, h);
    match a
    case GetAction(id, newId) =>
    case RegisterAction(temp', actual) =>
      if temp' in p.pending {
        RegisterKeepsOwner(p, temp, h, temp', actual);
      }
    case RemoveAction(id) => RemoveKeepsOwner(p, temp, h, id);
    case StopAllAction =>
  }

  /** Until it is stopped, a session is found under its temporary id, however often other
      sessions come and go and whether or not its own id was reported in between. */
  lemma {:induction false} SessionStays(p: Pool, temp: string, h: Session, actions: seq<Action>)
    requires Inv(p) && AllLegal(p, actions) && Owns(p, temp, h) && NoneEnds(p, actions, h)
    ensures Found(Run(p, actions), temp) == Some(h) && Lives(Run(p, actions), h)
    decreases |actions|
  {
    if actions == [] {
      OwnerIsFound(p, temp, h);
    } else {
      ApplyKeepsInv(p, actions[0]);
      ApplyKeepsOwner(p, temp, h, actions[0]);
      SessionStays(Apply(p, actions[0]), temp, h, actions[1..]);
    }
  }

  // ---------------------------------------------------------------- the object

  class ManagedClaudeSessionManager {
    var sessions: map<string, Session>
    var pendingSessions: map<string, Session>
    var tempToReal: map<string, string>
    var realToTemp: map<string, string>
    var created: nat
    var stopped: set<Session>

    function Abs(): Pool
      reads this
    {
      Pool(sessions, pendingSessions, tempToReal, realToTemp, created, stopped)
    }

    constructor ()
      ensures Abs() == EMPTY
    {
      sessions, pendingSessions, tempToReal, realToTemp := map[], map[], map[], map[];
      created, stopped := 0, {};
    }

    method GetOrCreateSession(sessionId: string, freshId: string) returns (session: Session, id: string, isNew: bool)
      modifies this
      ensures Abs() == Get(old(Abs()), sessionId, freshId)
      ensures isNew <==> sessionId == "" || Found(old(Abs()), sessionId) == None
      ensures isNew ==> session == old(created) && id == if sessionId == "" then freshId else sessionId
      ensures !isNew ==> Found(old(Abs()), sessionId) == Some(session) && id == LookupId(old(Abs()), sessionId)
    {
      if sessionId != "" {
        var lookupId := if sessionId in tempToReal then tempToReal[sessionId] else sessionId;
        if lookupId in sessions {
          return sessions[lookupId], lookupId, false;
        }
        if lookupId in pendingSessions {
          return pendingSessions[lookupId], lookupId, false;
        }
      }
      id := if sessionId != "" then sessionId else freshId;
      session, isNew := created, true;
      created := created + 1;
      pendingSessions := pendingSessions[id := session];
    }

    method RegisterRealSessionId(tempId: string, realSessionId: string) returns (ok: bool)
      modifies this
      ensures Abs() == Register(old(Abs()), tempId, realSessionId)
      ensures ok <==> tempId in old(pendingSessions)
    {
      if tempId !in pendingSessions {
        return false;
      }
      var session := pendingSessions[tempId];
      pendingSessions := Without(pendingSessions, tempId);
      sessions := sessions[realSessionId := session];
      tempToReal := tempToReal[tempId := realSessionId];
      realToTemp := realToTemp[realSessionId := tempId];
      ok := true;
    }

    method RemoveSession(sessionId: string) returns (ok: bool)
      modifies this
      ensures Abs() == Remove(old(Abs()), sessionId)
      ensures ok <==> sessionId in old(pendingSessions) || sessionId in old(sessions)
    {
      if sessionId in pendingSessions {
        stopped := stopped + {pendingSessions[sessionId]};
        pendingSessions := Without(pendingSessions, sessionId);
        return true;
      }
      if sessionId in sessions {
        stopped := stopped + {sessions[sessionId]};
        sessions := Without(sessions, sessionId);
        if sessionId in realToTemp {
          tempToReal := Without(tempToReal, realToTemp[sessionId]);
        }
        realToTemp := Without(realToTemp, sessionId);
        return true;
      }
      ok := false;
    }

    method StopEverything()
      modifies this
      ensures Abs() == StopAll(old(Abs()))
    {
      stopped := stopped + sessions.Values + pendingSessions.Values;
      sessions, pendingSessions, tempToReal, realToTemp := map[], map[], map[], map[];
    }
  }
}
