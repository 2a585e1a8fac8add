/**
 Browser sessions (app/ui/session.py): the Redis adapter against the in-memory one, operation by
 operation and over whole sequences of operations.
 */
module SessionStore {
  import opened Base

  type SessionId = string

  datatype Session = Session(
    id: SessionId,
    user: Option<nat>,
    organization: Option<nat>,
    csrf: string,
    expiresAt: int)

  // ------------------------------------------------------------------ the stored payload

  /** A JSON value of the payload; UUID and timestamp texts are kept as what they denote. */
  datatype Value = Null | Text(text: string) | UuidText(uuid: nat) | InstantText(at: int, aware: bool) | NotText

  datatype Stored = NotJson | NotObject | Payload(fields: map<string, Value>)

  function Nullable(id: Option<nat>): Value {
    if id.Some? then UuidText(id.value) else Null
  }

  function Serialize(s: Session): Stored {
    Payload(map["csrf_token" := Text(s.csrf),
                "expires_at" := InstantText(s.expiresAt, true),
                "organization_id" := Nullable(s.organization),
                "user_id" := Nullable(s.user)])
  }

  const PAYLOAD_KEYS: set<string> := {"csrf_token", "expires_at", "organization_id", "user_id"}

  /** A nullable UUID field: absent, present, or not acceptable. */
  function ReadId(v: Value): Option<Option<nat>> {
    match v
    case Null => Some(None)
    case UuidText(u) => Some(Some(u))
    case _ => None
  }

  function Deserialize(id: SessionId, stored: Stored): Option<Session> {
    if !stored.Payload? || stored.fields.Keys != PAYLOAD_KEYS then None
    else
      var csrf, expires := stored.fields["csrf_token"], stored.fields["expires_at"];
      var user, organization := ReadId(stored.fields["user_id"]), ReadId(stored.fields["organization_id"]);
      if !csrf.Text? || csrf.text == "" then None
      else if user.None? || organization.None? then None
      else if user.value.None? != organization.value.None? then None
      else if !expires.InstantText? || !expires.aware then None
      else Some(Session(id, user.value, organization.value, csrf.text, expires.at))
  }

  /** The sessions that survive storage: a token, and user and organization together or not at all. */
  predicate Storable(s: Session) {
    s.csrf != "" && (s.user.Some? <==> s.organization.Some?)
  }

  lemma RoundTrip(id: SessionId, s: Session)
    ensures Deserialize(id, Serialize(s)) == Some(s.(id := id)) <==> Storable(s)
  {
    assert Serialize(s).fields.Keys == PAYLOAD_KEYS;
  }

  /** Only what serialization wrote is read back: nothing else in the store passes for a session. */
  lemma DeserializeMeans(id: SessionId, stored: Stored, s: Session)
    ensures Deserialize(id, stored) == Some(s) <==> s.id == id && Storable(s) && stored == Serialize(s)
  {
    assert Serialize(s).fields.Keys == PAYLOAD_KEYS;
    if Deserialize(id, stored) == Some(s) {
      assert stored.fields == Serialize(s).fields;
    }
  }

  /** The fields of the stored payload by name. */
  lemma PayloadMeans(s: Session)
    ensures Serialize(s).Payload?
    ensures var fields := Serialize(s).fields;
            && fields.Keys == {"csrf_token", "expires_at", "organization_id", "user_id"}
            && fields["csrf_token"] == Text(s.csrf) && fields["expires_at"] == InstantText(s.expiresAt, true)
            && (forall u: nat :: s.user == Some(u) <==> fields["user_id"] == UuidText(u))
            && (forall o: nat :: s.organization == Some(o) <==> fields["organization_id"] == UuidText(o))
            && (s.user.None? <==> fields["user_id"] == Null)
            && (s.organization.None? <==> fields["organization_id"] == Null)
  {
    assert Serialize(s).fields.Keys == PAYLOAD_KEYS;
  }

  // ------------------------------------------------------------------ the two stores

  /** What one call of the store interface asks for; the fresh names and the clock are given. */
  datatype Operation =
    | Rotate(previous: Option<SessionId>, session: SessionId, csrf: string, account: Option<(nat, nat)>)
    | Resolve(cookie: Option<SessionId>)
    | Invalidate(cookie: Option<SessionId>)

  function NewSession(op: Operation, now: int, lifetime: int): Session
    requires op.Rotate?
  {
    Session(op.session,
            if op.account.Some? then Some(op.account.value.0) else None,
            if op.account.Some? then Some(op.account.value.1) else None,
            op.csrf, now + lifetime)
  }

  type Memory = map<SessionId, Session>

  function Without<K, V>(m: map<K, V>, key: Option<K>): map<K, V> {
    if key.Some? then m - {key.value} else m
  }

  function MemoryStep(m: Memory, op: Operation, now: int, lifetime: int): (Memory, Option<Session>) {
    match op
    case Rotate(previous, id, _, _) =>
      var s := NewSession(op, now, lifetime);
      (Without(m, previous)[id := s], Some(s))
    case Resolve(cookie) =>
      if cookie.None? || cookie.value !in m then (m, None)
      else if m[cookie.value].expiresAt <= now then (m - {cookie.value}, None)
      else (m, Some(m[cookie.value]))
    case Invalidate(cookie) => (Without(m, cookie), None)
  }

  /** A Redis string with the instant from which the server may drop it. */
  datatype Entry = Entry(value: Stored, dropsAt: int)

  type Redis = map<string, Entry>

  const KEY_PREFIX: string := "supportflow:ui-session:v1:"

  function Key(id: SessionId): string {
    KEY_PREFIX + id
  }

  /** The lifetime as Redis gets it: whole seconds, rounded down. */
  function TtlSeconds(lifetime: int): int {
    lifetime / SECOND
  }

  function KeyOf(cookie: Option<SessionId>): Option<string> {
    if cookie.Some? then Some(Key(cookie.value)) else None
  }

  function RedisStep(r: Redis, op: Operation, now: int, lifetime: int): (Redis, Option<Session>) {
    match op
    case Rotate(previous, id, _, _) =>
      var s := NewSession(op, now, lifetime);
      (Without(r, KeyOf(previous))[Key(id) := Entry(Serialize(s), now + Seconds(TtlSeconds(lifetime)))], Some(s))
    case Resolve(cookie) =>
      if cookie.None? || Key(cookie.value) !in r then (r, None)
      else
        var s := Deserialize(cookie.value, r[Key(cookie.value)].value);
        if s.None? || s.value.expiresAt <= now then (r - {Key(cookie.value)}, None)
        else (r, s)
    case Invalidate(cookie) => (Without(r, KeyOf(cookie)), None)
  }

  class InMemoryBrowserSessionStore {
    const lifetime: int
    var sessions: Memory

    constructor (lifetime: int)
      ensures this.lifetime == lifetime && sessions == map[]
    {
      this.lifetime := lifetime;
      sessions := map[];
    }

    method Call(op: Operation, now: int) returns (answer: Option<Session>)
      modifies this
      ensures (sessions, answer) == MemoryStep(old(sessions), op, now, lifetime)
    {
      match op {
        case Rotate(previous, id, _, _) =>
          var session := NewSession(op, now, lifetime);
          if previous.Some? {
            sessions := sessions - {previous.value};
          }
          sessions := sessions[id := session];
          return Some(session);
        case Resolve(cookie) =>
          if cookie.None? || cookie.value !in sessions {
            return None;
          }
          var session := sessions[cookie.value];
          if session.expiresAt <= now {
            sessions := sessions - {cookie.value};
            return None;
          }
          return Some(session);
        case Invalidate(cookie) =>
          if cookie.Some? {
            sessions := sessions - {cookie.value};
          }
          return None;
      }
    }
  }

  class RedisBrowserSessionStore {
    const lifetime: int
    var client: Redis

    constructor (lifetime: int)
      ensures this.lifetime == lifetime && client == map[]
    {
      this.lifetime := lifetime;
      client := map[];
    }

    method Call(op: Operation, now: int) returns (answer: Option<Session>)
      modifies this
      ensures (client, answer) == RedisStep(old(client), op, now, lifetime)
    {
      match op {
        case Rotate(previous, id, _, _) =>
          var session := NewSession(op, now, lifetime);
          if previous.Some? {
            client := client - {Key(previous.value)};
          }
          client := client[Key(id) := Entry(Serialize(session), now + Seconds(TtlSeconds(lifetime)))];
          return Some(session);
        case Resolve(cookie) =>
          if cookie.None? || Key(cookie.value) !in client {
            return None;
          }
          var session := Deserialize(cookie.value, client[Key(cookie.value)].value);
          if session.None? || session.value.expiresAt <= now {
            client := client - {Key(cookie.value)};
            return None;
          }
          return session;
        case Invalidate(cookie) =>
          if cookie.Some? {
            client := client - {Key(cookie.value)};
          }
          return None;
      }
    }
  }

  // ------------------------------------------------------------------ both stores side by side

  datatype Event = Do(op: Operation) | Advance(to: int) | Drop(id: SessionId)

  datatype Pair = Pair(now: int, memory: Memory, redis: Redis)

  /** Redis drops an entry no earlier than it was told; the token generator never returns nothing. */
  predicate Possible(p: Pair, e: Event) {
    match e
    case Do(op) => op.Rotate? ==> op.csrf != ""
    case Advance(to) => p.now <= to
    case Drop(id) => Key(id) in p.redis && p.redis[Key(id)].dropsAt <= p.now
  }

  function Step(p: Pair, e: Event, lifetime: int): Pair {
    match e
    case Do(op) =>
      Pair(p.now, MemoryStep(p.memory, op, p.now, lifetime).0, RedisStep(p.redis, op, p.now, lifetime).0)
    case Advance(to) => p.(now := to)
    case Drop(id) => p.(redis := p.redis - {Key(id)})
  }

  /** The two stores' answers to an operation. */
  function Answers(p: Pair, op: Operation, lifetime: int): (Option<Session>, Option<Session>) {
    (MemoryStep(p.memory, op, p.now, lifetime).1, RedisStep(p.redis, op, p.now, lifetime).1)
  }

  predicate ValidRun(p: Pair, run: seq<Event>, lifetime: int)
    decreases |run|
  {
    run == [] || (Possible(p, run[0]) && ValidRun(Step(p, run[0], lifetime), run[1..], lifetime))
  }

  function After(p: Pair, run: seq<Event>, lifetime: int): Pair
    decreases |run|
  {
    if run == [] then p else After(Step(p, run[0], lifetime), run[1..], lifetime)
  }

  predicate Live(m: Memory, id: SessionId, now: int) {
    id in m && m[id].expiresAt > now
  }

  /** About one id both stores say the same while its session lives, and Redis does not drop it. */
  predicate AgreeOn(m: Memory, r: Redis, id: SessionId, now: int) {
    && (id in m ==> m[id].id == id && Storable(m[id]))
    && (Live(m, id, now) ==>
          Key(id) in r && r[Key(id)].value == Serialize(m[id]) && r[Key(id)].dropsAt >= m[id].expiresAt)
    && (Key(id) in r ==>
          var s := Deserialize(id, r[Key(id)].value);
          s.Some? && (s.value.expiresAt > now ==> id in m && m[id] == s.value))
  }

  ghost predicate Simulates(p: Pair) {
    forall id :: AgreeOn(p.memory, p.redis, id, p.now)
  }

  lemma KeyInjective(a: SessionId, b: SessionId)
    requires Key(a) == Key(b)
    ensures a == b
  {
    assert Key(a)[|KEY_PREFIX|..] == a && Key(b)[|KEY_PREFIX|..] == b;
  }

  /** Changing the entry of one id leaves what the stores say about another alone. */
  lemma OtherIdsAgree(m: Memory, r: Redis, m': Memory, r': Redis, changed: SessionId, id: SessionId, now: int)
    requires AgreeOn(m, r, id, now) && id != changed
    requires m' - {changed} == m - {changed} && r' - {Key(changed)} == r - {Key(changed)}
    ensures AgreeOn(m', r', id, now)
  {
    if Key(id) == Key(changed) {
      KeyInjective(id, changed);
    }
    assert id in m' <==> id in m' - {changed};
    assert id in m <==> id in m - {changed};
    assert Key(id) in r' <==> Key(id) in r' - {Key(changed)};
    assert Key(id) in r <==> Key(id) in r - {Key(changed)};
    if id in m { assert (m - {changed})[id] == m[id]; }
    if id in m' { assert (m' - {changed})[id] == m'[id]; }
    if Key(id) in r { assert (r - {Key(changed)})[Key(id)] == r[Key(id)]; }
    if Key(id) in r' { assert (r' - {Key(changed)})[Key(id)] == r'[Key(id)]; }
  }

  lemma RemoveSimulates(p: Pair, id: SessionId)
    requires Simulates(p)
    ensures Simulates(p.(memory := p.memory - {id}, redis := p.redis - {Key(id)}))
  {
    forall other ensures AgreeOn(p.memory - {id}, p.redis - {Key(id)}, other, p.now) {
      assert AgreeOn(p.memory, p.redis, other, p.now);
      if other != id {
        OtherIdsAgree(p.memory, p.redis, p.memory - {id}, p.redis - {Key(id)}, id, other, p.now);
      }
    }
  }

  lemma PutSimulates(p: Pair, s: Session, dropsAt: int)
    requires Simulates(p) && Storable(s) && s.expiresAt <= dropsAt
    ensures Simulates(p.(memory := p.memory[s.id := s], redis := p.redis[Key(s.id) := Entry(Serialize(s), dropsAt)]))
  {
    var m', r' := p.memory[s.id := s], p.redis[Key(s.id) := Entry(Serialize(s), dropsAt)];
    RoundTrip(s.id, s);
    forall other ensures AgreeOn(m', r', other, p.now) {
      assert AgreeOn(p.memory, p.redis, other, p.now);
      if other != s.id {
        assert m' - {s.id} == p.memory - {s.id} && r' - {Key(s.id)} == p.redis - {Key(s.id)};
        OtherIdsAgree(p.memory, p.redis, m', r', s.id, other, p.now);
      }
    }
  }

  /** Either store may forget a session that is no longer live. */
  lemma ForgetSimulates(p: Pair, id: SessionId)
    requires Simulates(p) && !Live(p.memory, id, p.now)
    ensures Simulates(p.(memory := p.memory - {id}))
    ensures Simulates(p.(redis := p.redis - {Key(id)}))
  {
    forall other
      ensures AgreeOn(p.memory - {id}, p.redis, other, p.now) && AgreeOn(p.memory, p.redis - {Key(id)}, other, p.now)
    {
      assert AgreeOn(p.memory, p.redis, other, p.now);
      if other != id {
        OtherIdsAgree(p.memory, p.redis, p.memory - {id}, p.redis, id, other, p.now);
        OtherIdsAgree(p.memory, p.redis, p.memory, p.redis - {Key(id)}, id, other, p.now);
      }
    }
  }

  lemma RotateSimulates(p: Pair, op: Operation, lifetime: int)
    requires Simulates(p) && op.Rotate? && op.csrf != "" && lifetime % SECOND == 0
    ensures Simulates(Step(p, Do(op), lifetime))
  {
    var p1 := p;
    if op.previous.Some? {
      RemoveSimulates(p, op.previous.value);
      p1 := p.(memory := p.memory - {op.previous.value}, redis := p.redis - {Key(op.previous.value)});
    }
    assert Seconds(TtlSeconds(lifetime)) == lifetime;
    PutSimulates(p1, NewSession(op, p.now, lifetime), p.now + lifetime);
  }

  lemma ResolveSimulates(p: Pair, cookie: Option<SessionId>, lifetime: int)
    requires Simulates(p)
    ensures Simulates(Step(p, Do(Resolve(cookie)), lifetime))
  {
    if cookie.Some? {
      var id := cookie.value;
      assert AgreeOn(p.memory, p.redis, id, p.now);
      if id in p.memory {
        RoundTrip(id, p.memory[id]);
      }
      if !Live(p.memory, id, p.now) {
        ForgetSimulates(p, id);
        ForgetSimulates(p.(memory := p.memory - {id}), id);
        ForgetSimulates(p.(redis := p.redis - {Key(id)}), id);
      }
    }
  }

  lemma AdvanceSimulates(p: Pair, to: int)
    requires Simulates(p) && p.now <= to
    ensures Simulates(p.(now := to))
  {
    forall id ensures AgreeOn(p.memory, p.redis, id, to) {
      assert AgreeOn(p.memory, p.redis, id, p.now);
    }
  }

  lemma StepSimulates(p: Pair, e: Event, lifetime: int)
    requires Simulates(p) && Possible(p, e) && lifetime % SECOND == 0
    ensures Simulates(Step(p, e, lifetime))
  {
    match e
    case Advance(to) => AdvanceSimulates(p, to);
    case Drop(id) =>
      assert AgreeOn(p.memory, p.redis, id, p.now);
      ForgetSimulates(p, id);
    case Do(op) =>
      match op
      case Rotate(_, _, _, _) => RotateSimulates(p, op, lifetime);
      case Resolve(cookie) => ResolveSimulates(p, cookie, lifetime);
      case Invalidate(cookie) =>
        if cookie.Some? {
          RemoveSimulates(p, cookie.value);
        }
  }

  lemma SameAnswer(p: Pair, op: Operation, lifetime: int)
    requires Simulates(p)
    ensures Answers(p, op, lifetime).0 == Answers(p, op, lifetime).1
  {
    if op.Resolve? && op.cookie.Some? {
      assert AgreeOn(p.memory, p.redis, op.cookie.value, p.now);
    }
    if op.Resolve? && op.cookie.Some? && op.cookie.value in p.memory {
      RoundTrip(op.cookie.value, p.memory[op.cookie.value]);
    }
  }

  lemma {:induction false} RunSimulates(p: Pair, run: seq<Event>, lifetime: int)
    requires Simulates(p) && ValidRun(p, run, lifetime) && lifetime % SECOND == 0
    ensures Simulates(After(p, run, lifetime))
    decreases |run|
  {
    if run != [] {
      StepSimulates(p, run[0], lifetime);
      RunSimulates(Step(p, run[0], lifetime), run[1..], lifetime);
    }
  }

  function Empty(now: int): Pair {
    Pair(now, map[], map[])
  }

  /** Refinement: with a whole-second lifetime no sequence of calls tells the stores apart. */
  lemma RedisRefinesMemory(now: int, run: seq<Event>, op: Operation, lifetime: int)
    requires ValidRun(Empty(now), run, lifetime) && lifetime % SECOND == 0
    ensures var p := After(Empty(now), run, lifetime); Answers(p, op, lifetime).0 == Answers(p, op, lifetime).1
  {
    RunSimulates(Empty(now), run, lifetime);
    SameAnswer(After(Empty(now), run, lifetime), op, lifetime);
  }

  /** Any other lifetime the stores accept lets Redis lose a session that memory still resolves. */
  lemma FractionalLifetimeDiverges(now: int, lifetime: int) returns (run: seq<Event>, op: Operation)
    requires TtlSeconds(lifetime) >= 1 && lifetime % SECOND != 0
    ensures ValidRun(Empty(now), run, lifetime)
    ensures var (memory, redis) := Answers(After(Empty(now), run, lifetime), op, lifetime); memory.Some? && redis.None?
  {
    var create := Do(Rotate(None, "id", "token", None));
    var wait, drop := Advance(now + Seconds(TtlSeconds(lifetime))), Drop("id");
    var p1 := Step(Empty(now), create, lifetime);
    var p2 := Step(p1, wait, lifetime);
    var p3 := Step(p2, drop, lifetime);
    run, op := [create, wait, drop], Resolve(Some("id"));
    assert run[1..] == [wait, drop] && [wait, drop][1..] == [drop] && [drop][1..] == [];
    assert After(p2, [drop], lifetime) == p3 && ValidRun(p2, [drop], lifetime);
    assert After(p1, [wait, drop], lifetime) == p3 && ValidRun(p1, [wait, drop], lifetime);
    assert Seconds(TtlSeconds(lifetime)) < lifetime;
  }

  // ------------------------------------------------------------------ rotation and invalidation

  /** No later rotation draws the same id again. */
  predicate NeverReissued(run: seq<Event>, id: SessionId) {
    forall e :: e in run && e.Do? && e.op.Rotate? ==> e.op.session != id
  }

  predicate Gone(p: Pair, id: SessionId) {
    id !in p.memory && Key(id) !in p.redis
  }

  lemma StepKeepsGone(p: Pair, e: Event, id: SessionId, lifetime: int)
    requires Gone(p, id) && (e.Do? && e.op.Rotate? ==> e.op.session != id)
    ensures Gone(Step(p, e, lifetime), id)
  {
    if e.Do? && e.op.Rotate? && Key(e.op.session) == Key(id) {
      KeyInjective(e.op.session, id);
    }
  }

  lemma {:induction false} GoneForever(p: Pair, run: seq<Event>, id: SessionId, lifetime: int)
    requires Gone(p, id) && NeverReissued(run, id)
    ensures Gone(After(p, run, lifetime), id)
    decreases |run|
  {
    if run != [] {
      assert run[0] in run;
      StepKeepsGone(p, run[0], id, lifetime);
      assert forall e :: e in run[1..] ==> e in run;
      GoneForever(Step(p, run[0], lifetime), run[1..], id, lifetime);
    }
  }

  /** The id an operation takes out of service. */
  predicate Retires(op: Operation, id: SessionId) {
    || (op.Rotate? && op.previous == Some(id) && op.session != id)
    || (op.Invalidate? && op.cookie == Some(id))
  }

  /** A rotated or invalidated id never resolves again, in either store. */
  lemma RetiredNeverResolves(p: Pair, op: Operation, run: seq<Event>, id: SessionId, lifetime: int)
    requires Retires(op, id) && NeverReissued(run, id)
    ensures Answers(After(Step(p, Do(op), lifetime), run, lifetime), Resolve(Some(id)), lifetime) == (None, None)
  {
    if op.Rotate? && Key(op.session) == Key(id) {
      KeyInjective(op.session, id);
    }
    GoneForever(Step(p, Do(op), lifetime), run, id, lifetime);
  }

  // ------------------------------------------------------------------ the life of a session

  /** An event that ends the session `id` or hands its id out again. */
  predicate Ends(e: Event, id: SessionId) {
    e.Do? && (Retires(e.op, id) || (e.op.Rotate? && e.op.session == id))
  }

  /** Both stores hold `s`, memory until it expires, Redis at least until it may be dropped. */
  predicate Keeps(p: Pair, s: Session, dropsAt: int) {
    && (s.id in p.memory ==> p.memory[s.id] == s)
    && (p.now < s.expiresAt ==> s.id in p.memory)
    && (Key(s.id) in p.redis ==> p.redis[Key(s.id)] == Entry(Serialize(s), dropsAt))
    && (p.now < dropsAt ==> Key(s.id) in p.redis)
  }

  lemma StepKeeps(p: Pair, e: Event, s: Session, dropsAt: int, lifetime: int)
    requires Keeps(p, s, dropsAt) && Possible(p, e) && !Ends(e, s.id) && Storable(s) && dropsAt <= s.expiresAt
    ensures Keeps(Step(p, e, lifetime), s, dropsAt) && p.now <= Step(p, e, lifetime).now
  {
    RoundTrip(s.id, s);
    if e.Do? && e.op.Rotate? && Key(e.op.session) == Key(s.id) {
      KeyInjective(e.op.session, s.id);
    }
    if e.Do? && e.op.Rotate? && e.op.previous.Some? && Key(e.op.previous.value) == Key(s.id) {
      KeyInjective(e.op.previous.value, s.id);
    }
    if e.Do? && !e.op.Rotate? && e.op.cookie.Some? && Key(e.op.cookie.value) == Key(s.id) {
      KeyInjective(e.op.cookie.value, s.id);
    }
    if e.Drop? && Key(e.id) == Key(s.id) {
      KeyInjective(e.id, s.id);
    }
  }

  lemma {:induction false} RunKeeps(p: Pair, run: seq<Event>, s: Session, dropsAt: int, lifetime: int)
    requires Keeps(p, s, dropsAt) && ValidRun(p, run, lifetime) && Storable(s) && dropsAt <= s.expiresAt
    requires forall e :: e in run ==> !Ends(e, s.id)
    ensures Keeps(After(p, run, lifetime), s, dropsAt) && p.now <= After(p, run, lifetime).now
    decreases |run|
  {
    if run != [] {
      assert run[0] in run;
      StepKeeps(p, run[0], s, dropsAt, lifetime);
      assert forall e :: e in run[1..] ==> e in run;
      RunKeeps(Step(p, run[0], lifetime), run[1..], s, dropsAt, lifetime);
    }
  }

  lemma ResolvesKept(p: Pair, s: Session, dropsAt: int, lifetime: int)
    requires Keeps(p, s, dropsAt) && Storable(s) && dropsAt <= s.expiresAt
    ensures var (memory, redis) := Answers(p, Resolve(Some(s.id)), lifetime);
            && memory == (if p.now < s.expiresAt then Some(s) else None)
            && (p.now < dropsAt ==> redis == Some(s))
            && (redis.Some? ==> redis == Some(s) && p.now < s.expiresAt)
  {
    RoundTrip(s.id, s);
  }

  /** The session an operation asks for, field by field. */
  function Requested(id: SessionId, csrf: string, account: Option<(nat, nat)>, expiresAt: int): Session {
    match account
    case None => Session(id, None, None, csrf, expiresAt)
    case Some((user, organization)) => Session(id, Some(user), Some(organization), csrf, expiresAt)
  }

  /**
   The life of a session: what `create_anonymous` or `authenticate` returned is what both stores
   resolve, with the given account and token, over any run that does not end it; memory until the
   lifetime is over, Redis for its whole seconds; afterwards neither does.
   */
  lemma SessionLives(p: Pair, previous: Option<SessionId>, id: SessionId, csrf: string, account: Option<(nat, nat)>,
                     run: seq<Event>, lifetime: int)
    requires var create := Do(Rotate(previous, id, csrf, account));
             Possible(p, create) && ValidRun(Step(p, create, lifetime), run, lifetime)
    requires forall e :: e in run ==> !Ends(e, id)
    ensures var op := Rotate(previous, id, csrf, account);
            var s := Requested(id, csrf, account, p.now + lifetime);
            var later := After(Step(p, Do(op), lifetime), run, lifetime);
            var (memory, redis) := Answers(later, Resolve(Some(id)), lifetime);
            && Answers(p, op, lifetime) == (Some(s), Some(s))
            && memory == (if later.now < p.now + lifetime then Some(s) else None)
            && (later.now < p.now + 1_000_000 * (lifetime / 1_000_000) ==> redis == Some(s))
            && (later.now >= p.now + lifetime ==> redis == None)
            && (redis.Some? ==> redis == Some(s))
  {
    var op := Rotate(previous, id, csrf, account);
    var s := Requested(id, csrf, account, p.now + lifetime);
    var dropsAt := p.now + Seconds(TtlSeconds(lifetime));
    assert NewSession(op, p.now, lifetime) == s && Storable(s);
    var p1 := Step(p, Do(op), lifetime);
    RunKeeps(p1, run, s, dropsAt, lifetime);
    ResolvesKept(After(p1, run, lifetime), s, dropsAt, lifetime);
  }
}
