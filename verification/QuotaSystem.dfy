/** The quota write-back cache as a step system (server/internal/service/quota_service.go).

    One instance of the service, any number of requests in flight and one serial flusher. Every
    database or Redis operation, and every critical section of the service's mutex, is one step;
    a failed operation has no effect. A reset is three steps, and Redis may lose its keys at any time.
    Requests first check their quota, are then served - checking again before every attempt upstream -
    and consume when they finish (server/internal/middleware/quota.go,
    server/internal/relay/relay.go). */
module QuotaSystem {
  import opened Prelude

  /** A quota counter: an API key or its user. */
  datatype Id = Token(n: nat) | User(n: nat)

  datatype Level = TokenLevel | UserLevel

  /** Program points of tokenQuotaAndUsed / userQuotaAndUsed, with the local dbUsed. */
  datatype LoadPc = ReadRow | GetKey(dbUsed: int) | SetNx(dbUsed: int) | ReGet

  /** Why the counters are loaded: the middleware's guard, the price gate of one attempt with the
      estimated cost, or the charge of a finished request. */
  datatype Purpose = Admission | Gating(estimate: int) | Charging

  /** A request that is being served holds nothing of the quota's: its calls are over or to come. */
  datatype Pos =
    | Loading(purpose: Purpose, level: Level, pc: LoadPc, tokenLeft: int)
    | Serving
    | IncrToken
    | IncrUser
    | Mark

  datatype Call = Call(tok: nat, usr: nat, amount: int, pos: Pos)

  /** The flusher: idle, or in a pass with the ids still to flush. Once the head's counter has been
      read, its value is held until it is written. */
  datatype Flush = Idle | Pass(todo: seq<Id>, held: Option<int>)

  /** The last two fields are history. `leaked`: the counters left unmarked by a Consume whose user
      increment failed, or by a reset that has not come to its DEL. `raced`: the counters whose key a
      wipe or a reset took away, or whose column a reset zeroed, under a quota call or flush that went
      on with a value it had read before. */
  datatype State = State(
    quota: map<Id, int>,
    db: map<Id, int>,
    redis: map<Id, int>,
    dirty: set<Id>,
    flush: Flush,
    calls: map<nat, Call>,
    leaked: set<Id>,
    raced: set<Id>)

  datatype Event =
    | Arrive(tid: nat, tok: nat, usr: nat)
    | Charge(tid: nat, tok: nat, usr: nat, amount: int)
    | Gate(tid: nat, estimate: int)
    | Bill(tid: nat, amount: int)
    | Leave(tid: nat)
    | Op(tid: nat)
    | OpFails(tid: nat)
    | Snapshot(order: seq<Id>)
    | FlushOp
    | FlushFails
    | EndPass
    | Wipe
    | ZeroColumn(usr: nat)
    | ForgetMark(usr: nat)
    | DeleteKey(usr: nat)

  // ------------------------------------------------------------------ headroom

  /** quota - used clamped at 0; -1 when the quota is unlimited. */
  function Remaining(quota: int, used: int): (r: int) {
    if quota < 0 then -1 else if quota - used < 0 then 0 else quota - used
  }

  function MinRemaining(a: int, b: int): int {
    if a < 0 && b < 0 then -1
    else if a < 0 then b
    else if b < 0 then a
    else if a < b then a else b
  }

  /** What is left at the levels that have a bound, the smallest of it if both have; -1 if none has. */
  predicate IsHeadroom(left: int, tokenQuota: int, tokenUsed: int, userQuota: int, userUsed: int) {
    if tokenQuota < 0 && userQuota < 0 then left == -1
    else
      && (tokenQuota >= 0 ==> left <= Max(0, tokenQuota - tokenUsed))
      && (userQuota >= 0 ==> left <= Max(0, userQuota - userUsed))
      && ((tokenQuota >= 0 && left == Max(0, tokenQuota - tokenUsed))
          || (userQuota >= 0 && left == Max(0, userQuota - userUsed)))
  }

  /** The amount fits into what is left of this quota, if it is bounded at all. */
  predicate HasRoom(quota: int, used: int, amount: int) { quota < 0 || used + amount <= quota }

  /** The headroom of the two levels; a positive estimate is within it, or it is unlimited, exactly if
      the estimate fits at both. */
  lemma HeadroomMeaning(tokenQuota: int, tokenUsed: int, userQuota: int, userUsed: int, estimate: int)
    ensures var left := MinRemaining(Remaining(tokenQuota, tokenUsed), Remaining(userQuota, userUsed));
            && IsHeadroom(left, tokenQuota, tokenUsed, userQuota, userUsed)
            && (left == -1 <==> tokenQuota < 0 && userQuota < 0)
            && (estimate > 0 ==>
                  (left < 0 || estimate <= left
                   <==> HasRoom(tokenQuota, tokenUsed, estimate) && HasRoom(userQuota, userUsed, estimate)))
  {
  }

  /** The guard of the quota middleware rejects exactly the requests that are exhausted at some
      bounded level. */
  lemma GuardMeaning(tokenQuota: int, tokenUsed: int, userQuota: int, userUsed: int)
    ensures MinRemaining(Remaining(tokenQuota, tokenUsed), Remaining(userQuota, userUsed)) == 0 <==>
            (tokenQuota >= 0 && tokenUsed >= tokenQuota) || (userQuota >= 0 && userUsed >= userQuota)
  {
  }

  // ------------------------------------------------------------------ steps

  function IdAt(c: Call, level: Level): Id {
    if level == TokenLevel then Token(c.tok) else User(c.usr)
  }

  /** The calls once tid has moved on, or ended. */
  function Put(calls: map<nat, Call>, tid: nat, next: Option<Call>): map<nat, Call> {
    if next.Some? then calls[tid := next.value] else calls - {tid}
  }

  function SetCall(s: State, tid: nat, next: Option<Call>): State {
    s.(calls := Put(s.calls, tid, next))
  }

  /** The guard turns away an exhausted request, the gate one whose estimate exceeds the balance. */
  predicate Rejected(purpose: Purpose, left: int) {
    match purpose
    case Admission => left == 0
    case Gating(estimate) => 0 <= left < estimate
    case Charging => false
  }

  /** Where a call goes once the counter of its current level has been read. */
  function AfterLoad(c: Call, quota: int, used: int): Option<Call>
    requires c.pos.Loading?
  {
    var left := Remaining(quota, used);
    if c.pos.level == TokenLevel then Some(c.(pos := Loading(c.pos.purpose, UserLevel, ReadRow, left)))
    else if c.pos.purpose.Charging? then Some(c.(pos := IncrToken))
    else if Rejected(c.pos.purpose, MinRemaining(c.pos.tokenLeft, left)) then None
    else Some(c.(pos := Serving))
  }

  function AtPc(c: Call, pc: LoadPc): Option<Call>
    requires c.pos.Loading?
  {
    Some(c.(pos := Loading(c.pos.purpose, c.pos.level, pc, c.pos.tokenLeft)))
  }

  function LoadNext(s: State, c: Call): Option<Call>
    requires c.pos.Loading?
  {
    var id := IdAt(c, c.pos.level);
    match c.pos.pc
    case ReadRow => if id !in s.db then None else AtPc(c, GetKey(s.db[id]))
    case GetKey(d) =>
      if id in s.redis then AfterLoad(c, Lookup(s.quota, id, 0), s.redis[id]) else AtPc(c, SetNx(d))
    case SetNx(_) => AtPc(c, ReGet)
    case ReGet =>
      if id in s.redis then AfterLoad(c, Lookup(s.quota, id, 0), s.redis[id]) else None
  }

  /** SETNX seeds an absent key from the local dbUsed; no other load step writes. */
  function Seeded(s: State, c: Call): map<Id, int>
    requires c.pos.Loading?
  {
    var id := IdAt(c, c.pos.level);
    if c.pos.pc.SetNx? && id !in s.redis then s.redis[id := c.pos.pc.dbUsed] else s.redis
  }

  function LoadStep(s: State, tid: nat, c: Call): State
    requires c.pos.Loading?
  {
    s.(redis := Seeded(s, c), calls := Put(s.calls, tid, LoadNext(s, c)))
  }

  /** INCRBY: a missing key counts as 0. */
  function IncrBy(m: map<Id, int>, id: Id, amount: int): map<Id, int> {
    m[id := Lookup(m, id, 0) + amount]
  }

  function IncrStep(s: State, tid: nat, c: Call, id: Id, next: Pos): State {
    s.(redis := IncrBy(s.redis, id, c.amount), calls := Put(s.calls, tid, Some(c.(pos := next))))
  }

  function MarkStep(s: State, tid: nat, c: Call): State {
    var both := {Token(c.tok), User(c.usr)};
    s.(dirty := s.dirty + both, leaked := s.leaked - both, calls := s.calls - {tid})
  }

  function CallStep(s: State, tid: nat, c: Call): Option<State> {
    match c.pos
    case Loading(_, _, _, _) => Some(LoadStep(s, tid, c))
    case Serving => None
    case IncrToken => Some(IncrStep(s, tid, c, Token(c.tok), IncrUser))
    case IncrUser => Some(IncrStep(s, tid, c, User(c.usr), Mark))
    case Mark => Some(MarkStep(s, tid, c))
  }

  function CallFails(s: State, tid: nat, c: Call): Option<State> {
    match c.pos
    case Serving => None
    case Mark => None
    case IncrUser => Some(s.(leaked := s.leaked + {Token(c.tok)}, calls := s.calls - {tid}))
    case _ => Some(SetCall(s, tid, None))
  }

  function FlushStep(s: State): Option<State>
    requires s.flush.Pass? && s.flush.todo != []
  {
    var Pass(todo, held) := s.flush;
    var id := todo[0];
    match held
    case None =>
      if id in s.redis then Some(s.(flush := Pass(todo, Some(s.redis[id]))))
      else Some(s.(flush := Pass(todo[1..], None)))
    case Some(v) =>
      Some(s.(db := if id in s.db then s.db[id := v] else s.db, flush := Pass(todo[1..], None)))
  }

  /** The value of a counter that a new check would see. */
  function Live(s: State, id: Id): int {
    if id in s.redis then s.redis[id] else Lookup(s.db, id, 0)
  }

  predicate Concerns(c: Call, id: Id) {
    id == Token(c.tok) || id == User(c.usr)
  }

  /** A quota call on this counter is under way; requests that are merely being served do not count. */
  predicate Underway(s: State, id: Id) {
    exists t | t in s.calls :: Concerns(s.calls[t], id) && !s.calls[t].pos.Serving?
  }

  /** The pass has read this id's counter and not yet written it. */
  predicate Holds(f: Flush, id: Id) {
    f.Pass? && f.held.Some? && f.todo != [] && f.todo[0] == id
  }

  /** Updating a column where there is no row changes nothing. */
  function Zeroed(db: map<Id, int>, id: Id): map<Id, int> {
    if id in db then db[id := 0] else db
  }

  /** A quota call or the flusher may go on with what it read of this counter. */
  predicate InUse(s: State, id: Id) { Underway(s, id) || Holds(s.flush, id) }

  function With(ids: set<Id>, id: Id, b: bool): set<Id> { if b then ids + {id} else ids }

  /** The three operations of a reset: the column is zeroed, the dirty mark forgotten, the key deleted.
      Until the DEL, a key that is there is ahead of its column with nothing to flush it. */
  function ZeroStep(s: State, id: Id): State {
    s.(db := Zeroed(s.db, id), leaked := With(s.leaked, id, id in s.redis),
       raced := With(s.raced, id, id !in s.redis && Underway(s, id)))
  }

  function ForgetStep(s: State, id: Id): State {
    s.(dirty := s.dirty - {id}, leaked := With(s.leaked, id, id in s.redis))
  }

  function DeleteStep(s: State, id: Id): State {
    s.(redis := s.redis - {id}, leaked := s.leaked - {id}, raced := With(s.raced, id, InUse(s, id)))
  }

  function WipeStep(s: State): State {
    s.(redis := map[], leaked := {}, raced := s.raced + set id | id in s.db && InUse(s, id))
  }

  /** A step of the system, or None where the event is not possible. */
  function Apply(s: State, e: Event): Option<State> {
    match e
    case Arrive(tid, tok, usr) =>
      if tid in s.calls then None
      else Some(SetCall(s, tid, Some(Call(tok, usr, 0, Loading(Admission, TokenLevel, ReadRow, 0)))))
    case Charge(tid, tok, usr, amount) =>
      if tid in s.calls || amount <= 0 then None
      else Some(SetCall(s, tid, Some(Call(tok, usr, amount, Loading(Charging, TokenLevel, ReadRow, 0)))))
    case Gate(tid, estimate) =>
      if tid !in s.calls || s.calls[tid].pos != Serving then None
      else Some(SetCall(s, tid, Some(s.calls[tid].(pos := Loading(Gating(estimate), TokenLevel, ReadRow, 0)))))
    case Bill(tid, amount) =>
      if tid !in s.calls || s.calls[tid].pos != Serving || amount <= 0 then None
      else
        var pos := Loading(Charging, TokenLevel, ReadRow, 0);
        Some(SetCall(s, tid, Some(s.calls[tid].(amount := amount, pos := pos))))
    case Leave(tid) =>
      if tid !in s.calls || s.calls[tid].pos != Serving then None else Some(SetCall(s, tid, None))
    case Op(tid) => if tid !in s.calls then None else CallStep(s, tid, s.calls[tid])
    case OpFails(tid) => if tid !in s.calls then None else CallFails(s, tid, s.calls[tid])
    case Snapshot(order) =>
      if s.flush != Idle || (set id | id in order) != s.dirty then None
      else Some(s.(dirty := {}, flush := Pass(order, None)))
    case FlushOp => if !s.flush.Pass? || s.flush.todo == [] then None else FlushStep(s)
    case FlushFails =>
      if !s.flush.Pass? || s.flush.todo == [] then None
      else Some(s.(dirty := s.dirty + {s.flush.todo[0]}, flush := Pass(s.flush.todo[1..], None)))
    case EndPass => if s.flush != Pass([], None) then None else Some(s.(flush := Idle))
    case Wipe => Some(WipeStep(s))
    case ZeroColumn(usr) => Some(ZeroStep(s, User(usr)))
    case ForgetMark(usr) => Some(ForgetStep(s, User(usr)))
    case DeleteKey(usr) => Some(DeleteStep(s, User(usr)))
  }

  function Exec(s: State, es: seq<Event>): Option<State>
    decreases |es|
  {
    if es == [] then Some(s)
    else
      match Apply(s, es[0])
      case None => None
      case Some(s1) => Exec(s1, es[1..])
  }

  /** A fresh instance: nothing in flight, every Redis key absent or equal to its column. */
  predicate Initial(s: State) {
    && s.quota.Keys == s.db.Keys
    && (forall id | id in s.db :: 0 <= s.db[id])
    && (forall id | id in s.redis :: id in s.db && s.redis[id] == s.db[id])
    && s.dirty == {} && s.flush == Idle && s.calls == map[] && s.leaked == {} && s.raced == {}
  }

  // ------------------------------------------------------------------ the invariant

  /** Calls that have incremented this counter and not yet marked it dirty. */
  ghost predicate BetweenIncrAndMark(c: Call, id: Id) {
    (c.pos == IncrUser && id == Token(c.tok)) || (c.pos == Mark && Concerns(c, id))
  }

  ghost predicate InsideConsume(s: State, id: Id) {
    exists t | t in s.calls :: BetweenIncrAndMark(s.calls[t], id)
  }

  /** Something still running or recorded will bring this counter to the database. */
  ghost predicate Covered(s: State, id: Id) {
    id in s.dirty || (s.flush.Pass? && id in s.flush.todo) || InsideConsume(s, id)
  }

  ghost predicate Drifted(s: State, id: Id) {
    id in s.redis && id in s.db && s.redis[id] != s.db[id]
  }

  /** A key that was loaded is still there, unless it was taken away meanwhile. */
  ghost predicate Loaded(s: State, id: Id) {
    id in s.db && (id in s.redis || id in s.raced)
  }

  /** A call's local view agrees with the shared state. */
  ghost predicate CallOk(s: State, c: Call) {
    && (c.pos.Loading? ==>
          var id := IdAt(c, c.pos.level);
          && (c.pos.pc.GetKey? || c.pos.pc.SetNx? ==>
                && id in s.db && c.pos.pc.dbUsed >= 0
                && (Loaded(s, id) || c.pos.pc.dbUsed == s.db[id]))
          && (c.pos.pc.ReGet? ==> Loaded(s, id))
          && (c.pos.purpose.Charging? && c.pos.level == UserLevel ==> Loaded(s, Token(c.tok))))
    && ((c.pos.IncrToken? || c.pos.IncrUser?) ==> Loaded(s, Token(c.tok)) && Loaded(s, User(c.usr)))
    && (!(c.pos.Serving? || (c.pos.Loading? && !c.pos.purpose.Charging?)) ==> c.amount > 0)
  }

  ghost predicate CallsOk(s: State) {
    forall t | t in s.calls :: CallOk(s, s.calls[t])
  }

  ghost predicate CountersOk(s: State) {
    && s.redis.Keys <= s.db.Keys
    && (forall id | id in s.db :: 0 <= s.db[id])
    && (forall id | id in s.redis :: 0 <= s.redis[id])
    && forall id | id in s.redis :: id in s.raced || s.db[id] <= s.redis[id]
  }

  ghost predicate CoverageOk(s: State) {
    forall id | Drifted(s, id) :: Covered(s, id) || id in s.leaked || id in s.raced
  }

  /** A held value lies between column and counter, and a counter that moved since it was read is
      covered by something other than this very flush. */
  ghost predicate HeldOk(s: State) {
    s.flush.Pass? && s.flush.held.Some? ==>
      && s.flush.todo != []
      && var id, v := s.flush.todo[0], s.flush.held.value;
         && id in s.db && 0 <= v
         && (id in s.raced ||
             (id in s.redis && s.db[id] <= v <= s.redis[id]
              && (s.redis[id] != v ==> id in s.dirty || InsideConsume(s, id) || id in s.leaked)))
  }

  ghost predicate Inv(s: State) {
    CountersOk(s) && CallsOk(s) && CoverageOk(s) && HeldOk(s)
  }

  lemma InitialInv(s: State)
    requires Initial(s)
    ensures Inv(s)
  {
  }

  // ------------------------------------------------------------------ every step keeps the invariant

  /** The calls other than tid are the same in both states. */
  ghost predicate SameOthers(s: State, s1: State, tid: nat) {
    forall t | t != tid :: (t in s.calls <==> t in s1.calls) && (t in s.calls ==> s.calls[t] == s1.calls[t])
  }

  /** A call that starts, ends or moves outside its increments disturbs nothing. */
  lemma CallMoves(s: State, s1: State, tid: nat)
    requires Inv(s) && s1 == s.(calls := s1.calls) && SameOthers(s, s1, tid)
    requires tid in s1.calls ==> CallOk(s1, s1.calls[tid])
    requires tid in s.calls ==> !s.calls[tid].pos.IncrUser? && !s.calls[tid].pos.Mark?
    ensures Inv(s1)
  {
    forall id | InsideConsume(s, id) ensures InsideConsume(s1, id) {
      var t :| t in s.calls && BetweenIncrAndMark(s.calls[t], id);
      assert t != tid && t in s1.calls;
    }
  }

  /** A failed user increment leaves the token's increment unmarked. */
  lemma UserIncrementFails(s: State, tid: nat)
    requires Inv(s) && tid in s.calls && s.calls[tid].pos.IncrUser?
    ensures Inv(CallFails(s, tid, s.calls[tid]).value)
  {
    var s1 := CallFails(s, tid, s.calls[tid]).value;
    forall id | InsideConsume(s, id) ensures InsideConsume(s1, id) || id in s1.leaked {
      var t :| t in s.calls && BetweenIncrAndMark(s.calls[t], id);
      assert t != tid ==> t in s1.calls;
    }
  }

  lemma MarkKeeps(s: State, tid: nat)
    requires Inv(s) && tid in s.calls && s.calls[tid].pos.Mark?
    ensures Inv(CallStep(s, tid, s.calls[tid]).value)
  {
    var s1 := CallStep(s, tid, s.calls[tid]).value;
    forall id | InsideConsume(s, id) ensures InsideConsume(s1, id) || id in s1.dirty {
      var t :| t in s.calls && BetweenIncrAndMark(s.calls[t], id);
      assert t != tid ==> t in s1.calls;
    }
  }

  /** Seeding an absent key, from its column unless that changed under the call. */
  lemma SeedKeeps(s: State, id: Id, d: int)
    requires Inv(s) && id in s.db && id !in s.redis && d >= 0 && (id in s.raced || d == s.db[id])
    ensures Inv(s.(redis := s.redis[id := d]))
  {
    var s1 := s.(redis := s.redis[id := d]);
    assert CallsOk(s1) by {
      forall t | t in s1.calls ensures CallOk(s1, s1.calls[t]) {
        assert CallOk(s, s.calls[t]);
      }
    }
    assert forall i :: InsideConsume(s1, i) <==> InsideConsume(s, i);
    assert CoverageOk(s1) by {
      forall i | Drifted(s1, i) ensures Covered(s1, i) || i in s1.leaked || i in s1.raced {
        assert i != id ==> Drifted(s, i);
      }
    }
  }

  lemma NextPointOk(s: State, c: Call)
    requires c.pos.Loading? && CallOk(s, c) && CountersOk(s)
    ensures LoadNext(s, c).Some? ==> CallOk(s.(redis := Seeded(s, c)), LoadNext(s, c).value)
  {
  }

  lemma LoadKeeps(s: State, tid: nat)
    requires Inv(s) && tid in s.calls && s.calls[tid].pos.Loading?
    ensures Inv(LoadStep(s, tid, s.calls[tid]))
  {
    var c := s.calls[tid];
    var s0 := s.(redis := Seeded(s, c));
    var s1 := LoadStep(s, tid, c);
    assert CallOk(s, c);
    NextPointOk(s, c);
    SeedingKeeps(s, c);
    assert s1.calls == Put(s.calls, tid, LoadNext(s, c)) && s1.db == s0.db && s1.redis == s0.redis;
    assert tid in s1.calls ==> CallOk(s1, s1.calls[tid]);
    CallMoves(s0, s1, tid);
  }

  lemma SeedingKeeps(s: State, c: Call)
    requires Inv(s) && c.pos.Loading? && CallOk(s, c)
    ensures Inv(s.(redis := Seeded(s, c)))
  {
    var id := IdAt(c, c.pos.level);
    if c.pos.pc.SetNx? && id !in s.redis {
      SeedKeeps(s, id, c.pos.pc.dbUsed);
    } else {
      assert s.(redis := Seeded(s, c)) == s;
    }
  }

  /** The counter a call is about to increment. */
  function NextIncrement(c: Call): Id {
    if c.pos.IncrToken? then Token(c.tok) else User(c.usr)
  }

  /** The effect of an increment on the counters alone. */
  lemma IncrementCounters(s: State, tid: nat)
    requires Inv(s) && tid in s.calls && (s.calls[tid].pos.IncrToken? || s.calls[tid].pos.IncrUser?)
    ensures var c := s.calls[tid];
            var id := NextIncrement(c);
            var s1 := CallStep(s, tid, c).value;
            && Loaded(s, id) && s1.redis == s.redis[id := Lookup(s.redis, id, 0) + c.amount] && c.amount > 0
            && s1 == s.(redis := s1.redis, calls := s1.calls)
            && SameOthers(s, s1, tid) && tid in s1.calls
            && CallOk(s1, s1.calls[tid])
  {
    assert CallOk(s, s.calls[tid]);
  }

  /** An increment leaves its counter covered by the call that performed it. */
  lemma IncrementKeeps(s: State, tid: nat)
    requires Inv(s) && tid in s.calls && (s.calls[tid].pos.IncrToken? || s.calls[tid].pos.IncrUser?)
    ensures Inv(CallStep(s, tid, s.calls[tid]).value)
  {
    hide InsideConsume, CallsOk;
    var id := NextIncrement(s.calls[tid]);
    IncrementCounters(s, tid);
    IncrementCovers(s, tid);
    var s1 := CallStep(s, tid, s.calls[tid]).value;
    IncrementCalls(s, s1, tid, id);
    assert CoverageOk(s1) by {
      assert forall i | Drifted(s1, i) :: i != id ==> Drifted(s, i);
    }
  }

  lemma IncrementCalls(s: State, s1: State, tid: nat, id: Id)
    requires CallsOk(s) && SameOthers(s, s1, tid) && tid in s1.calls && CallOk(s1, s1.calls[tid])
    requires s1.db == s.db && s1.raced == s.raced && s.redis.Keys <= s1.redis.Keys
    ensures CallsOk(s1)
  {
    forall t | t in s1.calls ensures CallOk(s1, s1.calls[t]) {
      assert t != tid ==> CallOk(s, s.calls[t]);
    }
  }

  lemma IncrementCovers(s: State, tid: nat)
    requires tid in s.calls && (s.calls[tid].pos.IncrToken? || s.calls[tid].pos.IncrUser?)
    ensures var c := s.calls[tid];
            var s1 := CallStep(s, tid, c).value;
            && InsideConsume(s1, NextIncrement(c))
            && forall i | InsideConsume(s, i) :: InsideConsume(s1, i)
  {
    var c := s.calls[tid];
    var s1 := CallStep(s, tid, c).value;
    assert tid in s1.calls && BetweenIncrAndMark(s1.calls[tid], NextIncrement(c));
    forall i | InsideConsume(s, i) ensures InsideConsume(s1, i) {
      var t :| t in s.calls && BetweenIncrAndMark(s.calls[t], i);
      assert t in s1.calls && BetweenIncrAndMark(s1.calls[t], i);
    }
  }

  lemma FlushKeeps(s: State)
    requires Inv(s) && s.flush.Pass? && s.flush.todo != []
    ensures Inv(FlushStep(s).value)
  {
    if s.flush.held.None? {
      FlushReadKeeps(s);
    } else {
      FlushWriteKeeps(s);
    }
  }

  /** Reading the head's counter, or skipping an id whose key is gone. */
  lemma FlushReadKeeps(s: State)
    requires Inv(s) && s.flush.Pass? && s.flush.todo != [] && s.flush.held.None?
    ensures Inv(FlushStep(s).value)
  {
    hide CallsOk, InsideConsume;
    var s1 := FlushStep(s).value;
    var todo := s.flush.todo;
    assert s1 == s.(flush := s1.flush);
    assert forall i | i in todo :: i == todo[0] || i in todo[1..];
    SameCalls(s, s1);
    assert CoverageOk(s1) by {
      assert forall i | Drifted(s1, i) :: Drifted(s, i) && Covered(s, i) ==> Covered(s1, i);
    }
  }

  /** Calls depend on columns and counters alone. */
  lemma SameCalls(s: State, s1: State)
    requires s1.calls == s.calls
    ensures forall id :: InsideConsume(s1, id) <==> InsideConsume(s, id)
    ensures CallsOk(s) && s1.db == s.db && s1.redis == s.redis && s1.raced == s.raced ==> CallsOk(s1)
  {
    if CallsOk(s) && s1.db == s.db && s1.redis == s.redis && s1.raced == s.raced {
      forall t | t in s1.calls ensures CallOk(s1, s1.calls[t]) {
        assert CallOk(s, s.calls[t]);
      }
    }
  }

  /** Writing a held value brings the column up to a value the counter had, never past it. */
  lemma FlushWriteKeeps(s: State)
    requires Inv(s) && s.flush.Pass? && s.flush.todo != [] && s.flush.held.Some?
    ensures Inv(FlushStep(s).value)
  {
    hide InsideConsume, CallsOk;
    var s1 := FlushStep(s).value;
    var todo, v := s.flush.todo, s.flush.held.value;
    var id := todo[0];
    assert s1.db == s.db[id := v];
    WriteCalls(s, s1, id);
    SameCalls(s, s1);
    assert forall i | i in todo :: i == id || i in todo[1..];
    assert CoverageOk(s1) by {
      assert forall i | Drifted(s1, i) :: i != id ==> Drifted(s, i);
    }
  }

  lemma WriteCalls(s: State, s1: State, id: Id)
    requires CallsOk(s) && s1.calls == s.calls && s1.redis == s.redis && s1.raced == s.raced && Loaded(s, id)
    requires s1.db.Keys == s.db.Keys && forall i | i in s.db && i != id :: s1.db[i] == s.db[i]
    ensures CallsOk(s1)
  {
    forall t | t in s1.calls ensures CallOk(s1, s1.calls[t]) {
      assert CallOk(s, s.calls[t]);
    }
  }

  lemma FlushFailureKeeps(s: State)
    requires Inv(s) && s.flush.Pass? && s.flush.todo != []
    ensures Inv(Apply(s, FlushFails).value)
  {
    var s1 := Apply(s, FlushFails).value;
    assert forall i :: InsideConsume(s1, i) <==> InsideConsume(s, i);
    assert forall i | i in s.flush.todo :: i == s.flush.todo[0] || i in s.flush.todo[1..];
  }

  lemma SnapshotKeeps(s: State, order: seq<Id>)
    requires Inv(s) && Apply(s, Snapshot(order)).Some?
    ensures Inv(Apply(s, Snapshot(order)).value)
  {
    var s1 := Apply(s, Snapshot(order)).value;
    assert forall i :: InsideConsume(s1, i) <==> InsideConsume(s, i);
    assert forall i | i in s.dirty :: i in (set id | id in order);
  }

  lemma EndPassKeeps(s: State)
    requires Inv(s) && Apply(s, EndPass).Some?
    ensures Inv(Apply(s, EndPass).value)
  {
    var s1 := Apply(s, EndPass).value;
    assert forall i :: InsideConsume(s1, i) <==> InsideConsume(s, i);
  }

  /** A change to some counters that marks as raced whichever of them a call may go on with. */
  lemma CallsNotice(s: State, s1: State)
    requires CallsOk(s) && s1.calls == s.calls && s1.db.Keys == s.db.Keys && s.raced <= s1.raced
    requires forall id | id in s.db && Underway(s, id) ::
               id in s1.raced || ((id in s1.redis <==> id in s.redis) && (id in s.redis || s1.db[id] == s.db[id]))
    ensures CallsOk(s1)
  {
    forall t | t in s1.calls ensures CallOk(s1, s1.calls[t]) {
      var c := s.calls[t];
      assert CallOk(s, c);
      if !c.pos.Serving? {
        assert Concerns(c, Token(c.tok)) && Concerns(c, User(c.usr));
        assert Underway(s, Token(c.tok)) && Underway(s, User(c.usr));
      }
    }
  }

  lemma WipeKeeps(s: State)
    requires Inv(s)
    ensures Inv(WipeStep(s))
  {
    hide CallsOk, InsideConsume;
    CallsNotice(s, WipeStep(s));
  }

  lemma ZeroKeeps(s: State, id: Id)
    requires Inv(s)
    ensures Inv(ZeroStep(s, id))
  {
    hide CallsOk, InsideConsume;
    var s1 := ZeroStep(s, id);
    CallsNotice(s, s1);
    SameCalls(s, s1);
    assert CoverageOk(s1) by {
      assert forall i | Drifted(s1, i) :: i != id ==> Drifted(s, i);
    }
  }

  lemma ForgetKeeps(s: State, id: Id)
    requires Inv(s)
    ensures Inv(ForgetStep(s, id))
  {
    hide CallsOk, InsideConsume;
    var s1 := ForgetStep(s, id);
    SameCalls(s, s1);
    assert CoverageOk(s1) by {
      assert forall i | Drifted(s1, i) :: Drifted(s, i);
    }
  }

  lemma DeleteKeeps(s: State, id: Id)
    requires Inv(s)
    ensures Inv(DeleteStep(s, id))
  {
    hide CallsOk, InsideConsume;
    var s1 := DeleteStep(s, id);
    CallsNotice(s, s1);
    SameCalls(s, s1);
    assert CoverageOk(s1) by {
      assert forall i | Drifted(s1, i) :: Drifted(s, i) && i != id;
    }
  }

  /** A request arrives, goes through the gate, is billed or leaves. */
  predicate RequestEvent(e: Event) {
    e.Arrive? || e.Charge? || e.Gate? || e.Bill? || e.Leave?
  }

  lemma RequestKeeps(s: State, e: Event)
    requires Inv(s) && Apply(s, e).Some? && RequestEvent(e)
    ensures Inv(Apply(s, e).value)
  {
    CallMoves(s, Apply(s, e).value, e.tid);
  }

  lemma OpKeeps(s: State, tid: nat)
    requires Inv(s) && tid in s.calls && CallStep(s, tid, s.calls[tid]).Some?
    ensures Inv(CallStep(s, tid, s.calls[tid]).value)
  {
    if s.calls[tid].pos.Loading? {
      LoadKeeps(s, tid);
    } else if s.calls[tid].pos.Mark? {
      MarkKeeps(s, tid);
    } else {
      IncrementKeeps(s, tid);
    }
  }

  lemma OpFailureKeeps(s: State, tid: nat)
    requires Inv(s) && tid in s.calls && CallFails(s, tid, s.calls[tid]).Some?
    ensures Inv(CallFails(s, tid, s.calls[tid]).value)
  {
    if s.calls[tid].pos.IncrUser? {
      UserIncrementFails(s, tid);
    } else {
      CallMoves(s, CallFails(s, tid, s.calls[tid]).value, tid);
    }
  }

  lemma StepKeepsInv(s: State, e: Event)
    requires Inv(s) && Apply(s, e).Some?
    ensures Inv(Apply(s, e).value)
  {
    hide Inv, CallStep, CallFails, FlushStep, WipeStep, ZeroStep, ForgetStep, DeleteStep;
    match e
    case Op(tid) => OpKeeps(s, tid);
    case OpFails(tid) => OpFailureKeeps(s, tid);
    case Snapshot(order) => SnapshotKeeps(s, order);
    case FlushOp => FlushKeeps(s);
    case FlushFails => FlushFailureKeeps(s);
    case EndPass => EndPassKeeps(s);
    case Wipe => WipeKeeps(s);
    case ZeroColumn(usr) => ZeroKeeps(s, User(usr));
    case ForgetMark(usr) => ForgetKeeps(s, User(usr));
    case DeleteKey(usr) => DeleteKeeps(s, User(usr));
    case _ => RequestKeeps(s, e);
  }

  lemma {:induction false} RunKeepsInv(s: State, es: seq<Event>)
    requires Inv(s) && Exec(s, es).Some?
    ensures Inv(Exec(s, es).value)
    decreases |es|
  {
    hide Apply, Inv;
    if es != [] {
      StepKeepsInv(s, es[0]);
      RunKeepsInv(Apply(s, es[0]).value, es[1..]);
    }
  }
}
