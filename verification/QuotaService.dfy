/** The quota service itself (server/internal/service/quota_service.go): the columns, the Redis
    counters and the two dirty sets, updated in place. A ghost log records every step: it is a run of
    the step system from a fresh instance to the present state, and every method extends it, so the
    theorems about runs apply to the service. The methods run one at a time here; what their steps do
    when interleaved is the business of QuotaSystem, QuotaTheorems and QuotaResets. */
module QuotaService {
  import opened Prelude
  import opened QuotaSystem
  import opened QuotaTheorems

  datatype QuotaError = NotFound | External

  datatype QuotaUsed = QuotaUsed(quota: int, used: int)

  function Marked(tokens: set<nat>, users: set<nat>): set<Id> {
    (set n | n in tokens :: Token(n)) + (set n | n in users :: User(n))
  }

  /** The log is a run from a fresh instance to this state; unless a request was charged without
      having passed the guard, no bill in it exceeds the cap. */
  ghost predicate Recorded(first: State, log: seq<Event>, st: State, cap: nat, charged: bool) {
    && Initial(first) && Exec(first, log) == Some(st) && Inv(st)
    && (charged || forall e | e in log :: Guarded(e, cap))
  }

  lemma RecordedStep(first: State, log: seq<Event>, st: State, cap: nat, charged: bool, e: Event)
    requires Recorded(first, log, st, cap, charged) && Apply(st, e).Some? && (charged || Guarded(e, cap))
    ensures Recorded(first, log + [e], Apply(st, e).value, cap, charged)
  {
    hide Apply, Inv, Initial;
    StepKeepsInv(st, e);
    ExecConcat(first, log, [e]);
    assert Exec(st, [e]) == Some(Apply(st, e).value);
  }

  /** A higher cap, or none at all, is met as well. */
  lemma RecordedLoosely(first: State, log: seq<Event>, st: State, cap: nat, charged: bool, cap1: nat, charged1: bool)
    requires Recorded(first, log, st, cap, charged) && cap <= cap1 && (charged ==> charged1)
    ensures Recorded(first, log, st, cap1, charged1)
  {
    hide Exec, Inv, Initial;
  }

  lemma RecordedRows(first: State, log: seq<Event>, st: State, cap: nat, charged: bool)
    requires Recorded(first, log, st, cap, charged)
    ensures st.redis.Keys <= st.db.Keys
  {
  }

  /** Moving a call twice is moving it once. */
  lemma PutTwice(calls: map<nat, Call>, tid: nat, c: Call)
    ensures forall next: Option<Call> :: Put(calls[tid := c], tid, next) == Put(calls, tid, next)
    ensures calls[tid := c] - {tid} == calls - {tid}
  {
  }

  class QuotaService {
    const quota: map<Id, int>
    var db: map<Id, int>
    var redis: map<Id, int>
    var dirtyTokens: set<nat>
    var dirtyUsers: set<nat>
    ghost var st: State
    ghost const first: State
    ghost var log: seq<Event>
    ghost var cap: nat
    ghost var charged: bool

    ghost predicate Logged()
      reads this
    {
      Recorded(first, log, st, cap, charged)
    }

    ghost predicate Valid()
      reads this
    {
      && Logged() && quota.Keys == db.Keys
      && st.quota == quota && st.db == db && st.redis == redis && st.dirty == Marked(dirtyTokens, dirtyUsers)
    }

    /** A service starts with nothing marked; Redis may still hold counters equal to their columns. */
    constructor (quota: map<Id, int>, db: map<Id, int>, redis: map<Id, int>)
      requires quota.Keys == db.Keys
      requires forall id | id in db :: db[id] >= 0
      requires forall id | id in redis :: id in db && redis[id] == db[id]
      ensures Valid() && log == [] && !charged && cap == 0 && st == first
      ensures this.quota == quota && this.db == db && this.redis == redis
    {
      this.quota, this.db, this.redis := quota, db, redis;
      dirtyTokens, dirtyUsers := {}, {};
      st := State(quota, db, redis, {}, Idle, map[], {}, {});
      first := State(quota, db, redis, {}, Idle, map[], {}, {});
      log, cap, charged := [], 0, false;
      InitialInv(State(quota, db, redis, {}, Idle, map[], {}, {}));
    }

    /** The call tid stands at the start of loading this counter. */
    ghost predicate AtLoad(tid: nat, id: Id)
      reads this
    {
      && tid in st.calls
      && var c := st.calls[tid]; c.pos.Loading? && c.pos.pc == ReadRow && IdAt(c, c.pos.level) == id
    }

    /** Perform one step of the system. */
    ghost method Take(e: Event)
      requires Logged() && Apply(st, e).Some? && (charged || Guarded(e, cap))
      modifies this`st, this`log
      ensures st == Apply(old(st), e).value && Logged() && log == old(log) + [e]
    {
      hide Recorded, Apply;
      RecordedStep(first, log, st, cap, charged, e);
      st, log := Apply(st, e).value, log + [e];
    }

    /** An operation of a loading call succeeds and the call moves to `next`. */
    ghost method TakeLoad(tid: nat, next: Option<Call>)
      requires Logged() && tid in st.calls && st.calls[tid].pos.Loading?
      requires next == LoadNext(st, st.calls[tid])
      modifies this`st, this`log
      ensures st == old(st).(redis := Seeded(old(st), old(st.calls[tid])), calls := Put(old(st.calls), tid, next))
      ensures Logged() && old(log) <= log
    {
      hide Recorded, Seeded, LoadNext;
      Take(Op(tid));
    }

    /** An operation of a loading call fails and the call ends. */
    ghost method TakeFailure(tid: nat)
      requires Logged() && tid in st.calls && st.calls[tid].pos.Loading?
      modifies this`st, this`log
      ensures st == old(st).(calls := old(st.calls) - {tid}) && Logged() && old(log) <= log
    {
      hide Recorded;
      Take(OpFails(tid));
    }

    /** tokenQuotaAndUsed and userQuotaAndUsed with usedCounter: the column is read, then the
        counter, which is seeded from the column when its key is absent. Any operation may fail. */
    method QuotaAndUsed(id: Id, ghost tid: nat) returns (r: Result<QuotaUsed, QuotaError>)
      requires Valid() && AtLoad(tid, id)
      modifies this`redis, this`st, this`log
      ensures Valid() && old(log) <= log
      ensures st == old(st).(redis := redis, calls := st.calls)
      ensures redis == old(redis) || (id in db && id !in old(redis) && redis == old(redis)[id := db[id]])
      ensures r.Ok? ==>
                && id in db && id in redis && r.value == QuotaUsed(Lookup(quota, id, 0), redis[id])
                && st.calls == Put(old(st.calls), tid, AfterLoad(old(st.calls[tid]), r.value.quota, r.value.used))
      ensures r.Err? ==> st.calls == old(st.calls) - {tid}
    {
      hide Recorded, Apply;
      ghost var c := st.calls[tid];
      if * {
        TakeFailure(tid);
        return Err(External);
      }
      if id !in db {
        TakeLoad(tid, None);
        return Err(NotFound);
      }
      var dbUsed := db[id];
      TakeLoad(tid, AtPc(c, GetKey(dbUsed)));
      r := UsedCounter(id, dbUsed, tid, c);
    }

    /** usedCounter: GET, and on a missing key SETNX and GET again. */
    method UsedCounter(id: Id, dbUsed: int, ghost tid: nat, ghost c: Call)
      returns (r: Result<QuotaUsed, QuotaError>)
      requires Valid() && id in db && dbUsed == db[id]
      requires c.pos.Loading? && IdAt(c, c.pos.level) == id
      requires tid in st.calls && AtPc(c, GetKey(dbUsed)) == Some(st.calls[tid])
      modifies this`redis, this`st, this`log
      ensures Valid() && old(log) <= log
      ensures st == old(st).(redis := redis, calls := st.calls)
      ensures redis == old(redis) || (id !in old(redis) && redis == old(redis)[id := db[id]])
      ensures r.Ok? ==>
                && id in redis && r.value == QuotaUsed(Lookup(quota, id, 0), redis[id])
                && st.calls == Put(old(st.calls), tid, AfterLoad(c, r.value.quota, r.value.used))
      ensures r.Err? ==> st.calls == old(st.calls) - {tid}
    {
      hide Recorded, Apply;
      ghost var calls := st.calls;
      if * {
        TakeFailure(tid);
        return Err(External);
      }
      if id in redis {
        TakeLoad(tid, AfterLoad(c, Lookup(quota, id, 0), redis[id]));
        return Ok(QuotaUsed(Lookup(quota, id, 0), redis[id]));
      }
      TakeLoad(tid, AtPc(c, SetNx(dbUsed)));
      assert st.calls == Put(calls, tid, AtPc(c, SetNx(dbUsed)));
      r := Backfill(id, dbUsed, tid, c);
      PutTwice(calls, tid, AtPc(c, SetNx(dbUsed)).value);
    }

    /** The lazy load: SETNX and read back. */
    method Backfill(id: Id, dbUsed: int, ghost tid: nat, ghost c: Call)
      returns (r: Result<QuotaUsed, QuotaError>)
      requires Valid() && id in db && dbUsed == db[id] && id !in redis
      requires c.pos.Loading? && IdAt(c, c.pos.level) == id
      requires tid in st.calls && AtPc(c, SetNx(dbUsed)) == Some(st.calls[tid])
      modifies this`redis, this`st, this`log
      ensures Valid() && old(log) <= log
      ensures st == old(st).(redis := redis, calls := st.calls)
      ensures redis == old(redis) || redis == old(redis)[id := db[id]]
      ensures r.Ok? ==>
                && id in redis && r.value == QuotaUsed(Lookup(quota, id, 0), redis[id])
                && st.calls == Put(old(st.calls), tid, AfterLoad(c, r.value.quota, r.value.used))
      ensures r.Err? ==> st.calls == old(st.calls) - {tid}
    {
      hide Recorded, Apply;
      ghost var calls := st.calls;
      if * {
        TakeFailure(tid);
        return Err(External);
      }
      redis := redis[id := dbUsed];
      TakeLoad(tid, AtPc(c, ReGet));
      PutTwice(calls, tid, AtPc(c, ReGet).value);
      if * {
        TakeFailure(tid);
        return Err(External);
      }
      TakeLoad(tid, AfterLoad(c, Lookup(quota, id, 0), redis[id]));
      r := Ok(QuotaUsed(Lookup(quota, id, 0), redis[id]));
    }

    /** Both levels are loaded, the token's first, and the smaller headroom is reported. The call is
        one of the guard or of the gate: it ends when what it asked for is not there, or when an
        operation fails, and is served otherwise. */
    method CheckRemaining(tok: nat, usr: nat, ghost tid: nat) returns (r: Result<int, QuotaError>)
      requires Valid() && tid in st.calls && st.calls[tid].tok == tok && st.calls[tid].usr == usr
      requires var pos := st.calls[tid].pos;
               pos.Loading? && !pos.purpose.Charging? && pos.level == TokenLevel && pos.pc == ReadRow
      modifies this`redis, this`st, this`log
      ensures Valid() && old(log) <= log && st == old(st).(redis := redis, calls := st.calls)
      ensures r.Ok? ==>
                && Token(tok) in redis && User(usr) in redis && Token(tok) in quota && User(usr) in quota
                && IsHeadroom(r.value, quota[Token(tok)], redis[Token(tok)], quota[User(usr)], redis[User(usr)])
                && var c := old(st.calls[tid]);
                   st.calls == if Rejected(c.pos.purpose, r.value) then old(st.calls) - {tid}
                               else old(st.calls)[tid := c.(pos := Serving)]
      ensures forall id | id in db :: Live(st, id) == Live(old(st), id)
      ensures r.Err? ==> st.calls == old(st.calls) - {tid}
    {
      hide Recorded, Apply, Rejected;
      ghost var s1 := st;
      var token := QuotaAndUsed(Token(tok), tid);
      if token.Err? {
        return Err(token.error);
      }
      ghost var s2 := st;
      PutTwice(s1.calls, tid, s2.calls[tid]);
      var user := QuotaAndUsed(User(usr), tid);
      if user.Err? {
        return Err(user.error);
      }
      var tokenRemaining := Remaining(token.value.quota, token.value.used);
      var userRemaining := Remaining(user.value.quota, user.value.used);
      HeadroomMeaning(token.value.quota, token.value.used, user.value.quota, user.value.used, 1);
      return Ok(MinRemaining(tokenRemaining, userRemaining));
    }

    /** The guard has let the request in and it is being served. */
    ghost predicate Served(tok: nat, usr: nat, tid: nat)
      reads this
    {
      tid in st.calls && st.calls[tid].tok == tok && st.calls[tid].usr == usr && st.calls[tid].pos == Serving
    }

    /** The middleware's guard: a request is let in to be served exactly if there is room for one token
        more at both levels. */
    method Admit(tok: nat, usr: nat, ghost tid: nat) returns (r: Result<bool, QuotaError>)
      requires Valid() && tid !in st.calls
      modifies this`redis, this`st, this`log
      ensures Valid() && old(log) <= log && st == old(st).(redis := redis, calls := st.calls)
      ensures r.Ok? ==>
                && Token(tok) in redis && User(usr) in redis && Token(tok) in quota && User(usr) in quota
                && (r.value <==> HasRoom(quota[Token(tok)], redis[Token(tok)], 1)
                                 && HasRoom(quota[User(usr)], redis[User(usr)], 1))
      ensures st.calls == if r == Ok(true) then old(st.calls)[tid := Call(tok, usr, 0, Serving)] else old(st.calls)
      ensures forall id | id in db :: Live(st, id) == Live(old(st), id)
    {
      hide Recorded, Apply;
      ghost var s0 := st;
      EnterAdmission(tok, usr, tid);
      assert st.calls - {tid} == s0.calls;
      var remaining := CheckRemaining(tok, usr, tid);
      if remaining.Err? {
        return Err(remaining.error);
      }
      return Ok(remaining.value != 0);
    }

    ghost method EnterAdmission(tok: nat, usr: nat, tid: nat)
      requires Logged() && tid !in st.calls
      modifies this`st, this`log
      ensures var c := Call(tok, usr, 0, Loading(Admission, TokenLevel, ReadRow, 0));
              st == old(st).(calls := old(st.calls)[tid := c])
      ensures Logged() && old(log) <= log
    {
      hide Recorded;
      Take(Arrive(tid, tok, usr));
    }

    /** The quota half of the price gate, before every attempt of a request that is being served: it
        goes on being served exactly if the estimate fits at both levels and no operation fails. */
    method GateBalance(tok: nat, usr: nat, estimate: int, ghost tid: nat) returns (r: Result<bool, QuotaError>)
      requires Valid() && Served(tok, usr, tid)
      modifies this`redis, this`st, this`log
      ensures Valid() && old(log) <= log && st == old(st).(redis := redis, calls := st.calls)
      ensures r.Ok? ==>
                && Token(tok) in redis && User(usr) in redis && Token(tok) in quota && User(usr) in quota
                && (r.value <==> estimate <= 0 || (HasRoom(quota[Token(tok)], redis[Token(tok)], estimate)
                                                   && HasRoom(quota[User(usr)], redis[User(usr)], estimate)))
      ensures st.calls == if r == Ok(true) then old(st.calls) else old(st.calls) - {tid}
      ensures forall id | id in db :: Live(st, id) == Live(old(st), id)
    {
      hide Recorded, Apply;
      ghost var s0 := st;
      EnterGate(estimate, tid);
      assert st.calls - {tid} == s0.calls - {tid} && s0.calls == s0.calls[tid := s0.calls[tid]];
      assert st.calls[tid := s0.calls[tid]] == s0.calls;
      var remaining := CheckRemaining(tok, usr, tid);
      if remaining.Err? {
        return Err(remaining.error);
      }
      return Ok(!(remaining.value >= 0 && remaining.value < estimate));
    }

    ghost method EnterGate(estimate: int, tid: nat)
      requires Logged() && tid in st.calls && st.calls[tid].pos == Serving
      modifies this`st, this`log
      ensures var c := old(st.calls[tid]);
              var pos := Loading(Gating(estimate), TokenLevel, ReadRow, 0);
              st == old(st).(calls := old(st.calls)[tid := c.(pos := pos)])
      ensures Logged() && old(log) <= log
    {
      hide Recorded;
      Take(Gate(tid, estimate));
    }

    /** The dirty mark of a finished Consume, under the mutex. */
    method MarkDirty(tok: nat, usr: nat, ghost tid: nat)
      requires Valid() && tid in st.calls
      requires st.calls[tid].pos == Mark && st.calls[tid].tok == tok && st.calls[tid].usr == usr
      modifies this`dirtyTokens, this`dirtyUsers, this`st, this`log
      ensures Valid() && old(log) <= log
      ensures dirtyTokens == old(dirtyTokens) + {tok} && dirtyUsers == old(dirtyUsers) + {usr}
      ensures st == old(st).(dirty := st.dirty, leaked := st.leaked, calls := old(st.calls) - {tid})
    {
      hide Recorded;
      Take(Op(tid));
      dirtyTokens := dirtyTokens + {tok};
      dirtyUsers := dirtyUsers + {usr};
      assert Marked(dirtyTokens, dirtyUsers) == Marked(old(dirtyTokens), old(dirtyUsers)) + {Token(tok), User(usr)};
    }

    /** INCRBY on one level. */
    method Increment(id: Id, amount: int, ghost tid: nat)
      requires Valid() && tid in st.calls && st.calls[tid].amount == amount
      requires st.calls[tid].pos.IncrToken? || st.calls[tid].pos.IncrUser?
      requires id == NextIncrement(st.calls[tid])
      modifies this`redis, this`st, this`log
      ensures Valid() && old(log) <= log
      ensures redis == IncrBy(old(redis), id, amount)
      ensures st == old(st).(redis := redis, calls := st.calls)
      ensures var c := old(st.calls[tid]);
              st.calls == old(st.calls)[tid := c.(pos := if c.pos.IncrToken? then IncrUser else Mark)]
    {
      hide Recorded;
      Take(Op(tid));
      redis := redis[id := Lookup(redis, id, 0) + amount];
    }

    /** What one Consume adds to a counter. */
    ghost function Share(id: Id, tok: nat, usr: nat, amount: int): int {
      if id == Token(tok) || id == User(usr) then amount else 0
    }

    /** Both counters are loaded, so that each increment builds on its column, then incremented, then
        marked. On success exactly the two counters have grown by the amount; on failure nothing has,
        except that a user increment failing leaves the token's one in place and unmarked. The charge
        ends a request that the guard has let in, or comes from a caller that asked no guard. */
    method Consume(tok: nat, usr: nat, amount: int, ghost tid: nat) returns (err: Option<QuotaError>)
      requires Valid() && (tid !in st.calls || Served(tok, usr, tid))
      modifies this`redis, this`dirtyTokens, this`dirtyUsers, this`st, this`log, this`cap, this`charged
      ensures Valid() && old(log) <= log
      ensures amount <= 0 ==> err.None? && st == old(st) && cap == old(cap) && charged == old(charged)
      ensures amount > 0 ==>
                && st.calls == old(st.calls) - {tid} && db == old(db)
                && (charged <==> old(charged) || tid !in old(st.calls)) && cap == Max(old(cap), amount)
      ensures err.None? && amount > 0 ==>
                && dirtyTokens == old(dirtyTokens) + {tok} && dirtyUsers == old(dirtyUsers) + {usr}
                && forall id | id in db :: Live(st, id) == Live(old(st), id) + Share(id, tok, usr, amount)
      ensures err.Some? ==> NothingMarked(old(dirtyTokens), old(dirtyUsers)) && OnlyTokenLeaks(old(st), tok, amount)
    {
      hide Recorded, Apply, Marked;
      if amount <= 0 {
        return None;
      }
      EnterConsume(tok, usr, amount, tid);
      err := LoadBoth(tok, usr, amount, tid);
      if err.Some? {
        return;
      }
      err := IncrementAndMark(tok, usr, amount, tid);
    }

    ghost predicate NothingMarked(tokens: set<nat>, users: set<nat>)
      reads this
    {
      dirtyTokens == tokens && dirtyUsers == users
    }

    /** No counter has changed since, but perhaps the token's, by this amount, which is then unmarked. */
    ghost predicate OnlyTokenLeaks(before: State, tok: nat, amount: int)
      reads this
    {
      && (forall id | id in db && id != Token(tok) :: Live(st, id) == Live(before, id))
      && (Token(tok) in db && Live(st, Token(tok)) != Live(before, Token(tok)) ==>
            Token(tok) in st.leaked && Live(st, Token(tok)) == Live(before, Token(tok)) + amount)
    }

    ghost method EnterConsume(tok: nat, usr: nat, amount: int, tid: nat)
      requires Logged() && (tid !in st.calls || Served(tok, usr, tid)) && amount > 0
      modifies this`st, this`log, this`cap, this`charged
      ensures var c := Call(tok, usr, amount, Loading(Charging, TokenLevel, ReadRow, 0));
              st == old(st).(calls := old(st.calls)[tid := c])
      ensures Logged() && old(log) <= log
      ensures (charged <==> old(charged) || tid !in old(st.calls)) && cap == Max(old(cap), amount)
    {
      hide Recorded;
      RecordedLoosely(first, log, st, cap, charged, Max(cap, amount), charged || tid !in st.calls);
      cap, charged := Max(cap, amount), charged || tid !in st.calls;
      if tid in st.calls {
        Take(Bill(tid, amount));
      } else {
        Take(Charge(tid, tok, usr, amount));
      }
    }

    /** The two loads at the head of Consume; no counter's value changes. */
    method LoadBoth(tok: nat, usr: nat, amount: int, ghost tid: nat) returns (err: Option<QuotaError>)
      requires Valid() && tid in st.calls
      requires st.calls[tid] == Call(tok, usr, amount, Loading(Charging, TokenLevel, ReadRow, 0))
      modifies this`redis, this`st, this`log
      ensures Valid() && old(log) <= log && st == old(st).(redis := redis, calls := st.calls)
      ensures forall id | id in db :: Live(st, id) == Live(old(st), id)
      ensures st.calls - {tid} == old(st.calls) - {tid}
      ensures err.Some? ==> tid !in st.calls && st.calls == old(st.calls) - {tid}
      ensures err.None? ==> Token(tok) in redis && User(usr) in redis
                            && tid in st.calls && st.calls[tid] == Call(tok, usr, amount, IncrToken)
    {
      hide Recorded, Apply;
      ghost var s1 := st;
      var token := QuotaAndUsed(Token(tok), tid);
      if token.Err? {
        return Some(token.error);
      }
      ghost var s2 := st;
      var user := QuotaAndUsed(User(usr), tid);
      assert s2.calls - {tid} == s1.calls - {tid};
      if user.Err? {
        return Some(user.error);
      }
      return None;
    }

    /** An INCRBY fails and the call ends; the user's leaves the token's increment unmarked. */
    ghost method TakeIncrementFailure(tid: nat)
      requires Logged() && tid in st.calls
      requires st.calls[tid].pos.IncrToken? || st.calls[tid].pos.IncrUser?
      modifies this`st, this`log
      ensures st == old(st).(leaked := st.leaked, calls := old(st.calls) - {tid})
      ensures old(st.calls[tid]).pos.IncrUser? ==> Token(old(st.calls[tid]).tok) in st.leaked
      ensures Logged() && old(log) <= log
    {
      hide Recorded;
      Take(OpFails(tid));
    }

    /** The tail of Consume, from the first increment on. */
    method IncrementAndMark(tok: nat, usr: nat, amount: int, ghost tid: nat)
      returns (err: Option<QuotaError>)
      requires Valid() && Token(tok) in redis && User(usr) in redis
      requires tid in st.calls && st.calls[tid].tok == tok && st.calls[tid].usr == usr
      requires st.calls[tid].amount == amount && st.calls[tid].pos == IncrToken
      modifies this`redis, this`dirtyTokens, this`dirtyUsers, this`st, this`log
      ensures Valid() && old(log) <= log && st.calls == old(st.calls) - {tid}
      ensures err.None? ==>
                && dirtyTokens == old(dirtyTokens) + {tok} && dirtyUsers == old(dirtyUsers) + {usr}
                && forall id | id in db :: Live(st, id) == Live(old(st), id) + Share(id, tok, usr, amount)
      ensures err.Some? ==> NothingMarked(old(dirtyTokens), old(dirtyUsers)) && OnlyTokenLeaks(old(st), tok, amount)
    {
      hide Recorded, Apply, Marked;
      ghost var calls := st.calls;
      if * {
        TakeIncrementFailure(tid);
        return Some(External);
      }
      Increment(Token(tok), amount, tid);
      PutTwice(calls, tid, st.calls[tid]);
      if * {
        TakeIncrementFailure(tid);
        return Some(External);
      }
      Increment(User(usr), amount, tid);
      assert st.calls - {tid} == calls - {tid};
      MarkDirty(tok, usr, tid);
      return None;
    }

    /** One request from end to end: the guard, the gate before each attempt, and the charge of what it
        cost, or none. It is only ever charged through the guard; the error of a charge is dropped. */
    method ServeRequest(tok: nat, usr: nat, estimates: seq<int>, cost: int, ghost tid: nat)
      returns (served: bool, recorded: bool)
      requires Valid() && tid !in st.calls
      modifies this`redis, this`dirtyTokens, this`dirtyUsers, this`st, this`log, this`cap, this`charged
      ensures Valid() && old(log) <= log && st.calls == old(st.calls) && db == old(db)
      ensures charged == old(charged) && cap == if served && cost > 0 then Max(old(cap), cost) else old(cap)
      ensures recorded ==> served && cost > 0
                           && dirtyTokens == old(dirtyTokens) + {tok} && dirtyUsers == old(dirtyUsers) + {usr}
                           && forall id | id in db :: Live(st, id) == Live(old(st), id) + Share(id, tok, usr, cost)
      ensures !recorded ==> NothingMarked(old(dirtyTokens), old(dirtyUsers)) && OnlyTokenLeaks(old(st), tok, cost)
      ensures !served || cost <= 0 ==> forall id | id in db :: Live(st, id) == Live(old(st), id)
    {
      hide Recorded, Apply, HasRoom, Marked;
      served, recorded := false, false;
      var admitted := Admit(tok, usr, tid);
      if admitted != Ok(true) {
        return;
      }
      assert st.calls - {tid} == old(st.calls);
      served := PassGates(tok, usr, estimates, tid);
      if !served {
        return;
      }
      if cost <= 0 {
        TakeLeave(tid);
        return;
      }
      var err := Consume(tok, usr, cost, tid);
      recorded := err.None?;
    }

    /** The gate before each attempt in turn, up to one that turns the request away. */
    method PassGates(tok: nat, usr: nat, estimates: seq<int>, ghost tid: nat) returns (passed: bool)
      requires Valid() && Served(tok, usr, tid)
      modifies this`redis, this`st, this`log
      ensures Valid() && old(log) <= log && st == old(st).(redis := redis, calls := st.calls)
      ensures st.calls == if passed then old(st.calls) else old(st.calls) - {tid}
      ensures forall id | id in db :: Live(st, id) == Live(old(st), id)
    {
      hide Recorded, Apply, HasRoom, Marked;
      passed := true;
      for i := 0 to |estimates|
        invariant Valid() && old(log) <= log && st == old(st).(redis := redis) && passed
        invariant forall id | id in db :: Live(st, id) == Live(old(st), id)
      {
        var gated := GateBalance(tok, usr, estimates[i], tid);
        if gated != Ok(true) {
          return false;
        }
      }
    }

    ghost method TakeLeave(tid: nat)
      requires Logged() && tid in st.calls && st.calls[tid].pos == Serving
      modifies this`st, this`log
      ensures st == old(st).(calls := old(st.calls) - {tid}) && Logged() && old(log) <= log
    {
      hide Recorded;
      Take(Leave(tid));
    }

    /** As long as nothing was charged without the guard, overspend is bounded here too: n requests in
        flight, none costing more than the cap, and no wipe or reset that raced the counter. */
    lemma OverspendWithinCap(id: Id, n: nat)
      requires Valid() && !charged && id in first.db && first.quota[id] >= 0
      requires AtMostInFlight(first, log, id, n) && !EverRaced(first, log, id)
      ensures Live(st, id) <= Max(first.db[id], first.quota[id] - 1 + n * cap)
    {
      OverspendIsBounded(first, log, id, cap, n);
    }

    /** The column is zeroed, the dirty mark forgotten, the key deleted. When the DEL fails the old
        counter stays live and nothing marks it. */
    method ResetUserUsage(usr: nat) returns (err: Option<QuotaError>)
      requires Valid()
      modifies this`db, this`redis, this`dirtyUsers, this`st, this`log
      ensures Valid() && old(log) <= log && st.calls == old(st.calls) && st.flush == old(st.flush)
      ensures err.None? ==>
                && db == Zeroed(old(db), User(usr)) && redis == old(redis) - {User(usr)}
                && dirtyUsers == old(dirtyUsers) - {usr}
      ensures err.Some? ==>
                && redis == old(redis)
                && (|| (db == old(db) && dirtyUsers == old(dirtyUsers) && st == old(st))
                    || (&& db == Zeroed(old(db), User(usr)) && dirtyUsers == old(dirtyUsers) - {usr}
                        && (User(usr) in redis ==> User(usr) in st.leaked)))
      ensures !InUse(old(st), User(usr)) ==> st.raced == old(st.raced)
    {
      hide Recorded, Apply, InUse, Zeroed;
      if * {
        return Some(External);
      }
      ZeroedMeaning(db, User(usr));
      TakeUpdate(usr);
      if User(usr) in db {
        db := db[User(usr) := 0];
      }
      TakeForget(usr);
      dirtyUsers := dirtyUsers - {usr};
      assert Marked(dirtyTokens, dirtyUsers) == Marked(dirtyTokens, old(dirtyUsers)) - {User(usr)};
      if * {
        return Some(External);
      }
      TakeDelete(usr);
      redis := redis - {User(usr)};
      return None;
    }

    ghost method TakeUpdate(usr: nat)
      requires Logged()
      modifies this`st, this`log
      ensures st == old(st).(db := Zeroed(old(st.db), User(usr)), leaked := st.leaked, raced := st.raced)
      ensures !InUse(old(st), User(usr)) ==> st.raced == old(st.raced)
      ensures InUse(st, User(usr)) <==> InUse(old(st), User(usr))
      ensures Logged() && old(log) <= log
    {
      hide Recorded, Underway;
      Take(ZeroColumn(usr));
      SameUse(old(st), st, User(usr));
    }

    ghost method TakeForget(usr: nat)
      requires Logged()
      modifies this`st, this`log
      ensures st == old(st).(dirty := old(st.dirty) - {User(usr)}, leaked := st.leaked)
      ensures User(usr) in st.redis ==> User(usr) in st.leaked
      ensures InUse(st, User(usr)) <==> InUse(old(st), User(usr))
      ensures Logged() && old(log) <= log
    {
      hide Recorded, Underway;
      Take(ForgetMark(usr));
      SameUse(old(st), st, User(usr));
    }

    ghost method TakeDelete(usr: nat)
      requires Logged()
      modifies this`st, this`log
      ensures st == old(st).(redis := old(st.redis) - {User(usr)}, leaked := st.leaked, raced := st.raced)
      ensures !InUse(old(st), User(usr)) ==> st.raced == old(st.raced)
      ensures Logged() && old(log) <= log
    {
      hide Recorded, InUse;
      Take(DeleteKey(usr));
    }

    /** Mark an id again after its flush failed. */
    method Requeue(id: Id)
      modifies this`dirtyTokens, this`dirtyUsers
      ensures Marked(dirtyTokens, dirtyUsers) == Marked(old(dirtyTokens), old(dirtyUsers)) + {id}
    {
      match id
      case Token(n) => dirtyTokens := dirtyTokens + {n};
      case User(n) => dirtyUsers := dirtyUsers + {n};
    }

    /** The head's counter is read, or skipped when its key is gone. */
    ghost method TakeRead()
      requires Logged() && st.flush.Pass? && st.flush.todo != [] && st.flush.held.None?
      modifies this`st, this`log
      ensures var todo := old(st.flush.todo);
              st == old(st).(flush := if todo[0] in old(st.redis) then Pass(todo, Some(old(st.redis)[todo[0]]))
                                      else Pass(todo[1..], None))
      ensures Logged() && old(log) <= log
    {
      hide Recorded;
      Take(FlushOp);
    }

    /** The held value is written to its column. */
    ghost method TakeWrite()
      requires Logged() && st.flush.Pass? && st.flush.todo != [] && st.flush.held.Some?
      requires st.flush.todo[0] in st.db
      modifies this`st, this`log
      ensures st == old(st).(db := old(st.db)[old(st.flush.todo[0]) := old(st.flush.held.value)],
                             flush := Pass(old(st.flush.todo)[1..], None))
      ensures Logged() && old(log) <= log
    {
      hide Recorded;
      Take(FlushOp);
    }

    ghost method TakeRequeue()
      requires Logged() && st.flush.Pass? && st.flush.todo != []
      modifies this`st, this`log
      ensures st == old(st).(dirty := old(st.dirty) + {old(st.flush.todo[0])},
                             flush := Pass(old(st.flush.todo)[1..], None))
      ensures Logged() && old(log) <= log
    {
      hide Recorded, FlushStep;
      Take(FlushFails);
    }

    /** One iteration of WriteBack's loops. */
    method FlushOne(id: Id, ghost rest: seq<Id>) returns (failed: bool)
      requires Valid() && st.flush == Pass([id] + rest, None)
      modifies this`db, this`dirtyTokens, this`dirtyUsers, this`st, this`log
      ensures Valid() && old(log) <= log && st.flush == Pass(rest, None) && st.calls == old(st.calls)
      ensures failed ==> db == old(db) && st.dirty == old(st.dirty) + {id}
      ensures !failed ==> st.dirty == old(st.dirty)
      ensures !failed ==> if id in redis then id in old(db) && db == old(db)[id := redis[id]] else db == old(db)
    {
      hide Recorded, Apply, Marked;
      assert ([id] + rest)[1..] == rest;
      if * {
        Requeue(id);
        TakeRequeue();
        return true;
      }
      TakeRead();
      if id !in redis {
        return false;
      }
      failed := WriteColumn(id, redis[id], rest);
    }

    /** The second half of an iteration: the value that was read goes to its column. */
    method WriteColumn(id: Id, v: int, ghost rest: seq<Id>) returns (failed: bool)
      requires Valid() && st.flush == Pass([id] + rest, Some(v)) && id in redis
      modifies this`db, this`dirtyTokens, this`dirtyUsers, this`st, this`log
      ensures Valid() && old(log) <= log && st.flush == Pass(rest, None) && st.calls == old(st.calls)
      ensures failed ==> db == old(db) && st.dirty == old(st.dirty) + {id}
      ensures !failed ==> st.dirty == old(st.dirty) && id in old(db) && db == old(db)[id := v]
    {
      hide Recorded, Apply, Marked;
      assert ([id] + rest)[1..] == rest;
      if * {
        Requeue(id);
        TakeRequeue();
        return true;
      }
      RecordedRows(first, log, st, cap, charged);
      db := db[id := v];
      TakeWrite();
      return false;
    }

    /** Copy the dirty sets out, in any order, and clear them under the mutex. */
    method TakeSnapshot() returns (todo: seq<Id>)
      requires Valid() && st.flush == Idle
      modifies this`dirtyTokens, this`dirtyUsers, this`st, this`log
      ensures Valid() && old(log) <= log && dirtyTokens == {} && dirtyUsers == {}
      ensures st == old(st).(dirty := {}, flush := Pass(todo, None))
      ensures forall id :: id in todo <==> id in old(st.dirty)
    {
      hide Recorded, Apply, Marked;
      ghost var s0 := st;
      var tokens := Listed(dirtyTokens);
      var users := Listed(dirtyUsers);
      todo := seq(|tokens|, i requires 0 <= i < |tokens| => Token(tokens[i]))
              + seq(|users|, i requires 0 <= i < |users| => User(users[i]));
      OrderIsDirty(dirtyTokens, dirtyUsers, tokens, users, todo);
      TakeSnapshotStep(todo);
      dirtyTokens, dirtyUsers := {}, {};
      MarkedEmpty({}, {});
    }

    ghost method TakeSnapshotStep(todo: seq<Id>)
      requires Logged() && st.flush == Idle && (set id | id in todo) == st.dirty
      modifies this`st, this`log
      ensures st == old(st).(dirty := {}, flush := Pass(todo, None)) && Logged() && old(log) <= log
    {
      hide Recorded;
      Take(Snapshot(todo));
    }

    ghost method TakeEnd()
      requires Logged() && st.flush == Pass([], None)
      modifies this`st, this`log
      ensures st == old(st).(flush := Idle) && Logged() && old(log) <= log
    {
      hide Recorded;
      Take(EndPass);
    }

    /** Every id that was dirty is flushed, tokens first, and a failed one is marked again. Without
        failures every counter that was dirty equals its column and nothing is dirty. */
    method WriteBack() returns (failed: bool)
      requires Valid() && st.flush == Idle
      modifies this`db, this`dirtyTokens, this`dirtyUsers, this`st, this`log
      ensures Valid() && old(log) <= log && st.flush == Idle && st.calls == old(st.calls)
      ensures db.Keys == old(db).Keys
      ensures forall id | id in db && id !in old(st.dirty) :: db[id] == old(db)[id]
      ensures forall id | id in old(st.dirty) && id in redis && id !in st.dirty :: id in db && db[id] == redis[id]
      ensures st.dirty <= old(st.dirty)
      ensures !failed ==> dirtyTokens == {} && dirtyUsers == {}
    {
      hide Recorded, Apply, Marked;
      ghost var s0 := st;
      var todo := TakeSnapshot();
      failed := false;
      for i := 0 to |todo|
        invariant Valid() && old(log) <= log && st.flush == Pass(todo[i..], None) && st.calls == s0.calls
        invariant db.Keys == old(db).Keys && forall id | id in db && id !in s0.dirty :: db[id] == old(db)[id]
        invariant forall id | id in todo[..i] && id in redis && id !in st.dirty :: id in db && db[id] == redis[id]
        invariant st.dirty <= s0.dirty && (!failed ==> st.dirty == {})
      {
        assert todo[i..] == [todo[i]] + todo[i + 1..];
        assert todo[..i + 1] == todo[..i] + [todo[i]];
        var one := FlushOne(todo[i], todo[i + 1..]);
        failed := failed || one;
      }
      assert todo[..|todo|] == todo;
      TakeEnd();
      MarkedEmpty(dirtyTokens, dirtyUsers);
    }
  }

  /** Some enumeration of a set, in any order, as ranging over a Go map gives. */
  method Listed(s: set<nat>) returns (r: seq<nat>)
    ensures forall n :: n in r <==> n in s
  {
    var rest := s;
    r := [];
    while rest != {}
      invariant rest <= s
      invariant forall n :: n in r <==> n in s - rest
      decreases rest
    {
      var n :| n in rest;
      r := r + [n];
      rest := rest - {n};
    }
  }

  lemma SameUse(s: State, s1: State, id: Id)
    requires s1.calls == s.calls && s1.flush == s.flush
    ensures InUse(s1, id) <==> InUse(s, id)
  {
  }

  lemma ZeroedMeaning(db: map<Id, int>, id: Id)
    ensures Zeroed(db, id) == if id in db then db[id := 0] else db
  {
  }

  lemma MarkedEmpty(tokens: set<nat>, users: set<nat>)
    ensures Marked(tokens, users) == {} <==> tokens == {} && users == {}
  {
    if n :| n in tokens {
      assert Token(n) in Marked(tokens, users);
    }
    if n :| n in users {
      assert User(n) in Marked(tokens, users);
    }
  }

  lemma OrderIsDirty(tokens: set<nat>, users: set<nat>, ts: seq<nat>, us: seq<nat>, todo: seq<Id>)
    requires forall n :: n in ts <==> n in tokens
    requires forall n :: n in us <==> n in users
    requires |todo| == |ts| + |us|
    requires forall i | 0 <= i < |ts| :: todo[i] == Token(ts[i])
    requires forall i | 0 <= i < |us| :: todo[|ts| + i] == User(us[i])
    ensures (set id | id in todo) == Marked(tokens, users)
    ensures forall id :: id in todo <==> id in Marked(tokens, users)
  {
    forall id | id in Marked(tokens, users) ensures id in todo {
      match id
      case Token(n) =>
        var i :| 0 <= i < |ts| && ts[i] == n;
        assert todo[i] == id;
      case User(n) =>
        var i :| 0 <= i < |us| && us[i] == n;
        assert todo[|ts| + i] == id;
    }
    forall id | id in todo ensures id in Marked(tokens, users) {
      var k :| 0 <= k < |todo| && todo[k] == id;
      if k < |ts| {
        assert ts[k] in ts;
      } else {
        assert todo[|ts| + (k - |ts|)] == User(us[k - |ts|]) && us[k - |ts|] in us;
      }
    }
  }
}
