/** What the quota cache guarantees over every run (server/internal/service/quota_service.go). */
module QuotaTheorems {
  import opened Prelude
  import opened QuotaSystem

  // ------------------------------------------------------------------ coverage

  /** The step leaves the counter without a mark: a user INCRBY fails after the same Consume's token
      INCRBY succeeded, or a reset zeroes the column or forgets the mark of a key that is there. */
  predicate Leaks(s: State, e: Event, id: Id) {
    match e
    case OpFails(tid) => tid in s.calls && s.calls[tid].pos.IncrUser? && id == Token(s.calls[tid].tok)
    case ZeroColumn(usr) => id == User(usr) && id in s.redis
    case ForgetMark(usr) => id == User(usr) && id in s.redis
    case _ => false
  }

  /** The step makes up for that: the counter is marked, or its key goes. */
  predicate Mends(s: State, e: Event, id: Id) {
    match e
    case Op(tid) => tid in s.calls && s.calls[tid].pos.Mark? && Concerns(s.calls[tid], id)
    case DeleteKey(usr) => id == User(usr)
    case Wipe => true
    case _ => false
  }

  /** A wipe or a reset takes the key from under a quota call or flush that goes on with what it has
      read, or a reset changes the column under a load that found no key. */
  predicate Races(s: State, e: Event, id: Id) {
    match e
    case Wipe => id in s.db && InUse(s, id)
    case DeleteKey(usr) => id == User(usr) && InUse(s, id)
    case ZeroColumn(usr) => id == User(usr) && id !in s.redis && Underway(s, id)
    case _ => false
  }

  /** After the run the counter's last leaking step has not been made up for. */
  predicate LeftLeaking(s: State, es: seq<Event>, id: Id, before: bool)
    decreases |es|
  {
    if es == [] || Apply(s, es[0]).None? then before
    else LeftLeaking(Apply(s, es[0]).value, es[1..], id, Leaks(s, es[0], id) || (before && !Mends(s, es[0], id)))
  }

  /** Some step of the run raced the counter. */
  predicate EverRaced(s: State, es: seq<Event>, id: Id)
    decreases |es|
  {
    es != [] && Apply(s, es[0]).Some? && (Races(s, es[0], id) || EverRaced(Apply(s, es[0]).value, es[1..], id))
  }

  lemma StepHistory(s: State, e: Event, id: Id)
    requires Apply(s, e).Some?
    ensures var s1 := Apply(s, e).value;
            && (id in s1.leaked <==> Leaks(s, e, id) || (id in s.leaked && !Mends(s, e, id)))
            && (id in s1.raced <==> id in s.raced || Races(s, e, id))
  {
    hide InUse, Underway, LoadStep, IncrStep, FlushStep, CallStep, CallFails;
    match e
    case Op(tid) => CallHistory(s, tid);
    case OpFails(tid) => FailureHistory(s, tid);
    case FlushOp => FlushTouchesColumnsOnly(s);
    case _ =>
  }

  lemma CallHistory(s: State, tid: nat)
    requires tid in s.calls && CallStep(s, tid, s.calls[tid]).Some?
    ensures var c, s1 := s.calls[tid], CallStep(s, tid, s.calls[tid]).value;
            && s1.leaked == (if c.pos.Mark? then s.leaked - {Token(c.tok), User(c.usr)} else s.leaked)
            && s1.raced == s.raced
  {
  }

  lemma FailureHistory(s: State, tid: nat)
    requires tid in s.calls && CallFails(s, tid, s.calls[tid]).Some?
    ensures var c, s1 := s.calls[tid], CallFails(s, tid, s.calls[tid]).value;
            && s1.leaked == (if c.pos.IncrUser? then s.leaked + {Token(c.tok)} else s.leaked)
            && s1.raced == s.raced
  {
  }

  /** The two history variables say exactly what happened. */
  lemma {:induction false} HistoryIsExact(s: State, es: seq<Event>, id: Id)
    requires Exec(s, es).Some?
    ensures var t := Exec(s, es).value;
            && (id in t.leaked <==> LeftLeaking(s, es, id, id in s.leaked))
            && (id in t.raced <==> id in s.raced || EverRaced(s, es, id))
    decreases |es|
  {
    hide Apply, Leaks, Mends, Races;
    if es != [] {
      StepHistory(s, es[0], id);
      HistoryIsExact(Apply(s, es[0]).value, es[1..], id);
    }
  }

  /** In every interleaving, with any operation failing at any point and wipes and resets anywhere, a
      counter that differs from its column is covered - marked dirty, still in the running pass, or
      inside a Consume between its increment and its mark - unless a leaking step on it has not been
      made up for or a wipe or reset has raced it. */
  lemma DriftIsCovered(s0: State, es: seq<Event>, id: Id)
    requires Initial(s0) && Exec(s0, es).Some? && !LeftLeaking(s0, es, id, false) && !EverRaced(s0, es, id)
    ensures var s := Exec(s0, es).value; Drifted(s, id) ==> Covered(s, id)
  {
    InitialInv(s0);
    RunKeepsInv(s0, es);
    HistoryIsExact(s0, es, id);
  }

  /** Exactly when a failing user INCRBY breaks coverage: the token had drifted and only the failing
      call itself was still going to mark it. */
  lemma LeakExactly(s: State, tid: nat)
    requires Inv(s) && tid in s.calls && s.calls[tid].pos.IncrUser?
    ensures var tok := Token(s.calls[tid].tok);
            var s1 := Apply(s, OpFails(tid)).value;
            Drifted(s1, tok) && !Covered(s1, tok) <==>
              && Drifted(s, tok)
              && tok !in s.dirty
              && !(s.flush.Pass? && tok in s.flush.todo)
              && forall t | t in s.calls && t != tid :: !BetweenIncrAndMark(s.calls[t], tok)
  {
    assert CallOk(s, s.calls[tid]);
    var tok := Token(s.calls[tid].tok);
    var s1 := Apply(s, OpFails(tid)).value;
    assert forall t | t in s1.calls :: t in s.calls && t != tid && s1.calls[t] == s.calls[t];
    assert forall t | t in s.calls && t != tid :: t in s1.calls;
  }

  /** Loading a counter whose key is absent seeds it from the column. */
  lemma ColdLoad(s: State, tid: nat)
    requires tid in s.calls && s.calls[tid].pos.Loading? && s.calls[tid].pos.pc == ReadRow
    requires var id := IdAt(s.calls[tid], s.calls[tid].pos.level); id in s.db && id !in s.redis
    ensures var c := s.calls[tid];
            var id := IdAt(c, c.pos.level);
            var next := AfterLoad(c.(pos := c.pos.(pc := ReGet)), Lookup(s.quota, id, 0), s.db[id]);
            Exec(s, [Op(tid), Op(tid), Op(tid), Op(tid)])
            == Some(s.(redis := s.redis[id := s.db[id]], calls := Put(s.calls, tid, next)))
  {
    var c := s.calls[tid];
    var id := IdAt(c, c.pos.level);
    var d := s.db[id];
    var c1, c2, c3 := AtPc(c, GetKey(d)).value, AtPc(c, SetNx(d)).value, AtPc(c, ReGet).value;
    var redis := s.redis[id := d];
    var next := AfterLoad(c3, Lookup(s.quota, id, 0), d);
    OneCallStep(s, tid, Some(c1));
    OneCallStep(s.(calls := s.calls[tid := c1]), tid, Some(c2));
    OneCallStep(s.(calls := s.calls[tid := c2]), tid, Some(c3));
    OneCallStep(s.(redis := redis, calls := s.calls[tid := c3]), tid, next);
    Overwrite(s.calls, tid, c1, Some(c2));
    Overwrite(s.calls, tid, c2, Some(c3));
    Overwrite(s.calls, tid, c3, next);
    Unroll4(s, s.(calls := s.calls[tid := c1]), s.(calls := s.calls[tid := c2]),
            s.(redis := redis, calls := s.calls[tid := c3]), s.(redis := redis, calls := Put(s.calls, tid, next)),
            Op(tid));
  }

  lemma Overwrite(calls: map<nat, Call>, tid: nat, c: Call, next: Option<Call>)
    ensures Put(calls[tid := c], tid, next) == Put(calls, tid, next)
  {
  }

  lemma OneCallStep(s: State, tid: nat, next: Option<Call>)
    requires tid in s.calls && s.calls[tid].pos.Loading? && LoadNext(s, s.calls[tid]) == next
    ensures Apply(s, Op(tid)) == Some(s.(redis := Seeded(s, s.calls[tid]), calls := Put(s.calls, tid, next)))
  {
  }

  lemma Unroll4(s: State, s1: State, s2: State, s3: State, s4: State, e: Event)
    requires Apply(s, e) == Some(s1) && Apply(s1, e) == Some(s2) && Apply(s2, e) == Some(s3) && Apply(s3, e) == Some(s4)
    ensures Exec(s, [e, e, e, e]) == Some(s4)
  {
    hide Apply;
    assert Exec(s3, [e]) == Some(s4);
    assert Exec(s2, [e, e]) == Some(s4) by { assert [e, e][1..] == [e]; }
    assert Exec(s1, [e, e, e]) == Some(s4) by { assert [e, e, e][1..] == [e, e]; }
    assert [e, e, e, e][1..] == [e, e, e];
  }

  /** A cold Consume whose user increment fails, from any initial state with both rows: the key's
      counter ends ahead of its column, with nothing left that would ever flush it. */
  lemma LeakHappens(s0: State, tok: nat, usr: nat, amount: nat)
    requires Initial(s0) && s0.redis == map[] && Token(tok) in s0.db && User(usr) in s0.db && amount > 0
    ensures exists es :: Exec(s0, es).Some? && var s := Exec(s0, es).value;
              s.calls == map[] && s.flush == Idle && Drifted(s, Token(tok)) && !Covered(s, Token(tok))
  {
    var load := [Op(0), Op(0), Op(0), Op(0)];
    var c := Call(tok, usr, amount, Loading(Charging, TokenLevel, ReadRow, 0));
    var s1 := s0.(calls := map[0 := c]);
    assert Apply(s0, Charge(0, tok, usr, amount)) == Some(s1);
    var s2 := AfterBothLoads(s1, tok, usr, amount);
    var s3 := AfterLeak(s2, tok, usr, amount);
    ExecConcat(s1, load + load, [Op(0), OpFails(0)]);
    var rest := load + load + [Op(0), OpFails(0)];
    var es := [Charge(0, tok, usr, amount)] + rest;
    assert es[1..] == rest;
    assert Exec(s0, es) == Some(s3);
  }

  lemma AfterBothLoads(s1: State, tok: nat, usr: nat, amount: nat) returns (s3: State)
    requires s1.redis == map[] && Token(tok) in s1.db && User(usr) in s1.db
    requires s1.calls == map[0 := Call(tok, usr, amount, Loading(Charging, TokenLevel, ReadRow, 0))]
    ensures var load := [Op(0), Op(0), Op(0), Op(0)]; Exec(s1, load + load) == Some(s3)
    ensures s3.calls == map[0 := Call(tok, usr, amount, IncrToken)]
    ensures Token(tok) in s3.redis && s3.redis[Token(tok)] == s1.db[Token(tok)]
    ensures s3 == s1.(redis := s3.redis, calls := s3.calls)
  {
    hide Apply;
    var load := [Op(0), Op(0), Op(0), Op(0)];
    ColdLoad(s1, 0);
    var s2 := Exec(s1, load).value;
    ColdLoad(s2, 0);
    ExecConcat(s1, load, load);
    s3 := Exec(s2, load).value;
  }

  lemma AfterLeak(s3: State, tok: nat, usr: nat, amount: nat) returns (s5: State)
    requires s3.calls == map[0 := Call(tok, usr, amount, IncrToken)] && amount > 0
    requires Token(tok) in s3.redis && Token(tok) in s3.db && s3.redis[Token(tok)] == s3.db[Token(tok)]
    requires s3.flush == Idle && s3.dirty == {}
    ensures Exec(s3, [Op(0), OpFails(0)]) == Some(s5)
    ensures s5.calls == map[] && s5.flush == Idle && s5.dirty == {} && Drifted(s5, Token(tok))
  {
    var c := Call(tok, usr, amount, IncrToken);
    var s4 := IncrStep(s3, 0, c, Token(tok), IncrUser);
    s5 := s4.(leaked := s4.leaked + {Token(tok)}, calls := s4.calls - {0});
    assert s5.calls == map[];
    assert Apply(s3, Op(0)) == Some(s4) && Apply(s4, OpFails(0)) == Some(s5);
    assert [Op(0), OpFails(0)][1..] == [OpFails(0)];
    assert Exec(s4, [OpFails(0)]) == Some(s5);
  }

  lemma {:induction false} ExecConcat(s: State, es: seq<Event>, fs: seq<Event>)
    ensures Exec(s, es + fs) == match Exec(s, es) case None => None case Some(s1) => Exec(s1, fs)
    decreases |es|
  {
    hide Apply;
    if es == [] {
      assert es + fs == fs;
    } else {
      assert (es + fs)[1..] == es[1..] + fs && (es + fs)[0] == es[0];
      if Apply(s, es[0]).Some? {
        ExecConcat(Apply(s, es[0]).value, es[1..], fs);
      }
    }
  }

  // ------------------------------------------------------------------ conservation

  predicate Quiet(e: Event) {
    !e.Wipe? && !e.ZeroColumn? && !e.ForgetMark? && !e.DeleteKey?
  }

  /** The call is about to increment this counter. */
  predicate WillIncrement(c: Call, id: Id) {
    (c.pos.IncrToken? && id == Token(c.tok)) || (c.pos.IncrUser? && id == User(c.usr))
  }

  /** What a step adds to a counter. */
  function IncrementBy(s: State, e: Event, id: Id): int {
    if e.Op? && e.tid in s.calls && WillIncrement(s.calls[e.tid], id) then s.calls[e.tid].amount else 0
  }

  /** What a step makes the system forget: a wipe or a DEL what had not been flushed, an UPDATE the
      column of an absent key, an INCRBY that finds its key taken away what the column says. */
  function ForgottenBy(s: State, e: Event, id: Id): int {
    match e
    case Wipe => Live(s, id) - Lookup(s.db, id, 0)
    case DeleteKey(usr) => if id == User(usr) then Live(s, id) - Lookup(s.db, id, 0) else 0
    case ZeroColumn(usr) => if id == User(usr) && id !in s.redis then Lookup(s.db, id, 0) else 0
    case Op(tid) =>
      if tid in s.calls && WillIncrement(s.calls[tid], id) && id !in s.redis then Lookup(s.db, id, 0) else 0
    case _ => 0
  }

  /** What a step brings back that had gone: an absent key is seeded from a column value that has
      changed since it was read, or the flusher writes a held value whose key is gone. */
  function RevivedBy(s: State, e: Event, id: Id): int {
    if id in s.redis then 0
    else if e.Op? && e.tid in s.calls && s.calls[e.tid].pos.Loading? && s.calls[e.tid].pos.pc.SetNx?
            && id == IdAt(s.calls[e.tid], s.calls[e.tid].pos.level)
    then s.calls[e.tid].pos.pc.dbUsed - Lookup(s.db, id, 0)
    else if e.FlushOp? && Holds(s.flush, id) then s.flush.held.value - Lookup(s.db, id, 0)
    else 0
  }

  function Incremented(s: State, es: seq<Event>, id: Id): int
    decreases |es|
  {
    if es == [] || Apply(s, es[0]).None? then 0
    else IncrementBy(s, es[0], id) + Incremented(Apply(s, es[0]).value, es[1..], id)
  }

  function Forgotten(s: State, es: seq<Event>, id: Id): int
    decreases |es|
  {
    if es == [] || Apply(s, es[0]).None? then 0
    else ForgottenBy(s, es[0], id) + Forgotten(Apply(s, es[0]).value, es[1..], id)
  }

  function Revived(s: State, es: seq<Event>, id: Id): int
    decreases |es|
  {
    if es == [] || Apply(s, es[0]).None? then 0
    else RevivedBy(s, es[0], id) + Revived(Apply(s, es[0]).value, es[1..], id)
  }

  /** What a step leaves alone. */
  ghost predicate Frames(s: State, s1: State, e: Event) {
    && s1.quota == s.quota
    && (!e.FlushOp? && !e.ZeroColumn? ==> s1.db == s.db)
    && s1.db.Keys == s.db.Keys && s.raced <= s1.raced
  }

  lemma CallFrame(s: State, tid: nat)
    requires tid in s.calls && CallStep(s, tid, s.calls[tid]).Some?
    ensures Frames(s, CallStep(s, tid, s.calls[tid]).value, Op(tid))
  {
    hide Seeded, LoadNext, Put, IncrBy;
    match s.calls[tid].pos
    case Loading(_, _, _, _) =>
    case IncrToken =>
    case IncrUser =>
    case Mark =>
  }

  lemma FailureFrame(s: State, tid: nat)
    requires tid in s.calls && CallFails(s, tid, s.calls[tid]).Some?
    ensures Frames(s, CallFails(s, tid, s.calls[tid]).value, OpFails(tid))
  {
    hide Put;
    if s.calls[tid].pos.IncrUser? {
    }
  }

  lemma StepFrame(s: State, e: Event)
    requires Apply(s, e).Some?
    ensures Frames(s, Apply(s, e).value, e)
  {
    hide CallStep, CallFails, InUse, Underway;
    if e.Op? {
      CallFrame(s, e.tid);
    } else if e.OpFails? {
      FailureFrame(s, e.tid);
    }
  }

  /** A step changes a counter's value by exactly what it adds, brings back and makes forget. */
  lemma StepAccounts(s: State, e: Event, id: Id)
    requires Apply(s, e).Some? && id in s.db
    ensures var s1 := Apply(s, e).value;
            && id in s1.db
            && Live(s1, id) == Live(s, id) + IncrementBy(s, e, id) + RevivedBy(s, e, id) - ForgottenBy(s, e, id)
  {
    hide CallStep, CallFails, FlushStep, WipeStep, ZeroStep, ForgetStep, DeleteStep, Live;
    StepFrame(s, e);
    match e
    case Op(tid) => OpAccounts(s, tid, id);
    case OpFails(tid) => FailureShape(s, tid, id);
    case FlushOp => FlushAccounts(s, id);
    case Wipe => ResetAccounts(s, e, id);
    case ZeroColumn(_) => ResetAccounts(s, e, id);
    case ForgetMark(_) => ResetAccounts(s, e, id);
    case DeleteKey(_) => ResetAccounts(s, e, id);
    case _ => SameCounters(s, Apply(s, e).value, id);
  }

  lemma SameCounters(s: State, s1: State, id: Id)
    requires s1.db == s.db && s1.redis == s.redis
    ensures Live(s1, id) == Live(s, id)
  {
  }

  lemma ResetAccounts(s: State, e: Event, id: Id)
    requires !Quiet(e) && id in s.db
    ensures Apply(s, e).Some? && Live(Apply(s, e).value, id) == Live(s, id) - ForgottenBy(s, e, id)
  {
    hide InUse, Underway;
  }

  lemma FlushAccounts(s: State, id: Id)
    requires s.flush.Pass? && s.flush.todo != [] && id in s.db
    ensures Live(FlushStep(s).value, id) == Live(s, id) + RevivedBy(s, FlushOp, id)
  {
  }

  lemma OpAccounts(s: State, tid: nat, id: Id)
    requires tid in s.calls && CallStep(s, tid, s.calls[tid]).Some? && id in s.db
    ensures var s1, e := CallStep(s, tid, s.calls[tid]).value, Op(tid);
            Live(s1, id) == Live(s, id) + IncrementBy(s, e, id) + RevivedBy(s, e, id) - ForgottenBy(s, e, id)
  {
    hide Put, LoadNext;
    match s.calls[tid].pos
    case Loading(_, _, _, _) =>
    case IncrToken =>
    case IncrUser =>
    case Mark =>
  }

  /** Over every run whatsoever - failures, wipes and resets anywhere, racing anything - a counter has
      grown by exactly what was incremented and brought back, less what was forgotten. */
  lemma {:induction false} RunAccounts(s: State, es: seq<Event>, id: Id)
    requires Exec(s, es).Some? && id in s.db
    ensures var t := Exec(s, es).value;
            && id in t.db
            && Live(t, id) == Live(s, id) + Incremented(s, es, id) + Revived(s, es, id) - Forgotten(s, es, id)
    decreases |es|
  {
    hide Apply, Live, IncrementBy, ForgottenBy, RevivedBy;
    if es != [] {
      StepAccounts(s, es[0], id);
      RunAccounts(Apply(s, es[0]).value, es[1..], id);
    }
  }

  lemma CountersAreOrdered(s: State, id: Id)
    requires Inv(s) && id in s.db && id !in s.raced
    ensures 0 <= s.db[id] <= Live(s, id)
  {
  }

  /** While nothing has raced the counter, nothing is brought back and only what was there is
      forgotten. */
  lemma StepIsSound(s: State, e: Event, id: Id)
    requires Inv(s) && Apply(s, e).Some? && id in s.db && id !in s.raced
    ensures RevivedBy(s, e, id) == 0 && IncrementBy(s, e, id) >= 0 && 0 <= ForgottenBy(s, e, id) <= Live(s, id)
  {
    CountersAreOrdered(s, id);
    assert HeldOk(s);
    if e.Op? {
      assert CallOk(s, s.calls[e.tid]);
    }
  }

  lemma {:induction false} RunIsSound(s: State, es: seq<Event>, id: Id)
    requires Inv(s) && Exec(s, es).Some? && id in s.db && id !in Exec(s, es).value.raced
    ensures Revived(s, es, id) == 0 && Incremented(s, es, id) >= 0 && Forgotten(s, es, id) >= 0
    ensures id !in s.raced
    decreases |es|
  {
    hide Apply, Inv, IncrementBy, ForgottenBy, RevivedBy;
    if es != [] {
      StepKeepsInv(s, es[0]);
      StepFrame(s, es[0]);
      RunIsSound(Apply(s, es[0]).value, es[1..], id);
      StepIsSound(s, es[0], id);
    }
  }

  /** A counter that no wipe or reset has raced is what was there plus what was incremented, less what
      each wipe found unflushed and each reset erased, whatever failed and whatever else happened. */
  lemma UnracedRunAccounts(s0: State, es: seq<Event>, id: Id)
    requires Initial(s0) && Exec(s0, es).Some? && id in s0.db && !EverRaced(s0, es, id)
    ensures var t := Exec(s0, es).value;
            && id in t.db && 0 <= t.db[id] <= Live(t, id)
            && Live(t, id) == s0.db[id] + Incremented(s0, es, id) - Forgotten(s0, es, id)
            && Incremented(s0, es, id) >= 0 && Forgotten(s0, es, id) >= 0
  {
    hide Incremented, Forgotten, Revived, EverRaced;
    InitialInv(s0);
    RunKeepsInv(s0, es);
    HistoryIsExact(s0, es, id);
    RunAccounts(s0, es, id);
    RunIsSound(s0, es, id);
    CountersAreOrdered(Exec(s0, es).value, id);
  }

  lemma {:induction false} QuietRun(s: State, es: seq<Event>, id: Id)
    requires Exec(s, es).Some? && (forall e | e in es :: Quiet(e)) && !EverRaced(s, es, id) && Inv(s) && id !in s.raced
    requires id in s.db
    ensures Forgotten(s, es, id) == 0
    decreases |es|
  {
    hide Apply, Inv, ForgottenBy, Races;
    if es != [] {
      assert es[0] in es;
      QuietForgetsNothing(s, es[0], id);
      StepKeepsInv(s, es[0]);
      StepFrame(s, es[0]);
      StepHistory(s, es[0], id);
      QuietRun(Apply(s, es[0]).value, es[1..], id);
    }
  }

  lemma QuietForgetsNothing(s: State, e: Event, id: Id)
    requires Inv(s) && Apply(s, e).Some? && Quiet(e) && id in s.db && id !in s.raced
    ensures ForgottenBy(s, e, id) == 0
  {
    if e.Op? {
      assert CallOk(s, s.calls[e.tid]);
    }
  }

  lemma {:induction false} QuietRunRacesNothing(s: State, es: seq<Event>, id: Id)
    requires forall e | e in es :: Quiet(e)
    ensures !EverRaced(s, es, id)
    decreases |es|
  {
    hide Apply;
    if es != [] && Apply(s, es[0]).Some? {
      assert es[0] in es;
      QuietRunRacesNothing(Apply(s, es[0]).value, es[1..], id);
    }
  }

  /** The column only ever moves up, except when it is reset, unless a wipe or reset raced a flush. */
  lemma ColumnNeverDecreases(s: State, e: Event, id: Id)
    requires Inv(s) && Apply(s, e).Some? && !e.ZeroColumn? && id in s.db && id !in s.raced
    ensures var s1 := Apply(s, e).value; id in s1.db && s.db[id] <= s1.db[id]
  {
    hide CallStep, CallFails, InUse, Underway;
    StepFrame(s, e);
    assert HeldOk(s);
  }

  lemma {:induction false} ColumnStays(s: State, es: seq<Event>, id: Id)
    requires Inv(s) && Exec(s, es).Some? && (forall e | e in es :: Quiet(e)) && id in s.db && id !in s.raced
    ensures var t := Exec(s, es).value; id in t.db && s.db[id] <= t.db[id]
    decreases |es|
  {
    hide Apply, Inv;
    if es != [] {
      assert es[0] in es;
      StepKeepsInv(s, es[0]);
      StepHistory(s, es[0], id);
      ColumnNeverDecreases(s, es[0], id);
      ColumnStays(Apply(s, es[0]).value, es[1..], id);
    }
  }

  /** Without wipes and resets nothing is lost: each counter is its initial column plus everything
      incremented, and its column has moved up from there without passing it. */
  lemma NothingIsLost(s0: State, es: seq<Event>, id: Id)
    requires Initial(s0) && Exec(s0, es).Some? && (forall e | e in es :: Quiet(e)) && id in s0.db
    ensures var s := Exec(s0, es).value;
            && Live(s, id) == s0.db[id] + Incremented(s0, es, id)
            && id in s.db && s0.db[id] <= s.db[id] <= Live(s, id)
  {
    hide Incremented, Forgotten, EverRaced;
    InitialInv(s0);
    QuietRunRacesNothing(s0, es, id);
    UnracedRunAccounts(s0, es, id);
    QuietRun(s0, es, id);
    ColumnStays(s0, es, id);
  }

  /** A wipe sets each counter back to its column. */
  lemma WipeLosesTheUnflushed(s: State, id: Id)
    requires Inv(s) && id in s.db && id !in s.raced
    ensures var s1 := Apply(s, Wipe).value;
            && Live(s1, id) == s.db[id] <= Live(s, id)
            && (Live(s1, id) == Live(s, id) <==> !Drifted(s, id))
  {
  }

  // ------------------------------------------------------------------ a clean pass

  /** Anything but a failing flush, a charge, a wipe or a reset: requests go on arriving, checking,
      being served and leaving while the pass runs. */
  predicate PassEvent(e: Event) {
    e.FlushOp? || e.EndPass? || e.Arrive? || e.Gate? || e.Leave? || e.Op? || e.OpFails?
  }

  predicate Consuming(c: Call) {
    !c.pos.Serving? && !(c.pos.Loading? && !c.pos.purpose.Charging?)
  }

  predicate NoConsume(s: State) {
    forall t | t in s.calls :: !Consuming(s.calls[t])
  }

  /** What such a step keeps: no Consume runs, nothing is marked or leaked, and counters that are
      there keep their values. */
  ghost predicate KeepsClean(s: State, s1: State) {
    && NoConsume(s1) && s1.dirty == s.dirty && s1.leaked == s.leaked && s1.raced == s.raced
    && forall id | id in s.redis :: id in s1.redis && s1.redis[id] == s.redis[id]
  }

  /** Flushing writes columns only. */
  lemma FlushTouchesColumnsOnly(s: State)
    requires s.flush.Pass? && s.flush.todo != []
    ensures var t := FlushStep(s).value; t == s.(db := t.db, flush := t.flush)
  {
  }

  lemma CheckKeepsClean(s: State, tid: nat)
    requires NoConsume(s) && tid in s.calls && CallStep(s, tid, s.calls[tid]).Some?
    ensures KeepsClean(s, CallStep(s, tid, s.calls[tid]).value)
  {
    assert !Consuming(s.calls[tid]);
  }

  lemma CheckFailureKeepsClean(s: State, tid: nat)
    requires NoConsume(s) && tid in s.calls && CallFails(s, tid, s.calls[tid]).Some?
    ensures KeepsClean(s, CallFails(s, tid, s.calls[tid]).value)
  {
    assert !Consuming(s.calls[tid]);
  }

  lemma PassEventKeepsClean(s: State, e: Event)
    requires NoConsume(s) && Apply(s, e).Some? && PassEvent(e)
    ensures KeepsClean(s, Apply(s, e).value)
  {
    hide CallStep, CallFails, FlushStep;
    match e
    case Op(tid) => CheckKeepsClean(s, tid);
    case OpFails(tid) => CheckFailureKeepsClean(s, tid);
    case FlushOp => FlushTouchesColumnsOnly(s);
    case _ =>
  }

  lemma {:induction false} PassKeepsClean(s: State, es: seq<Event>)
    requires Inv(s) && NoConsume(s) && Exec(s, es).Some? && forall e | e in es :: PassEvent(e)
    ensures Inv(Exec(s, es).value) && KeepsClean(s, Exec(s, es).value)
    decreases |es|
  {
    hide Apply, Inv;
    if es != [] {
      assert es[0] in es;
      StepKeepsInv(s, es[0]);
      PassEventKeepsClean(s, es[0]);
      PassKeepsClean(Apply(s, es[0]).value, es[1..]);
    }
  }

  lemma NothingCovered(s: State, id: Id)
    requires NoConsume(s) && s.dirty == {} && s.flush == Idle
    ensures !Covered(s, id)
  {
    forall t | t in s.calls ensures !BetweenIncrAndMark(s.calls[t], id) {
      assert !Consuming(s.calls[t]);
    }
  }

  /** A pass that ends without an error while no Consume runs leaves every counter equal to its
      column, whatever order it flushed them in and however many requests arrive, check, are served
      and leave meanwhile; counters left leaking or raced before are the only exceptions. */
  lemma CleanPassSynchronises(s: State, order: seq<Id>, es: seq<Event>)
    requires Inv(s) && NoConsume(s) && (forall e | e in es :: PassEvent(e))
    requires Exec(s, [Snapshot(order)] + es).Some? && Exec(s, [Snapshot(order)] + es).value.flush == Idle
    ensures var t := Exec(s, [Snapshot(order)] + es).value;
            && (forall id | id in s.redis :: id in t.redis && t.redis[id] == s.redis[id])
            && forall id | id in t.redis && id !in s.leaked && id !in s.raced :: id in t.db && t.db[id] == t.redis[id]
  {
    var s1 := Apply(s, Snapshot(order)).value;
    assert ([Snapshot(order)] + es)[1..] == es;
    StepKeepsInv(s, Snapshot(order));
    PassKeepsClean(s1, es);
    var t := Exec(s1, es).value;
    forall id | id in t.redis && id !in s.leaked && id !in s.raced ensures id in t.db && t.db[id] == t.redis[id] {
      NothingCovered(t, id);
      assert !Drifted(t, id);
    }
  }

  // ------------------------------------------------------------------ overspend

  /** The call has passed the guard for this counter and may still increment it. */
  predicate Reserved(c: Call, id: Id) {
    match c.pos
    case Loading(purpose, level, _, left) =>
      if purpose.Admission? then level == UserLevel && id == Token(c.tok) && left != 0 else Concerns(c, id)
    case Serving => Concerns(c, id)
    case IncrToken => Concerns(c, id)
    case IncrUser => id == User(c.usr)
    case Mark => false
  }

  function ReservedCalls(s: State, id: Id): set<nat> {
    set t | t in s.calls && Reserved(s.calls[t], id)
  }

  function InFlight(s: State, id: Id): set<nat> {
    set t | t in s.calls && Concerns(s.calls[t], id)
  }

  predicate AmountsWithin(s: State, most: int) {
    forall t | t in s.calls :: s.calls[t].amount <= most
  }

  /** Requests that consume only through the guard, at most `most` each. */
  predicate Guarded(e: Event, most: int) {
    !e.Charge? && (e.Bill? ==> e.amount <= most)
  }

  /** The three ways a step can affect a bounded counter and the calls that passed its guard. */
  ghost predicate Shape(s: State, s1: State, id: Id, most: int) {
    var before, after := ReservedCalls(s, id), ReservedCalls(s1, id);
    || (after <= before && Live(s1, id) <= Live(s, id))
    || Live(s1, id) <= Lookup(s.quota, id, 0) - 1
    || (exists t | t in before :: after <= before - {t} && Live(s1, id) <= Live(s, id) + most)
  }

  lemma StepShape(s: State, e: Event, id: Id, most: int)
    requires Inv(s) && Apply(s, e).Some? && AmountsWithin(s, most) && Guarded(e, most)
    requires id in s.db && id !in s.raced && Lookup(s.quota, id, 0) >= 0
    ensures Shape(s, Apply(s, e).value, id, most)
  {
    hide LoadStep, IncrStep, MarkStep, CallFails, FlushStep, Inv;
    match e
    case Op(tid) =>
      if s.calls[tid].pos.Loading? {
        LoadShape(s, tid, id);
      } else if s.calls[tid].pos.Mark? {
        MarkShape(s, tid, id);
      } else {
        IncrementShape(s, tid, id, most);
      }
    case OpFails(tid) => FailureShape(s, tid, id);
    case FlushOp => FlushShape(s, id);
    case Wipe => WipeShape(s, id);
    case _ => OtherShape(s, e, id);
  }

  /** Requests coming and going, the flusher's bookkeeping and resets reserve nothing new. */
  lemma OtherShape(s: State, e: Event, id: Id)
    requires Inv(s) && Apply(s, e).Some? && id in s.db && id !in s.raced && !e.Charge?
    requires !e.Op? && !e.OpFails? && !e.FlushOp? && !e.Wipe?
    ensures var s1 := Apply(s, e).value;
            ReservedCalls(s1, id) <= ReservedCalls(s, id) && Live(s1, id) <= Live(s, id)
  {
    hide Inv, InUse, Underway;
    CountersAreOrdered(s, id);
  }

  lemma MarkShape(s: State, tid: nat, id: Id)
    requires tid in s.calls && s.calls[tid].pos.Mark?
    ensures var s1 := CallStep(s, tid, s.calls[tid]).value;
            ReservedCalls(s1, id) <= ReservedCalls(s, id) && Live(s1, id) == Live(s, id)
  {
  }

  lemma FailureShape(s: State, tid: nat, id: Id)
    requires tid in s.calls && CallFails(s, tid, s.calls[tid]).Some?
    ensures var s1 := CallFails(s, tid, s.calls[tid]).value;
            ReservedCalls(s1, id) <= ReservedCalls(s, id) && Live(s1, id) == Live(s, id)
  {
  }

  lemma FlushShape(s: State, id: Id)
    requires Inv(s) && s.flush.Pass? && s.flush.todo != [] && id in s.db && id !in s.raced
    ensures var s1 := FlushStep(s).value;
            ReservedCalls(s1, id) == ReservedCalls(s, id) && Live(s1, id) == Live(s, id)
  {
    assert HeldOk(s);
    assert FlushStep(s).value.calls == s.calls;
  }

  lemma WipeShape(s: State, id: Id)
    requires Inv(s) && id in s.db && id !in s.raced
    ensures var s1 := Apply(s, Wipe).value;
            ReservedCalls(s1, id) == ReservedCalls(s, id) && Live(s1, id) <= Live(s, id)
  {
  }

  lemma IncrementShape(s: State, tid: nat, id: Id, most: int)
    requires Inv(s) && tid in s.calls && (s.calls[tid].pos.IncrToken? || s.calls[tid].pos.IncrUser?)
    requires AmountsWithin(s, most) && id in s.db && id !in s.raced
    ensures Shape(s, CallStep(s, tid, s.calls[tid]).value, id, most)
  {
    var c := s.calls[tid];
    var s1 := CallStep(s, tid, c).value;
    IncrementCounters(s, tid);
    var before, after := ReservedCalls(s, id), ReservedCalls(s1, id);
    assert forall t | t in after && t != tid :: t in before;
    assert s1.calls[tid] == c.(pos := if c.pos.IncrToken? then IncrUser else Mark);
    if id == NextIncrement(c) {
      assert tid in before && tid !in after;
      assert Live(s1, id) == Live(s, id) + c.amount;
    } else {
      assert tid in after ==> tid in before;
      assert Live(s1, id) == Live(s, id);
    }
  }

  lemma LoadShape(s: State, tid: nat, id: Id)
    requires Inv(s) && tid in s.calls && s.calls[tid].pos.Loading?
    requires id in s.db && id !in s.raced && Lookup(s.quota, id, 0) >= 0
    ensures var s1 := LoadStep(s, tid, s.calls[tid]);
            || (ReservedCalls(s1, id) <= ReservedCalls(s, id) && Live(s1, id) <= Live(s, id))
            || Live(s1, id) <= Lookup(s.quota, id, 0) - 1
  {
    var c := s.calls[tid];
    var s1 := LoadStep(s, tid, c);
    assert CallOk(s, c);
    assert Live(s1, id) == Live(s, id);
    if tid in s1.calls && Reserved(s1.calls[tid], id) && !Reserved(c, id) {
      assert Live(s1, id) <= Lookup(s.quota, id, 0) - 1;
    }
  }

  ghost predicate Bounded(s: State, id: Id, limit: int, most: int) {
    Live(s, id) + |ReservedCalls(s, id)| * most <= limit
  }

  lemma SubsetSize<T>(a: set<T>, b: set<T>)
    requires a <= b
    ensures |a| <= |b|
  {
    assert b == a + (b - a);
  }

  lemma FewerTimes(a: nat, b: nat, most: nat)
    requires a <= b
    ensures a * most <= b * most
  {
  }

  lemma ReservedInFlight(s: State, id: Id)
    ensures ReservedCalls(s, id) <= InFlight(s, id)
  {
  }

  lemma AmountsStayWithin(s: State, e: Event, most: nat)
    requires Apply(s, e).Some? && AmountsWithin(s, most) && Guarded(e, most)
    ensures AmountsWithin(Apply(s, e).value, most)
  {
    hide CallStep, CallFails, FlushStep;
    if e.Op? {
      CallAmounts(s, e.tid, most);
    } else if e.OpFails? {
      FailureAmounts(s, e.tid, most);
    } else if e.FlushOp? {
      FlushTouchesColumnsOnly(s);
    }
  }

  lemma CallAmounts(s: State, tid: nat, most: int)
    requires tid in s.calls && CallStep(s, tid, s.calls[tid]).Some? && AmountsWithin(s, most)
    ensures AmountsWithin(CallStep(s, tid, s.calls[tid]).value, most)
  {
    hide Seeded, IncrBy;
  }

  lemma FailureAmounts(s: State, tid: nat, most: int)
    requires tid in s.calls && CallFails(s, tid, s.calls[tid]).Some? && AmountsWithin(s, most)
    ensures AmountsWithin(CallFails(s, tid, s.calls[tid]).value, most)
  {
  }

  lemma StepStaysBounded(s: State, e: Event, id: Id, limit: int, most: nat, n: nat)
    requires Inv(s) && Apply(s, e).Some? && AmountsWithin(s, most) && Guarded(e, most)
    requires id in s.db && id !in s.raced && Lookup(s.quota, id, 0) >= 0
    requires |InFlight(Apply(s, e).value, id)| <= n
    requires limit >= 0 && limit >= Lookup(s.quota, id, 0) - 1 + n * most
    requires Bounded(s, id, limit, most)
    ensures Bounded(Apply(s, e).value, id, limit, most)
  {
    hide Apply, Inv, Live, AmountsWithin;
    var s1 := Apply(s, e).value;
    var before, after := ReservedCalls(s, id), ReservedCalls(s1, id);
    StepShape(s, e, id, most);
    ReservedInFlight(s1, id);
    SubsetSize(after, InFlight(s1, id));
    if after <= before && Live(s1, id) <= Live(s, id) {
      SubsetSize(after, before);
      FewerTimes(|after|, |before|, most);
    } else if Live(s1, id) <= Lookup(s.quota, id, 0) - 1 {
      FewerTimes(|after|, n, most);
    } else {
      var t :| t in before && after <= before - {t} && Live(s1, id) <= Live(s, id) + most;
      SubsetSize(after, before - {t});
      FewerTimes(|after| + 1, |before|, most);
    }
  }

  /** At most n requests of this key or user are in flight in every state of the run. */
  predicate AtMostInFlight(s: State, es: seq<Event>, id: Id, n: nat)
    decreases |es|
  {
    |InFlight(s, id)| <= n &&
    (es != [] ==> match Apply(s, es[0]) case None => true case Some(s1) => AtMostInFlight(s1, es[1..], id, n))
  }

  lemma {:induction false} RunStaysBounded(s: State, es: seq<Event>, id: Id, limit: int, most: nat, n: nat)
    requires Inv(s) && Exec(s, es).Some? && AmountsWithin(s, most) && forall e | e in es :: Guarded(e, most)
    requires id in s.db && Lookup(s.quota, id, 0) >= 0 && AtMostInFlight(s, es, id, n)
    requires id !in s.raced && !EverRaced(s, es, id)
    requires limit >= 0 && limit >= Lookup(s.quota, id, 0) - 1 + n * most
    requires Bounded(s, id, limit, most)
    ensures Bounded(Exec(s, es).value, id, limit, most)
    decreases |es|
  {
    hide Apply, Inv, Live, AmountsWithin, Bounded, ReservedCalls, InFlight;
    if es != [] {
      var s1 := Apply(s, es[0]).value;
      assert es[0] in es;
      assert AtMostInFlight(s1, es[1..], id, n);
      StepKeepsInv(s, es[0]);
      StepStaysBounded(s, es[0], id, limit, most, n);
      StepFrame(s, es[0]);
      StepHistory(s, es[0], id);
      AmountsStayWithin(s, es[0], most);
      RunStaysBounded(s1, es[1..], id, limit, most, n);
    }
  }

  /** Overspend is bounded at both levels: with a fixed quota q >= 0, at most n requests of the key
      or user in flight and none costing more than `most`, a counter that no wipe or reset has raced
      never exceeds max(initial, q - 1 + n * most). */
  lemma OverspendIsBounded(s0: State, es: seq<Event>, id: Id, most: nat, n: nat)
    requires Initial(s0) && Exec(s0, es).Some? && (forall e | e in es :: Guarded(e, most))
    requires id in s0.db && s0.quota[id] >= 0 && AtMostInFlight(s0, es, id, n) && !EverRaced(s0, es, id)
    ensures Live(Exec(s0, es).value, id) <= Max(s0.db[id], s0.quota[id] - 1 + n * most)
  {
    InitialInv(s0);
    var limit := Max(s0.db[id], s0.quota[id] - 1 + n * most);
    assert |ReservedCalls(s0, id)| == 0;
    RunStaysBounded(s0, es, id, limit, most, n);
    FewerTimes(0, |ReservedCalls(Exec(s0, es).value, id)|, most);
  }
}
