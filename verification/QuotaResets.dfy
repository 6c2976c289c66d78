/** Resetting a user's usage (ResetUserUsage in server/internal/service/quota_service.go) while the
    rest of the system goes on: its three operations - zero the column, forget the dirty mark, delete
    the key - may be apart, and a flush pass may read and write between any two of them. */
module QuotaResets {
  import opened Prelude
  import opened QuotaSystem
  import opened QuotaTheorems

  // ------------------------------------------------------------------ what a pass reads and writes

  /** The value a step writes to the column for the flusher, if it does. */
  function WriteBy(s: State, e: Event, id: Id): seq<int> {
    if e.FlushOp? && Holds(s.flush, id) then [s.flush.held.value] else []
  }

  /** The value a step reads from the counter for the flusher, if it does. */
  function ReadBy(s: State, e: Event, id: Id): seq<int> {
    if e.FlushOp? && s.flush.Pass? && s.flush.held.None? && s.flush.todo != [] && s.flush.todo[0] == id && id in s.redis
    then [s.redis[id]] else []
  }

  function Writes(s: State, es: seq<Event>, id: Id): seq<int>
    decreases |es|
  {
    if es == [] || Apply(s, es[0]).None? then []
    else WriteBy(s, es[0], id) + Writes(Apply(s, es[0]).value, es[1..], id)
  }

  function Reads(s: State, es: seq<Event>, id: Id): seq<int>
    decreases |es|
  {
    if es == [] || Apply(s, es[0]).None? then []
    else ReadBy(s, es[0], id) + Reads(Apply(s, es[0]).value, es[1..], id)
  }

  /** The event is no quota call on this user's counter and does not zero its column. */
  predicate Apart(s: State, e: Event, usr: nat) {
    match e
    case Arrive(_, _, u) => u != usr
    case Charge(_, _, u, _) => u != usr
    case Gate(tid, _) => tid in s.calls && s.calls[tid].usr != usr
    case Bill(tid, _) => tid in s.calls && s.calls[tid].usr != usr
    case Op(tid) => tid in s.calls && s.calls[tid].usr != usr
    case OpFails(tid) => tid in s.calls && s.calls[tid].usr != usr
    case ZeroColumn(u) => u != usr
    case _ => true
  }

  predicate AllApart(s: State, es: seq<Event>, usr: nat)
    decreases |es|
  {
    es == [] || (Apart(s, es[0], usr) && (Apply(s, es[0]).Some? ==> AllApart(Apply(s, es[0]).value, es[1..], usr)))
  }

  /** The user has a row and no quota call on it is under way. */
  ghost predicate Quiescent(s: State, usr: nat) {
    !Underway(s, User(usr)) && User(usr) in s.db
  }

  /** What a step apart from the user does to the user's column, key and held value. */
  ghost predicate Follows(s: State, s1: State, e: Event, usr: nat) {
    var id := User(usr);
    var written, read := WriteBy(s, e, id), ReadBy(s, e, id);
    && id in s.db && Quiescent(s1, usr)
    && s1.db[id] == (if written == [] then s.db[id] else written[0])
    && (id in s1.redis ==> id in s.redis && s1.redis[id] == s.redis[id])
    && (Holds(s1.flush, id) ==>
          if read == [] then Holds(s.flush, id) && s1.flush.held == s.flush.held && written == []
          else s1.flush.held.value == read[0])
  }

  lemma CallFollows(s: State, tid: nat, usr: nat)
    requires Quiescent(s, usr) && tid in s.calls && s.calls[tid].usr != usr && CallStep(s, tid, s.calls[tid]).Some?
    ensures Follows(s, CallStep(s, tid, s.calls[tid]).value, Op(tid), usr)
  {
  }

  lemma FailureFollows(s: State, tid: nat, usr: nat)
    requires Quiescent(s, usr) && tid in s.calls && s.calls[tid].usr != usr && CallFails(s, tid, s.calls[tid]).Some?
    ensures Follows(s, CallFails(s, tid, s.calls[tid]).value, OpFails(tid), usr)
  {
  }

  lemma FlushFollows(s: State, e: Event, usr: nat)
    requires Quiescent(s, usr) && Apply(s, e).Some? && (e.FlushOp? || e.FlushFails?)
    ensures Follows(s, Apply(s, e).value, e, usr)
  {
  }

  lemma StepFollows(s: State, e: Event, usr: nat)
    requires Quiescent(s, usr) && Apply(s, e).Some? && Apart(s, e, usr)
    ensures Follows(s, Apply(s, e).value, e, usr)
  {
    hide CallStep, CallFails, FlushStep, InUse;
    match e
    case Op(tid) => CallFollows(s, tid, usr);
    case OpFails(tid) => FailureFollows(s, tid, usr);
    case FlushOp => FlushFollows(s, e, usr);
    case FlushFails => FlushFollows(s, e, usr);
    case _ =>
  }

  /** Where a run apart from the user leaves the column, and where what was written came from: the
      first write may be of the value held at the start, every other is of a value read in the run,
      and every value read is the one the key had all along. */
  ghost predicate Accounts(s: State, t: State, writes: seq<int>, gets: seq<int>, usr: nat) {
    var id := User(usr);
    && id in s.db && Quiescent(t, usr)
    && t.db[id] == (if writes == [] then s.db[id] else writes[|writes| - 1])
    && (id in t.redis ==> id in s.redis && t.redis[id] == s.redis[id])
    && (forall v | v in gets :: id in s.redis && v == s.redis[id])
    && (forall k | 0 <= k < |writes| ::
          writes[k] in gets || (k == 0 && Holds(s.flush, id) && writes[k] == s.flush.held.value))
    && (Holds(t.flush, id) ==>
          t.flush.held.value in gets || (writes == [] && Holds(s.flush, id) && t.flush.held == s.flush.held))
  }

  lemma AccountsNothing(s: State, usr: nat)
    requires Quiescent(s, usr)
    ensures Accounts(s, s, [], [], usr)
  {
  }

  lemma AccountsStep(s: State, s1: State, t: State, e: Event, writes: seq<int>, gets: seq<int>, usr: nat)
    requires Follows(s, s1, e, usr) && Accounts(s1, t, writes, gets, usr)
    ensures Accounts(s, t, WriteBy(s, e, User(usr)) + writes, ReadBy(s, e, User(usr)) + gets, usr)
  {
    var id := User(usr);
    var w, r := WriteBy(s, e, id), ReadBy(s, e, id);
    assert |w| + |r| <= 1;
    forall k | 0 <= k < |w + writes|
      ensures (w + writes)[k] in r + gets || (k == 0 && Holds(s.flush, id) && (w + writes)[k] == s.flush.held.value)
    {
      if k >= |w| {
        var j := k - |w|;
        assert (w + writes)[k] == writes[j];
        assert writes[j] in gets || (j == 0 && Holds(s1.flush, id) && writes[j] == s1.flush.held.value);
        assert r != [] ==> r[0] in r + gets;
      }
    }
    assert r != [] ==> r[0] in r + gets;
  }

  lemma {:induction false} RunFollows(s: State, es: seq<Event>, usr: nat)
    requires Quiescent(s, usr) && Exec(s, es).Some? && AllApart(s, es, usr)
    ensures Accounts(s, Exec(s, es).value, Writes(s, es, User(usr)), Reads(s, es, User(usr)), usr)
    decreases |es|
  {
    hide Apply, Apart, Quiescent, Follows, Accounts, WriteBy, ReadBy;
    if es == [] {
      AccountsNothing(s, usr);
    } else {
      var s1, id := Apply(s, es[0]).value, User(usr);
      StepFollows(s, es[0], usr);
      StillQuiescent(s, s1, es[0], usr);
      RunFollows(s1, es[1..], usr);
      AccountsStep(s, s1, Exec(s, es).value, es[0], Writes(s1, es[1..], id), Reads(s1, es[1..], id), usr);
    }
  }

  lemma StillQuiescent(s: State, s1: State, e: Event, usr: nat)
    requires Follows(s, s1, e, usr)
    ensures Quiescent(s1, usr)
  {
  }

  lemma EndsQuiescent(s: State, t: State, writes: seq<int>, gets: seq<int>, usr: nat)
    requires Accounts(s, t, writes, gets, usr)
    ensures Quiescent(t, usr)
  {
  }

  // ------------------------------------------------------------------ does a reset survive

  /** What follows the UPDATE of a reset: its other operations with whatever happens in between. */
  function ResetRun(usr: nat, es1: seq<Event>, es2: seq<Event>, es3: seq<Event>): seq<Event> {
    es1 + [ForgetMark(usr)] + es2 + [DeleteKey(usr)] + es3
  }

  /** A reset against everything else the system may do but quota calls on this user and a second reset
      of the column: once no flush holds a value of the user any more, the column is what was last
      written to it since it was zeroed, and every value written was held by a pass when the column was
      zeroed, or read by one between then and the DEL. Unless the counter had been raced before, that
      column is 0 exactly if no value other than 0 was written. */
  lemma ResetSurvivesExactly(s: State, usr: nat, es1: seq<Event>, es2: seq<Event>, es3: seq<Event>)
    requires Inv(s) && User(usr) in s.db && !Underway(s, User(usr))
    requires var z, run := ZeroStep(s, User(usr)), ResetRun(usr, es1, es2, es3);
             Exec(z, run).Some? && AllApart(z, run, usr) && !Holds(Exec(z, run).value.flush, User(usr))
    ensures var id := User(usr);
            var z, run := ZeroStep(s, id), ResetRun(usr, es1, es2, es3);
            var t, writes := Exec(z, run).value, Writes(z, run, id);
            && id in t.db && t.db[id] == (if writes == [] then 0 else writes[|writes| - 1])
            && (id !in s.raced ==> (t.db[id] == 0 <==> forall v | v in writes :: v == 0))
            && forall v | v in writes ::
                 (Holds(s.flush, id) && v == s.flush.held.value) || v in Reads(z, es1 + [ForgetMark(usr)] + es2, id)
  {
    hide Apply, AllApart, Writes, Reads, Inv, Accounts, Underway;
    var id := User(usr);
    var z, run := ZeroStep(s, id), ResetRun(usr, es1, es2, es3);
    assert es1 + [ForgetMark(usr)] + es2 + ([DeleteKey(usr)] + es3) == run;
    ZeroedQuiescent(s, usr);
    RunFollows(z, run, usr);
    NothingReadAfterDelete(z, es1 + [ForgetMark(usr)] + es2, es3, usr);
    if Holds(s.flush, id) && id !in s.raced {
      HeldBelowKey(s, id);
    }
    ColumnIsZero(s, z, Exec(z, run).value, Writes(z, run, id), Reads(z, run, id), usr);
  }

  lemma ZeroedQuiescent(s: State, usr: nat)
    requires User(usr) in s.db && !Underway(s, User(usr))
    ensures Quiescent(ZeroStep(s, User(usr)), usr) && ZeroStep(s, User(usr)).db[User(usr)] == 0
  {
  }

  lemma HeldBelowKey(s: State, id: Id)
    requires Inv(s) && id !in s.raced && Holds(s.flush, id)
    ensures id in s.redis && 0 <= s.flush.held.value <= s.redis[id]
  {
    assert HeldOk(s);
  }

  lemma ColumnIsZero(s: State, z: State, t: State, writes: seq<int>, gets: seq<int>, usr: nat)
    requires var id := User(usr);
             && z == ZeroStep(s, id) && id in z.db && z.db[id] == 0 && Accounts(z, t, writes, gets, usr)
             && (Holds(s.flush, id) && id !in s.raced ==> id in s.redis && 0 <= s.flush.held.value <= s.redis[id])
    ensures var id := User(usr);
            && id in t.db && t.db[id] == (if writes == [] then 0 else writes[|writes| - 1])
            && (id !in s.raced ==> (t.db[id] == 0 <==> forall v | v in writes :: v == 0))
            && forall v | v in writes :: (Holds(s.flush, id) && v == s.flush.held.value) || v in gets
  {
    if writes != [] {
      assert writes[|writes| - 1] in writes;
      if writes[|writes| - 1] == 0 && User(usr) !in s.raced {
        forall v | v in writes ensures v == 0 {
          var k :| 0 <= k < |writes| && writes[k] == v;
        }
      }
    }
  }

  lemma {:induction false} ReadsConcat(s: State, es: seq<Event>, fs: seq<Event>, id: Id)
    requires Exec(s, es).Some?
    ensures Reads(s, es + fs, id) == Reads(s, es, id) + Reads(Exec(s, es).value, fs, id)
    decreases |es|
  {
    hide Apply, ReadBy;
    if es == [] {
      assert es + fs == fs;
    } else {
      assert (es + fs)[0] == es[0] && (es + fs)[1..] == es[1..] + fs;
      ReadsConcat(Apply(s, es[0]).value, es[1..], fs, id);
    }
  }

  lemma {:induction false} ApartSplits(s: State, es: seq<Event>, fs: seq<Event>, usr: nat)
    requires Exec(s, es).Some? && AllApart(s, es + fs, usr)
    ensures AllApart(s, es, usr) && AllApart(Exec(s, es).value, fs, usr)
    decreases |es|
  {
    hide Apply, Apart;
    if es == [] {
      assert es + fs == fs;
    } else {
      assert (es + fs)[0] == es[0] && (es + fs)[1..] == es[1..] + fs;
      ApartSplits(Apply(s, es[0]).value, es[1..], fs, usr);
    }
  }

  /** Once the key is gone a flusher finds nothing to read. */
  lemma NothingReadAfterDelete(z: State, es: seq<Event>, fs: seq<Event>, usr: nat)
    requires var run := es + ([DeleteKey(usr)] + fs);
             Quiescent(z, usr) && Exec(z, run).Some? && AllApart(z, run, usr)
    ensures Reads(z, es + ([DeleteKey(usr)] + fs), User(usr)) == Reads(z, es, User(usr))
  {
    hide Apply, AllApart, Exec, Quiescent, Accounts, Reads;
    var rest := [DeleteKey(usr)] + fs;
    ExecConcat(z, es, rest);
    ApartSplits(z, es, rest, usr);
    ReadsConcat(z, es, rest, User(usr));
    RunFollows(z, es, usr);
    EndsQuiescent(z, Exec(z, es).value, Writes(z, es, User(usr)), Reads(z, es, User(usr)), usr);
    ReadsAfterDelete(Exec(z, es).value, fs, usr);
  }

  lemma NothingGot(s: State, t: State, writes: seq<int>, gets: seq<int>, usr: nat)
    requires Accounts(s, t, writes, gets, usr) && User(usr) !in s.redis
    ensures gets == []
  {
    NoMembers(gets);
  }

  lemma NoMembers(s: seq<int>)
    requires forall v :: v !in s
    ensures s == []
  {
    if s != [] {
      var v := Head(s);
      assert false;
    }
  }

  lemma Head(s: seq<int>) returns (v: int)
    requires s != []
    ensures v in s
  {
    v := s[0];
  }

  lemma ReadsAfterDelete(m: State, fs: seq<Event>, usr: nat)
    requires Quiescent(m, usr)
    requires Exec(m, [DeleteKey(usr)] + fs).Some? && AllApart(m, [DeleteKey(usr)] + fs, usr)
    ensures Reads(m, [DeleteKey(usr)] + fs, User(usr)) == []
  {
    hide InUse, Writes;
    var d := DeleteStep(m, User(usr));
    var es := [DeleteKey(usr)] + fs;
    assert es[1..] == fs && Apply(m, es[0]) == Some(d);
    RunFollows(d, fs, usr);
    NothingGot(d, Exec(d, fs).value, Writes(d, fs, User(usr)), Reads(d, fs, User(usr)), usr);
    assert Reads(m, es, User(usr)) == ReadBy(m, DeleteKey(usr), User(usr)) + Reads(d, fs, User(usr));
  }

  // ------------------------------------------------------------------ a reset that goes no further

  /** A reset that forgets the mark and then fails to delete the key: the counter has drifted with
      nothing that would flush it exactly when the key is still there, holds another value than what
      was last written to the column (0 if nothing was), and no running pass still has the id - which
      one may, having taken its snapshot before the mark was forgotten. */
  lemma ResetLeaksExactly(s: State, usr: nat, es: seq<Event>)
    requires User(usr) in s.db && !Underway(s, User(usr))
    requires var z := ZeroStep(s, User(usr)); Exec(z, es).Some? && AllApart(z, es, usr)
    ensures var id := User(usr);
            var z := ZeroStep(s, id);
            var m, writes := Exec(z, es).value, Writes(z, es, id);
            var f := ForgetStep(m, id);
            Drifted(f, id) && !Covered(f, id)
            <==> && id in m.redis && id in s.redis
                 && s.redis[id] != (if writes == [] then 0 else writes[|writes| - 1])
                 && !(m.flush.Pass? && id in m.flush.todo)
  {
    hide Exec, AllApart, Writes, Reads, InUse;
    var id := User(usr);
    var z := ZeroStep(s, id);
    ZeroedQuiescent(s, usr);
    RunFollows(z, es, usr);
    var m := Exec(z, es).value;
    assert ForgetStep(m, id).calls == m.calls;
    NobodyConsumes(ForgetStep(m, id), usr);
  }

  lemma NobodyConsumes(s: State, usr: nat)
    requires Quiescent(s, usr)
    ensures !InsideConsume(s, User(usr))
  {
    forall t | t in s.calls ensures !BetweenIncrAndMark(s.calls[t], User(usr)) {
      assert Concerns(s.calls[t], User(usr)) ==> s.calls[t].pos.Serving?;
    }
  }

  /** Drifted, and nothing running or recorded will bring it to the database. */
  ghost predicate Stranded(s: State, usr: nat) {
    Quiescent(s, usr) && Drifted(s, User(usr)) && !Covered(s, User(usr))
  }

  predicate TakesKey(e: Event, usr: nat) {
    e.Wipe? || e == DeleteKey(usr)
  }

  lemma OtherCallStrands(s: State, tid: nat, usr: nat)
    requires Stranded(s, usr) && tid in s.calls && s.calls[tid].usr != usr && CallStep(s, tid, s.calls[tid]).Some?
    ensures Stranded(CallStep(s, tid, s.calls[tid]).value, usr)
  {
    hide InsideConsume;
    NobodyConsumes(CallStep(s, tid, s.calls[tid]).value, usr);
  }

  lemma OtherFailureStrands(s: State, tid: nat, usr: nat)
    requires Stranded(s, usr) && tid in s.calls && s.calls[tid].usr != usr && CallFails(s, tid, s.calls[tid]).Some?
    ensures Stranded(CallFails(s, tid, s.calls[tid]).value, usr)
  {
    hide InsideConsume;
    NobodyConsumes(CallFails(s, tid, s.calls[tid]).value, usr);
  }

  lemma StepStrands(s: State, e: Event, usr: nat)
    requires Stranded(s, usr) && Apply(s, e).Some? && Apart(s, e, usr) && !TakesKey(e, usr)
    ensures Stranded(Apply(s, e).value, usr)
  {
    hide InsideConsume, CallStep, CallFails;
    if e.Op? {
      OtherCallStrands(s, e.tid, usr);
    } else if e.OpFails? {
      OtherFailureStrands(s, e.tid, usr);
    } else {
      StepFollows(s, e, usr);
      NobodyConsumes(Apply(s, e).value, usr);
    }
  }

  /** However long the system goes on without a quota call on this user, no flush will ever write the
      counter, unless its key goes first. */
  lemma {:induction false} LeakLasts(s: State, es: seq<Event>, usr: nat)
    requires Quiescent(s, usr) && Drifted(s, User(usr)) && !Covered(s, User(usr))
    requires Exec(s, es).Some? && AllApart(s, es, usr) && forall e | e in es :: !TakesKey(e, usr)
    ensures var t := Exec(s, es).value; Drifted(t, User(usr)) && !Covered(t, User(usr))
    decreases |es|
  {
    hide Apply, Apart, Quiescent, Covered, Drifted;
    if es != [] {
      assert es[0] in es;
      StepStrands(s, es[0], usr);
      LeakLasts(Apply(s, es[0]).value, es[1..], usr);
    }
  }

  // ------------------------------------------------------------------ it happens

  /** A whole Consume from a cold start: both counters grow and are marked. */
  lemma ColdConsume(s0: State, tok: nat, usr: nat, amount: nat) returns (es: seq<Event>, t: State)
    requires Initial(s0) && s0.redis == map[] && Token(tok) in s0.db && User(usr) in s0.db && amount > 0
    ensures Exec(s0, es) == Some(t) && s0.db[User(usr)] >= 0
    ensures t.calls == map[] && t.flush == Idle && t.dirty == {Token(tok), User(usr)} && t.db == s0.db
    ensures User(usr) in t.redis && t.redis[User(usr)] == s0.db[User(usr)] + amount
  {
    var load := [Op(0), Op(0), Op(0), Op(0)];
    var s1 := s0.(calls := map[0 := Call(tok, usr, amount, Loading(Charging, TokenLevel, ReadRow, 0))]);
    assert Apply(s0, Charge(0, tok, usr, amount)) == Some(s1);
    var s2 := AfterBothLoads(s1, tok, usr, amount);
    LoadedUser(s1, s2, tok, usr, amount);
    t := AfterIncrements(s2, tok, usr, amount);
    var rest := load + load + [Op(0), Op(0), Op(0)];
    ExecConcat(s1, load + load, [Op(0), Op(0), Op(0)]);
    es := [Charge(0, tok, usr, amount)] + rest;
    assert es[1..] == rest;
  }

  /** Both keys are seeded from their columns by the two loads. */
  lemma LoadedUser(s1: State, s2: State, tok: nat, usr: nat, amount: nat)
    requires s1.redis == map[] && Token(tok) in s1.db && User(usr) in s1.db
    requires s1.calls == map[0 := Call(tok, usr, amount, Loading(Charging, TokenLevel, ReadRow, 0))]
    requires var load := [Op(0), Op(0), Op(0), Op(0)]; Exec(s1, load + load) == Some(s2)
    ensures User(usr) in s2.redis && s2.redis[User(usr)] == s1.db[User(usr)]
  {
    hide Apply;
    var load := [Op(0), Op(0), Op(0), Op(0)];
    ColdLoad(s1, 0);
    ColdLoad(Exec(s1, load).value, 0);
    ExecConcat(s1, load, load);
  }

  lemma AfterIncrements(s2: State, tok: nat, usr: nat, amount: nat) returns (t: State)
    requires s2.calls == map[0 := Call(tok, usr, amount, IncrToken)] && s2.flush == Idle && s2.dirty == {}
    requires Token(tok) in s2.redis && User(usr) in s2.redis
    ensures Exec(s2, [Op(0), Op(0), Op(0)]) == Some(t)
    ensures t.calls == map[] && t.flush == Idle && t.dirty == {Token(tok), User(usr)} && t.db == s2.db
    ensures User(usr) in t.redis && t.redis[User(usr)] == s2.redis[User(usr)] + amount
  {
    var c := Call(tok, usr, amount, IncrToken);
    var s3 := IncrStep(s2, 0, c, Token(tok), IncrUser);
    var s4 := IncrStep(s3, 0, c.(pos := IncrUser), User(usr), QuotaSystem.Mark);
    t := MarkStep(s4, 0, c.(pos := QuotaSystem.Mark));
    assert t.calls == map[];
    assert Apply(s2, Op(0)) == Some(s3) && Apply(s3, Op(0)) == Some(s4) && Apply(s4, Op(0)) == Some(t);
    Prepend(s4, Op(0), []);
    Prepend(s3, Op(0), [Op(0)]);
    Prepend(s2, Op(0), [Op(0), Op(0)]);
  }

  lemma Prepend(s: State, e: Event, es: seq<Event>)
    requires Apply(s, e).Some?
    ensures Exec(s, [e] + es) == Exec(Apply(s, e).value, es)
  {
    hide Apply;
    assert ([e] + es)[1..] == es;
  }

  lemma Five(s: State, s1: State, s2: State, s3: State, s4: State, s5: State, es: seq<Event>)
    requires |es| == 5 && Apply(s, es[0]) == Some(s1) && Apply(s1, es[1]) == Some(s2) && Apply(s2, es[2]) == Some(s3)
    requires Apply(s3, es[3]) == Some(s4) && Apply(s4, es[4]) == Some(s5)
    ensures Exec(s, es) == Some(s5)
  {
    hide Apply;
    assert es == [es[0]] + ([es[1]] + ([es[2]] + ([es[3]] + ([es[4]] + []))));
    Prepend(s4, es[4], []);
    Prepend(s3, es[3], [es[4]] + []);
    Prepend(s2, es[2], [es[3]] + ([es[4]] + []));
    Prepend(s1, es[1], [es[2]] + ([es[3]] + ([es[4]] + [])));
    Prepend(s, es[0], [es[1]] + ([es[2]] + ([es[3]] + ([es[4]] + []))));
  }

  /** After any cold Consume, a reset of that user whose DEL fails ends idle with a counter that
      nothing will ever flush. */
  lemma ResetLeakHappens(s0: State, tok: nat, usr: nat, amount: nat)
    requires Initial(s0) && s0.redis == map[] && Token(tok) in s0.db && User(usr) in s0.db && amount > 0
    ensures exists es :: Exec(s0, es).Some? && var s := Exec(s0, es).value;
              s.calls == map[] && s.flush == Idle && Drifted(s, User(usr)) && !Covered(s, User(usr))
  {
    hide Initial;
    var es, t := ColdConsume(s0, tok, usr, amount);
    var z := ZeroStep(t, User(usr));
    var s := ForgetStep(z, User(usr));
    Prepend(z, ForgetMark(usr), []);
    Prepend(t, ZeroColumn(usr), [ForgetMark(usr)]);
    ExecConcat(s0, es, [ZeroColumn(usr), ForgetMark(usr)]);
    assert Exec(s0, es + [ZeroColumn(usr), ForgetMark(usr)]) == Some(s);
  }

  /** The reset is over and the user's usage is back: its key is gone, its column is this value, and
      no mark, pass or call has anything to do with it any more. */
  ghost predicate Undone(s: State, usr: nat, v: int) {
    && s.calls == map[] && User(usr) !in s.redis && User(usr) in s.db && s.db[User(usr)] == v > 0
    && User(usr) !in s.dirty && (s.flush.Pass? ==> User(usr) !in s.flush.todo)
  }

  /** From any cold start a reset can be undone by a pass that held the old counter when the column
      was zeroed and writes it after the DEL. */
  lemma HeldValueUndoes(s0: State, tok: nat, usr: nat, amount: nat)
    requires Initial(s0) && s0.redis == map[] && Token(tok) in s0.db && User(usr) in s0.db && amount > 0
    ensures exists es :: var run := es + [FlushOp, ZeroColumn(usr), ForgetMark(usr), DeleteKey(usr), FlushOp];
              Exec(s0, run).Some? && Undone(Exec(s0, run).value, usr, s0.db[User(usr)] + amount)
  {
    hide Initial, Apply;
    var es, t := ColdConsume(s0, tok, usr, amount);
    var s := InPass(t, tok, usr);
    var es1 := es + [Snapshot([User(usr), Token(tok)])];
    ExecConcat(s0, es, [Snapshot([User(usr), Token(tok)])]);
    ExecConcat(s0, es1, [FlushOp, ZeroColumn(usr), ForgetMark(usr), DeleteKey(usr), FlushOp]);
    WriteAfterReset(s, tok, usr);
  }

  /** And by a pass that held nothing: it reads the old counter after the column was zeroed and writes
      it before the mark is forgotten and the key deleted. */
  lemma ReadBetweenUndoes(s0: State, tok: nat, usr: nat, amount: nat)
    requires Initial(s0) && s0.redis == map[] && Token(tok) in s0.db && User(usr) in s0.db && amount > 0
    ensures exists es :: var run := es + [ZeroColumn(usr), FlushOp, FlushOp, ForgetMark(usr), DeleteKey(usr)];
              && Exec(s0, es).Some? && !Holds(Exec(s0, es).value.flush, User(usr))
              && Exec(s0, run).Some? && Undone(Exec(s0, run).value, usr, s0.db[User(usr)] + amount)
  {
    hide Initial, Apply;
    var es, t := ColdConsume(s0, tok, usr, amount);
    var s := InPass(t, tok, usr);
    var es1 := es + [Snapshot([User(usr), Token(tok)])];
    ExecConcat(s0, es, [Snapshot([User(usr), Token(tok)])]);
    ExecConcat(s0, es1, [ZeroColumn(usr), FlushOp, FlushOp, ForgetMark(usr), DeleteKey(usr)]);
    ReadAndWriteThenDelete(s, tok, usr);
  }

  lemma InPass(t: State, tok: nat, usr: nat) returns (s: State)
    requires t.flush == Idle && t.dirty == {Token(tok), User(usr)}
    ensures Exec(t, [Snapshot([User(usr), Token(tok)])]) == Some(s)
    ensures s == t.(dirty := {}, flush := Pass([User(usr), Token(tok)], None))
  {
    var order := [User(usr), Token(tok)];
    s := t.(dirty := {}, flush := Pass(order, None));
    assert Apply(t, Snapshot(order)) == Some(s);
    Prepend(t, Snapshot(order), []);
  }

  lemma Read(s: State, usr: nat, tok: nat)
    requires s.flush == Pass([User(usr), Token(tok)], None) && User(usr) in s.redis
    ensures Apply(s, FlushOp) == Some(s.(flush := Pass([User(usr), Token(tok)], Some(s.redis[User(usr)]))))
  {
  }

  lemma Write(s: State, usr: nat, tok: nat, v: int)
    requires s.flush == Pass([User(usr), Token(tok)], Some(v)) && User(usr) in s.db
    ensures Apply(s, FlushOp) == Some(s.(db := s.db[User(usr) := v], flush := Pass([Token(tok)], None)))
  {
  }

  lemma WriteAfterReset(s: State, tok: nat, usr: nat)
    requires s.calls == map[] && s.dirty == {} && User(usr) in s.db && User(usr) in s.redis && s.redis[User(usr)] > 0
    requires s.flush == Pass([User(usr), Token(tok)], None)
    ensures var t := Exec(s, [FlushOp, ZeroColumn(usr), ForgetMark(usr), DeleteKey(usr), FlushOp]);
            t.Some? && Undone(t.value, usr, s.redis[User(usr)])
  {
    hide Exec, InUse, Underway, FlushStep;
    var id, es := User(usr), [FlushOp, ZeroColumn(usr), ForgetMark(usr), DeleteKey(usr), FlushOp];
    Read(s, usr, tok);
    var r := Apply(s, FlushOp).value;
    var z := ZeroStep(r, id);
    var f := ForgetStep(z, id);
    var d := DeleteStep(f, id);
    Write(d, usr, tok, s.redis[id]);
    var t := Apply(d, FlushOp).value;
    assert Undone(t, usr, s.redis[id]);
    Five(s, r, z, f, d, t, es);
  }

  lemma ReadAndWriteThenDelete(s: State, tok: nat, usr: nat)
    requires s.calls == map[] && s.dirty == {} && User(usr) in s.db && User(usr) in s.redis && s.redis[User(usr)] > 0
    requires s.flush == Pass([User(usr), Token(tok)], None)
    ensures var t := Exec(s, [ZeroColumn(usr), FlushOp, FlushOp, ForgetMark(usr), DeleteKey(usr)]);
            t.Some? && Undone(t.value, usr, s.redis[User(usr)])
  {
    hide Exec, InUse, Underway, FlushStep;
    var id, es := User(usr), [ZeroColumn(usr), FlushOp, FlushOp, ForgetMark(usr), DeleteKey(usr)];
    var z := ZeroStep(s, id);
    Read(z, usr, tok);
    var r := Apply(z, FlushOp).value;
    Write(r, usr, tok, s.redis[id]);
    var w := Apply(r, FlushOp).value;
    var f := ForgetStep(w, id);
    var d := DeleteStep(f, id);
    assert Undone(d, usr, s.redis[id]);
    Five(s, z, r, w, f, d, es);
  }

  /** And, in Redis, by a load that read the row before the column was zeroed and finds no key: it seeds
      the counter with the old usage after the DEL, so the next check sees it again. */
  lemma LoadUndoes(s0: State, tok: nat, usr: nat)
    requires Initial(s0) && s0.redis == map[] && Token(tok) in s0.db && User(usr) in s0.db
    ensures exists es :: var run := es + [ZeroColumn(usr), ForgetMark(usr), DeleteKey(usr)] + [Op(0), Op(0)];
              && Exec(s0, run).Some? && var t := Exec(s0, run).value;
                 User(usr) in t.db && t.db[User(usr)] == 0 && Live(t, User(usr)) == s0.db[User(usr)]
  {
    hide Apply, InUse;
    var s, left := RowRead(s0, tok, usr);
    var es := [Arrive(0, tok, usr)] + [Op(0), Op(0), Op(0), Op(0)] + [Op(0)];
    ExecConcat(s0, es, [ZeroColumn(usr), ForgetMark(usr), DeleteKey(usr)]);
    ExecConcat(s0, es + [ZeroColumn(usr), ForgetMark(usr), DeleteKey(usr)], [Op(0), Op(0)]);
    ResetAlone(s, usr);
    SeededAfter(Exec(s, [ZeroColumn(usr), ForgetMark(usr), DeleteKey(usr)]).value, tok, usr, left, s0.db[User(usr)]);
  }

  /** The user's row has been read, the token loaded. */
  lemma RowRead(s0: State, tok: nat, usr: nat) returns (s: State, left: int)
    requires Initial(s0) && s0.redis == map[] && Token(tok) in s0.db && User(usr) in s0.db
    ensures Exec(s0, [Arrive(0, tok, usr)] + [Op(0), Op(0), Op(0), Op(0)] + [Op(0)]) == Some(s)
    ensures var d := s0.db[User(usr)];
            && s.db == s0.db && User(usr) !in s.redis
            && s.calls == map[0 := Call(tok, usr, 0, Loading(Admission, UserLevel, GetKey(d), left))]
  {
    hide Apply;
    var load := [Op(0), Op(0), Op(0), Op(0)];
    var c := Call(tok, usr, 0, Loading(Admission, TokenLevel, ReadRow, 0));
    var s1 := s0.(calls := map[0 := c]);
    Arrival(s0, tok, usr);
    ColdLoad(s1, 0);
    left := Remaining(Lookup(s0.quota, Token(tok), 0), s0.db[Token(tok)]);
    var c2 := c.(pos := Loading(Admission, UserLevel, ReadRow, left));
    var s2 := s1.(redis := s1.redis[Token(tok) := s0.db[Token(tok)]], calls := Put(s1.calls, 0, Some(c2)));
    assert Exec(s1, load) == Some(s2);
    var c3 := AtPc(c2, GetKey(s0.db[User(usr)])).value;
    OneCallStep(s2, 0, Some(c3));
    s := Apply(s2, Op(0)).value;
    assert Exec(s2, [Op(0)]) == Some(s) by { Prepend(s2, Op(0), []); }
    Prepend(s0, Arrive(0, tok, usr), load);
    ExecConcat(s0, [Arrive(0, tok, usr)] + load, [Op(0)]);
  }

  lemma Arrival(s0: State, tok: nat, usr: nat)
    requires s0.calls == map[]
    ensures Apply(s0, Arrive(0, tok, usr))
            == Some(s0.(calls := map[0 := Call(tok, usr, 0, Loading(Admission, TokenLevel, ReadRow, 0))]))
  {
  }

  /** A reset with nothing in between. */
  lemma ResetAlone(s: State, usr: nat)
    ensures var t := Exec(s, [ZeroColumn(usr), ForgetMark(usr), DeleteKey(usr)]);
            && t.Some? && t.value.db == Zeroed(s.db, User(usr)) && t.value.redis == s.redis - {User(usr)}
            && t.value.calls == s.calls
  {
    hide ZeroStep, ForgetStep, DeleteStep, Exec, Zeroed, Apply;
    var z := ZeroStep(s, User(usr));
    var f := ForgetStep(z, User(usr));
    var g := DeleteStep(f, User(usr));
    ResetEffect(s, User(usr));
    ResetSteps(s, usr);
    ResetSteps(z, usr);
    ResetSteps(f, usr);
    Three(s, z, f, g, [ZeroColumn(usr), ForgetMark(usr), DeleteKey(usr)]);
  }

  lemma ResetSteps(s: State, usr: nat)
    ensures Apply(s, ZeroColumn(usr)) == Some(ZeroStep(s, User(usr)))
    ensures Apply(s, ForgetMark(usr)) == Some(ForgetStep(s, User(usr)))
    ensures Apply(s, DeleteKey(usr)) == Some(DeleteStep(s, User(usr)))
  {
  }

  lemma ResetEffect(s: State, id: Id)
    ensures var g := DeleteStep(ForgetStep(ZeroStep(s, id), id), id);
            g.db == Zeroed(s.db, id) && g.redis == s.redis - {id} && g.calls == s.calls
  {
  }

  lemma Three(s: State, s1: State, s2: State, s3: State, es: seq<Event>)
    requires |es| == 3 && Apply(s, es[0]) == Some(s1) && Apply(s1, es[1]) == Some(s2) && Apply(s2, es[2]) == Some(s3)
    ensures Exec(s, es) == Some(s3)
  {
    hide Apply;
    assert es == [es[0]] + ([es[1]] + ([es[2]] + []));
    Prepend(s2, es[2], []);
    Prepend(s1, es[1], [es[2]] + []);
    Prepend(s, es[0], [es[1]] + ([es[2]] + []));
  }

  lemma SeededAfter(s: State, tok: nat, usr: nat, left: int, d: int)
    requires User(usr) !in s.redis
    requires s.calls == map[0 := Call(tok, usr, 0, Loading(Admission, UserLevel, GetKey(d), left))]
    ensures var t := Exec(s, [Op(0), Op(0)]);
            t.Some? && t.value.db == s.db && Live(t.value, User(usr)) == d
  {
    hide Exec;
    var c1 := AtPc(s.calls[0], SetNx(d)).value;
    OneCallStep(s, 0, Some(c1));
    var h := Apply(s, Op(0)).value;
    OneCallStep(h, 0, AtPc(c1, ReGet));
    var t := Apply(h, Op(0)).value;
    Two(s, h, t, Op(0), Op(0));
  }

  lemma Two(s: State, s1: State, s2: State, e: Event, f: Event)
    requires Apply(s, e) == Some(s1) && Apply(s1, f) == Some(s2)
    ensures Exec(s, [e, f]) == Some(s2)
  {
    hide Apply;
    assert [e, f] == [e] + ([f] + []);
    Prepend(s1, f, []);
    Prepend(s, e, [f] + []);
  }
}
