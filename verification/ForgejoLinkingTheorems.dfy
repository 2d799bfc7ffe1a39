/** Safety of account linking over every interleaving with configuration saves. */
module ForgejoLinkingTheorems {
  import opened Prelude
  import opened ForgejoConfig
  import opened ForgejoLinking

  // ---------------------------------------------------------------- the invariant

  /** The revision was in force when n saves had been made. */
  ghost predicate InForce(t: Trail, r: Revision, n: nat) {
    match r
    case Stored(id) => id in t.savedAs && t.savedAs[id] == n
    case FromEnvironment => n == 0
  }

  /** The record in force is the latest save's; without one nothing was ever saved. */
  ghost predicate RecordOk(s: Sys) {
    (s.record.Some? ==> InForce(s.trail, Stored(s.record.value.revision), s.trail.saves)) &&
    (s.record.None? ==> s.trail.saves == 0)
  }

  ghost predicate Past(t: Task) {
    t.Exchanging? || t.Exchanged? || t.Storing?
  }

  /** The flow can never be consumed again. */
  ghost predicate Spent(s: Sys, f: Id) {
    f in s.trail.begun && (f in s.flows ==> s.flows[f].consumedAt.Some?)
  }

  ghost predicate TaskOk(s: Sys, j: Id)
    requires j in s.tasks
  {
    var t := s.tasks[j];
    (!Past(t) ==> InForce(s.trail, t.config.revision, ReadAt(s.trail, j))) &&
    (Past(t) ==> Spent(s, t.flow) && s.trail.begun[t.flow].revision == t.config.revision &&
                 InForce(s.trail, t.config.revision, s.trail.begun[t.flow].saves)) &&
    (t.Storing? ==>
       j in s.trail.checkedAt && s.trail.checkedAt[j] == s.trail.begun[t.flow].saves &&
       (t.config.revision.Stored? ==> s.record.Some? && s.record.value.revision == t.config.revision.id))
  }

  ghost predicate FlowOk(s: Sys, f: Id)
    requires f in s.flows
  {
    f in s.trail.begun && s.trail.begun[f].revision == s.flows[f].revision &&
    (s.flows[f].verifier <==> s.flows[f].consumedAt.None?)
  }

  ghost predicate BegunOk(s: Sys, f: Id)
    requires f in s.trail.begun
  {
    InForce(s.trail, s.trail.begun[f].revision, s.trail.begun[f].saves)
  }

  /** Two tasks never hold the same flow. */
  ghost predicate Alone(s: Sys, i: Id, j: Id)
    requires i in s.tasks && j in s.tasks
  {
    i != j && Past(s.tasks[i]) && Past(s.tasks[j]) ==> s.tasks[i].flow != s.tasks[j].flow
  }

  ghost predicate ExchangeOk(s: Sys, f: Id)
    requires f in s.trail.exchanges
  {
    s.trail.exchanges[f] == 1 && Spent(s, f) &&
    forall j | j in s.tasks && s.tasks[j].Exchanging? :: s.tasks[j].flow != f
  }

  ghost predicate LinkedOk(s: Sys, f: Id)
    requires f in s.trail.linked
  {
    f in s.trail.begun && f in s.trail.exchanges &&
    s.trail.linked[f].checkedAt == s.trail.begun[f].saves &&
    (s.trail.begun[f].revision.Stored? ==> s.trail.linked[f].committedAt == s.trail.begun[f].saves)
  }

  ghost predicate Inv(s: Sys) {
    RecordOk(s) &&
    (forall j {:trigger TaskOk(s, j)} | j in s.tasks :: TaskOk(s, j)) &&
    (forall f {:trigger FlowOk(s, f)} | f in s.flows :: FlowOk(s, f)) &&
    (forall f {:trigger BegunOk(s, f)} | f in s.trail.begun :: BegunOk(s, f)) &&
    (forall i, j {:trigger Alone(s, i, j)} | i in s.tasks && j in s.tasks :: Alone(s, i, j)) &&
    (forall f {:trigger ExchangeOk(s, f)} | f in s.trail.exchanges :: ExchangeOk(s, f)) &&
    (forall j {:trigger SentOk(s, j)} | j in s.tasks :: SentOk(s, j)) &&
    (forall f {:trigger LinkedOk(s, f)} | f in s.trail.linked :: LinkedOk(s, f))
  }

  /** A task past its exchange has made it. */
  ghost predicate SentOk(s: Sys, j: Id)
    requires j in s.tasks
  {
    s.tasks[j].Exchanged? || s.tasks[j].Storing? ==> s.tasks[j].flow in s.trail.exchanges
  }

  // ---------------------------------------------------------------- each step keeps it

  lemma InitialKeeps(record: Option<Record>, instance: Option<Instance>)
    ensures Inv(Initial(record, instance))
  {
  }

  /** A resolved configuration carries the revision in force. */
  lemma ResolvedInForce(s: Sys, env: Environment)
    requires RecordOk(s) && Resolve(s.record, env).Ok? && Resolve(s.record, env).value.Some?
    ensures InForce(s.trail, Resolve(s.record, env).value.value.revision, s.trail.saves)
  {
  }

  lemma SameRest(s: Sys, s': Sys, j: Id)
    requires Inv(s) && j in s'.tasks && j in s.tasks && s'.tasks[j] == s.tasks[j]
    requires s'.trail == s.trail && s'.record == s.record
    requires forall f | Spent(s, f) :: Spent(s', f)
    ensures TaskOk(s', j) && SentOk(s', j)
  {
    assert TaskOk(s, j) && SentOk(s, j);
  }

  /** Ending a task keeps everything that is said of the others. */
  lemma StopKeeps(s: Sys, j: Id)
    requires Inv(s) && j in s.tasks
    ensures Inv(s.(tasks := Without(s.tasks, j)))
  {
    var s' := s.(tasks := Without(s.tasks, j));
    forall i | i in s'.tasks ensures TaskOk(s', i) && SentOk(s', i) { SameRest(s, s', i); }
    forall f | f in s'.flows ensures FlowOk(s', f) { assert FlowOk(s, f); }
    forall f | f in s'.trail.begun ensures BegunOk(s', f) { assert BegunOk(s, f); }
    forall i, k | i in s'.tasks && k in s'.tasks ensures Alone(s', i, k) { assert Alone(s, i, k); }
    forall f | f in s'.trail.exchanges ensures ExchangeOk(s', f) { assert ExchangeOk(s, f); }
    forall f | f in s'.trail.linked ensures LinkedOk(s', f) { assert LinkedOk(s, f); }
  }

  lemma ReadKeeps(s: Sys, env: Environment, j: Id, session: Id, complete: bool)
    requires Inv(s) && j !in s.tasks
    ensures Inv(ReadStep(s, env, j, session, complete))
  {
    var s' := ReadStep(s, env, j, session, complete);
    if s' != s {
      ResolvedInForce(s, env);
      forall i | i in s'.tasks ensures TaskOk(s', i) && SentOk(s', i) {
        if i != j { assert TaskOk(s, i) && SentOk(s, i); }
      }
      forall f | f in s'.flows ensures FlowOk(s', f) { assert FlowOk(s, f); }
      forall f | f in s'.trail.begun ensures BegunOk(s', f) { assert BegunOk(s, f); }
      forall i, k | i in s'.tasks && k in s'.tasks ensures Alone(s', i, k) {
        if i != j && k != j { assert Alone(s, i, k); }
      }
      forall f | f in s'.trail.exchanges ensures ExchangeOk(s', f) { assert ExchangeOk(s, f); }
      forall f | f in s'.trail.linked ensures LinkedOk(s', f) { assert LinkedOk(s, f); }
    }
  }

  lemma InsertKeeps(s: Sys, j: Id, state: Id, now: Time)
    requires Inv(s) && j in s.tasks && s.tasks[j].Starting? && state !in s.trail.begun
    ensures Inv(InsertStep(s, j, state, now))
  {
    var s' := InsertStep(s, j, state, now);
    assert TaskOk(s, j);
    forall i | i in s'.tasks ensures TaskOk(s', i) && SentOk(s', i) { assert TaskOk(s, i) && SentOk(s, i); }
    forall f | f in s'.flows ensures FlowOk(s', f) {
      if f != state { assert FlowOk(s, f); }
    }
    forall f | f in s'.trail.begun ensures BegunOk(s', f) {
      if f != state { assert BegunOk(s, f); }
    }
    forall i, k | i in s'.tasks && k in s'.tasks ensures Alone(s', i, k) { assert Alone(s, i, k); }
    forall f | f in s'.trail.exchanges ensures ExchangeOk(s', f) { assert ExchangeOk(s, f); }
    forall f | f in s'.trail.linked ensures LinkedOk(s', f) { assert LinkedOk(s, f); }
  }

  lemma ConsumeKeeps(s: Sys, j: Id, state: Id, now: Time)
    requires Inv(s) && j in s.tasks && s.tasks[j].Completing?
    requires state in s.flows && Bound(s.flows[state], s.tasks[j].session, s.tasks[j].config, s.tasks[j].instance, now)
    ensures Inv(ConsumeStep(s, j, state, now))
  {
    var s' := ConsumeStep(s, j, state, now);
    assert FlowOk(s, state) && BegunOk(s, state);
    forall i | i in s'.tasks ensures TaskOk(s', i) && SentOk(s', i) {
      assert TaskOk(s, i) && SentOk(s, i);
    }
    forall f | f in s'.flows ensures FlowOk(s', f) { assert FlowOk(s, f); }
    forall f | f in s'.trail.begun ensures BegunOk(s', f) { assert BegunOk(s, f); }
    forall i, k | i in s'.tasks && k in s'.tasks ensures Alone(s', i, k) {
      assert Alone(s, i, k) && TaskOk(s, i) && TaskOk(s, k);
    }
    forall f | f in s'.trail.exchanges ensures ExchangeOk(s', f) { assert ExchangeOk(s, f); }
    forall f | f in s'.trail.linked ensures LinkedOk(s', f) { assert LinkedOk(s, f); }
  }

  lemma ExchangeKeeps(s: Sys, j: Id)
    requires Inv(s) && j in s.tasks && s.tasks[j].Exchanging?
    ensures Inv(ExchangeStep(s, j))
  {
    var s' := ExchangeStep(s, j);
    var flow := s.tasks[j].flow;
    assert TaskOk(s, j);
    forall f | f in s.trail.exchanges ensures f != flow { assert ExchangeOk(s, f); }
    forall i | i in s'.tasks ensures TaskOk(s', i) && SentOk(s', i) { assert TaskOk(s, i) && SentOk(s, i); }
    forall f | f in s'.flows ensures FlowOk(s', f) { assert FlowOk(s, f); }
    forall f | f in s'.trail.begun ensures BegunOk(s', f) { assert BegunOk(s, f); }
    forall i, k | i in s'.tasks && k in s'.tasks ensures Alone(s', i, k) { assert Alone(s, i, k); }
    forall f | f in s'.trail.exchanges ensures ExchangeOk(s', f) {
      if f == flow {
        forall i | i in s'.tasks && s'.tasks[i].Exchanging? ensures s'.tasks[i].flow != f { assert Alone(s, i, j); }
      } else {
        assert ExchangeOk(s, f);
      }
    }
    forall f | f in s'.trail.linked ensures LinkedOk(s', f) { assert LinkedOk(s, f); }
  }

  /** The revision in force at the check is the one read at the start, so no save came between. */
  lemma CheckKeeps(s: Sys, env: Environment, j: Id)
    requires Inv(s) && j in s.tasks && s.tasks[j].Exchanged? && Unchanged(s, env, s.tasks[j])
    ensures Inv(CheckStep(s, env, j))
  {
    var s' := CheckStep(s, env, j);
    assert TaskOk(s, j);
    ResolvedInForce(s, env);
    forall i | i in s'.tasks ensures TaskOk(s', i) && SentOk(s', i) { assert TaskOk(s, i) && SentOk(s, i); }
    forall f | f in s'.flows ensures FlowOk(s', f) { assert FlowOk(s, f); }
    forall f | f in s'.trail.begun ensures BegunOk(s', f) { assert BegunOk(s, f); }
    forall i, k | i in s'.tasks && k in s'.tasks ensures Alone(s', i, k) { assert Alone(s, i, k); }
    forall f | f in s'.trail.exchanges ensures ExchangeOk(s', f) { assert ExchangeOk(s, f); }
    forall f | f in s'.trail.linked ensures LinkedOk(s', f) { assert LinkedOk(s, f); }
  }

  lemma StoreKeeps(s: Sys, j: Id)
    requires Inv(s) && j in s.tasks && s.tasks[j].Storing?
    ensures Inv(StoreStep(s, j))
  {
    StopKeeps(s, j);
    var r := s.(tasks := Without(s.tasks, j));
    var s' := StoreStep(s, j);
    assert TaskOk(s, j) && SentOk(s, j);
    forall i | i in s'.tasks ensures TaskOk(s', i) && SentOk(s', i) { assert TaskOk(r, i) && SentOk(r, i); }
    forall f | f in s'.flows ensures FlowOk(s', f) { assert FlowOk(r, f); }
    forall f | f in s'.trail.begun ensures BegunOk(s', f) { assert BegunOk(r, f); }
    forall i, k | i in s'.tasks && k in s'.tasks ensures Alone(s', i, k) { assert Alone(r, i, k); }
    forall f | f in s'.trail.exchanges ensures ExchangeOk(s', f) { assert ExchangeOk(r, f); }
    forall f | f in s'.trail.linked ensures LinkedOk(s', f) {
      if f != s.tasks[j].flow { assert LinkedOk(s, f); }
    }
  }

  lemma SaveKeeps(s: Sys, r: Record)
    requires Inv(s) && r.revision !in s.trail.savedAs && RecordFree(s)
    ensures Inv(SaveStep(s, r))
  {
    var s' := SaveStep(s, r);
    forall i | i in s'.tasks ensures TaskOk(s', i) && SentOk(s', i) { assert TaskOk(s, i) && SentOk(s, i); }
    forall f | f in s'.flows ensures FlowOk(s', f) { assert FlowOk(s, f); }
    forall f | f in s'.trail.begun ensures BegunOk(s', f) { assert BegunOk(s, f); }
    forall i, k | i in s'.tasks && k in s'.tasks ensures Alone(s', i, k) { assert Alone(s, i, k); }
    forall f | f in s'.trail.exchanges ensures ExchangeOk(s', f) { assert ExchangeOk(s, f); }
    forall f | f in s'.trail.linked ensures LinkedOk(s', f) { assert LinkedOk(s, f); }
  }

  lemma InstanceKeeps(s: Sys, i: Option<Instance>)
    requires Inv(s)
    ensures Inv(s.(instance := i))
  {
    var s' := s.(instance := i);
    forall j | j in s'.tasks ensures TaskOk(s', j) && SentOk(s', j) { SameRest(s, s', j); }
    forall f | f in s'.flows ensures FlowOk(s', f) { assert FlowOk(s, f); }
    forall f | f in s'.trail.begun ensures BegunOk(s', f) { assert BegunOk(s, f); }
    forall j, k | j in s'.tasks && k in s'.tasks ensures Alone(s', j, k) { assert Alone(s, j, k); }
    forall f | f in s'.trail.exchanges ensures ExchangeOk(s', f) { assert ExchangeOk(s, f); }
    forall f | f in s'.trail.linked ensures LinkedOk(s', f) { assert LinkedOk(s, f); }
  }

  lemma StepKeeps(s: Sys, env: Environment, e: Event)
    requires Inv(s) && Enabled(s, e)
    ensures Inv(Next(s, env, e))
  {
    match e
    case ReadToStart(j, session) => ReadKeeps(s, env, j, session, false);
    case InsertFlow(j, state, now) => InsertKeeps(s, j, state, now);
    case ReadToComplete(j, session) => ReadKeeps(s, env, j, session, true);
    case Consume(j, state, now) =>
      var t := s.tasks[j];
      if state in s.flows && Bound(s.flows[state], t.session, t.config, t.instance, now) {
        ConsumeKeeps(s, j, state, now);
      } else {
        StopKeeps(s, j);
      }
    case Exchange(j) => ExchangeKeeps(s, j);
    case CheckToStore(j) =>
      if Unchanged(s, env, s.tasks[j]) { CheckKeeps(s, env, j); } else { StopKeeps(s, j); }
    case Store(j) => StoreKeeps(s, j);
    case Stop(j) => StopKeeps(s, j);
    case SaveConfig(r) => SaveKeeps(s, r);
    case ChangeInstance(i) => InstanceKeeps(s, i);
  }

  // ---------------------------------------------------------------- every run

  ghost predicate Run(s: Sys, env: Environment, events: seq<Event>)
    decreases events
  {
    events == [] || (Enabled(s, events[0]) && Run(Next(s, env, events[0]), env, events[1..]))
  }

  ghost function After(s: Sys, env: Environment, events: seq<Event>): Sys
    requires Run(s, env, events)
    decreases events
  {
    if events == [] then s else After(Next(s, env, events[0]), env, events[1..])
  }

  lemma {:induction false} RunKeeps(s: Sys, env: Environment, events: seq<Event>)
    requires Inv(s) && Run(s, env, events)
    ensures Inv(After(s, env, events))
    decreases events
  {
    if events != [] {
      StepKeeps(s, env, events[0]);
      RunKeeps(Next(s, env, events[0]), env, events[1..]);
    }
  }

  /** However often a callback arrives, the code of a flow is sent to the provider at most once, and
      its verifier is erased by then. */
  lemma OneExchangePerFlow(record: Option<Record>, instance: Option<Instance>, env: Environment,
                           events: seq<Event>, flow: Id)
    requires Run(Initial(record, instance), env, events)
    ensures var s := After(Initial(record, instance), env, events);
            Count(s.trail.exchanges, flow) <= 1 &&
            (flow in s.trail.exchanges && flow in s.flows ==> !s.flows[flow].verifier)
  {
    InitialKeeps(record, instance);
    RunKeeps(Initial(record, instance), env, events);
    var s := After(Initial(record, instance), env, events);
    if flow in s.trail.exchanges {
      assert ExchangeOk(s, flow);
      if flow in s.flows { assert FlowOk(s, flow); }
    }
  }

  /** A credential is stored only after one exchange, and no configuration save came between the read
      that started its flow and the check under lock; if the settings came from the administrator's
      record, none came before the commit either. */
  lemma NoSaveBeforeLinking(record: Option<Record>, instance: Option<Instance>, env: Environment,
                            events: seq<Event>, flow: Id)
    requires Run(Initial(record, instance), env, events)
    requires flow in After(Initial(record, instance), env, events).trail.linked
    ensures var t := After(Initial(record, instance), env, events).trail;
            flow in t.begun && Count(t.exchanges, flow) == 1 &&
            t.linked[flow].checkedAt == t.begun[flow].saves &&
            (t.begun[flow].revision.Stored? ==> t.linked[flow].committedAt == t.begun[flow].saves)
  {
    InitialKeeps(record, instance);
    RunKeeps(Initial(record, instance), env, events);
    var s := After(Initial(record, instance), env, events);
    assert LinkedOk(s, flow) && ExchangeOk(s, flow);
  }

  // ---------------------------------------------------------------- settings from the environment

  lemma RunCons(s: Sys, env: Environment, e: Event, rest: seq<Event>)
    requires Enabled(s, e) && Run(Next(s, env, e), env, rest)
    ensures Run(s, env, [e] + rest) && After(s, env, [e] + rest) == After(Next(s, env, e), env, rest)
  {
    assert ([e] + rest)[1..] == rest;
  }

  /** The second half of the race: exchange, check, save, store. */
  lemma SaveAfterCheck(s: Sys, env: Environment, c: ClientConfig, instance: Instance, r: Record)
    returns (events: seq<Event>)
    requires s.record.None? && s.instance == Some(instance) && Resolve(None, env) == Ok(Some(c))
    requires s.tasks == map[1 := Exchanging(7, 5, c, instance)] && s.trail.saves == 0 && s.trail.savedAs == map[]
    requires 5 in s.trail.begun && s.trail.begun[5].revision == FromEnvironment && s.trail.begun[5].saves == 0
    ensures Run(s, env, events)
    ensures var t := After(s, env, events).trail;
            5 in t.linked && t.begun == s.trail.begun && t.linked[5].checkedAt == 0 && t.linked[5].committedAt == 1
  {
    var s1 := Next(s, env, Exchange(1));
    var s2 := Next(s1, env, CheckToStore(1));
    assert s2.tasks.Keys == {1} && s2.tasks[1] == Storing(7, 5, c, instance);
    assert c.revision == FromEnvironment;
    var s3 := Next(s2, env, SaveConfig(r));
    var s4 := Next(s3, env, Store(1));
    RunCons(s3, env, Store(1), []);
    RunCons(s2, env, SaveConfig(r), [Store(1)] + []);
    var tail := [SaveConfig(r)] + ([Store(1)] + []);
    RunCons(s1, env, CheckToStore(1), tail);
    RunCons(s, env, Exchange(1), [CheckToStore(1)] + tail);
    events := [Exchange(1)] + ([CheckToStore(1)] + tail);
  }

  /** The first half: a flow is started and consumed. */
  lemma FlowConsumed(env: Environment, c: ClientConfig, instance: Instance) returns (s3: Sys)
    requires Readable(None, env, Some(instance)) == Some(c)
    ensures var s0 := Initial(None, Some(instance));
            Enabled(s0, ReadToStart(0, 7)) &&
            var s1 := Next(s0, env, ReadToStart(0, 7));
            Enabled(s1, InsertFlow(0, 5, 0)) &&
            var s2 := Next(s1, env, InsertFlow(0, 5, 0));
            Enabled(s2, ReadToComplete(1, 7)) && s3 == Next(s2, env, ReadToComplete(1, 7)) &&
            Enabled(s3, Consume(1, 5, 1))
    ensures s3.record.None? && s3.instance == Some(instance)
    ensures s3.tasks == map[1 := Completing(7, c, instance)] && s3.trail.saves == 0 && s3.trail.savedAs == map[]
    ensures 5 in s3.flows && s3.flows[5] == NewFlow(Starting(7, c, instance), 0)
    ensures 5 in s3.trail.begun && s3.trail.begun[5].revision == FromEnvironment && s3.trail.begun[5].saves == 0
  {
    var s0 := Initial(None, Some(instance));
    var s1 := Next(s0, env, ReadToStart(0, 7));
    assert s1.tasks == map[0 := Starting(7, c, instance)];
    var s2 := Next(s1, env, InsertFlow(0, 5, 0));
    assert s2.tasks == map[];
    s3 := Next(s2, env, ReadToComplete(1, 7));
  }

  /** Without a record there is nothing to lock: the administrator's first save can commit between the
      check and the storing commit, so there the guarantee holds only up to the check. */
  lemma EnvironmentSaveCanInterleave(env: Environment, instance: Instance, r: Record) returns (events: seq<Event>)
    requires Readable(None, env, Some(instance)).Some?
    ensures Run(Initial(None, Some(instance)), env, events)
    ensures var t := After(Initial(None, Some(instance)), env, events).trail;
            exists flow :: flow in t.linked && flow in t.begun && t.begun[flow].revision == FromEnvironment &&
                           t.linked[flow].checkedAt == t.begun[flow].saves < t.linked[flow].committedAt
  {
    var c := Readable(None, env, Some(instance)).value;
    var s3 := FlowConsumed(env, c, instance);
    var s4 := Next(s3, env, Consume(1, 5, 1));
    assert s4.tasks == map[1 := Exchanging(7, 5, c, instance)];
    var tail := SaveAfterCheck(s4, env, c, instance, r);
    var s0 := Initial(None, Some(instance));
    var s1 := Next(s0, env, ReadToStart(0, 7));
    var s2 := Next(s1, env, InsertFlow(0, 5, 0));
    RunCons(s3, env, Consume(1, 5, 1), tail);
    tail := [Consume(1, 5, 1)] + tail;
    RunCons(s2, env, ReadToComplete(1, 7), tail);
    tail := [ReadToComplete(1, 7)] + tail;
    RunCons(s1, env, InsertFlow(0, 5, 0), tail);
    tail := [InsertFlow(0, 5, 0)] + tail;
    RunCons(s0, env, ReadToStart(0, 7), tail);
    events := [ReadToStart(0, 7)] + tail;
  }
}
