/** A flow stays with the session, server and client that started it: over every run, whoever consumes
    it, sends its code or stores its credential is the one that started it. */
module ForgejoBinding {
  import opened Prelude
  import opened ForgejoConfig
  import opened ForgejoLinking
  import opened ForgejoLinkingTheorems

  /** How long a started flow can be consumed. */
  const LIFETIME: Time := 10 * 60 * SECOND

  // ---------------------------------------------------------------- the invariant

  /** A stored flow is what was started, and says whether it was consumed. */
  ghost predicate FlowBound(s: Sys, f: Id)
    requires f in s.flows
  {
    var w := s.flows[f];
    f in s.trail.begun &&
    s.trail.begun[f].party == Party(w.session, w.instance, w.baseUrl, w.clientId, w.redirectUrl) &&
    s.trail.begun[f].revision == w.revision && w.expiresAt == s.trail.begun[f].at + LIFETIME &&
    (w.consumedAt.Some? <==> f in s.trail.consumed)
  }

  /** It was consumed by its starter and in time. */
  ghost predicate ConsumedBound(s: Sys, f: Id)
    requires f in s.trail.consumed
  {
    f in s.trail.begun && s.trail.consumed[f].party == s.trail.begun[f].party &&
    s.trail.consumed[f].at < s.trail.begun[f].at + LIFETIME
  }

  ghost predicate TaskBound(s: Sys, j: Id)
    requires j in s.tasks
  {
    Past(s.tasks[j]) ==>
      s.tasks[j].flow in s.trail.consumed && s.trail.consumed[s.tasks[j].flow].party == PartyOf(s.tasks[j])
  }

  /** A task that sent a code has it on record. */
  ghost predicate TaskSent(s: Sys, j: Id)
    requires j in s.tasks
  {
    s.tasks[j].Exchanged? || s.tasks[j].Storing? ==> s.tasks[j].flow in s.trail.sent
  }

  ghost predicate SentBound(s: Sys, f: Id)
    requires f in s.trail.sent
  {
    f in s.trail.consumed && s.trail.sent[f] == s.trail.consumed[f].party
  }

  ghost predicate LinkedBound(s: Sys, f: Id)
    requires f in s.trail.linked
  {
    f in s.trail.sent && s.trail.linked[f].party == s.trail.sent[f]
  }

  ghost predicate Bindings(s: Sys) {
    (forall f {:trigger FlowBound(s, f)} | f in s.flows :: FlowBound(s, f)) &&
    (forall f {:trigger ConsumedBound(s, f)} | f in s.trail.consumed :: ConsumedBound(s, f)) &&
    (forall j {:trigger TaskBound(s, j)} | j in s.tasks :: TaskBound(s, j)) &&
    (forall j {:trigger TaskSent(s, j)} | j in s.tasks :: TaskSent(s, j)) &&
    (forall f {:trigger SentBound(s, f)} | f in s.trail.sent :: SentBound(s, f)) &&
    (forall f {:trigger LinkedBound(s, f)} | f in s.trail.linked :: LinkedBound(s, f)) &&
    s.trail.exchanges.Keys == s.trail.sent.Keys
  }

  // ---------------------------------------------------------------- each step keeps it

  lemma InitialBindings(record: Option<Record>, instance: Option<Instance>)
    ensures Bindings(Initial(record, instance))
  {
  }

  /** The flows and what is recorded of them are the same, and no task is new to a flow. */
  lemma BindingsFrame(s: Sys, s': Sys)
    requires Bindings(s) && s'.flows == s.flows
    requires s'.trail == s.trail.(saves := s'.trail.saves, savedAs := s'.trail.savedAs, readAt := s'.trail.readAt,
                                  checkedAt := s'.trail.checkedAt)
    requires forall j | j in s'.tasks && Past(s'.tasks[j]) ::
               j in s.tasks && Past(s.tasks[j]) && s.tasks[j].flow == s'.tasks[j].flow &&
               PartyOf(s.tasks[j]) == PartyOf(s'.tasks[j]) && (s'.tasks[j].Exchanging? || !s.tasks[j].Exchanging?)
    ensures Bindings(s')
  {
    forall f | f in s'.flows ensures FlowBound(s', f) { assert FlowBound(s, f); }
    forall f | f in s'.trail.consumed ensures ConsumedBound(s', f) { assert ConsumedBound(s, f); }
    forall j | j in s'.tasks ensures TaskBound(s', j) && TaskSent(s', j) {
      if Past(s'.tasks[j]) { assert TaskBound(s, j) && TaskSent(s, j); }
    }
    forall f | f in s'.trail.sent ensures SentBound(s', f) { assert SentBound(s, f); }
    forall f | f in s'.trail.linked ensures LinkedBound(s', f) { assert LinkedBound(s, f); }
  }

  lemma InsertBinds(s: Sys, j: Id, state: Id, now: Time)
    requires Bindings(s) && j in s.tasks && s.tasks[j].Starting? && state !in s.trail.begun
    ensures Bindings(InsertStep(s, j, state, now))
  {
    var s' := InsertStep(s, j, state, now);
    forall f | f in s.trail.consumed ensures f in s.trail.begun { assert ConsumedBound(s, f); }
    forall f | f in s'.flows ensures FlowBound(s', f) {
      if f != state { assert FlowBound(s, f); }
    }
    forall f | f in s'.trail.consumed ensures ConsumedBound(s', f) { assert ConsumedBound(s, f); }
    forall i | i in s'.tasks ensures TaskBound(s', i) && TaskSent(s', i) { assert TaskBound(s, i) && TaskSent(s, i); }
    forall f | f in s'.trail.sent ensures SentBound(s', f) { assert SentBound(s, f); }
    forall f | f in s'.trail.linked ensures LinkedBound(s', f) { assert LinkedBound(s, f); }
  }

  lemma ConsumeBinds(s: Sys, j: Id, state: Id, now: Time)
    requires Bindings(s) && j in s.tasks && s.tasks[j].Completing?
    requires state in s.flows && Bound(s.flows[state], s.tasks[j].session, s.tasks[j].config, s.tasks[j].instance, now)
    ensures Bindings(ConsumeStep(s, j, state, now))
  {
    var s' := ConsumeStep(s, j, state, now);
    assert FlowBound(s, state);
    forall f | f in s'.flows ensures FlowBound(s', f) { assert FlowBound(s, f); }
    forall f | f in s'.trail.consumed ensures ConsumedBound(s', f) {
      if f != state { assert ConsumedBound(s, f); }
    }
    forall i | i in s'.tasks ensures TaskBound(s', i) && TaskSent(s', i) {
      if i != j { assert TaskBound(s, i) && TaskSent(s, i); }
    }
    forall f | f in s'.trail.sent ensures SentBound(s', f) { assert SentBound(s, f); }
    forall f | f in s'.trail.linked ensures LinkedBound(s', f) { assert LinkedBound(s, f); }
  }

  lemma ExchangeBinds(s: Sys, j: Id)
    requires Bindings(s) && j in s.tasks && s.tasks[j].Exchanging?
    ensures Bindings(ExchangeStep(s, j))
  {
    var s' := ExchangeStep(s, j);
    assert TaskBound(s, j);
    forall f | f in s'.flows ensures FlowBound(s', f) { assert FlowBound(s, f); }
    forall f | f in s'.trail.consumed ensures ConsumedBound(s', f) { assert ConsumedBound(s, f); }
    forall i | i in s'.tasks ensures TaskBound(s', i) && TaskSent(s', i) { assert TaskBound(s, i) && TaskSent(s, i); }
    forall f | f in s'.trail.sent ensures SentBound(s', f) {
      if f != s.tasks[j].flow { assert SentBound(s, f); }
    }
    forall f | f in s'.trail.linked ensures LinkedBound(s', f) {
      assert LinkedBound(s, f) && SentBound(s, f);
    }
  }

  lemma StoreBinds(s: Sys, j: Id)
    requires Bindings(s) && j in s.tasks && s.tasks[j].Storing?
    ensures Bindings(StoreStep(s, j))
  {
    var s' := StoreStep(s, j);
    assert TaskBound(s, j) && TaskSent(s, j);
    assert SentBound(s, s.tasks[j].flow);
    forall f | f in s'.flows ensures FlowBound(s', f) { assert FlowBound(s, f); }
    forall f | f in s'.trail.consumed ensures ConsumedBound(s', f) { assert ConsumedBound(s, f); }
    forall i | i in s'.tasks ensures TaskBound(s', i) && TaskSent(s', i) { assert TaskBound(s, i) && TaskSent(s, i); }
    forall f | f in s'.trail.sent ensures SentBound(s', f) { assert SentBound(s, f); }
    forall f | f in s'.trail.linked ensures LinkedBound(s', f) {
      if f != s.tasks[j].flow { assert LinkedBound(s, f); }
    }
  }

  lemma StepBinds(s: Sys, env: Environment, e: Event)
    requires Bindings(s) && Enabled(s, e)
    ensures Bindings(Next(s, env, e))
  {
    match e
    case InsertFlow(j, state, now) => InsertBinds(s, j, state, now);
    case Consume(j, state, now) =>
      var t := s.tasks[j];
      if state in s.flows && Bound(s.flows[state], t.session, t.config, t.instance, now) {
        ConsumeBinds(s, j, state, now);
      } else {
        BindingsFrame(s, Next(s, env, e));
      }
    case Exchange(j) => ExchangeBinds(s, j);
    case Store(j) => StoreBinds(s, j);
    case ReadToStart(_, _) => BindingsFrame(s, Next(s, env, e));
    case ReadToComplete(_, _) => BindingsFrame(s, Next(s, env, e));
    case CheckToStore(_) => BindingsFrame(s, Next(s, env, e));
    case Stop(_) => BindingsFrame(s, Next(s, env, e));
    case SaveConfig(_) => BindingsFrame(s, Next(s, env, e));
    case ChangeInstance(_) => BindingsFrame(s, Next(s, env, e));
  }

  // ---------------------------------------------------------------- every run

  lemma {:induction false} RunBinds(s: Sys, env: Environment, events: seq<Event>)
    requires Bindings(s) && Run(s, env, events)
    ensures Bindings(After(s, env, events))
    decreases events
  {
    if events != [] {
      StepBinds(s, env, events[0]);
      RunBinds(Next(s, env, events[0]), env, events[1..]);
    }
  }

  /** Every code that is sent to the provider belongs to a flow that its own session started, on the same
      server and for the same client, and that was consumed within ten minutes; a credential is stored
      for that session too. */
  lemma FlowStaysWithItsStarter(record: Option<Record>, instance: Option<Instance>, env: Environment,
                                events: seq<Event>, flow: Id)
    requires Run(Initial(record, instance), env, events)
    ensures var t := After(Initial(record, instance), env, events).trail;
            (flow in t.exchanges || flow in t.linked ==>
               flow in t.begun && flow in t.consumed && flow in t.sent &&
               t.consumed[flow].party == t.begun[flow].party && t.sent[flow] == t.begun[flow].party &&
               t.consumed[flow].at < t.begun[flow].at + 10 * 60 * SECOND) &&
            (flow in t.linked ==> t.linked[flow].party == t.begun[flow].party)
  {
    InitialBindings(record, instance);
    RunBinds(Initial(record, instance), env, events);
    var s := After(Initial(record, instance), env, events);
    if flow in s.trail.linked { assert LinkedBound(s, flow); }
    if flow in s.trail.sent { assert SentBound(s, flow) && ConsumedBound(s, flow); }
  }

  // ---------------------------------------------------------------- single decisions

  /** A callback consumes its flow exactly while everything that the flow was bound to is in force. */
  lemma ConsumeOutcome(s: Sys, env: Environment, e: Event)
    requires e.Consume? && Enabled(s, e)
    ensures var s', t := Next(s, env, e), s.tasks[e.task];
            if e.state in s.flows &&
               (var f := s.flows[e.state];
                f.session == t.session && f.consumedAt.None? && f.expiresAt > e.now && f.instance == t.instance.id &&
                f.baseUrl == t.instance.baseUrl && f.clientId == t.config.clientId &&
                f.redirectUrl == t.config.redirectUrl && f.revision == t.config.revision)
            then s'.tasks == s.tasks[e.task := Exchanging(t.session, e.state, t.config, t.instance)] &&
                 s'.flows == s.flows[e.state := s.flows[e.state].(consumedAt := Some(e.now), verifier := false)]
            else s'.tasks == s.tasks - {e.task} && s'.flows == s.flows
  {
  }

  /** A new flow has its verifier and ten minutes, and takes the place of the session's other flows and of
      every expired one; all others stay. */
  lemma InsertOutcome(s: Sys, env: Environment, e: Event, f: Id)
    requires e.InsertFlow? && Enabled(s, e)
    ensures var s', t := Next(s, env, e), s.tasks[e.task];
            (f in s'.flows <==>
               f == e.state || (f in s.flows && s.flows[f].session != t.session && s.flows[f].expiresAt > e.now)) &&
            (f in s'.flows && f != e.state ==> s'.flows[f] == s.flows[f]) &&
            s'.flows[e.state] ==
              Flow(t.session, t.instance.id, t.instance.baseUrl, t.config.clientId, t.config.redirectUrl,
                   t.config.revision, true, e.now + 10 * 60 * SECOND, None)
  {
  }

  /** No session ever has two flows. */
  ghost predicate OnePerSession(s: Sys) {
    forall f, g | f in s.flows && g in s.flows && s.flows[f].session == s.flows[g].session :: f == g
  }

  lemma {:induction false} OneFlowPerSession(s: Sys, env: Environment, events: seq<Event>)
    requires OnePerSession(s) && Run(s, env, events)
    ensures OnePerSession(After(s, env, events))
    decreases events
  {
    if events != [] { OneFlowPerSession(Next(s, env, events[0]), env, events[1..]); }
  }

  /** The deployment trusts the server and its connection. */
  predicate Trusted(env: Environment, i: Instance) {
    i.normalizedUrl.Some? && i.normalizedUrl.value in env.allowedBaseUrls &&
    ("https://" <= i.baseUrl || env.allowInsecureHttp) && (i.verifyTls || env.allowUnverifiedTls)
  }

  /** A configuration that can be used: the administrator's record if there is one, else the deployment's. */
  predicate Usable(record: Option<Record>, env: Environment) {
    match record
    case Some(r) => r.enabled && (r.clientType == Confidential ==> r.secret.Some?)
    case None => env.clientId != "" && env.redirectUrl != "" && env.secretFile != Unreadable
  }

  /** A request gets past its first read exactly with a usable configuration and a trusted server. */
  lemma ReadOutcome(s: Sys, env: Environment, e: Event)
    requires (e.ReadToStart? || e.ReadToComplete?) && Enabled(s, e)
    ensures var s' := Next(s, env, e);
            if Usable(s.record, env) && s.instance.Some? && Trusted(env, s.instance.value)
            then e.task in s'.tasks && s'.tasks[e.task].session == e.session &&
                 s'.tasks[e.task].instance == s.instance.value &&
                 (e.ReadToStart? <==> s'.tasks[e.task].Starting?) &&
                 (e.ReadToComplete? <==> s'.tasks[e.task].Completing?)
            else s' == s
  {
  }

  /** Storing goes on exactly if the configuration under lock is the one the request worked with, whole,
      and the server is still at its address. */
  lemma CheckOutcome(s: Sys, env: Environment, e: Event)
    requires e.CheckToStore? && Enabled(s, e)
    ensures var s', t := Next(s, env, e), s.tasks[e.task];
            s'.tasks ==
              if Resolve(s.record, env) == Ok(Some(t.config)) && s.instance.Some? &&
                 s.instance.value.baseUrl == t.instance.baseUrl
              then s.tasks[e.task := Storing(t.session, t.flow, t.config, t.instance)]
              else s.tasks - {e.task}
  {
  }
}
