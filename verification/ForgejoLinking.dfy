/** Linking a Forgejo account: an authorization flow bound to a configuration revision, consumed
    once, and raced by administrators who save a new configuration.

    Every hold of a database lock and every commit is one event. Any task may also stop at any point,
    which stands for its other checks failing. */
module ForgejoLinking {
  import opened Prelude
  import opened ForgejoConfig

  const FLOW_MINUTES: int := 10

  /** The Forgejo server. The normalized form of its base URL is missing if that is not a valid one. */
  datatype Instance = Instance(id: Id, baseUrl: string, normalizedUrl: Option<string>, verifyTls: bool)

  predicate PermitsBaseUrl(env: Environment, i: Instance) {
    i.normalizedUrl.Some? && i.normalizedUrl.value in env.allowedBaseUrls
  }

  /** The deployment trusts the server and its connection. */
  predicate Acceptable(env: Environment, i: Instance) {
    PermitsBaseUrl(env, i) && ("https://" <= i.baseUrl || env.allowInsecureHttp) &&
    (i.verifyTls || env.allowUnverifiedTls)
  }

  /** A started authorization. Its PKCE verifier is kept encrypted until it is consumed. */
  datatype Flow = Flow(
    session: Id, instance: Id, baseUrl: string, clientId: string, redirectUrl: string,
    revision: Revision, verifier: bool, expiresAt: Time, consumedAt: Option<Time>)

  /** How far a request has got, with what it read on the way. */
  datatype Task =
    | Starting(session: Id, config: ClientConfig, instance: Instance)
    | Completing(session: Id, config: ClientConfig, instance: Instance)
    | Exchanging(session: Id, flow: Id, config: ClientConfig, instance: Instance)  // flow consumed and committed
    | Exchanged(session: Id, flow: Id, config: ClientConfig, instance: Instance)   // code sent to the provider
    | Storing(session: Id, flow: Id, config: ClientConfig, instance: Instance)     // configuration checked under lock

  /** Who acts, on which server and as which client. */
  datatype Party = Party(session: Id, instance: Id, baseUrl: string, clientId: string, redirectUrl: string)

  datatype Begun = Begun(party: Party, at: Time, revision: Revision, saves: nat)

  datatype Consumed = Consumed(party: Party, at: Time)

  datatype Linked = Linked(party: Party, checkedAt: nat, committedAt: nat)

  function PartyOf(t: Task): Party {
    Party(t.session, t.instance.id, t.instance.baseUrl, t.config.clientId, t.config.redirectUrl)
  }

  /** What happened so far. Moments are counted in configuration saves, and read from the clock where
      the flow's own time matters. */
  datatype Trail = Trail(
    saves: nat,
    savedAs: map<Id, nat>,     // revision -> the save that drew it
    readAt: map<Id, nat>,      // task -> when it read the configuration
    checkedAt: map<Id, nat>,   // task -> when it checked it again under lock
    begun: map<Id, Begun>,     // every flow ever started
    consumed: map<Id, Consumed>,
    exchanges: map<Id, nat>,   // flow -> authorization codes sent for it
    sent: map<Id, Party>,      // flow -> who sent its code, and where
    linked: map<Id, Linked>)   // flow -> whose credential was stored, and when

  datatype Sys = Sys(
    record: Option<Record>, instance: Option<Instance>, flows: map<Id, Flow>, tasks: map<Id, Task>, trail: Trail)

  datatype Event =
    | ReadToStart(task: Id, session: Id)
    | InsertFlow(task: Id, state: Id, now: Time)
    | ReadToComplete(task: Id, session: Id)
    | Consume(task: Id, state: Id, now: Time)
    | Exchange(task: Id)
    | CheckToStore(task: Id)
    | Store(task: Id)
    | Stop(task: Id)
    | SaveConfig(record: Record)
    | ChangeInstance(instance: Option<Instance>)

  // ---------------------------------------------------------------- steps

  /** The configuration and server a request may work with. */
  function Readable(record: Option<Record>, env: Environment, instance: Option<Instance>): Option<ClientConfig> {
    match Resolve(record, env)
    case Ok(Some(c)) => if instance.Some? && Acceptable(env, instance.value) then Some(c) else None
    case _ => None
  }

  /** The callback may consume the flow: it is this session's, unconsumed, unexpired, and everything
      it was bound to is still in force. */
  predicate Bound(f: Flow, session: Id, config: ClientConfig, instance: Instance, now: Time) {
    f.session == session && f.consumedAt.None? && f.expiresAt > now && f.instance == instance.id &&
    f.baseUrl == instance.baseUrl && f.clientId == config.clientId && f.redirectUrl == config.redirectUrl &&
    f.revision == config.revision
  }

  /** The configuration that storing sees under the lock is the one the request worked with. */
  predicate Unchanged(s: Sys, env: Environment, t: Task) {
    Resolve(s.record, env) == Ok(Some(t.config)) && s.instance.Some? &&
    s.instance.value.baseUrl == t.instance.baseUrl
  }

  /** From its check to its commit, storing holds the configuration record shared, if there was a
      record to lock, and the server's row. */
  predicate RecordFree(s: Sys) {
    forall j | j in s.tasks && s.tasks[j].Storing? :: s.tasks[j].config.revision.FromEnvironment?
  }

  predicate InstanceFree(s: Sys) {
    forall j | j in s.tasks :: !s.tasks[j].Storing?
  }

  predicate Enabled(s: Sys, e: Event) {
    match e
    case ReadToStart(j, _) => j !in s.tasks
    case InsertFlow(j, state, _) => j in s.tasks && s.tasks[j].Starting? && state !in s.trail.begun
    case ReadToComplete(j, _) => j !in s.tasks
    case Consume(j, _, _) => j in s.tasks && s.tasks[j].Completing?
    case Exchange(j) => j in s.tasks && s.tasks[j].Exchanging?
    case CheckToStore(j) => j in s.tasks && s.tasks[j].Exchanged?
    case Store(j) => j in s.tasks && s.tasks[j].Storing?
    case Stop(j) => j in s.tasks
    case SaveConfig(r) => r.revision !in s.trail.savedAs && RecordFree(s)
    case ChangeInstance(_) => InstanceFree(s)
  }

  function Without<V>(m: map<Id, V>, k: Id): map<Id, V> {
    m - {k}
  }

  function ReadStep(s: Sys, env: Environment, j: Id, session: Id, complete: bool): Sys {
    var c := Readable(s.record, env, s.instance);
    if c.None? then s
    else
      var t := if complete then Completing(session, c.value, s.instance.value)
               else Starting(session, c.value, s.instance.value);
      s.(tasks := s.tasks[j := t], trail := s.trail.(readAt := s.trail.readAt[j := s.trail.saves]))
  }

  function NewFlow(t: Task, now: Time): Flow
    requires t.Starting?
  {
    Flow(t.session, t.instance.id, t.instance.baseUrl, t.config.clientId, t.config.redirectUrl,
         t.config.revision, true, now + FLOW_MINUTES * 60 * SECOND, None)
  }

  /** A new flow discards the session's other flows and every expired one. */
  function Kept(flows: map<Id, Flow>, session: Id, now: Time): map<Id, Flow> {
    map s | s in flows && flows[s].session != session && flows[s].expiresAt > now :: flows[s]
  }

  function InsertStep(s: Sys, j: Id, state: Id, now: Time): Sys
    requires j in s.tasks && s.tasks[j].Starting?
  {
    var t := s.tasks[j];
    s.(flows := Kept(s.flows, t.session, now)[state := NewFlow(t, now)],
       tasks := Without(s.tasks, j),
       trail := s.trail.(begun :=
         s.trail.begun[state := Begun(PartyOf(t), now, t.config.revision, ReadAt(s.trail, j))]))
  }

  function ReadAt(t: Trail, j: Id): nat {
    if j in t.readAt then t.readAt[j] else 0
  }

  function ConsumeStep(s: Sys, j: Id, state: Id, now: Time): Sys
    requires j in s.tasks && s.tasks[j].Completing?
  {
    var t := s.tasks[j];
    if state in s.flows && Bound(s.flows[state], t.session, t.config, t.instance, now)
    then s.(flows := s.flows[state := s.flows[state].(consumedAt := Some(now), verifier := false)],
            tasks := s.tasks[j := Exchanging(t.session, state, t.config, t.instance)],
            trail := s.trail.(consumed := s.trail.consumed[state := Consumed(PartyOf(t), now)]))
    else s.(tasks := Without(s.tasks, j))
  }

  function Count(m: map<Id, nat>, k: Id): nat {
    if k in m then m[k] else 0
  }

  function ExchangeStep(s: Sys, j: Id): Sys
    requires j in s.tasks && s.tasks[j].Exchanging?
  {
    var t := s.tasks[j];
    s.(tasks := s.tasks[j := Exchanged(t.session, t.flow, t.config, t.instance)],
       trail := s.trail.(exchanges := s.trail.exchanges[t.flow := Count(s.trail.exchanges, t.flow) + 1],
                         sent := s.trail.sent[t.flow := PartyOf(t)]))
  }

  function CheckStep(s: Sys, env: Environment, j: Id): Sys
    requires j in s.tasks && s.tasks[j].Exchanged?
  {
    var t := s.tasks[j];
    if Unchanged(s, env, t)
    then s.(tasks := s.tasks[j := Storing(t.session, t.flow, t.config, t.instance)],
            trail := s.trail.(checkedAt := s.trail.checkedAt[j := s.trail.saves]))
    else s.(tasks := Without(s.tasks, j))
  }

  function StoreStep(s: Sys, j: Id): Sys
    requires j in s.tasks && s.tasks[j].Storing?
  {
    var t := s.tasks[j];
    var checked := if j in s.trail.checkedAt then s.trail.checkedAt[j] else 0;
    s.(tasks := Without(s.tasks, j),
       trail := s.trail.(linked := s.trail.linked[t.flow := Linked(PartyOf(t), checked, s.trail.saves)]))
  }

  function SaveStep(s: Sys, r: Record): Sys {
    s.(record := Some(r),
       trail := s.trail.(saves := s.trail.saves + 1, savedAs := s.trail.savedAs[r.revision := s.trail.saves + 1]))
  }

  function Next(s: Sys, env: Environment, e: Event): Sys
    requires Enabled(s, e)
  {
    match e
    case ReadToStart(j, session) => ReadStep(s, env, j, session, false)
    case InsertFlow(j, state, now) => InsertStep(s, j, state, now)
    case ReadToComplete(j, session) => ReadStep(s, env, j, session, true)
    case Consume(j, state, now) => ConsumeStep(s, j, state, now)
    case Exchange(j) => ExchangeStep(s, j)
    case CheckToStore(j) => CheckStep(s, env, j)
    case Store(j) => StoreStep(s, j)
    case Stop(j) => s.(tasks := Without(s.tasks, j))
    case SaveConfig(r) => SaveStep(s, r)
    case ChangeInstance(i) => s.(instance := i)
  }

  // ---------------------------------------------------------------- the service

  class ForgejoOAuthService {
    var record: Option<Record>
    var instance: Option<Instance>
    var flows: map<Id, Flow>
    var tasks: map<Id, Task>
    ghost var trail: Trail
    const env: Environment

    ghost function View(): Sys
      reads this
    {
      Sys(record, instance, flows, tasks, trail)
    }

    constructor (env: Environment, record: Option<Record>, instance: Option<Instance>)
      ensures View() == Initial(record, instance) && this.env == env
    {
      this.env, this.record, this.instance := env, record, instance;
      flows, tasks, trail := map[], map[], Initial(record, instance).trail;
    }

    method Read(task: Id, session: Id, complete: bool) returns (found: bool)
      requires task !in tasks
      modifies this`tasks, this`trail
      ensures View() == ReadStep(old(View()), env, task, session, complete)
      ensures found <==> Resolve(record, env).Ok? && Resolve(record, env).value.Some? && instance.Some? &&
                         Acceptable(env, instance.value)
    {
      var configuration := Resolve(record, env);
      if configuration.Err? || configuration.value.None? { return false; }
      if instance.None? || !PermitsBaseUrl(env, instance.value) { return false; }
      if (!("https://" <= instance.value.baseUrl) && !env.allowInsecureHttp) ||
         (!instance.value.verifyTls && !env.allowUnverifiedTls) {
        return false;
      }
      var c := configuration.value.value;
      tasks := tasks[task := if complete then Completing(session, c, instance.value)
                             else Starting(session, c, instance.value)];
      trail := trail.(readAt := trail.readAt[task := trail.saves]);
      return true;
    }

    method Insert(task: Id, state: Id, now: Time)
      requires Enabled(View(), InsertFlow(task, state, now))
      modifies this`flows, this`tasks, this`trail
      ensures View() == InsertStep(old(View()), task, state, now)
    {
      var t := tasks[task];
      flows := map s | s in flows && !(flows[s].session == t.session || flows[s].expiresAt <= now) :: flows[s];
      assert flows == Kept(old(flows), t.session, now);
      flows := flows[state := NewFlow(t, now)];
      tasks := tasks - {task};
      trail := trail.(begun := trail.begun[state := Begun(PartyOf(t), now, t.config.revision, ReadAt(trail, task))]);
    }

    /** Consumes the flow before any network exchange, so a code is never sent twice. */
    method ConsumeFlow(task: Id, state: Id, now: Time) returns (bound: bool)
      requires Enabled(View(), Consume(task, state, now))
      modifies this`flows, this`tasks, this`trail
      ensures View() == ConsumeStep(old(View()), task, state, now)
      ensures bound <==> task in tasks
      ensures bound <==>
                state in old(flows) &&
                var f, t := old(flows)[state], old(tasks)[task];
                f.session == t.session && f.consumedAt.None? && f.expiresAt > now && f.instance == t.instance.id &&
                f.baseUrl == t.instance.baseUrl && f.clientId == t.config.clientId &&
                f.redirectUrl == t.config.redirectUrl && f.revision == t.config.revision
    {
      var t := tasks[task];
      if state !in flows || !Bound(flows[state], t.session, t.config, t.instance, now) {
        tasks := tasks - {task};
        return false;
      }
      flows := flows[state := flows[state].(consumedAt := Some(now), verifier := false)];
      tasks := tasks[task := Exchanging(t.session, state, t.config, t.instance)];
      trail := trail.(consumed := trail.consumed[state := Consumed(PartyOf(t), now)]);
      return true;
    }

    /** Sends the code; whatever the provider answers, the task never comes back to this point. */
    method ExchangeCode(task: Id)
      requires Enabled(View(), Exchange(task))
      modifies this`tasks, this`trail
      ensures View() == ExchangeStep(old(View()), task)
      ensures !Enabled(View(), Exchange(task))
      ensures Count(trail.exchanges, old(tasks)[task].flow) == Count(old(trail).exchanges, old(tasks)[task].flow) + 1
    {
      var t := tasks[task];
      trail := trail.(exchanges := trail.exchanges[t.flow := Count(trail.exchanges, t.flow) + 1],
                      sent := trail.sent[t.flow := PartyOf(t)]);
      tasks := tasks[task := Exchanged(t.session, t.flow, t.config, t.instance)];
    }

    /** Reads the configuration again, under lock, and goes on only if nothing changed. */
    method CheckConfiguration(task: Id) returns (same: bool)
      requires Enabled(View(), CheckToStore(task))
      modifies this`tasks, this`trail
      ensures View() == CheckStep(old(View()), env, task)
      ensures same <==> task in tasks
    {
      var t := tasks[task];
      var effective := Resolve(record, env);
      if effective.Err? || effective.value.None? || instance.None? || effective.value.value != t.config ||
         instance.value.baseUrl != t.instance.baseUrl
      {
        tasks := tasks - {task};
        return false;
      }
      trail := trail.(checkedAt := trail.checkedAt[task := trail.saves]);
      tasks := tasks[task := Storing(t.session, t.flow, t.config, t.instance)];
      return true;
    }

    /** Stores the credential and releases the locks on the record and the server. */
    method StoreCredential(task: Id)
      requires Enabled(View(), Store(task))
      modifies this`tasks, this`trail
      ensures View() == StoreStep(old(View()), task)
      ensures task !in tasks && old(tasks)[task].flow in trail.linked
      ensures (forall j | j in old(tasks) && j != task :: !old(tasks)[j].Storing?) ==>
                RecordFree(View()) && InstanceFree(View())
    {
      var t := tasks[task];
      ghost var checked := if task in trail.checkedAt then trail.checkedAt[task] else 0;
      trail := trail.(linked := trail.linked[t.flow := Linked(PartyOf(t), checked, trail.saves)]);
      tasks := tasks - {task};
    }
  }

  /** A configuration saved before the observation began counts as save zero. */
  function Initial(record: Option<Record>, instance: Option<Instance>): Sys {
    Sys(record, instance, map[], map[],
        Trail(0, if record.Some? then map[record.value.revision := 0] else map[],
              map[], map[], map[], map[], map[], map[], map[]))
  }
}
