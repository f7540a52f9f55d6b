/**
 * The project handle: the shape of a polled status, the completion-polling protocol of
 * `waitForCompletion`, the per-agent listener registry the handle keeps in its event
 * emitter, and `createProject`, which binds a new handle to the id the service returns.
 */
module Projects {
  import opened Wrappers
  import opened JsValues
  import opened Client

  // ---------------------------------------------------------------------------------
  // Status snapshots

  datatype TaskState = Pending | InProgress | TaskCompleted | TaskFailed

  datatype TaskStatus = TaskStatus(agentId: string, task: string, progress: int, status: TaskState)

  /**
   * A status snapshot as the service describes it. The `output` payload is passed
   * through untouched, so it is kept as the JSON value it arrives as.
   */
  datatype ProjectStatus = ProjectStatus(
    completed: bool,
    error: Option<string>,
    progress: int,
    activeTasks: seq<TaskStatus>,
    output: Option<Json>)

  function StateName(s: TaskState): string {
    match s
    case Pending => "pending"
    case InProgress => "in-progress"
    case TaskCompleted => "completed"
    case TaskFailed => "failed"
  }

  function TaskJson(t: TaskStatus): Json {
    JObject(map["agentId" := JStr(t.agentId), "task" := JStr(t.task),
                "progress" := JNum(t.progress), "status" := JStr(StateName(t.status))])
  }

  /** The JSON body in which the service sends a status snapshot; absent optionals are left out. */
  function StatusJson(st: ProjectStatus): (j: Json)
    ensures j.JObject? && "completed" in j.fields && j.fields["completed"] == JBool(st.completed)
    ensures "error" in j.fields <==> st.error.Some?
    ensures "output" in j.fields <==> st.output.Some?
  {
    var tasks := seq(|st.activeTasks|, i requires 0 <= i < |st.activeTasks| => TaskJson(st.activeTasks[i]));
    var base := map["completed" := JBool(st.completed), "progress" := JNum(st.progress),
                    "activeTasks" := JArray(tasks)];
    var withError := if st.error.Some? then base["error" := JStr(st.error.value)] else base;
    JObject(if st.output.Some? then withError["output" := st.output.value] else withError)
  }

  // ---------------------------------------------------------------------------------
  // waitForCompletion

  /** How `waitForCompletion` settles: with the output, with an error, or not yet. */
  datatype Completion = Resolved(output: Slot) | Rejected(reason: Failure) | StillPolling

  /**
   * The decision taken on the outcome of one `getStatus()` call: None re-polls.
   * `completed` is tested before `error`; a rejected status fetch, or a `null` status
   * whose fields cannot be read, rejects at once.
   */
  function Step(poll: Result<Json, Failure>): (r: Option<Completion>)
    ensures r.Some? ==> !r.value.StillPolling?
    ensures poll.Failure? ==> r == Some(Rejected(poll.error))
    ensures poll == Success(JNull) ==> r == Some(Rejected(NullRead("completed")))
    ensures poll.Success? && !poll.value.JNull? ==>
      var completed := Property(poll.value, "completed").value;
      var error := Property(poll.value, "error").value;
      (Truthy(completed) ==> r == Some(Resolved(Property(poll.value, "output").value))) &&
      (!Truthy(completed) && Truthy(error) ==> r == Some(Rejected(Thrown(SlotText(error))))) &&
      (!Truthy(completed) && !Truthy(error) ==> r.None?)
  {
    match poll
    case Failure(e) => Some(Rejected(e))
    case Success(status) =>
      match Property(status, "completed")
      case None => Some(Rejected(NullRead("completed")))
      case Some(completed) =>
        if Truthy(completed) then Some(Resolved(Property(status, "output").value))
        else
          var error := Property(status, "error").value;
          if Truthy(error) then Some(Rejected(Thrown(SlotText(error)))) else None
  }

  /** The decision taken on one status reply. */
  function Settle(reply: Reply): Option<Completion> {
    Step(Interpret(reply))
  }

  /**
   * Reference definition of `waitForCompletion` over the replies its successive status
   * fetches get: the outcome and the number of fetches made. When the replies run out
   * before one settles, the wait is still polling.
   */
  function Await(replies: seq<Reply>): (Completion, nat) {
    if replies == [] then (StillPolling, 0)
    else
      match Settle(replies[0])
      case Some(c) => (c, 1)
      case None => var (c, n) := Await(replies[1..]); (c, n + 1)
  }

  /** A typed snapshot is decided on its own fields: `completed` first, then a non-empty `error`. */
  lemma StatusDecision(st: ProjectStatus)
    ensures Step(Success(StatusJson(st))) ==
      if st.completed then Some(Resolved(if st.output.Some? then Present(st.output.value) else Absent))
      else if st.error.Some? && st.error.value != "" then Some(Rejected(Thrown(st.error.value)))
      else None
  {
  }

  /**
   * The outcome of the wait: every reply before the last one fetched re-polls; a settled
   * wait settles with the decision on the last reply fetched; a wait still polling has
   * fetched every reply and none of them settled it.
   */
  lemma {:induction false} AwaitOutcome(replies: seq<Reply>)
    ensures Await(replies).1 <= |replies|
    ensures forall i | 0 <= i < Await(replies).1 - 1 :: Settle(replies[i]).None?
    ensures Await(replies).0.StillPolling? ==>
      Await(replies).1 == |replies| && forall i | 0 <= i < |replies| :: Settle(replies[i]).None?
    ensures !Await(replies).0.StillPolling? ==>
      Await(replies).1 > 0 && Settle(replies[Await(replies).1 - 1]) == Some(Await(replies).0)
  {
    if replies != [] && Settle(replies[0]).None? {
      var rest := replies[1..];
      AwaitOutcome(rest);
      forall i | 1 <= i < |replies| ensures replies[i] == rest[i - 1] { }
    }
  }

  /** The wait settles with the decision on the first reply that settles, after k + 1 fetches. */
  lemma {:induction false} AwaitFirstSettled(replies: seq<Reply>, k: nat)
    requires k < |replies| && Settle(replies[k]).Some?
    requires forall i | 0 <= i < k :: Settle(replies[i]).None?
    ensures Await(replies) == (Settle(replies[k]).value, k + 1)
  {
    if k > 0 {
      AwaitFirstSettled(replies[1..], k - 1);
    }
  }

  /** Replies that never settle are all fetched and leave the wait polling. */
  lemma {:induction false} AwaitNeverSettled(replies: seq<Reply>)
    requires forall i | 0 <= i < |replies| :: Settle(replies[i]).None?
    ensures Await(replies) == (StillPolling, |replies|)
  {
    if replies != [] {
      AwaitNeverSettled(replies[1..]);
    }
  }

  /** Once the wait has settled, later replies are never fetched and change nothing. */
  lemma {:induction false} AwaitIgnoresLaterReplies(replies: seq<Reply>, later: seq<Reply>)
    requires !Await(replies).0.StillPolling?
    ensures Await(replies + later) == Await(replies)
  {
    assert replies != [];
    assert (replies + later)[0] == replies[0];
    if Settle(replies[0]).None? {
      assert (replies + later)[1..] == replies[1..] + later;
      AwaitIgnoresLaterReplies(replies[1..], later);
    }
  }

  const Running := ProjectStatus(false, None, 50, [], None)

  /** Two running snapshots and then a completed one: three fetches, resolving with the output. */
  lemma ResolvesOnThirdPoll(output: Json)
    ensures
      var done := ProjectStatus(true, None, 100, [], Some(output));
      Await([Received(true, Parsed(StatusJson(Running))), Received(true, Parsed(StatusJson(Running))),
             Received(true, Parsed(StatusJson(done)))])
      == (Resolved(Present(output)), 3)
  {
    var done := ProjectStatus(true, None, 100, [], Some(output));
    var replies := [Received(true, Parsed(StatusJson(Running))), Received(true, Parsed(StatusJson(Running))),
                    Received(true, Parsed(StatusJson(done)))];
    StatusDecision(Running);
    StatusDecision(done);
    AwaitFirstSettled(replies, 2);
  }

  /** A running snapshot and then one reporting "disk full": two fetches, rejecting with it. */
  lemma RejectsOnSecondPoll()
    ensures
      var failed := ProjectStatus(false, Some("disk full"), 10, [], None);
      Await([Received(true, Parsed(StatusJson(Running))), Received(true, Parsed(StatusJson(failed)))])
      == (Rejected(Thrown("disk full")), 2)
  {
    var failed := ProjectStatus(false, Some("disk full"), 10, [], None);
    var replies := [Received(true, Parsed(StatusJson(Running))), Received(true, Parsed(StatusJson(failed)))];
    StatusDecision(Running);
    StatusDecision(failed);
    AwaitFirstSettled(replies, 1);
  }

  // ---------------------------------------------------------------------------------
  // The listener registry

  /** The identity of a callback function; listeners are compared by identity. */
  type Listener = nat

  /** The emitter's table from event name to the listeners registered under it, in order. */
  type Registry = map<string, seq<Listener>>

  /** The event name under which a handle keeps the listeners of one agent. */
  function Channel(agentId: string): (name: string)
    ensures |name| == 6 + |agentId| && name[6..] == agentId
  {
    "agent:" + agentId
  }

  /** The listeners an emission on `name` would call, in the order they are called. */
  function ListenersOn(m: Registry, name: string): seq<Listener> {
    if name in m then m[name] else []
  }

  /** The emitter keeps no event name whose listener list is empty. */
  predicate WellFormed(m: Registry) {
    forall name | name in m :: m[name] != []
  }

  /** `on(name, cb)`: appends `cb` to the listeners of `name`. */
  function AddListener(m: Registry, name: string, cb: Listener): (m': Registry)
    ensures ListenersOn(m', name) == ListenersOn(m, name) + [cb]
    ensures forall other | other != name :: ListenersOn(m', other) == ListenersOn(m, other)
    ensures WellFormed(m) ==> WellFormed(m')
  {
    m[name := ListenersOn(m, name) + [cb]]
  }

  /** The position of the last occurrence of `x` in `s`. */
  function LastIndexOf(s: seq<Listener>, x: Listener): (i: nat)
    requires x in s
    ensures i < |s| && s[i] == x
    ensures forall j | i < j < |s| :: s[j] != x
  {
    if s[|s| - 1] == x then |s| - 1 else LastIndexOf(s[..|s| - 1], x)
  }

  /**
   * `off(name, cb)`: removes the most recently added occurrence of `cb` from the
   * listeners of `name`, and drops `name` once none are left; nothing changes when
   * `cb` is not registered there.
   */
  function RemoveListener(m: Registry, name: string, cb: Listener): (m': Registry)
    ensures forall other | other != name :: ListenersOn(m', other) == ListenersOn(m, other)
    ensures cb !in ListenersOn(m, name) ==> m' == m
    ensures cb in ListenersOn(m, name) ==>
      var s := ListenersOn(m, name);
      var i := LastIndexOf(s, cb);
      ListenersOn(m', name) == s[..i] + s[i + 1..]
    ensures WellFormed(m) ==> WellFormed(m')
  {
    var s := ListenersOn(m, name);
    if cb !in s then m
    else
      var i := LastIndexOf(s, cb);
      var rest := s[..i] + s[i + 1..];
      if rest == [] then m - {name} else m[name := rest]
  }

  /** Unsubscribing right after subscribing restores the registry exactly. */
  lemma UnsubscribeUndoesSubscribe(m: Registry, name: string, cb: Listener)
    requires WellFormed(m)
    ensures RemoveListener(AddListener(m, name, cb), name, cb) == m
  {
    var s := ListenersOn(m, name);
    var m' := AddListener(m, name, cb);
    assert ListenersOn(m', name) == s + [cb];
    assert LastIndexOf(s + [cb], cb) == |s|;
    assert (s + [cb])[..|s|] + (s + [cb])[|s| + 1..] == s;
    if s == [] {
      assert name !in m;
      assert m' - {name} == m;
    } else {
      assert m'[name := s] == m;
    }
  }

  /**
   * A listener registered once under a name is gone after one unsubscribe, so no later
   * emission calls it and a second unsubscribe changes nothing.
   */
  lemma UnsubscribeRemovesSingleListener(m: Registry, name: string, cb: Listener)
    requires multiset(ListenersOn(m, name))[cb] <= 1
    ensures cb !in ListenersOn(RemoveListener(m, name, cb), name)
    ensures RemoveListener(RemoveListener(m, name, cb), name, cb) == RemoveListener(m, name, cb)
  {
    var s := ListenersOn(m, name);
    if cb in s {
      var i := LastIndexOf(s, cb);
      assert s == s[..i] + [s[i]] + s[i + 1..];
      assert multiset(s) == multiset(s[..i]) + multiset{cb} + multiset(s[i + 1..]);
      assert cb !in s[..i] + s[i + 1..];
    }
  }

  /** Listeners for one agent are invisible on every other agent's channel. */
  lemma ChannelsIsolated(m: Registry, agentId: string, otherAgent: string, cb: Listener)
    requires agentId != otherAgent
    ensures ListenersOn(AddListener(m, Channel(agentId), cb), Channel(otherAgent)) == ListenersOn(m, Channel(otherAgent))
    ensures ListenersOn(RemoveListener(m, Channel(agentId), cb), Channel(otherAgent)) == ListenersOn(m, Channel(otherAgent))
  {
  }

  /** Two listeners registered on one agent are both called, in registration order. */
  lemma ListenersInRegistrationOrder(m: Registry, agentId: string, first: Listener, second: Listener)
    ensures ListenersOn(AddListener(AddListener(m, Channel(agentId), first), Channel(agentId), second), Channel(agentId))
         == ListenersOn(m, Channel(agentId)) + [first, second]
  {
  }

  /** The unsubscribe closure `onAgentUpdate` returns: it calls `off` with these. */
  datatype Subscription = Subscription(name: string, callback: Listener)

  // ---------------------------------------------------------------------------------
  // The handle

  /** A handle on one remote project: its id, its client, and its event emitter's listeners. */
  class Project {
    const id: string
    const brain: OmniBrain
    var listeners: Registry

    ghost predicate Valid()
      reads this
    {
      WellFormed(listeners)
    }

    constructor (id: string, brain: OmniBrain)
      ensures Valid()
      ensures this.id == id && this.brain == brain && listeners == map[]
    {
      this.id := id;
      this.brain := brain;
      listeners := map[];
    }

    /** The listeners an update for `agentId` would be delivered to, in order. */
    function Emit(agentId: string): seq<Listener>
      reads this
    {
      ListenersOn(listeners, Channel(agentId))
    }

    /** `onAgentUpdate(agentId, callback)`: registers the callback on the agent's channel. */
    method OnAgentUpdate(agentId: string, callback: Listener) returns (unsubscribe: Subscription)
      requires Valid()
      modifies this
      ensures Valid()
      ensures listeners == AddListener(old(listeners), Channel(agentId), callback)
      ensures Emit(agentId) == old(Emit(agentId)) + [callback]
      ensures forall other | other != agentId :: Emit(other) == old(Emit(other))
      ensures unsubscribe == Subscription(Channel(agentId), callback)
    {
      listeners := AddListener(listeners, Channel(agentId), callback);
      unsubscribe := Subscription(Channel(agentId), callback);
      forall other | other != agentId
        ensures Emit(other) == old(Emit(other))
      {
        ChannelsIsolated(old(listeners), agentId, other, callback);
      }
    }

    /** Calling the closure returned by `OnAgentUpdate`. */
    method Unsubscribe(subscription: Subscription)
      requires Valid()
      modifies this
      ensures Valid()
      ensures listeners == RemoveListener(old(listeners), subscription.name, subscription.callback)
      ensures forall other | Channel(other) != subscription.name :: Emit(other) == old(Emit(other))
    {
      listeners := RemoveListener(listeners, subscription.name, subscription.callback);
    }

    /**
     * `waitForCompletion()`, given the replies its successive status fetches receive.
     * Every fetch is the handle's status request, and the outcome and the number of
     * fetches are those of the reference definition `Await`.
     */
    method WaitForCompletion(replies: seq<Reply>) returns (outcome: Completion, sent: seq<Outgoing>)
      ensures forall r | r in sent :: r == Request(brain, GetStatus(id))
      ensures (outcome, |sent|) == Await(replies)
    {
      sent := [];
      var i := 0;
      while i < |replies|
        invariant 0 <= i <= |replies|
        invariant |sent| == i
        invariant forall r | r in sent :: r == Request(brain, GetStatus(id))
        invariant Await(replies) == (Await(replies[i..]).0, Await(replies[i..]).1 + i)
      {
        sent := sent + [Request(brain, GetStatus(id))];
        var decision := Settle(replies[i]);
        assert replies[i..][0] == replies[i];
        if decision.Some? {
          assert Await(replies[i..]) == (decision.value, 1);
          outcome := decision.value;
          return;
        }
        assert replies[i..][1..] == replies[i + 1..];
        assert Await(replies[i..]) == (Await(replies[i + 1..]).0, Await(replies[i + 1..]).1 + 1);
        i := i + 1;
      }
      outcome := StillPolling;
    }
  }

  /**
   * `createProject(config)`: posts the configuration to the project collection and
   * binds a new handle to the `projectId` of the reply.
   */
  method CreateProject(brain: OmniBrain, config: Json, reply: Reply)
    returns (sent: Outgoing, project: Result<Project, Failure>)
    ensures sent == Request(brain, Operation.CreateProject(config))
    ensures sent.httpMethod == Some("POST") && sent.body == Some(config)
    ensures project.Success? <==> CreatedId(reply).Success?
    ensures project.Failure? ==> project.error == CreatedId(reply).error
    ensures project.Success? ==>
      fresh(project.value) && project.value.Valid() && project.value.id == CreatedId(reply).value
      && project.value.brain == brain && project.value.listeners == map[]
  {
    sent := Request(brain, Operation.CreateProject(config));
    match CreatedId(reply)
    case Failure(e) =>
      project := Failure(e);
    case Success(id) =>
      var handle := new Project(id, brain);
      project := Success(handle);
  }
}
