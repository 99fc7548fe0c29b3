/** The client the application injects: `lazyTemporalClient()` connects on
    first use, keeps the client once connected and forgets a failed attempt
    so that the next call connects again; `getHandle(id)` connects nothing and
    returns a proxy that binds to a real handle on its first `result` or
    `describe` and keeps that binding, success or failure, for good.
    Calls are taken one at a time; the sharing of one in-flight promise
    between concurrent callers is not modelled. */
module TemporalModule {
  import opened Common
  import opened CloneTypes
  import opened TemporalClient

  class LazyTemporalClient {
    const env: Env
    /** How the network answers the k-th connection attempt. */
    const dialAt: nat -> (string -> Dial)
    /** `clientPromise`, once settled: the cached client, or nothing. */
    var cached: Option<Client>
    /** Connection attempts made so far. */
    var attempts: nat

    /** Every attempt failed, except the last one when a client is cached,
        which then is that attempt's client. */
    ghost predicate Valid()
      reads this
    {
      (forall k :: 0 <= k < attempts - 1 ==> Connect(env, dialAt(k)).Err?) &&
      (attempts > 0 ==> (cached.Some? <==> Connect(env, dialAt(attempts - 1)).Ok?)) &&
      (attempts == 0 ==> cached.None?) &&
      (cached.Some? ==> Connect(env, dialAt(attempts - 1)) == Ok(cached.value))
    }

    constructor (env: Env, dialAt: nat -> (string -> Dial))
      ensures Valid()
      ensures this.env == env && this.dialAt == dialAt && cached == None && attempts == 0
    {
      this.env := env;
      this.dialAt := dialAt;
      cached := None;
      attempts := 0;
    }

    /** What the next `getClient()` yields: the cached client, or a fresh attempt. */
    ghost function NextClient(): Result<Client, string>
      reads this
    {
      if cached.Some? then Ok(cached.value) else Connect(env, dialAt(attempts))
    }

    /** `getClient()`: reuse the cached client; otherwise connect, cache the
        client on success and stay empty on failure, passing the error on. */
    method GetClient() returns (r: Result<Client, string>)
      requires Valid()
      modifies this
      ensures Valid()
      ensures r == old(NextClient())
      ensures cached == (if r.Ok? then Some(r.value) else None)
      ensures attempts == old(attempts) + (if old(cached).None? then 1 else 0)
    {
      if cached.Some? {
        return Ok(cached.value);
      }
      r := Connect(env, dialAt(attempts));
      attempts := attempts + 1;
      cached := if r.Ok? then Some(r.value) else None;
    }

    /** `startClone(input)` through the shared client. */
    method StartClone(input: CloneInput, uuid: string, start: Starter) returns (r: Result<WorkflowHandle, string>)
      requires Valid()
      modifies this
      ensures Valid()
      ensures r == match old(NextClient())
                   case Ok(client) => TemporalClient.StartClone(client, input, uuid, start)
                   case Err(e) => Err(e)
      ensures cached == (if old(NextClient()).Ok? then Some(old(NextClient()).value) else None)
      ensures attempts == old(attempts) + (if old(cached).None? then 1 else 0)
    {
      var c := GetClient();
      match c
      case Err(e) => r := Err(e);
      case Ok(client) => r := TemporalClient.StartClone(client, input, uuid, start);
    }

    /** `getHandle(id)`: a new unbound proxy; nothing is connected. */
    method GetHandle(id: string) returns (p: HandleProxy)
      ensures fresh(p)
      ensures p.workflowId == id && p.owner == this && p.bound == None
    {
      p := new HandleProxy(this, id);
    }
  }

  /** At most one connection attempt ever succeeds. */
  lemma {:induction false} AtMostOneConnection(c: LazyTemporalClient)
    requires c.Valid()
    ensures |set k | 0 <= k < c.attempts && Connect(c.env, c.dialAt(k)).Ok?| <= 1
  {
    var ok := set k | 0 <= k < c.attempts && Connect(c.env, c.dialAt(k)).Ok?;
    if c.attempts > 0 {
      assert ok <= {c.attempts - 1};
      assert |{c.attempts - 1}| == 1;
      SubsetCard(ok, {c.attempts - 1});
    } else {
      assert ok == {};
    }
  }

  lemma {:induction false} SubsetCard(a: set<nat>, b: set<nat>)
    requires a <= b
    ensures |a| <= |b|
  {
    if a != {} {
      var x :| x in a;
      SubsetCard(a - {x}, b - {x});
    }
  }

  /** `createHandleProxy(getClient, id)`. */
  class HandleProxy {
    const workflowId: string
    const owner: LazyTemporalClient
    /** `handlePromise`, once settled: the bound handle or the binding error. */
    var bound: Option<Result<WorkflowHandle, string>>

    constructor (owner: LazyTemporalClient, id: string)
      ensures this.owner == owner && workflowId == id && bound == None
    {
      this.owner := owner;
      workflowId := id;
      bound := None;
    }

    ghost predicate Valid()
      reads this, owner
    {
      owner.Valid() && (bound.Some? && bound.value.Ok? ==> bound.value.value == WorkflowHandle(workflowId))
    }

    /** The binding the next call uses: the stored one, or the client's
        `getHandle(id)` when the next `getClient()` succeeds. */
    ghost function NextBinding(): Result<WorkflowHandle, string>
      reads this, owner
    {
      if bound.Some? then bound.value
      else match owner.NextClient()
           case Ok(client) => Ok(TemporalClient.GetHandle(client, workflowId))
           case Err(e) => Err(e)
    }

    /** The private `getHandle()`: binds once and keeps the outcome. */
    method Bind() returns (h: Result<WorkflowHandle, string>)
      requires Valid()
      modifies this, owner
      ensures Valid()
      ensures h == old(NextBinding()) && bound == Some(h)
      ensures old(bound).Some? ==> owner.cached == old(owner.cached) && owner.attempts == old(owner.attempts)
      ensures old(bound).None? ==>
        owner.cached == (if old(owner.NextClient()).Ok? then Some(old(owner.NextClient()).value) else None) &&
        owner.attempts == old(owner.attempts) + (if old(owner.cached).None? then 1 else 0)
    {
      if bound.None? {
        var c := owner.GetClient();
        match c
        case Ok(client) => bound := Some(Ok(TemporalClient.GetHandle(client, workflowId)));
        case Err(e) => bound := Some(Err(e));
      }
      h := bound.value;
    }

    /** `result(opts)`: bind, then forward `opts` unchanged. */
    method AwaitResult(engine: Engine, opts: ResultOptions) returns (r: Result<CloneResult, string>)
      requires Valid()
      modifies this, owner
      ensures Valid()
      ensures bound == Some(old(NextBinding()))
      ensures r == match old(NextBinding())
                   case Ok(h) => engine.result(workflowId, opts)
                   case Err(e) => Err(e)
      ensures old(bound).Some? ==> owner.cached == old(owner.cached) && owner.attempts == old(owner.attempts)
      ensures old(bound).None? ==>
        owner.cached == (if old(owner.NextClient()).Ok? then Some(old(owner.NextClient()).value) else None) &&
        owner.attempts == old(owner.attempts) + (if old(owner.cached).None? then 1 else 0)
    {
      var h := Bind();
      match h
      case Ok(handle) => r := HandleResult(engine, handle, opts);
      case Err(e) => r := Err(e);
    }

    /** `describe()`: bind, then forward. */
    method Describe(engine: Engine) returns (r: Result<string, string>)
      requires Valid()
      modifies this, owner
      ensures Valid()
      ensures bound == Some(old(NextBinding()))
      ensures r == match old(NextBinding())
                   case Ok(h) => engine.describe(workflowId)
                   case Err(e) => Err(e)
      ensures old(bound).Some? ==> owner.cached == old(owner.cached) && owner.attempts == old(owner.attempts)
      ensures old(bound).None? ==>
        owner.cached == (if old(owner.NextClient()).Ok? then Some(old(owner.NextClient()).value) else None) &&
        owner.attempts == old(owner.attempts) + (if old(owner.cached).None? then 1 else 0)
    {
      var h := Bind();
      match h
      case Ok(handle) => r := HandleDescribe(engine, handle);
      case Err(e) => r := Err(e);
    }
  }

  /** A proxy whose binding failed keeps failing with the same error, even
      though the shared client connects again on its next use. */
  method FailedBindingIsKept(env: Env, dialAt: nat -> (string -> Dial), engine: Engine, opts: ResultOptions, id: string)
    returns (first: Result<CloneResult, string>, second: Result<CloneResult, string>, later: Result<Client, string>)
    requires Connect(env, dialAt(0)).Err? && Connect(env, dialAt(1)).Ok?
    ensures first == Err("temporal-unavailable") && second == first
    ensures later.Ok? && later.value.config == LoadConfig(env)
  {
    var client := new LazyTemporalClient(env, dialAt);
    var proxy := client.GetHandle(id);
    first := proxy.AwaitResult(engine, opts);
    second := proxy.AwaitResult(engine, opts);
    later := client.GetClient();
  }

  /** Once a proxy is bound, later calls reach the engine for its id without
      connecting again. */
  method BoundProxyForwards(env: Env, dialAt: nat -> (string -> Dial), engine: Engine, opts: ResultOptions, id: string)
    returns (status: Result<string, string>, result: Result<CloneResult, string>, attempts: nat)
    requires Connect(env, dialAt(0)).Ok?
    ensures status == engine.describe(id) && result == engine.result(id, opts)
    ensures attempts == 1
  {
    var client := new LazyTemporalClient(env, dialAt);
    var proxy := client.GetHandle(id);
    status := proxy.Describe(engine);
    result := proxy.AwaitResult(engine, opts);
    attempts := client.attempts;
  }
}
