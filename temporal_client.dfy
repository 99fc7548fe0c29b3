/** The `temporalClient()` factory: configuration from the environment, one
    connection attempt whose failure becomes the `temporal-unavailable`
    sentinel, and a client whose `startClone` starts `CloneRepoWorkflow` and
    whose `getHandle` wraps the engine's handle for an id. The Temporal
    service itself is a set of oracles. */
module TemporalClient {
  import opened Common
  import opened CloneTypes

  const AddressVar := "TEMPORAL_ADDRESS"
  const TaskQueueVar := "TEMPORAL_TASK_QUEUE"
  const DefaultAddress := "localhost:7233"
  const DefaultTaskQueue := "context-task-queue"

  /** The message every connection failure is turned into. */
  const Unavailable := "temporal-unavailable"

  const CloneWorkflowType := "CloneRepoWorkflow"
  const WorkflowIdPrefix := "clone-"

  /** The process environment. */
  type Env = map<string, string>

  datatype Config = Config(address: string, taskQueue: string)

  /** `process.env[name] ?? fallback`: a set variable wins, even when empty. */
  function Setting(env: Env, name: string, fallback: string): string
  {
    if name in env then env[name] else fallback
  }

  function LoadConfig(env: Env): Config
  {
    Config(Setting(env, AddressVar, DefaultAddress), Setting(env, TaskQueueVar, DefaultTaskQueue))
  }

  /** Defaults apply exactly when the variables are unset. */
  lemma ConfigDefaults(env: Env)
    ensures LoadConfig(env).address ==
            (if "TEMPORAL_ADDRESS" in env then env["TEMPORAL_ADDRESS"] else "localhost:7233")
    ensures LoadConfig(env).taskQueue ==
            (if "TEMPORAL_TASK_QUEUE" in env then env["TEMPORAL_TASK_QUEUE"] else "context-task-queue")
  {
  }

  /** What `Connection.connect({ address })` does: connect, or reject with a cause. */
  datatype Dial = Connected | Refused(cause: string)

  /** A connected client and the configuration it was made with. */
  datatype Client = Client(config: Config)

  /** `await temporalClient()`, where `dial` answers the connection attempt. */
  function Connect(env: Env, dial: string -> Dial): (r: Result<Client, string>)
    ensures r.Ok? <==> dial(LoadConfig(env).address).Connected?
    ensures r.Ok? ==> r.value.config == LoadConfig(env)
    ensures r.Err? ==> r == Err("temporal-unavailable")
  {
    match dial(LoadConfig(env).address)
    case Connected => Ok(Client(LoadConfig(env)))
    case Refused(_) => Err(Unavailable)
  }

  /** The cause of a connection failure is not observable: two refusals with
      different causes give the same outcome. */
  lemma FailureCauseIsHidden(env: Env, dial1: string -> Dial, dial2: string -> Dial)
    requires dial1(LoadConfig(env).address).Refused? && dial2(LoadConfig(env).address).Refused?
    ensures Connect(env, dial1) == Connect(env, dial2)
  {
  }

  // ---------------------------------------------------------------- starting a workflow

  /** The arguments of `client.workflow.start(type, { taskQueue, workflowId, args })`. */
  datatype StartRequest = StartRequest(workflowType: string, taskQueue: string, workflowId: string, args: seq<CloneInput>)

  /** The engine's answer to a start request: the started workflow's id, or an error. */
  type Starter = StartRequest -> Result<string, string>

  /** A workflow handle; its `result` and `describe` go to the engine for
      `workflowId`. */
  datatype WorkflowHandle = WorkflowHandle(workflowId: string)

  /** The request `startClone(input)` sends, with `uuid` the value of `randomUUID()`. */
  function CloneStartRequest(client: Client, input: CloneInput, uuid: string): (req: StartRequest)
    ensures req.workflowType == "CloneRepoWorkflow"
    ensures req.taskQueue == client.config.taskQueue
    ensures |req.workflowId| == |uuid| + 6 && req.workflowId[..6] == "clone-" && req.workflowId[6..] == uuid
    ensures req.args == [input]
  {
    StartRequest(CloneWorkflowType, client.config.taskQueue, WorkflowIdPrefix + uuid, [input])
  }

  /** Distinct uuids give distinct workflow ids, so an id is never reused. */
  lemma WorkflowIdsDiffer(client: Client, input1: CloneInput, input2: CloneInput, uuid1: string, uuid2: string)
    requires uuid1 != uuid2
    ensures CloneStartRequest(client, input1, uuid1).workflowId != CloneStartRequest(client, input2, uuid2).workflowId
  {
  }

  /** `client.startClone(input)`: the returned handle reports the id the engine
      started, which need not be the requested one; an engine error propagates. */
  function StartClone(client: Client, input: CloneInput, uuid: string, start: Starter): (r: Result<WorkflowHandle, string>)
    ensures var answer := start(CloneStartRequest(client, input, uuid));
      (r.Ok? <==> answer.Ok?) &&
      (r.Ok? ==> r.value.workflowId == answer.value) &&
      (r.Err? ==> r.error == answer.error)
  {
    match start(CloneStartRequest(client, input, uuid))
    case Ok(id) => Ok(WorkflowHandle(id))
    case Err(e) => Err(e)
  }

  // ---------------------------------------------------------------- handles

  /** The options of `handle.result(opts)`. */
  datatype ResultOptions = ResultOptions(followRuns: Option<bool>)

  /** The durable executor as handles see it: the outcome of awaiting a
      workflow's result with given options, and its described status name. */
  datatype Engine = Engine(result: (string, ResultOptions) -> Result<CloneResult, string>,
                           describe: string -> Result<string, string>)

  /** `client.getHandle(id)`: no engine call is made. */
  function GetHandle(client: Client, id: string): WorkflowHandle
  {
    WorkflowHandle(id)
  }

  /** `handle.result(opts)`: forwarded to the engine for the handle's id. */
  function HandleResult(engine: Engine, handle: WorkflowHandle, opts: ResultOptions): Result<CloneResult, string>
  {
    engine.result(handle.workflowId, opts)
  }

  /** `handle.describe()`: forwarded to the engine for the handle's id. */
  function HandleDescribe(engine: Engine, handle: WorkflowHandle): Result<string, string>
  {
    engine.describe(handle.workflowId)
  }

  /** A handle got for `id` reports `id`, and its calls reach the engine for
      exactly `id`, with the options unchanged. */
  lemma GetHandleForwards(client: Client, id: string, engine: Engine, opts: ResultOptions)
    ensures GetHandle(client, id).workflowId == id
    ensures HandleResult(engine, GetHandle(client, id), opts) == engine.result(id, opts)
    ensures HandleDescribe(engine, GetHandle(client, id)) == engine.describe(id)
  {
  }
}
