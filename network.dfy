/**
 * The request layer above the executor: src/network/RequestConfig.ts, Request.ts,
 * TaskQueueParallelImpl.ts and RequestQueue.ts. These files import each other in a cycle
 * (a request holds its configuration and executor, the queue holds groups of executors whose
 * listeners call back into requests, groups and the queue), so they share one module.
 *
 * Every listener closure that this layer registers on an executor is a value of `Listener`;
 * the queue carries out an executor's fan-out by interpreting those values in order. What the
 * application's own listeners do is not modelled: each invocation is recorded, with the
 * listener's id and its arguments, in the queue's ghost `trace`.
 */
module Network {
  import opened Wrappers
  import opened Json
  import opened Parsers
  import opened Performer

  /** The closures that Request.buildTask and TaskQueueParallelImpl.run register on an executor. */
  datatype Listener =
    | ForwardToRequest(request: Request)
    | GroupMember(group: ParallelGroup)

  type Task = TaskPerformer<Listener>

  /** ResponseTypeEnum: only its JSON member is named by the core. */
  datatype ResponseType = JsonResponse | OtherResponse(name: string)

  /** The argument of the `headers` setter: one Header or an array of them. */
  datatype HeadersArg = OneHeader(header: Header) | HeaderList(list: seq<Header>)

  /** One invocation of an application listener, as the queue's ghost trace records it. */
  datatype QueueEvent =
    | RequestSucceeded(listener: nat, data: Json, result: Option<Response>)
    | RequestFailed(listener: nat, error: ErrorEntity)
    | GroupStarted(index: nat)
    | QueueSucceeded(listener: nat, data: Json, result: Option<Response>)
    | QueueFailed(listener: nat, error: ErrorEntity)
    | ContextFailMessage(message: string)
    | QueueCompleted(listener: nat)

  /** The number of occurrences of `x` in `s`. */
  function Occurrences<T(==)>(s: seq<T>, x: T): nat {
    if s == [] then 0 else Occurrences(s[..|s| - 1], x) + (if s[|s| - 1] == x then 1 else 0)
  }

  // ---------------------------------------------------------------- RequestConfig

  /**
   * RequestConfig: every setting is optional, and each getter supplies the default of `||`.
   * The fields the core never reads (responseEncoding, xsrf names, maxContentLength,
   * validateStatus, maxRedirects) are not modelled.
   */
  class RequestConfig {
    var baseUrl: Option<string>
    var timeout: Option<int>
    var headers: Option<seq<Header>>
    var withCredentials: Option<bool>
    var auto: Option<Header>
    var responseType: Option<ResponseType>
    var retry: Option<int>
    var task: Option<Task>
    var dataParser: Option<seq<Parser>>

    constructor ()
      ensures baseUrl == None && timeout == None && headers == None && withCredentials == None
      ensures auto == None && responseType == None && retry == None && task == None && dataParser == None
    {
      baseUrl, timeout, headers, withCredentials := None, None, None, None;
      auto, responseType, retry, task, dataParser := None, None, None, None, None;
    }

    /** `get baseUrl`: the empty string when unset. */
    function BaseUrl(): (r: string)
      reads this
      ensures baseUrl.Some? ==> r == baseUrl.value
      ensures baseUrl.None? ==> r == ""
    {
      baseUrl.GetOr("")
    }

    /** `get timeout`: 1000 when unset and when set to 0, which is falsy. */
    function Timeout(): (r: int)
      reads this
      ensures r != 0
      ensures timeout.Some? && timeout.value != 0 ==> r == timeout.value
      ensures timeout.None? || timeout.value == 0 ==> r == 1000
    {
      if timeout.Some? && timeout.value != 0 then timeout.value else 1000
    }

    /** `get headers` and `getHeaders`: an empty array when unset. */
    function Headers(): (r: seq<Header>)
      reads this
      ensures headers.Some? ==> r == headers.value
      ensures headers.None? ==> r == []
    {
      headers.GetOr([])
    }

    function WithCredentials(): (r: bool)
      reads this
      ensures r <==> withCredentials == Some(true)
    {
      withCredentials.GetOr(false)
    }

    function ResponseType(): (r: ResponseType)
      reads this
      ensures responseType.Some? ==> r == responseType.value
      ensures responseType.None? ==> r == JsonResponse
    {
      responseType.GetOr(JsonResponse)
    }

    /** `get retry`: 0 when unset. No other file of the core reads it. */
    function Retry(): (r: int)
      reads this
      ensures retry.Some? ==> r == retry.value
      ensures retry.None? ==> r == 0
    {
      retry.GetOr(0)
    }

    /** `get dataParser`: an empty array when unset. */
    function DataParsers(): (r: seq<Parser>)
      reads this
      ensures dataParser.Some? ==> r == dataParser.value
      ensures dataParser.None? ==> r == []
    {
      dataParser.GetOr([])
    }

    /** The executor `get task` would return, unless it builds a fresh one. */
    function TaskSet(): set<object>
      reads this
    {
      if task.Some? then {task.value} else {}
    }

    /** The run state of the executor `get task` gives: the stored one's, or a new one's. */
    ghost function TaskProgress(): (RequestState, bool, nat, nat, seq<Send>, nat, nat)
      reads this, TaskSet()
    {
      if task.Some? then task.value.Progress() else IdleProgress(0)
    }

    /** The listener lists of the executor `get task` gives. */
    function TaskListeners(): (seq<Listener>, seq<Listener>)
      reads this, TaskSet()
    {
      if task.Some? then (task.value.successListeners, task.value.failListeners) else ([], [])
    }

    /** The settings of the executor `get task` gives, before `initTask`. */
    function TaskSettings(): (Json, Method, map<string, string>, Option<nat>, string, int, seq<Header>, bool, Option<Header>, seq<Parser>)
      reads this, TaskSet()
    {
      if task.Some? then task.value.Settings() else DefaultSettings()
    }

    /**
     * What `initTask` reads through the getters: the timeout it takes over is never 0, and
     * the parser list it checks is empty exactly when none was ever stored.
     */
    function View(): (r: ConfigView)
      reads this
      ensures r.timeout != 0
      ensures r.dataParsers == [] <==> dataParser.None? || dataParser.value == []
    {
      ConfigView(BaseUrl(), Timeout(), Headers(), WithCredentials(), auto, DataParsers())
    }

    method SetBaseUrl(url: string)
      modifies this`baseUrl
      ensures baseUrl == Some(url)
    {
      baseUrl := Some(url);
    }

    method SetTimeout(ms: int)
      modifies this`timeout
      ensures timeout == Some(ms)
    {
      timeout := Some(ms);
    }

    /** `set headers`: a single Header is wrapped in a one-element array. */
    method SetHeaders(arg: HeadersArg)
      modifies this`headers
      ensures arg.OneHeader? ==> headers == Some([arg.header])
      ensures arg.HeaderList? ==> headers == Some(arg.list)
    {
      match arg
      case OneHeader(h) => headers := Some([h]);
      case HeaderList(hs) => headers := Some(hs);
    }

    method SetWithCredentials(b: bool)
      modifies this`withCredentials
      ensures withCredentials == Some(b)
    {
      withCredentials := Some(b);
    }

    method SetAuto(h: Option<Header>)
      modifies this`auto
      ensures auto == h
    {
      auto := h;
    }

    method SetResponseType(t: ResponseType)
      modifies this`responseType
      ensures responseType == Some(t)
    {
      responseType := Some(t);
    }

    method SetRetry(n: int)
      modifies this`retry
      ensures retry == Some(n)
    {
      retry := Some(n);
    }

    /** `set task` and `setTask`. */
    method SetTask(t: Task)
      modifies this`task
      ensures task == Some(t)
    {
      task := Some(t);
    }

    /** `addDataParser`: creates the array on first use, then appends. */
    method AddDataParser(p: Parser)
      modifies this`dataParser
      ensures dataParser == Some(old(DataParsers()) + [p])
    {
      if dataParser.None? {
        dataParser := Some([]);
      }
      dataParser := Some(dataParser.value + [p]);
    }

    method SetDataParsers(ps: seq<Parser>)
      modifies this`dataParser
      ensures dataParser == Some(ps)
    {
      dataParser := Some(ps);
    }

    /**
     * `get task`: the stored executor, or else a new default one (AxiosTaskImpl, whose retry
     * field keeps its initial 0) on every call.
     */
    method GetTask() returns (t: Task)
      ensures task.Some? ==> t == task.value
      ensures task.None? ==> fresh(t)
      ensures (t.successListeners, t.failListeners) == TaskListeners()
      ensures t.Progress() == TaskProgress() && t.Settings() == TaskSettings()
    {
      if task.Some? {
        t := task.value;
      } else {
        t := new TaskPerformer<Listener>(0);
      }
    }
  }

  // ---------------------------------------------------------------- Request

  /**
   * Request: the description of one call plus the executor it is bound to. Listener ids
   * stand for the application's closures; `isIgnore` and `frontListener` are stored only.
   */
  class Request {
    var url: Option<string>
    var data: Json
    var verb: Option<Method>
    var headers: seq<Header>
    var tag: string
    var isIgnore: () -> bool
    var requestConfig: Option<RequestConfig>
    var task: Option<Task>
    var successListener: Option<nat>
    var failListener: Option<nat>
    var frontListener: Option<nat>

    /** A request holds an executor exactly when it holds a configuration. */
    ghost predicate Valid()
      reads this
    {
      requestConfig.Some? <==> task.Some?
    }

    /** The field initialisers. */
    ghost predicate Unbound()
      reads this
    {
      && data == Object(map[]) && headers == [] && tag == "" && !isIgnore()
      && requestConfig == None && task == None
      && successListener == None && failListener == None && frontListener == None
    }

    /** `createRequest`. */
    constructor Create(url: Option<string>, verb: Method)
      ensures Valid() && Unbound()
      ensures this.url == url && this.verb == Some(verb)
    {
      this.url, data, this.verb, headers, tag := url, Object(map[]), Some(verb), [], "";
      isIgnore := () => false;
      requestConfig, task := None, None;
      successListener, failListener, frontListener := None, None, None;
    }

    static method Get(url: Option<string>) returns (r: Request)
      ensures fresh(r) && r.Valid() && r.Unbound() && r.url == url && r.verb == Some(GET)
    {
      r := new Request.Create(url, GET);
    }

    static method Delete(url: Option<string>) returns (r: Request)
      ensures fresh(r) && r.Valid() && r.Unbound() && r.url == url && r.verb == Some(DELETE)
    {
      r := new Request.Create(url, DELETE);
    }

    static method Head(url: Option<string>) returns (r: Request)
      ensures fresh(r) && r.Valid() && r.Unbound() && r.url == url && r.verb == Some(HEAD)
    {
      r := new Request.Create(url, HEAD);
    }

    static method Options(url: Option<string>) returns (r: Request)
      ensures fresh(r) && r.Valid() && r.Unbound() && r.url == url && r.verb == Some(OPTIONS)
    {
      r := new Request.Create(url, OPTIONS);
    }

    static method Post(url: Option<string>) returns (r: Request)
      ensures fresh(r) && r.Valid() && r.Unbound() && r.url == url && r.verb == Some(POST)
    {
      r := new Request.Create(url, POST);
    }

    static method Put(url: Option<string>) returns (r: Request)
      ensures fresh(r) && r.Valid() && r.Unbound() && r.url == url && r.verb == Some(PUT)
    {
      r := new Request.Create(url, PUT);
    }

    static method Patch(url: Option<string>) returns (r: Request)
      ensures fresh(r) && r.Valid() && r.Unbound() && r.url == url && r.verb == Some(PATCH)
    {
      r := new Request.Create(url, PATCH);
    }

    method SetIgnore(f: () -> bool) returns (self: Request)
      modifies this`isIgnore
      ensures self == this && isIgnore == f
    {
      isIgnore := f;
      self := this;
    }

    method SetSuccessListener(id: nat) returns (self: Request)
      modifies this`successListener
      ensures self == this && successListener == Some(id)
    {
      successListener := Some(id);
      self := this;
    }

    method SetFailListener(id: nat) returns (self: Request)
      modifies this`failListener
      ensures self == this && failListener == Some(id)
    {
      failListener := Some(id);
      self := this;
    }

    method SetFrontListener(id: nat) returns (self: Request)
      modifies this`frontListener
      ensures self == this && frontListener == Some(id)
    {
      frontListener := Some(id);
      self := this;
    }

    method SetUrl(u: Option<string>)
      modifies this`url
      ensures url == u
    {
      url := u;
    }

    method SetData(d: Json) returns (self: Request)
      modifies this`data
      ensures self == this && data == d
    {
      data := d;
      self := this;
    }

    method SetMethod(m: Option<Method>) returns (self: Request)
      modifies this`verb
      ensures self == this && verb == m
    {
      verb := m;
      self := this;
    }

    method SetHeaders(hs: seq<Header>) returns (self: Request)
      modifies this`headers
      ensures self == this && headers == hs
    {
      headers := hs;
      self := this;
    }

    /** `addHeader`: appends, so an earlier header with the same key stays in the list. */
    method AddHeader(key: string, value: string) returns (self: Request)
      modifies this`headers
      ensures self == this && headers == old(headers) + [Header(key, value)]
    {
      headers := headers + [Header(key, value)];
      self := this;
    }

    method SetTag(t: string) returns (self: Request)
      modifies this`tag
      ensures self == this && tag == t
    {
      tag := t;
      self := this;
    }

    /** `getData`: a falsy body reads as an empty object. */
    function GetData(): (r: Json)
      reads this`data
      ensures Truthy(data) ==> r == data
      ensures !Truthy(data) ==> r == Object(map[])
      ensures Truthy(r)
    {
      if Truthy(data) then data else Object(map[])
    }

    /** The executor the request is bound to, as a frame. */
    function Bound(): set<object>
      reads this
    {
      if task.Some? then {task.value} else {}
    }

    /**
     * What `initTask` reads through the getters: the body it cleans up is never falsy, so
     * the `data || {}` of `disposeDataIsNull` keeps it as it is.
     */
    function View(): (r: RequestView)
      reads this`url, this`data, this`verb, this`headers, this`frontListener
      ensures Truthy(r.data)
    {
      RequestView(url, GetData(), verb, headers, frontListener)
    }

    /** The forwarding success closure of `buildTask`: calls the request's own listener if set. */
    function ForwardSuccess(d: Json, result: Option<Response>): (r: seq<QueueEvent>)
      reads this
      ensures |r| <= 1 && Every(r, NotQueueDelivery)
      ensures successListener.None? ==> r == []
    {
      if successListener.Some? then [RequestSucceeded(successListener.value, d, result)] else []
    }

    /** The forwarding fail closure of `buildTask`. */
    function ForwardFail(e: ErrorEntity): (r: seq<QueueEvent>)
      reads this
      ensures |r| <= 1 && Every(r, NotQueueDelivery)
      ensures failListener.None? ==> r == []
    {
      if failListener.Some? then [RequestFailed(failListener.value, e)] else []
    }

    /**
     * `setRequestConfig`: binds once. A second call changes nothing. The first stores the
     * configuration, takes its executor (or a new default one), registers the two forwarders
     * on it and calls `initTask`; when `initTask` throws, the configuration and the executor
     * stay bound.
     */
    method SetRequestConfig(config: RequestConfig) returns (res: Outcome<string>)
      requires Valid()
      modifies this`requestConfig, this`task, config.TaskSet()
      ensures Valid() && requestConfig.Some?
      ensures old(requestConfig).Some? ==> res == Pass && requestConfig == old(requestConfig) && task == old(task)
      ensures old(requestConfig).Some? ==> forall o :: o in old(config.TaskSet()) ==> unchanged(o)
      ensures old(requestConfig).None? ==> BoundTo(config, res)
    {
      if requestConfig.Some? {
        return Pass;
      }
      requestConfig := Some(config);
      res := BuildTask();
    }

    /** What the first `setRequestConfig` with `config` leaves behind. */
    twostate predicate BoundTo(config: RequestConfig, new res: Outcome<string>)
      reads this, config, if task.Some? then {task.value} else {}
    {
      && requestConfig == Some(config) && task.Some?
      && (old(config.task).Some? ==> task == old(config.task))
      && (old(config.task).None? ==> fresh(task.value))
      && var t := task.value;
      && t.successListeners == old(config.TaskListeners()).0 + [ForwardToRequest(this)]
      && t.failListeners == old(config.TaskListeners()).1 + [ForwardToRequest(this)]
      && res == InitOutcome(View(), config.View())
      && t.url == url
      && (res.Pass? ==> t.Configured(View(), config.View()))
      && t.Progress() == old(config.TaskProgress())
      && (IsEmpty(UrlValue(url)) ==> t.Settings() == old(config.TaskSettings()))
    }

    /** `buildTask`. The configured executor's retry count is its own field, not the configuration's. */
    method BuildTask() returns (res: Outcome<string>)
      requires requestConfig.Some?
      modifies this`task, requestConfig.value.TaskSet()
      ensures requestConfig == old(requestConfig)
      ensures BoundTo(requestConfig.value, res)
    {
      var config := requestConfig.value;
      var t := Attach(config);
      res := t.InitTask(View(), config.View());
    }

    /** The first half of `buildTask`: the executor and the two forwarding closures. */
    method Attach(config: RequestConfig) returns (t: Task)
      modifies this`task, config.TaskSet()
      ensures task == Some(t)
      ensures old(config.task).Some? ==> t == old(config.task.value)
      ensures old(config.task).None? ==> fresh(t)
      ensures t.successListeners == old(config.TaskListeners()).0 + [ForwardToRequest(this)]
      ensures t.failListeners == old(config.TaskListeners()).1 + [ForwardToRequest(this)]
      ensures t.Progress() == old(config.TaskProgress()) && t.Settings() == old(config.TaskSettings())
    {
      t := config.GetTask();
      task := Some(t);
      t.AddSuccessListener(ForwardToRequest(this));
      t.AddFailListener(ForwardToRequest(this));
    }
  }

  // ---------------------------------------------------------------- groups

  /** What a group's hook asks the queue to do. */
  datatype GroupCall =
    | HookSuccess(data: Json, result: Option<Response>)
    | HookFail(error: ErrorEntity)
    | HookComplete

  /**
   * TaskQueueParallelImpl: runs all of its executors at once. Its three hook slots hold the
   * queue's closures; `completeHook` holds the queue's captured, mutable group counter.
   */
  class ParallelGroup {
    var tasks: seq<Task>
    var successHook: bool
    var failHook: bool
    var completeHook: Option<nat>

    constructor ()
      ensures tasks == [] && !successHook && !failHook && completeHook == None
    {
      tasks, successHook, failHook, completeHook := [], false, false, None;
    }

    /** `setSuccessListener`, `setFailListener`, `setCompleteListener`: the queue's closures. */
    method SetHooks(count: nat)
      modifies this`successHook, this`failHook, this`completeHook
      ensures successHook && failHook && completeHook == Some(count)
    {
      successHook, failHook, completeHook := true, true, Some(count);
    }

    /** The complete closure's `count++`. */
    method SetCompleteHook(count: nat)
      modifies this`completeHook
      ensures completeHook == Some(count)
    {
      completeHook := Some(count);
    }

    /** What `nextTaskQueue` does to this group: the queue's three closures are set, then `run`. */
    method Launch(count: nat) returns (completeNow: bool)
      modifies this`successHook, this`failHook, this`completeHook, tasks
      ensures successHook && failHook && completeHook == Some(count)
      ensures completeNow <==> |tasks| == 0
      ensures forall t :: t in tasks ==> RanTimes(t, Occurrences(tasks, t))
    {
      SetHooks(count);
      completeNow := Run();
    }

    /** `setRequestTasks`: appends. */
    method SetRequestTasks(t: Task)
      modifies this`tasks
      ensures tasks == old(tasks) + [t]
    {
      tasks := tasks + [t];
    }

    /** Every member has finished with SUCCESS. */
    ghost predicate AllSucceeded()
      reads this, tasks
    {
      forall i :: 0 <= i < |tasks| ==> tasks[i].state == SUCCESS
    }

    /** `isAllFinish`: counts the SUCCESS members and compares with the group size. */
    method IsAllFinish() returns (b: bool)
      ensures b <==> AllSucceeded()
    {
      var successCount := 0;
      var i := 0;
      while i < |tasks|
        invariant 0 <= successCount <= i <= |tasks|
        invariant successCount == i <==> forall j :: 0 <= j < i ==> tasks[j].state == SUCCESS
      {
        if tasks[i].state == SUCCESS {
          successCount := successCount + 1;
        }
        i := i + 1;
      }
      b := |tasks| == successCount;
    }

    /** The effect of `run` on one executor that occurs `n` times in the group. */
    twostate predicate RanTimes(t: Task, n: nat)
      reads this, t
    {
      && t.successListeners == old(t.successListeners) + Repeat(GroupMember(this), n)
      && t.failListeners == old(t.failListeners) + Repeat(GroupMember(this), n)
      && t.sends == old(t.sends) + Repeat(old(t.CurrentSend()), n)
      && t.inFlight == old(t.inFlight) + n
      && (if n == 0 then t.state == old(t.state) else t.state == RUNNING)
      && t.isAbort == old(t.isAbort) && t.cancels == old(t.cancels)
      && Untouched(t)
    }

    /** Fields of an executor that neither `run` nor `abort` of a group changes: all of `initTask`'s and the retry counters. */
    twostate predicate Untouched(t: Task)
      reads t
    {
      && t.url == old(t.url) && t.Settings() == old(t.Settings())
      && t.retry == old(t.retry) && t.currentRetry == old(t.currentRetry)
    }

    /**
     * `run`: an empty group completes at once (returned as `completeNow`, since the queue
     * owns the complete closure); otherwise each member gets this group's success and fail
     * closures and is run, in order.
     */
    method Run() returns (completeNow: bool)
      modifies tasks
      ensures completeNow <==> |tasks| == 0 && completeHook.Some?
      ensures forall t :: t in tasks ==> RanTimes(t, Occurrences(tasks, t))
    {
      if |tasks| == 0 {
        return completeHook.Some?;
      }
      completeNow := false;
      var i := 0;
      while i < |tasks|
        invariant 0 <= i <= |tasks|
        invariant forall t :: t in tasks ==> RanTimes(t, Occurrences(tasks[..i], t))
      {
        var t := tasks[i];
        assert tasks[..i + 1] == tasks[..i] + [t];
        assert tasks[..i + 1][..i] == tasks[..i];
        Join(t);
        i := i + 1;
      }
      assert tasks[..i] == tasks;
    }

    /** One iteration of the loop in `run`. */
    method Join(t: Task)
      modifies t
      ensures t.successListeners == old(t.successListeners) + [GroupMember(this)]
      ensures t.failListeners == old(t.failListeners) + [GroupMember(this)]
      ensures t.sends == old(t.sends) + [old(t.CurrentSend())] && t.inFlight == old(t.inFlight) + 1
      ensures t.state == RUNNING && t.isAbort == old(t.isAbort) && t.cancels == old(t.cancels) && Untouched(t)
    {
      t.AddSuccessListener(GroupMember(this));
      t.AddFailListener(GroupMember(this));
      t.Run();
    }

    /** The effect of `abort` on one executor that occurs `n` times in the group. */
    twostate predicate AbortedTimes(t: Task, n: nat)
      reads t
    {
      && (if n == 0 then t.isAbort == old(t.isAbort) else t.isAbort)
      && t.cancels == old(t.cancels) + n
      && t.state == old(t.state) && t.successListeners == old(t.successListeners)
      && t.failListeners == old(t.failListeners) && t.sends == old(t.sends) && t.inFlight == old(t.inFlight)
      && Untouched(t)
    }

    /** `abort`: aborts every member, in order. */
    method Abort()
      modifies tasks
      ensures forall t :: t in tasks ==> AbortedTimes(t, Occurrences(tasks, t))
    {
      var i := 0;
      while i < |tasks|
        invariant 0 <= i <= |tasks|
        invariant forall t :: t in tasks ==> AbortedTimes(t, Occurrences(tasks[..i], t))
      {
        assert tasks[..i + 1] == tasks[..i] + [tasks[i]];
        assert tasks[..i + 1][..i] == tasks[..i];
        tasks[i].Abort();
        i := i + 1;
      }
      assert tasks[..i] == tasks;
    }

    /**
     * The member success closure of `run`: the group's success hook, then the complete hook
     * when every member has succeeded.
     */
    method OnMemberSuccess(data: Json, result: Option<Response>) returns (calls: seq<GroupCall>)
      ensures calls == (if successHook then [HookSuccess(data, result)] else [])
                     + (if AllSucceeded() && completeHook.Some? then [HookComplete] else [])
      ensures HookComplete in calls <==> AllSucceeded() && completeHook.Some?
    {
      calls := [];
      if successHook {
        calls := [HookSuccess(data, result)];
      }
      var allFinish := IsAllFinish();
      if allFinish && completeHook.Some? {
        calls := calls + [HookComplete];
      }
    }

    /** The member fail closure of `run`: aborts the whole group, then the group's fail hook. */
    method OnMemberFail(error: ErrorEntity) returns (calls: seq<GroupCall>)
      modifies tasks
      ensures forall t :: t in tasks ==> AbortedTimes(t, Occurrences(tasks, t))
      ensures calls == if failHook then [HookFail(error)] else []
    {
      Abort();
      calls := if failHook then [HookFail(error)] else [];
    }
  }

  /**
   * TaskQueueSerialImpl is not part of this model: only its list of executors and its hook
   * slots are, and each signal it gives arrives at the queue as an outside event.
   */
  class SerialGroup {
    var tasks: seq<Task>
    var successHook: bool
    var failHook: bool
    var completeHook: Option<nat>
    /** The number of `run` calls. */
    ghost var runs: nat

    constructor ()
      ensures tasks == [] && !successHook && !failHook && completeHook == None && runs == 0
    {
      tasks, successHook, failHook, completeHook, runs := [], false, false, None, 0;
    }

    /** `setSuccessListener`, `setFailListener`, `setCompleteListener`: the queue's closures. */
    method SetHooks(count: nat)
      modifies this`successHook, this`failHook, this`completeHook
      ensures successHook && failHook && completeHook == Some(count)
    {
      successHook, failHook, completeHook := true, true, Some(count);
    }

    /** The complete closure's `count++`. */
    method SetCompleteHook(count: nat)
      modifies this`completeHook
      ensures completeHook == Some(count)
    {
      completeHook := Some(count);
    }

    method SetRequestTasks(t: Task)
      modifies this`tasks
      ensures tasks == old(tasks) + [t]
    {
      tasks := tasks + [t];
    }

    /**
     * TaskQueueSerialImpl's `run`, which starts its members one at a time. Its members may
     * change in any way; only the run itself is counted.
     */
    method Run()
      modifies this`runs, tasks
      ensures runs == old(runs) + 1
    {
      runs := runs + 1;
    }

    /** What `nextTaskQueue` does to this group: the queue's three closures are set, then `run`. */
    method Launch(count: nat)
      modifies this`successHook, this`failHook, this`completeHook, this`runs, tasks
      ensures successHook && failHook && completeHook == Some(count) && runs == old(runs) + 1
    {
      SetHooks(count);
      Run();
    }
  }

  // ---------------------------------------------------------------- RequestQueue

  /** An entry of the queue: TaskQueueParallelImpl or TaskQueueSerialImpl. */
  datatype TaskGroup = Parallel(p: ParallelGroup) | Serial(s: SerialGroup)

  function GroupObject(g: TaskGroup): object {
    match g
    case Parallel(p) => p
    case Serial(s) => s
  }

  function GroupTasks(g: TaskGroup): seq<Task>
    reads GroupObject(g)
  {
    match g
    case Parallel(p) => p.tasks
    case Serial(s) => s.tasks
  }

  function CompleteHook(g: TaskGroup): Option<nat>
    reads GroupObject(g)
  {
    match g
    case Parallel(p) => p.completeHook
    case Serial(s) => s.completeHook
  }

  /** The success, fail and complete closure slots of a group. */
  function Hooks(g: TaskGroup): (bool, bool, Option<nat>)
    reads GroupObject(g)
  {
    match g
    case Parallel(p) => (p.successHook, p.failHook, p.completeHook)
    case Serial(s) => (s.successHook, s.failHook, s.completeHook)
  }

  /** How often a serial group was run; parallel groups keep no such count. */
  ghost function Runs(g: TaskGroup): nat
    reads GroupObject(g)
  {
    match g
    case Parallel(_) => 0
    case Serial(s) => s.runs
  }

  /** The number of invocations of the queue's fail listener in a trace. */
  function QueueFailures(trace: seq<QueueEvent>): nat {
    if trace == [] then 0
    else QueueFailures(trace[..|trace| - 1]) + (if trace[|trace| - 1].QueueFailed? then 1 else 0)
  }

  lemma {:induction false} QueueFailuresAppend(a: seq<QueueEvent>, b: seq<QueueEvent>)
    ensures QueueFailures(a + b) == QueueFailures(a) + QueueFailures(b)
    decreases |b|
  {
    if b == [] {
      assert a + b == a;
    } else {
      var init := b[..|b| - 1];
      assert (a + b)[..|a + b| - 1] == a + init;
      QueueFailuresAppend(a, init);
    }
  }

  /** Every event of `s` satisfies `P`. */
  ghost predicate Every(s: seq<QueueEvent>, P: QueueEvent -> bool) {
    forall i :: 0 <= i < |s| ==> P(s[i])
  }

  lemma EveryJoin(a: seq<QueueEvent>, b: seq<QueueEvent>, c: seq<QueueEvent>, P: QueueEvent -> bool)
    requires a <= b <= c && Every(b[|a|..], P) && Every(c[|b|..], P)
    ensures Every(c[|a|..], P)
  {
    assert c[|a|..] == b[|a|..] + c[|b|..];
  }

  /** A group start or the queue's completion: the only events of moving on. */
  ghost predicate IsProgress(e: QueueEvent) {
    e.GroupStarted? || e.QueueCompleted?
  }

  /** Anything but a queue-level success, failure or error message. */
  ghost predicate NotQueueDelivery(e: QueueEvent) {
    !e.QueueSucceeded? && !e.QueueFailed? && !e.ContextFailMessage?
  }

  lemma ProgressIsNotDelivery(s: seq<QueueEvent>)
    requires Every(s, IsProgress)
    ensures Every(s, NotQueueDelivery)
  {
  }

  /** A group start, if any, is of a group with index `c` or more. */
  ghost predicate StartsFrom(c: nat, e: QueueEvent) {
    e.GroupStarted? ==> e.index >= c
  }

  /** A trace with no QueueFailed event has no queue failure. */
  lemma NoFailures(s: seq<QueueEvent>)
    requires Every(s, NotQueueDelivery)
    ensures QueueFailures(s) == 0
    decreases |s|
  {
    if s != [] {
      NoFailures(s[..|s| - 1]);
    }
  }

  /** What a request's forwarding closure records for an executor's notification. */
  function Forwarded(note: Notification<Listener>): (r: seq<QueueEvent>)
    requires note.listener.ForwardToRequest?
    reads note.listener.request
    ensures Every(r, NotQueueDelivery) && |r| <= 1
  {
    match note
    case SuccessNote(l, data, result) => l.request.ForwardSuccess(data, result)
    case FailNote(l, error) => l.request.ForwardFail(error)
  }

  const TaskQueueMessage: string := "TaskQueue 出现错误!"

  /**
   * RequestQueue: an ordered list of groups, run one after another. `trace` records, in
   * order, each group start and every call of the application's listeners that the queue's
   * and the requests' closures make. The context is reduced to whether one was given.
   */
  class RequestQueue {
    var groups: seq<TaskGroup>
    var cursor: int
    var canceled: bool
    var hasContext: bool
    var isShowErrorMessage: bool
    var successListener: Option<nat>
    var failListener: Option<nat>
    var completeListener: Option<nat>
    ghost var trace: seq<QueueEvent>
    /** The group objects, by class, and every executor they hold. */
    ghost var parallels: set<ParallelGroup>
    ghost var serials: set<SerialGroup>
    ghost var executors: set<Task>

    ghost predicate Valid()
      reads this, parallels`tasks, serials`tasks
    {
      Shape() && Accounted()
    }

    /** The cursor is the last group, and every group and executor is accounted for. */
    ghost predicate Shape()
      reads this`groups, this`cursor, this`parallels, this`serials, this`executors, parallels`tasks, serials`tasks
    {
      && cursor == |groups| - 1
      && (forall k :: 0 <= k < |groups| ==> InSets(groups[k]))
      && (forall p :: p in parallels ==> forall t :: t in p.tasks ==> t in executors)
      && (forall q :: q in serials ==> forall t :: t in q.tasks ==> t in executors)
    }

    /** At most one queue-level failure is ever reported, and only once canceled. */
    ghost predicate Accounted()
      reads this`trace, this`canceled
    {
      QueueFailures(trace) <= (if canceled then 1 else 0)
    }

    ghost predicate InSets(g: TaskGroup)
      reads this`parallels, this`serials
    {
      match g
      case Parallel(p) => p in parallels
      case Serial(q) => q in serials
    }

    /** The groups, and the objects the queue accounts for. */
    ghost function Layout(): (seq<TaskGroup>, int, set<ParallelGroup>, set<SerialGroup>, set<Task>)
      reads this`groups, this`cursor, this`parallels, this`serials, this`executors
    {
      (groups, cursor, parallels, serials, executors)
    }

    /** The queue's own listeners and its context settings. */
    ghost function Setup(): (Option<nat>, Option<nat>, Option<nat>, bool, bool)
      reads this`successListener, this`failListener, this`completeListener, this`hasContext, this`isShowErrorMessage
    {
      (successListener, failListener, completeListener, hasContext, isShowErrorMessage)
    }

    /** What no step of the queue changes, and what only grows. */
    twostate predicate Steady()
      reads this, parallels`tasks, serials`tasks
    {
      && Layout() == old(Layout()) && Setup() == old(Setup())
      && (forall p :: p in old(parallels) ==> p.tasks == old(p.tasks))
      && (forall q :: q in old(serials) ==> q.tasks == old(q.tasks))
      && (old(canceled) ==> canceled)
      && old(trace) <= trace
    }

    /** `create`: a new queue already holds one, empty, parallel group. */
    constructor Create(hasContext: bool)
      ensures Valid() && fresh(parallels)
      ensures |groups| == 1 && groups[0].Parallel? && GroupTasks(groups[0]) == [] && CompleteHook(groups[0]) == None
      ensures !canceled && this.hasContext == hasContext && isShowErrorMessage && trace == []
      ensures successListener == None && failListener == None && completeListener == None
    {
      groups, cursor, canceled := [], -1, false;
      this.hasContext, isShowErrorMessage := hasContext, true;
      successListener, failListener, completeListener := None, None, None;
      trace, parallels, serials, executors := [], {}, {}, {};
      new;
      BelowParallel();
    }

    /** `belowParallel`: later `addRequest` calls go to a new parallel group. */
    method BelowParallel()
      requires Valid()
      modifies this
      ensures Valid() && serials == old(serials) && executors == old(executors)
      ensures |groups| == |old(groups)| + 1 && groups[..|old(groups)|] == old(groups)
      ensures var g := groups[|groups| - 1];
                g.Parallel? && fresh(g.p) && parallels == old(parallels) + {g.p}
                && GroupTasks(g) == [] && CompleteHook(g) == None
      ensures cursor == old(cursor) + 1 && canceled == old(canceled) && trace == old(trace)
      ensures successListener == old(successListener) && failListener == old(failListener)
      ensures completeListener == old(completeListener) && hasContext == old(hasContext)
      ensures isShowErrorMessage == old(isShowErrorMessage)
    {
      var p := new ParallelGroup();
      groups := groups + [Parallel(p)];
      cursor := cursor + 1;
      parallels := parallels + {p};
    }

    /** `belowSerial`: later `addRequest` calls go to a new serial group. */
    method BelowSerial()
      requires Valid()
      modifies this
      ensures Valid() && parallels == old(parallels) && executors == old(executors)
      ensures |groups| == |old(groups)| + 1 && groups[..|old(groups)|] == old(groups)
      ensures var g := groups[|groups| - 1];
                g.Serial? && fresh(g.s) && serials == old(serials) + {g.s}
                && GroupTasks(g) == [] && CompleteHook(g) == None
      ensures cursor == old(cursor) + 1 && canceled == old(canceled) && trace == old(trace)
      ensures successListener == old(successListener) && failListener == old(failListener)
      ensures completeListener == old(completeListener) && hasContext == old(hasContext)
      ensures isShowErrorMessage == old(isShowErrorMessage)
    {
      var q := new SerialGroup();
      groups := groups + [Serial(q)];
      cursor := cursor + 1;
      serials := serials + {q};
    }

    method SetSuccessListener(id: nat)
      requires Valid()
      modifies this`successListener
      ensures Valid() && successListener == Some(id)
    {
      successListener := Some(id);
    }

    method SetFailListener(id: nat)
      requires Valid()
      modifies this`failListener
      ensures Valid() && failListener == Some(id)
    {
      failListener := Some(id);
    }

    method SetCompleteListener(id: nat)
      requires Valid()
      modifies this`completeListener
      ensures Valid() && completeListener == Some(id)
    {
      completeListener := Some(id);
    }

    /** `getTaskQueue`: the group at the cursor, the first one while the cursor is -1. */
    function GetTaskQueue(): (r: Option<TaskGroup>)
      reads this
      ensures cursor == |groups| - 1 ==> r == if |groups| == 0 then None else Some(groups[|groups| - 1])
    {
      var i := if cursor == -1 then 0 else cursor;
      if 0 <= i < |groups| then Some(groups[i]) else None
    }

    /**
     * `addRequest`: throws when there is no group at the cursor; otherwise binds the request
     * to `config` (an exception of `initTask` propagates, so nothing is appended) and appends
     * its executor to that group. The static configuration factory is the parameter `config`.
     */
    method AddRequest(request: Request, config: RequestConfig) returns (res: Outcome<string>)
      requires Valid() && request.Valid()
      modifies this`executors, parallels, serials, request`requestConfig, request`task, config.TaskSet()
      ensures Valid() && request.Valid()
      ensures res.Pass? ==> request.task.Some? && executors == old(executors) + {request.task.value}
      ensures res.Fail? ==> executors == old(executors)
      ensures groups == old(groups) && cursor == old(cursor) && canceled == old(canceled) && trace == old(trace)
      ensures |groups| == 0 ==> res == Fail(TaskQueueMessage) && unchanged(request)
      ensures |groups| > 0 && old(request.requestConfig).Some? ==>
                res == Pass && request.requestConfig == old(request.requestConfig) && request.task == old(request.task)
      ensures |groups| > 0 && old(request.requestConfig).None? ==> request.BoundTo(config, res)
      ensures res.Pass? ==>
                && |groups| > 0 && request.task.Some?
                && GroupTasks(groups[cursor]) == old(GroupTasks(groups[cursor])) + [request.task.value]
      ensures forall k :: 0 <= k < |groups| && (GroupObject(groups[k]) != GroupObject(groups[cursor]) || res.Fail?) ==>
                GroupTasks(groups[k]) == old(GroupTasks(groups[k]))
      ensures forall k :: 0 <= k < |groups| ==> Hooks(groups[k]) == old(Hooks(groups[k])) && Runs(groups[k]) == old(Runs(groups[k]))
    {
      var queue := GetTaskQueue();
      if queue.None? {
        return Fail(TaskQueueMessage);
      }
      res := BindAndEnqueue(queue.value, request, config);
    }

    /** `addRequest` once the group at the cursor exists. */
    method BindAndEnqueue(g: TaskGroup, request: Request, config: RequestConfig) returns (res: Outcome<string>)
      requires Valid() && request.Valid() && |groups| > 0 && g == groups[cursor]
      modifies this`executors, GroupObject(g), request`requestConfig, request`task, config.TaskSet()
      ensures Valid() && request.Valid()
      ensures res.Pass? ==> request.task.Some? && executors == old(executors) + {request.task.value}
      ensures res.Fail? ==> executors == old(executors)
      ensures old(request.requestConfig).Some? ==>
                res == Pass && request.requestConfig == old(request.requestConfig) && request.task == old(request.task)
      ensures old(request.requestConfig).None? ==> request.BoundTo(config, res)
      ensures res.Pass? ==> request.task.Some? && GroupTasks(g) == old(GroupTasks(g)) + [request.task.value]
      ensures forall k :: 0 <= k < |groups| && (GroupObject(groups[k]) != GroupObject(g) || res.Fail?) ==>
                GroupTasks(groups[k]) == old(GroupTasks(groups[k]))
      ensures forall k :: 0 <= k < |groups| ==> Hooks(groups[k]) == old(Hooks(groups[k])) && Runs(groups[k]) == old(Runs(groups[k]))
    {
      res := Bind(request, config);
      if res.Fail? {
        return;
      }
      Enqueue(g, request.task.value);
    }

    /** The `setRequestConfig` step of `addRequest`: the queue's groups are left as they are. */
    method Bind(request: Request, config: RequestConfig) returns (res: Outcome<string>)
      requires Valid() && request.Valid()
      modifies request`requestConfig, request`task, config.TaskSet()
      ensures Valid() && request.Valid() && request.requestConfig.Some?
      ensures old(request.requestConfig).Some? ==>
                res == Pass && request.requestConfig == old(request.requestConfig) && request.task == old(request.task)
      ensures old(request.requestConfig).None? ==> request.BoundTo(config, res)
      ensures forall k :: 0 <= k < |groups| ==> GroupTasks(groups[k]) == old(GroupTasks(groups[k]))
      ensures forall k :: 0 <= k < |groups| ==> Hooks(groups[k]) == old(Hooks(groups[k])) && Runs(groups[k]) == old(Runs(groups[k]))
    {
      res := request.SetRequestConfig(config);
      assert Valid();
    }

    /** The tail of `addRequest`: `setRequestTasks` on the group at the cursor. */
    method Enqueue(g: TaskGroup, t: Task)
      requires Valid() && |groups| > 0 && g == groups[cursor]
      modifies this`executors, GroupObject(g)
      ensures Valid() && executors == old(executors) + {t}
      ensures GroupTasks(g) == old(GroupTasks(g)) + [t]
      ensures forall k :: 0 <= k < |groups| && GroupObject(groups[k]) != GroupObject(g) ==>
                GroupTasks(groups[k]) == old(GroupTasks(groups[k]))
      ensures forall k :: 0 <= k < |groups| ==> Hooks(groups[k]) == old(Hooks(groups[k])) && Runs(groups[k]) == old(Runs(groups[k]))
    {
      executors := executors + {t};
      match g
      case Parallel(p) => p.SetRequestTasks(t);
      case Serial(q) => q.SetRequestTasks(t);
    }

    /** How far a group index is from the end of the queue. */
    function Remaining(count: nat): nat
      reads this`groups
    {
      if count < |groups| then |groups| - count else 0
    }

    /** The queue's completion, as `nextTaskQueue` reports it past the last group. */
    function Completion(): seq<QueueEvent>
      reads this`completeListener
    {
      if completeListener.Some? then [QueueCompleted(completeListener.value)] else []
    }

    /** Some group at index `from` or later holds executor `t`. */
    ghost predicate HeldFrom(t: Task, from: nat)
      requires Valid()
      reads this, parallels, serials
    {
      exists k :: from <= k < |groups| && t in GroupTasks(groups[k])
    }

    /** Every executor of the queue is as it was. */
    twostate predicate ExecutorsKept()
      reads this, executors
    {
      forall t :: t in old(executors) && t in executors ==> unchanged(t)
    }

    /** Every executor of the queue that no group at index `from` or later holds is as it was. */
    twostate predicate KeptBelow(from: nat)
      requires Valid()
      reads this, parallels, serials, executors
    {
      forall t :: t in old(executors) && t in executors && !HeldFrom(t, from) ==> unchanged(t)
    }

    /**
     * What giving group `count` the queue's three closures and running it does, read from
     * position `at` of the trace on. A group with executors is left running: it holds the
     * closures, each member (per occurrence) has the group's member closures and one more
     * send, a serial group has one more run, no other executor changes, and nothing is
     * recorded. An empty parallel group
     * calls its complete closure at once, so group `count + 1` starts, or the queue completes.
     */
    twostate predicate Launched(count: nat, at: nat)
      requires Valid() && count < |groups| && at <= |trace|
      reads this, parallels, serials, executors
    {
      assert InSets(groups[count]);
      match groups[count]
      case Parallel(p) =>
        if p.tasks == [] then
          && (count + 1 < |groups| ==> |trace| > at && trace[at] == GroupStarted(count + 1))
          && (count + 1 >= |groups| ==> trace[at..] == Completion())
        else
          && trace[at..] == [] && Hooks(groups[count]) == (true, true, Some(count)) && old(allocated(p))
          && (forall t :: t in p.tasks ==> old(allocated(t)) && p.RanTimes(t, Occurrences(p.tasks, t)))
          && forall t :: t in old(executors) && t in executors && t !in p.tasks ==> unchanged(t)
      case Serial(q) =>
        && trace[at..] == [] && Hooks(groups[count]) == (true, true, Some(count))
        && old(allocated(q)) && q.runs == old(q.runs) + 1
        && forall t :: t in old(executors) && t in executors && t !in q.tasks ==> unchanged(t)
    }

    /** Appends events that are no queue-level delivery to the trace. */
    method Record(events: seq<QueueEvent>)
      requires Valid() && Every(events, NotQueueDelivery)
      modifies this`trace
      ensures Valid() && trace == old(trace) + events
    {
      NoFailures(events);
      QueueFailuresAppend(trace, events);
      trace := trace + events;
    }

    /**
     * `nextTaskQueue`: past the last group the queue completes; otherwise the group at
     * `count` is started.
     */
    method NextTaskQueue(count: nat)
      requires Valid()
      modifies this, parallels, serials, executors
      decreases Remaining(count), if count < |groups| then 5 else 0
      ensures Valid() && Steady() && canceled == old(canceled)
      ensures Every(trace[|old(trace)|..], IsProgress)
      ensures Every(trace[|old(trace)|..], e => StartsFrom(count, e)) && KeptBelow(count)
      ensures count < |groups| ==> |trace| > |old(trace)| && trace[|old(trace)|] == GroupStarted(count)
      ensures count < |groups| ==> Launched(count, |old(trace)| + 1)
      ensures count >= |groups| ==> trace == old(trace) + Completion()
    {
      if count >= |groups| {
        Record(Completion());
      } else {
        StartAt(count);
      }
    }

    /**
     * `nextTaskQueue` on the index of an existing group: the group receives the queue's
     * three closures and is run, and the start is recorded once `run` returns. The complete
     * closure of a parallel group with no executors, which fires within `run`, is taken
     * after that record.
     */
    method StartAt(count: nat)
      requires Valid() && count < |groups|
      modifies this, parallels, serials, executors
      decreases Remaining(count), 4
      ensures Valid() && Steady() && canceled == old(canceled)
      ensures Every(trace[|old(trace)|..], IsProgress)
      ensures Every(trace[|old(trace)|..], e => StartsFrom(count, e)) && KeptBelow(count)
      ensures |trace| > |old(trace)| && trace[|old(trace)|] == GroupStarted(count)
      ensures Launched(count, |old(trace)| + 1)
    {
      if groups[count].Parallel? {
        StartParallel(count);
      } else {
        StartSerial(count);
      }
    }

    /** StartAt on a parallel group. */
    method StartParallel(count: nat)
      requires Valid() && count < |groups| && groups[count].Parallel?
      modifies this, parallels, serials, executors
      decreases Remaining(count), 3
      ensures Valid() && Steady() && canceled == old(canceled)
      ensures Every(trace[|old(trace)|..], IsProgress)
      ensures Every(trace[|old(trace)|..], e => StartsFrom(count, e)) && KeptBelow(count)
      ensures |trace| > |old(trace)| && trace[|old(trace)|] == GroupStarted(count)
      ensures Launched(count, |old(trace)| + 1)
    {
      if groups[count].p.tasks == [] {
        StartEmptyParallel(count);
      } else {
        OpenParallel(count);
      }
    }

    /**
     * A parallel group receives the queue's closures and is run, and its start is recorded.
     * A group with members is left running; an empty one is left to call its complete closure.
     */
    method OpenParallel(count: nat)
      requires Valid() && count < |groups| && groups[count].Parallel?
      modifies this, parallels, serials, executors
      ensures Valid() && Steady() && canceled == old(canceled)
      ensures trace == old(trace) + [GroupStarted(count)] && KeptBelow(count)
      ensures groups[count].p.tasks != [] ==> Launched(count, |old(trace)| + 1)
      ensures groups[count].p.tasks == [] ==> CompleteHook(groups[count]) == Some(count) && ExecutorsKept()
    {
      var g := groups[count];
      assert InSets(g);
      var completeNow := g.p.Launch(count);
      Record([GroupStarted(count)]);
    }

    /** StartAt on a parallel group with no members: its complete closure fires within `run`. */
    method StartEmptyParallel(count: nat)
      requires Valid() && count < |groups| && groups[count].Parallel? && groups[count].p.tasks == []
      modifies this, parallels, serials, executors
      decreases Remaining(count), 2
      ensures Valid() && Steady() && canceled == old(canceled)
      ensures Every(trace[|old(trace)|..], IsProgress)
      ensures Every(trace[|old(trace)|..], e => StartsFrom(count, e)) && KeptBelow(count)
      ensures |trace| > |old(trace)| && trace[|old(trace)|] == GroupStarted(count)
      ensures Launched(count, |old(trace)| + 1)
    {
      OpenParallel(count);
      ghost var started := trace;
      FireComplete(groups[count]);
      EveryJoin(old(trace), started, trace, IsProgress);
      EveryJoin(old(trace), started, trace, e => StartsFrom(count, e));
    }

    /** StartAt on a serial group. */
    method StartSerial(count: nat)
      requires Valid() && count < |groups| && groups[count].Serial?
      modifies this, parallels, serials, executors
      ensures Valid() && Steady() && canceled == old(canceled)
      ensures trace == old(trace) + [GroupStarted(count)] && KeptBelow(count)
      ensures Launched(count, |old(trace)| + 1)
    {
      var g := groups[count];
      assert InSets(g);
      g.s.Launch(count);
      Record([GroupStarted(count)]);
    }

    /**
     * A group's complete closure: increments the captured group counter, then
     * `nextTaskQueue` with it.
     */
    method FireComplete(g: TaskGroup)
      requires Valid() && g in groups && CompleteHook(g).Some?
      modifies this, parallels, serials, executors
      decreases Remaining(CompleteHook(g).value), 1
      ensures Valid() && Steady() && canceled == old(canceled)
      ensures Every(trace[|old(trace)|..], IsProgress)
      ensures Every(trace[|old(trace)|..], e => StartsFrom(old(CompleteHook(g)).GetOr(0) + 1, e))
      ensures KeptBelow(old(CompleteHook(g)).GetOr(0) + 1)
      ensures var next := old(CompleteHook(g)).GetOr(0) + 1;
                && (next < |groups| ==> |trace| > |old(trace)| && trace[|old(trace)|] == GroupStarted(next))
                && (next >= |groups| ==> trace == old(trace) + Completion())
    {
      var count := BumpHook(g);
      NextTaskQueue(count);
    }

    /** The complete closure's `count++`: the counter it captured goes up by one. */
    method BumpHook(g: TaskGroup) returns (count: nat)
      requires Valid() && g in groups && CompleteHook(g).Some?
      modifies parallels`completeHook, serials`completeHook
      ensures Valid() && Steady()
      ensures count == old(CompleteHook(g)).value + 1 && CompleteHook(g) == Some(count)
    {
      count := CompleteHook(g).value + 1;
      assert InSets(g);
      if g.Parallel? {
        g.p.SetCompleteHook(count);
      } else {
        g.s.SetCompleteHook(count);
      }
    }

    /** What the queue's fail closure records when the queue is not yet canceled. */
    function FailEvents(e: ErrorEntity): seq<QueueEvent>
      reads this
    {
      (if failListener.Some? then [QueueFailed(failListener.value, e)] else [])
      + (if isShowErrorMessage && hasContext then [ContextFailMessage(e.code + ": " + e.message)] else [])
    }

    /**
     * The fail closure reports the queue's fail listener exactly when one is set, and the
     * context's error message exactly when it is to be shown.
     */
    lemma FailEventsShape(e: ErrorEntity)
      ensures QueueFailures(FailEvents(e)) == if failListener.Some? then 1 else 0
      ensures ContextFailMessage(e.code + ": " + e.message) in FailEvents(e) <==> isShowErrorMessage && hasContext
    {
      var f := if failListener.Some? then [QueueFailed(failListener.value, e)] else [];
      var c := if isShowErrorMessage && hasContext then [ContextFailMessage(e.code + ": " + e.message)] else [];
      QueueFailuresAppend(f, c);
      assert f != [] ==> f[..0] == [];
      assert c != [] ==> c[..0] == [];
    }

    /** What the queue's success closure records. */
    function SucceededEvents(data: Json, result: Option<Response>): seq<QueueEvent>
      reads this
    {
      if canceled || successListener.None? then [] else [QueueSucceeded(successListener.value, data, result)]
    }

    /** The success closure reports no queue failure, and reports anything only to a listener of an uncanceled queue. */
    lemma SucceededEventsShape(data: Json, result: Option<Response>)
      ensures QueueFailures(SucceededEvents(data, result)) == 0
      ensures SucceededEvents(data, result) != [] <==> !canceled && successListener.Some?
    {
      if !canceled && successListener.Some? {
        assert SucceededEvents(data, result)[..0] == [];
      }
    }

    /** The queue's success closure on a group: dropped once the queue is canceled. */
    method OnGroupSuccess(data: Json, result: Option<Response>)
      requires Valid()
      modifies this`trace
      ensures Valid()
      ensures trace == old(trace) + SucceededEvents(data, result) && ExecutorsKept()
    {
      if !canceled && successListener.Some? {
        QueueFailuresAppend(trace, [QueueSucceeded(successListener.value, data, result)]);
        trace := trace + [QueueSucceeded(successListener.value, data, result)];
      }
    }

    /**
     * The queue's fail closure on a group: dropped once the queue is canceled; otherwise the
     * fail listener, the context's error message, and the queue is canceled for good.
     */
    method OnGroupFail(error: ErrorEntity)
      requires Valid()
      modifies this`trace, this`canceled
      ensures Valid() && canceled
      ensures trace == old(trace) + (if old(canceled) then [] else FailEvents(error)) && ExecutorsKept()
    {
      if !canceled {
        Cancel(error);
      }
    }

    /** The fail closure's first call: the fail listener and the error message, then the queue is canceled. */
    method Cancel(error: ErrorEntity)
      requires Valid() && !canceled
      modifies this`trace, this`canceled
      ensures Valid() && canceled
      ensures trace == old(trace) + FailEvents(error)
    {
      FailAccounted(error);
      trace, canceled := trace + FailEvents(error), true;
    }

    /** The fail closure reports at most one queue failure. */
    lemma FailAccounted(error: ErrorEntity)
      requires !canceled && Accounted()
      ensures QueueFailures(trace + FailEvents(error)) <= 1
    {
      FailEventsShape(error);
      QueueFailuresAppend(trace, FailEvents(error));
    }

    /** The queue's success closure was called: its events are recorded and nothing else changes. */
    twostate predicate CalledSuccess(data: Json, result: Option<Response>)
      reads this, executors
    {
      && trace == old(trace) + old(SucceededEvents(data, result))
      && canceled == old(canceled) && ExecutorsKept()
    }

    /** The queue's fail closure was called: a queue not yet canceled reports the failure, and is canceled. */
    twostate predicate CalledFail(error: ErrorEntity)
      reads this, executors
    {
      && trace == old(trace) + (if old(canceled) then [] else old(FailEvents(error)))
      && canceled && ExecutorsKept()
    }

    /**
     * The complete closure of group `g` was called, when it holds one: the group after its
     * counter is started, or the queue completes. Without one nothing happens.
     */
    twostate predicate CalledComplete(g: TaskGroup)
      requires Valid() && old(allocated(GroupObject(g))) && old(trace) <= trace
      reads this, parallels, serials, executors
    {
      if old(CompleteHook(g)).Some? then
        var next := old(CompleteHook(g)).value + 1;
        && (next < |groups| ==> |trace| > |old(trace)| && trace[|old(trace)|] == GroupStarted(next))
        && (next >= |groups| ==> trace == old(trace) + Completion())
        && KeptBelow(next)
      else
        trace == old(trace) && canceled == old(canceled) && ExecutorsKept()
    }

    /** The queue's closure that `call` stands for, run on behalf of group `g`. */
    method HandleGroupCall(g: TaskGroup, call: GroupCall)
      requires Valid() && g in groups
      modifies this, parallels, serials, executors
      ensures Valid() && Steady()
      ensures old(canceled) ==> Every(trace[|old(trace)|..], NotQueueDelivery)
      ensures call.HookSuccess? ==> CalledSuccess(call.data, call.result)
      ensures call.HookFail? ==> CalledFail(call.error)
      ensures call.HookComplete? ==> CalledComplete(g)
    {
      match call
      case HookSuccess(data, result) =>
        OnGroupSuccess(data, result);
        assert old(canceled) ==> trace[|old(trace)|..] == [];
      case HookFail(error) =>
        OnGroupFail(error);
        assert old(canceled) ==> trace[|old(trace)|..] == [];
      case HookComplete =>
        if CompleteHook(g).Some? {
          FireComplete(g);
          ProgressIsNotDelivery(trace[|old(trace)|..]);
        }
    }

    /**
     * What a member closure of parallel group `p` does, with the queue closures it calls.
     * The fail closure aborts every member (once per occurrence), then the queue's fail
     * closure runs. The success closure runs the queue's success closure, then, when every
     * member is SUCCESS, the complete closure, which starts the next group or completes the
     * queue.
     */
    twostate predicate GroupDelivered(p: ParallelGroup, note: Notification<Listener>)
      requires Valid() && p in parallels && old(allocated(p)) && old(trace) <= trace
      reads this, parallels, serials, executors
    {
      match note
      case FailNote(_, error) => FailDelivered(p, error)
      case SuccessNote(_, data, result) => SuccessDelivered(p, data, result)
    }

    twostate predicate FailDelivered(p: ParallelGroup, error: ErrorEntity)
      requires Valid() && p in parallels && old(allocated(p))
      reads this, parallels, serials, executors
    {
      && (forall t :: t in p.tasks ==> old(allocated(t)) && p.AbortedTimes(t, Occurrences(p.tasks, t)))
      && canceled == (old(canceled) || old(p.failHook))
      && trace == old(trace) + (if old(p.failHook) && !old(canceled) then FailEvents(error) else [])
      && forall t :: t in old(executors) && t in executors && t !in p.tasks ==> unchanged(t)
    }

    twostate predicate SuccessDelivered(p: ParallelGroup, data: Json, result: Option<Response>)
      requires Valid() && old(allocated(p)) && old(trace) <= trace
      reads this, parallels, serials, executors
    {
      var head := old(trace) + (if old(p.successHook) then old(SucceededEvents(data, result)) else []);
      && head <= trace
      && if old(p.AllSucceeded()) && old(p.completeHook).Some? then
           var next := old(p.completeHook).value + 1;
           && (next < |groups| ==> |trace| > |head| && trace[|head|] == GroupStarted(next))
           && (next >= |groups| ==> trace == head + Completion())
           && KeptBelow(next)
         else
           trace == head && canceled == old(canceled) && ExecutorsKept()
    }

    /**
     * One notification of an executor's fan-out: a request's forwarder calls that request's
     * own listener, a group member closure acts on its group. Closures of groups that are
     * not in this queue are not modelled and do nothing here.
     */
    method Deliver(note: Notification<Listener>)
      requires Valid()
      modifies this, parallels, serials, executors
      ensures Valid() && Steady()
      ensures old(canceled) ==> Every(trace[|old(trace)|..], NotQueueDelivery)
      ensures note.listener.ForwardToRequest? ==>
                canceled == old(canceled) && trace == old(trace) + Forwarded(note) && ExecutorsKept()
      ensures note.listener.GroupMember? && Parallel(note.listener.group) in groups ==>
                note.listener.group in parallels && old(allocated(note.listener.group))
                && GroupDelivered(note.listener.group, note)
      ensures note.listener.GroupMember? && Parallel(note.listener.group) !in groups ==>
                canceled == old(canceled) && trace == old(trace) && ExecutorsKept()
    {
      match note.listener
      case ForwardToRequest(r) =>
        NoFailures(Forwarded(note));
        QueueFailuresAppend(trace, Forwarded(note));
        trace := trace + Forwarded(note);
      case GroupMember(p) =>
        if Parallel(p) in groups {
          var k :| 0 <= k < |groups| && groups[k] == Parallel(p);
          assert InSets(groups[k]);
          if note.SuccessNote? {
            MemberSucceeded(p, note.data, note.result);
          } else {
            MemberFailed(p, note.error);
          }
        }
    }

    /** The fail closure of parallel group `p` on one of its members, with the queue closure it calls. */
    method MemberFailed(p: ParallelGroup, error: ErrorEntity)
      requires Valid() && Parallel(p) in groups && p in parallels
      modifies this, parallels, serials, executors
      ensures Valid() && Steady()
      ensures old(canceled) ==> Every(trace[|old(trace)|..], NotQueueDelivery)
      ensures FailDelivered(p, error)
    {
      var calls := p.OnMemberFail(error);
      if calls != [] {
        OnGroupFail(error);
      }
      assert old(canceled) ==> trace[|old(trace)|..] == [];
    }

    /** The success closure of parallel group `p` on one of its members, with the queue closures it calls. */
    method MemberSucceeded(p: ParallelGroup, data: Json, result: Option<Response>)
      requires Valid() && Parallel(p) in groups && p in parallels
      modifies this, parallels, serials, executors
      ensures Valid() && Steady()
      ensures old(canceled) ==> Every(trace[|old(trace)|..], NotQueueDelivery)
      ensures SuccessDelivered(p, data, result)
    {
      var finished := SuccessHead(p, data, result);
      assert old(canceled) ==> trace == old(trace);
      CompleteIf(p, finished);
    }

    /** The head of a member success closure: the group's success hook, then whether the group is done. */
    method SuccessHead(p: ParallelGroup, data: Json, result: Option<Response>) returns (finished: bool)
      requires Valid()
      modifies this`trace
      ensures Valid()
      ensures trace == old(trace) + (if old(p.successHook) then old(SucceededEvents(data, result)) else [])
      ensures finished <==> old(p.AllSucceeded()) && p.completeHook.Some?
      ensures ExecutorsKept()
    {
      var calls := p.OnMemberSuccess(data, result);
      finished := HookComplete in calls;
      if p.successHook {
        OnGroupSuccess(data, result);
      }
    }

    /** The tail of a member success closure: the group's complete closure, when `finished`. */
    method CompleteIf(p: ParallelGroup, finished: bool)
      requires Valid() && Parallel(p) in groups
      requires finished ==> p.completeHook.Some?
      modifies this, parallels, serials, executors
      ensures Valid() && Steady()
      ensures Every(trace[|old(trace)|..], IsProgress)
      ensures !finished ==> trace == old(trace) && canceled == old(canceled) && ExecutorsKept()
      ensures finished ==> var next := old(p.completeHook).value + 1;
                && (next < |groups| ==> |trace| > |old(trace)| && trace[|old(trace)|] == GroupStarted(next))
                && (next >= |groups| ==> trace == old(trace) + Completion())
                && KeptBelow(next)
    {
      if finished {
        FireComplete(Parallel(p));
      }
    }

    /**
     * The transport's completion of a send of executor `t`: the executor's own handling,
     * then its fan-out, one notification after the other.
     */
    method OnTransportResult(t: Task, result: Option<Response>, error: Option<TransportError>)
      requires Valid() && t in executors && t.inFlight > 0
      modifies this, parallels, serials, executors
      ensures Valid() && Steady()
      ensures old(canceled) ==> Every(trace[|old(trace)|..], NotQueueDelivery)
    {
      var notes := t.OnTransportResult(result, error);
      var i := 0;
      while i < |notes|
        invariant 0 <= i <= |notes|
        invariant Valid() && Steady()
        invariant old(canceled) ==> Every(trace[|old(trace)|..], NotQueueDelivery)
      {
        ghost var before := trace;
        Deliver(notes[i]);
        if old(canceled) {
          EveryJoin(old(trace), before, trace, NotQueueDelivery);
        }
        i := i + 1;
      }
    }

    /** A closure call of serial group `q`, which calls only the closures it was given. */
    method OnSerialGroupSignal(q: SerialGroup, call: GroupCall)
      requires Valid() && Serial(q) in groups
      requires call.HookSuccess? ==> q.successHook
      requires call.HookFail? ==> q.failHook
      requires call.HookComplete? ==> q.completeHook.Some?
      modifies this, parallels, serials, executors
      ensures Valid() && Steady()
      ensures old(canceled) ==> Every(trace[|old(trace)|..], NotQueueDelivery)
      ensures call.HookSuccess? ==> CalledSuccess(call.data, call.result)
      ensures call.HookFail? ==> CalledFail(call.error)
      ensures call.HookComplete? ==> CalledComplete(Serial(q))
    {
      HandleGroupCall(Serial(q), call);
    }

    /**
     * `request(request)`: `addRequest`, then `request()` (see Start); should `addRequest` throw,
     * nothing is started.
     */
    method Request(request: Request, config: RequestConfig) returns (res: Outcome<string>)
      requires Valid() && request.Valid()
      modifies this, parallels, serials, executors, config.TaskSet(), request, request.Bound()
      ensures Valid() && groups == old(groups) && (old(canceled) ==> canceled) && old(trace) <= trace
      ensures |groups| == 0 ==> res == Fail(TaskQueueMessage)
      ensures res.Fail? ==> trace == old(trace)
      ensures res.Pass? ==> |trace| > |old(trace)| && trace[|old(trace)|] == GroupStarted(0)
      ensures res.Pass? ==> request.task.Some? && request.task.value in executors
      ensures |groups| > 0 ==> request.requestConfig.Some?
      ensures |groups| > 0 && old(request.requestConfig).None? ==> request.requestConfig == Some(config)
      ensures res.Pass? ==> GroupTasks(groups[cursor]) == old(GroupTasks(groups[cursor])) + [request.task.value]
    {
      res := AddRequest(request, config);
      if res.Fail? {
        return;
      }
      Start();
    }

    /** `request()` without an argument: the first group is started unless the queue is empty. */
    method Start()
      requires Valid()
      modifies this, parallels, serials, executors
      ensures Valid() && Steady()
      ensures |groups| == 0 ==> trace == old(trace) && ExecutorsKept()
      ensures |groups| > 0 ==> |trace| > |old(trace)| && trace[|old(trace)|] == GroupStarted(0)
      ensures |groups| > 0 ==> Launched(0, |old(trace)| + 1)
    {
      if |groups| == 0 {
        return;
      }
      NextTaskQueue(0);
    }
  }
}
