/** The records the CLI exchanges with the Barcelona API, the in-place defaulting of
    heritage and service definitions, and the text of an API error. Only the fields the
    modelled code reads or writes are kept; JSON encoding itself is not modelled. */
module ApiTypes {
  import opened Wrappers
  import Strings

  datatype ContainerInstance = ContainerInstance(
    containerInstanceArn: string,
    ec2InstanceId: string,
    pendingTasksCount: int,
    runningTasksCount: int,
    status: string,
    privateIpAddress: string)

  datatype District = District(
    name: string,
    region: string,
    bastionIp: string,
    containerInstances: seq<ContainerInstance>)

  /** The `district` object of a response, with the certificate the API signed for it. */
  datatype DistrictResponse = DistrictResponse(district: District, certificate: string)

  datatype Oneoff = Oneoff(
    id: int,
    taskArn: string,
    command: string,
    status: string,
    exitCode: string,
    reason: string,
    interactiveRunCommand: string,
    containerInstanceArn: string,
    containerName: string,
    memory: int,
    district: District)

  datatype OneoffResponse = OneoffResponse(oneoff: Oneoff, certificate: string)

  /** An endpoint as sent in a request body: `public` is a `*bool`, omitted when nil. */
  datatype Endpoint = Endpoint(name: string, public: Option<bool>, certificateId: string, sslPolicy: string)

  datatype User = User(token: string, name: string, publicKey: string)

  /** A review app, keeping the name of the heritage it runs as. */
  datatype ReviewApp = ReviewApp(heritageName: string, subject: string, tag: string, domain: string)

  /** The parts of a review app definition the deploy request forwards by name. */
  datatype ReviewAppDefinition = ReviewAppDefinition(groupName: string, imageName: string)

  datatype ReviewAppRequest = ReviewAppRequest(
    definition: ReviewAppDefinition,
    subject: string,
    retention: int,
    imageTag: string)

  /** The JSON object `POST /heritages/{name}/oneoffs` is sent: `memory` and `user` are keys
      that are present or absent. */
  datatype OneoffParams = OneoffParams(
    interactive: bool,
    command: string,
    envVars: map<string, string>,
    memory: Option<int>,
    user: Option<string>)

  /** A request body. `Raw` is an opaque caller-provided reader passed through unchanged. */
  datatype Body =
    | NoBody
    | OneoffBody(params: OneoffParams)
    | EndpointBody(endpoint: Endpoint)
    | PublicKeyBody(publicKey: string)
    | ReviewAppBody(request: ReviewAppRequest)
    | Raw(text: string)

  /** The error document the API returns with a non-2xx status. */
  datatype ApiError = ApiError(message: string, debugMessage: string, backtrace: seq<string>)

  /** APIError.Error: the message alone, or in debug mode the message followed by a blank line,
      the debug message and the backtrace, one entry per line. */
  function ErrorText(e: ApiError, debug: bool): (text: string)
    ensures e.message <= text
    ensures !debug ==> text == e.message
    ensures debug ==> text[|e.message|..] == "\n\n" + e.debugMessage + "\n" + Strings.Join(e.backtrace, "\n") + "\n"
  {
    if debug then e.message + "\n\n" + e.debugMessage + "\n" + Strings.Join(e.backtrace, "\n") + "\n"
    else e.message
  }

  /** The debug text ends with one line per backtrace entry, the last one closing the text. */
  lemma ErrorTextDebugEndsWithBacktrace(e: ApiError, frame: string)
    requires |e.backtrace| > 0 && e.backtrace[|e.backtrace| - 1] == frame
    ensures var t := ErrorText(e, true); |t| > |frame| && t[|t| - |frame| - 1..] == frame + "\n"
  {
    var bt := e.backtrace;
    Strings.JoinAppend(bt[..|bt| - 1], frame, "\n");
    assert bt[..|bt| - 1] + [frame] == bt;
  }

  /** The case api/types_test.go checks. */
  lemma ErrorTextExample()
    ensures ErrorText(ApiError("errorname", "foobar", []), false) == "errorname"
  {
  }

  datatype ScheduledTask = ScheduledTask(schedule: string, command: string)

  datatype Host = Host(hostname: string, sslCertPath: string, sslKeyPath: string)

  datatype RuleCondition = RuleCondition(kind: string, value: string)

  datatype Listener = Listener(
    endpoint: string,
    healthCheckInterval: int,
    healthCheckPath: string,
    healthCheckTimeout: int,
    healthyThresholdCount: int,
    unhealthyThresholdCount: int,
    rulePriority: int,
    ruleConditions: seq<RuleCondition>)

  datatype PortMapping = PortMapping(
    lbPort: int,
    hostPort: int,
    containerPort: int,
    protocol: string,
    enableProxyProtocol: bool)

  /** The four fields a service definition gets defaults for; a nil slice is `None`. */
  datatype ServiceDefaults = ServiceDefaults(
    memory: int,
    serviceType: string,
    hosts: Option<seq<Host>>,
    listeners: Option<seq<Listener>>)

  /** The remaining fields of a service, which defaulting leaves alone. */
  datatype ServiceRest = ServiceRest(
    public: Option<bool>,
    name: string,
    cpu: int,
    command: string,
    webContainerPort: int,
    forceSsl: bool,
    portMappings: Option<seq<PortMapping>>,
    status: string,
    runningCount: int,
    pendingCount: int,
    desiredCount: int)

  /** True when no field of `d` is still at the value that gets a default. */
  predicate Defaulted(d: ServiceDefaults) {
    d.memory != 0 && d.serviceType != "" && d.hosts.Some? && d.listeners.Some?
  }

  /** The defaults Service.FillinDefaults gives: 512 MB of memory, the "default" service
      type and empty host and listener lists; a field that is already set keeps its value. */
  function FillDefaults(d: ServiceDefaults): (r: ServiceDefaults)
    ensures Defaulted(r)
    ensures d.memory == 0 ==> r.memory == 512
    ensures d.memory != 0 ==> r.memory == d.memory
    ensures d.serviceType == "" ==> r.serviceType == "default"
    ensures d.serviceType != "" ==> r.serviceType == d.serviceType
    ensures d.hosts.None? ==> r.hosts == Some([])
    ensures d.hosts.Some? ==> r.hosts == d.hosts
    ensures d.listeners.None? ==> r.listeners == Some([])
    ensures d.listeners.Some? ==> r.listeners == d.listeners
  {
    ServiceDefaults(
      if d.memory == 0 then 512 else d.memory,
      if d.serviceType == "" then "default" else d.serviceType,
      if d.hosts.None? then Some([]) else d.hosts,
      if d.listeners.None? then Some([]) else d.listeners)
  }

  /** Defaulting changes exactly the definitions that are not yet defaulted, so applying it a
      second time changes nothing. */
  lemma FillDefaultsFixpoint(d: ServiceDefaults)
    ensures FillDefaults(d) == d <==> Defaulted(d)
    ensures FillDefaults(FillDefaults(d)) == FillDefaults(d)
  {
  }

  /** A service definition of a heritage; FillinDefaults updates it in place. */
  class Service {
    var memory: int
    var serviceType: string
    var hosts: Option<seq<Host>>
    var listeners: Option<seq<Listener>>
    var rest: ServiceRest

    function Defaults(): ServiceDefaults
      reads this
    {
      ServiceDefaults(memory, serviceType, hosts, listeners)
    }

    constructor (defaults: ServiceDefaults, rest: ServiceRest)
      ensures Defaults() == defaults && this.rest == rest
    {
      memory := defaults.memory;
      serviceType := defaults.serviceType;
      hosts := defaults.hosts;
      listeners := defaults.listeners;
      this.rest := rest;
    }

    /** Service.FillinDefaults: the four defaultable fields get their defaults, nothing else changes. */
    method FillinDefaults()
      modifies this`memory, this`serviceType, this`hosts, this`listeners
      ensures Defaults() == FillDefaults(old(Defaults()))
    {
      if memory == 0 {
        memory := 512;
      }
      if serviceType == "" {
        serviceType := "default";
      }
      if hosts.None? {
        hosts := Some([]);
      }
      if listeners.None? {
        listeners := Some([]);
      }
    }
  }

  /** The fields of a heritage definition that defaulting leaves alone. */
  datatype HeritageRest = HeritageRest(
    name: string,
    imageName: string,
    imageTag: string,
    beforeDeploy: Option<string>,
    version: int,
    envVars: map<string, string>,
    token: string)

  /** A heritage definition; `services` holds pointers, so two entries may be the same service. */
  class Heritage {
    var scheduledTasks: Option<seq<ScheduledTask>>
    var services: Option<seq<Service>>
    var rest: HeritageRest

    /** The services a range loop over `Services` visits: none for a nil slice. */
    function ServiceList(): seq<Service>
      reads this
    {
      if services.Some? then services.value else []
    }

    function ServiceObjects(): set<Service>
      reads this
    {
      set s | s in ServiceList()
    }

    constructor (scheduledTasks: Option<seq<ScheduledTask>>, services: Option<seq<Service>>, rest: HeritageRest)
      ensures this.scheduledTasks == scheduledTasks && this.services == services && this.rest == rest
    {
      this.scheduledTasks := scheduledTasks;
      this.services := services;
      this.rest := rest;
    }

    /** Heritage.FillinDefaults: nil lists become empty, lists that are present keep their
        contents, and every listed service, however often it is listed, ends up defaulted
        exactly once over its original fields. */
    method FillinDefaults()
      modifies this`scheduledTasks, this`services, ServiceObjects()
      ensures scheduledTasks == if old(scheduledTasks).None? then Some([]) else old(scheduledTasks)
      ensures services == if old(services).None? then Some([]) else old(services)
      ensures ServiceList() == old(ServiceList())
      ensures forall s :: s in ServiceList() ==> s.Defaults() == FillDefaults(old(s.Defaults()))
      ensures forall s :: s in ServiceList() ==> s.rest == old(s.rest)
    {
      if scheduledTasks.None? {
        scheduledTasks := Some([]);
      }
      if services.None? {
        services := Some([]);
      }
      var all := services.value;
      ghost var done: set<Service> := {};
      var i := 0;
      while i < |all|
        invariant 0 <= i <= |all|
        invariant all == ServiceList() == old(ServiceList())
        invariant scheduledTasks == if old(scheduledTasks).None? then Some([]) else old(scheduledTasks)
        invariant services == if old(services).None? then Some([]) else old(services)
        invariant forall s :: s in all ==> s.rest == old(s.rest)
        invariant forall k :: 0 <= k < i ==> all[k] in done
        invariant forall s :: s in done ==> s in all && s.Defaults() == FillDefaults(old(s.Defaults()))
        invariant forall s :: s in all && s !in done ==> s.Defaults() == old(s.Defaults())
      {
        FillDefaultsFixpoint(old(all[i].Defaults()));
        all[i].FillinDefaults();
        done := done + {all[i]};
        i := i + 1;
      }
    }
  }
}
