/** The endpoint operation: creates, shows, lists, updates or deletes a load-balancer endpoint
    of a district, each kind through its own request. */
module EndpointOperation {
  import opened Wrappers
  import opened Operation
  import opened ApiTypes
  import opened Effects
  import opened Prompt

  /** EndpointOperation: the district, the endpoint and its settings, and what to do. */
  datatype EndpointOperation = EndpointOperation(
    districtName: string,
    endpointName: string,
    public: bool,
    certArn: string,
    policy: string,
    noConfirmation: bool,
    opType: OperationType)

  /** An endpoint as the API returns it: the request fields, and the name of its district when
      the `district` pointer is set. */
  datatype EndpointRecord = EndpointRecord(fields: Endpoint, district: Option<string>)

  /** The decoded `EndpointResponse`. `endpoint` is a pointer and `endpoints` a list of pointers,
      so either may be nil; what is printed from them is not modelled. */
  datatype EndpointResponse = EndpointResponse(endpoint: Option<EndpointRecord>, endpoints: seq<Option<EndpointRecord>>)

  /** How an endpoint operation ends: with a result, or in the nil-pointer panic of printing a
      response that lacks a field the printer dereferences. */
  datatype EndpointOutcome = Returned(result: RunResult) | NilDereference

  function EndpointsPath(districtName: string): string {
    "/districts/" + districtName + "/endpoints"
  }

  function EndpointPath(districtName: string, endpointName: string): string {
    EndpointsPath(districtName) + "/" + endpointName
  }

  /** The kinds the dispatch table holds. */
  predicate Dispatched(t: OperationType) {
    t.Create? || t.Update? || t.Delete? || t.Show? || t.List?
  }

  /** The request each kind sends, stated as a table: the collection for create and list, the
      endpoint itself for show, update and delete. */
  function RequestFor(op: EndpointOperation): Call
    requires Dispatched(op.opType)
  {
    match op.opType
    case Create => Call("POST", EndpointsPath(op.districtName),
                        EndpointBody(Endpoint(op.endpointName, Some(op.public), op.certArn, op.policy)))
    case List => Call("GET", EndpointsPath(op.districtName), NoBody)
    case Show => Call("GET", EndpointPath(op.districtName, op.endpointName), NoBody)
    case Update => Call("PATCH", EndpointPath(op.districtName, op.endpointName),
                        EndpointBody(Endpoint("", None, op.certArn, op.policy)))
    case Delete => Call("DELETE", EndpointPath(op.districtName, op.endpointName), NoBody)
  }

  /** printEndpoint reads `e.Name` and `*e.Public`: both pointers must be set. */
  predicate DetailPrintable(e: Option<EndpointRecord>) {
    e.Some? && e.value.fields.public.Some?
  }

  /** A row of printEndpoints reads `e.Name`, `e.District.Name` and `*e.Public`. */
  predicate RowPrintable(e: Option<EndpointRecord>) {
    e.Some? && e.value.district.Some? && e.value.fields.public.Some?
  }

  /** Whether printing the decoded response gets through: one endpoint for create, show and
      update, every row of the table for list. */
  predicate Printable(resp: EndpointResponse, list: bool) {
    if list then forall i :: 0 <= i < |resp.endpoints| ==> RowPrintable(resp.endpoints[i])
    else DetailPrintable(resp.endpoint)
  }

  /** The end of a request whose response is decoded and printed: the request's or the decoder's
      error, the printer's panic, or ok. */
  function Decoding(reply: Reply<EndpointResponse>, list: bool): EndpointOutcome {
    match reply
    case Failed(e) => Returned(ErrorResult(e))
    case Undecodable(e) => Returned(ErrorResult(e))
    case Decoded(resp) => if Printable(resp, list) then Returned(OkResult()) else NilDereference
  }

  /** endpoint_create: the body carries the name, the public flag, the certificate and the policy. */
  function EndpointCreate(op: EndpointOperation, reply: Reply<EndpointResponse>): Trace<EndpointOutcome> {
    var body := Endpoint(op.endpointName, Some(op.public), op.certArn, op.policy);
    Trace(Decoding(reply, false), [Call("POST", EndpointsPath(op.districtName), EndpointBody(body))], [])
  }

  /** endpoint_show. */
  function EndpointShow(op: EndpointOperation, reply: Reply<EndpointResponse>): Trace<EndpointOutcome> {
    Trace(Decoding(reply, false), [Call("GET", EndpointPath(op.districtName, op.endpointName), NoBody)], [])
  }

  /** endpoint_list. */
  function EndpointList(op: EndpointOperation, reply: Reply<EndpointResponse>): Trace<EndpointOutcome> {
    Trace(Decoding(reply, true), [Call("GET", EndpointsPath(op.districtName), NoBody)], [])
  }

  /** endpoint_update: the body carries only the certificate and the policy; the endpoint in the
      response is printed, so a response without it, or without its public flag, panics. */
  function EndpointUpdate(op: EndpointOperation, reply: Reply<EndpointResponse>): (t: Trace<EndpointOutcome>)
    ensures t.out == [] && |t.calls| == 1
    ensures t.calls[0].verb == "PATCH"
    ensures t.calls[0].path == "/districts/" + op.districtName + "/endpoints/" + op.endpointName
    ensures t.calls[0].body.EndpointBody?
    ensures var e := t.calls[0].body.endpoint;
            e.name == "" && e.public.None? && e.certificateId == op.certArn && e.sslPolicy == op.policy
    ensures !reply.Decoded? ==> t.result == Returned(ErrorResult(reply.error))
    ensures t.result == NilDereference <==>
              reply.Decoded? && (reply.value.endpoint.None? || reply.value.endpoint.value.fields.public.None?)
    ensures t.result == Returned(OkResult()) <==>
              reply.Decoded? && reply.value.endpoint.Some? && reply.value.endpoint.value.fields.public.Some?
  {
    var body := Endpoint("", None, op.certArn, op.policy);
    Trace(Decoding(reply, false), [Call("PATCH", EndpointPath(op.districtName, op.endpointName), EndpointBody(body))], [])
  }

  /** The line printed before a deletion is attempted. */
  function AttemptLine(districtName: string, endpointName: string): string {
    "You are attempting to delete /" + districtName + "/endpoints/" + endpointName + "\n"
  }

  /** endpoint_delete: asks first unless told not to; the response body is not read, so only a
      failed request is an error. */
  function EndpointDelete(op: EndpointOperation, reply: Reply<EndpointResponse>, replies: seq<ReadReply>): (t: Trace<RunResult>)
    requires !op.noConfirmation ==> Answers(replies, false)
    ensures t.result.Declined? <==> !op.noConfirmation && !Confirmed(replies)
    ensures t.out == [AttemptLine(op.districtName, op.endpointName)]
                     + (if op.noConfirmation then [] else ConfirmPrompts(CannotBeUndone, replies))
    ensures t.result.Declined? ==> t.calls == []
    ensures !t.result.Declined? ==>
              && t.calls == [Call("DELETE", EndpointPath(op.districtName, op.endpointName), NoBody)]
              && t.result == (if reply.Failed? then ErrorResult(reply.error) else OkResult())
  {
    var printed := [AttemptLine(op.districtName, op.endpointName)]
                   + (if op.noConfirmation then [] else ConfirmPrompts(CannotBeUndone, replies));
    if !op.noConfirmation && !Confirmed(replies) then Trace(Declined, [], printed)
    else
      var calls := [Call("DELETE", EndpointPath(op.districtName, op.endpointName), NoBody)];
      if reply.Failed? then Trace(ErrorResult(reply.error), calls, printed)
      else Trace(OkResult(), calls, printed)
  }

  /** Whether `run` asks for a confirmation. */
  predicate Prompts(op: EndpointOperation) {
    op.opType == Delete && !op.noConfirmation
  }

  /** EndpointOperation.run: the dispatch table picks the kind; a kind outside it is unknown. */
  function Run(op: EndpointOperation, reply: Reply<EndpointResponse>, replies: seq<ReadReply>): (t: Trace<EndpointOutcome>)
    requires Prompts(op) ==> Answers(replies, false)
    ensures !Dispatched(op.opType) ==> t == Trace(Returned(ErrorResult("unknown operation")), [], [])
    ensures t.result == Returned(Declined) <==> Prompts(op) && !Confirmed(replies)
    // A delete announces itself and prompts as EndpointDelete says; the other kinds print nothing modelled.
    ensures op.opType.Delete? ==>
              t.out == [AttemptLine(op.districtName, op.endpointName)]
                       + (if op.noConfirmation then [] else ConfirmPrompts(CannotBeUndone, replies))
    ensures !op.opType.Delete? ==> t.out == []
    // Every dispatched kind sends exactly its request from the table, unless the user declines.
    ensures Dispatched(op.opType) ==> t.calls == (if t.result == Returned(Declined) then [] else [RequestFor(op)])
    // Any failure of the request, and for the kinds that decode the response any decoding
    // error, is the result's message; a decoded response the printer cannot print panics.
    ensures Dispatched(op.opType) && t.result != Returned(Declined) ==>
              t.result == (if reply.Failed? then Returned(ErrorResult(reply.error))
                           else if op.opType.Delete? then Returned(OkResult())
                           else if reply.Undecodable? then Returned(ErrorResult(reply.error))
                           else if Printable(reply.value, op.opType.List?) then Returned(OkResult())
                           else NilDereference)
  {
    match op.opType
    case Create => EndpointCreate(op, reply)
    case Update => EndpointUpdate(op, reply)
    case Delete =>
      var t := EndpointDelete(op, reply, replies);
      Trace(Returned(t.result), t.calls, t.out)
    case Show => EndpointShow(op, reply)
    case List => EndpointList(op, reply)
    case Other(_) => Trace(Returned(ErrorResult("unknown operation")), [], [])
  }

  /** A 2xx answer `{}` decodes to a response with no endpoint: showing it panics in the printer,
      while listing it prints an empty table. */
  lemma EmptyResponse(op: EndpointOperation)
    requires op.opType.Show? || op.opType.List?
    ensures var empty := Decoded(EndpointResponse(None, []));
            Run(op, empty, []).result == (if op.opType.Show? then NilDereference else Returned(OkResult()))
  {
  }

  /** Show, update and delete address the endpoint itself, create and list the district's
      collection; only create and update send a body. */
  lemma RequestTargets(op: EndpointOperation)
    requires Dispatched(op.opType)
    ensures op.opType.Create? || op.opType.List? ==> RequestFor(op).path == EndpointsPath(op.districtName)
    ensures op.opType.Show? || op.opType.Update? || op.opType.Delete? ==>
              RequestFor(op).path == EndpointsPath(op.districtName) + "/" + op.endpointName
    ensures RequestFor(op).body.NoBody? <==> op.opType.List? || op.opType.Show? || op.opType.Delete?
  {
  }

  /** Distinct endpoint names give distinct request paths within a district. */
  lemma EndpointPathInjective(d: string, e1: string, e2: string)
    ensures EndpointPath(d, e1) == EndpointPath(d, e2) <==> e1 == e2
  {
    if EndpointPath(d, e1) == EndpointPath(d, e2) {
      var n := |EndpointsPath(d) + "/"|;
      assert e1 == EndpointPath(d, e1)[n..];
      assert e2 == EndpointPath(d, e2)[n..];
    }
  }
}
