/** What `start_session` builds once the mode is known: the broker parameter
    map, the `StartSession` request, the descriptor handed to the
    `session-manager-plugin` helper, and the SSM endpoint URL. The broker
    call itself is an opaque function parameter. */
module SessionRequest {
  import opened Wrappers
  import opened Decimal
  import opened SessionMode

  /** The broker's parameter convention: every value is a list of strings. */
  type Parameters = map<string, seq<string>>

  const HostKey: string := "host"
  const PortNumberKey: string := "portNumber"
  const LocalPortNumberKey: string := "localPortNumber"

  const SessionManagerBinName: string := "session-manager-plugin"
  const EndpointPrefix: string := "https://ssm."
  const EndpointSuffix: string := ".amazonaws.com"

  /** Rust's `Option::unwrap`: `None` is a panic naming the field. */
  function Unwrap<T>(o: Option<T>, field: string): Result<T, Error> {
    match o
    case Some(v) => Success(v)
    case None => Failure(UnwrapNone(field))
  }

  /** A port as `u16::to_string` renders it. */
  function PortString(port: u16): string {
    ToDecimal(port as nat)
  }

  /** The keys the parameter map of each mode carries. */
  function ParameterKeys(mode: Mode): set<string> {
    match mode
    case Direct => {}
    case PortForwarding => {PortNumberKey, LocalPortNumberKey}
    case PortForwardingToRemoteHost => {HostKey, PortNumberKey, LocalPortNumberKey}
  }

  /** The `parameters` map of `start_session`, filled by successive inserts;
      each `unwrap()` fails exactly when the mode reads an absent field. */
  function BuildParameters(mode: Mode, p: SessionManagerProp): (r: Result<Parameters, Error>)
    ensures r.Success? <==> Supplies(p, mode)
    ensures r.Failure? ==> r.error.UnwrapNone?
    ensures r.Success? ==> r.value.Keys == ParameterKeys(mode)
    ensures r.Success? ==> forall k :: k in r.value ==> |r.value[k]| == 1
    ensures r.Success? && mode != Direct ==>
              && r.value[PortNumberKey] == [PortString(p.remotePort.value)]
              && r.value[LocalPortNumberKey] == [PortString(p.localPort.value)]
    ensures r.Success? && mode == PortForwardingToRemoteHost ==>
              r.value[HostKey] == [p.remoteHost.value.text]
  {
    match mode
    case Direct => Success(map[])
    case PortForwarding =>
      var remote :- Unwrap(p.remotePort, "remote_port");
      var local :- Unwrap(p.localPort, "local_port");
      Success(map[][PortNumberKey := [PortString(remote)]]
                   [LocalPortNumberKey := [PortString(local)]])
    case PortForwardingToRemoteHost =>
      var host :- Unwrap(p.remoteHost, "remote_host");
      var remote :- Unwrap(p.remotePort, "remote_port");
      var local :- Unwrap(p.localPort, "local_port");
      Success(map[][HostKey := [host.text]]
                   [PortNumberKey := [PortString(remote)]]
                   [LocalPortNumberKey := [PortString(local)]])
  }

  /** How the receiving side reads a port back out of a parameter map. */
  function ParamPort(params: Parameters, key: string): Option<u16> {
    if key in params && |params[key]| == 1 then
      match ParseDecimal(params[key][0])
      case Some(n) => if n < 0x1_0000 then Some(n as u16) else None
      case None => None
    else
      None
  }

  /** How the receiving side reads the remote host back out of a parameter map. */
  function ParamHost(params: Parameters): Option<Host> {
    if HostKey in params && |params[HostKey]| == 1 then Some(Host(params[HostKey][0])) else None
  }

  /** A request rebuilt from a parameter map (region and instance id are not
      part of the map and are taken from `p`). */
  function DecodeParameters(params: Parameters, p: SessionManagerProp): SessionManagerProp {
    p.(localPort := ParamPort(params, LocalPortNumberKey),
       remotePort := ParamPort(params, PortNumberKey),
       remoteHost := ParamHost(params))
  }

  lemma PortStringRoundTrip(params: Parameters, key: string, port: u16)
    requires key in params && params[key] == [PortString(port)]
    ensures ParamPort(params, key) == Some(port)
  {
    ParseToDecimal(port as nat);
  }

  /** The parameter map of a resolved mode loses nothing: reading it back
      yields exactly the ports and host of the request, so the broker sees
      the same mode the client resolved. */
  lemma ParametersRoundTrip(p: SessionManagerProp)
    requires GetMode(p).Success?
    ensures BuildParameters(GetMode(p).value, p).Success?
    ensures DecodeParameters(BuildParameters(GetMode(p).value, p).value, p) == p
    ensures GetMode(DecodeParameters(BuildParameters(GetMode(p).value, p).value, p)) == GetMode(p)
  {
    var params := BuildParameters(GetMode(p).value, p).value;
    if GetMode(p).value != Direct {
      PortStringRoundTrip(params, PortNumberKey, p.remotePort.value);
      PortStringRoundTrip(params, LocalPortNumberKey, p.localPort.value);
    }
  }

  /** Different port values give different parameter maps. */
  lemma ParametersInjective(mode: Mode, p: SessionManagerProp, q: SessionManagerProp)
    requires GetMode(p) == Success(mode) && GetMode(q) == Success(mode)
    ensures BuildParameters(mode, p) == BuildParameters(mode, q) <==>
              (p.localPort, p.remotePort, p.remoteHost) == (q.localPort, q.remotePort, q.remoteHost)
  {
    if BuildParameters(mode, p) == BuildParameters(mode, q) {
      ParametersRoundTrip(p);
      ParametersRoundTrip(q);
    }
  }

  /** The `set_parameters` argument: an empty map is sent as no parameters. */
  function SetParameters(params: Parameters): (r: Option<Parameters>)
    ensures r.None? <==> |params| == 0
    ensures r.Some? ==> r.value == params
  {
    if |params| == 0 then None else Some(params)
  }

  /** For a resolved mode, parameters are omitted exactly for `Direct`. */
  lemma ParametersOmittedIffDirect(p: SessionManagerProp)
    requires GetMode(p).Success?
    ensures BuildParameters(GetMode(p).value, p).Success?
    ensures var params := BuildParameters(GetMode(p).value, p).value;
            SetParameters(params).None? <==> GetMode(p).value == Direct
  {
  }

  /** The `document_name` of `start_session`, picked by a second match on the mode. */
  function SelectedDocument(mode: Mode): (r: Option<string>)
    ensures r == DocumentName(mode)
  {
    match mode
    case Direct => DocumentName(Direct)
    case PortForwardingToRemoteHost => DocumentName(PortForwardingToRemoteHost)
    case PortForwarding => DocumentName(PortForwarding)
  }

  /** The `StartSession` call sent to the broker. */
  datatype BrokerRequest = BrokerRequest(
    target: string,
    documentName: Option<string>,
    parameters: Option<Parameters>
  )

  /** Mode resolution, document selection and parameter construction. */
  function BuildRequest(p: SessionManagerProp): (r: Result<BrokerRequest, Error>)
    ensures r.Success? <==> GetMode(p).Success?
    ensures r.Failure? ==> r.error == InvalidCombination
    ensures r.Success? ==> r.value.target == p.instanceId
    ensures r.Success? ==> r.value.documentName == DocumentName(GetMode(p).value)
    ensures r.Success? ==> (r.value.parameters.None? <==> GetMode(p).value == Direct)
    ensures r.Success? && r.value.parameters.Some? ==>
              DecodeParameters(r.value.parameters.value, p) == p
    ensures r.Success? ==>
              r.value.parameters == SetParameters(BuildParameters(GetMode(p).value, p).value)
  {
    var mode :- GetMode(p);
    UnwrapsNeverFail(p);
    ParametersRoundTrip(p);
    ParametersOmittedIffDirect(p);
    var documentName := SelectedDocument(mode);
    var parameters := BuildParameters(mode, p).value;
    Success(BrokerRequest(p.instanceId, documentName, SetParameters(parameters)))
  }

  /** The structure serialised as the helper's session-manager parameter:
      a `None` field is a key the JSON object does not have. */
  datatype Descriptor = Descriptor(
    target: string,
    documentName: Option<string>,
    parameters: Option<Parameters>
  )

  /** `session_manager_param`: repeats target, document and parameters. */
  function BuildDescriptor(mode: Mode, p: SessionManagerProp): (r: Result<Descriptor, Error>)
    ensures r.Success? <==> Supplies(p, mode)
    ensures r.Failure? ==> r.error.UnwrapNone?
    ensures mode == Direct ==> r == Success(Descriptor(p.instanceId, None, None))
    ensures r.Success? ==> r.value.target == p.instanceId
    ensures r.Success? ==> r.value.documentName == DocumentName(mode)
    ensures r.Success? ==> (r.value.parameters.None? <==> mode == Direct)
    ensures r.Success? && mode != Direct ==>
              r.value.parameters == Some(BuildParameters(mode, p).value)
  {
    match mode
    case Direct => Success(Descriptor(p.instanceId, None, None))
    case PortForwarding =>
      var remote :- Unwrap(p.remotePort, "remote_port");
      var local :- Unwrap(p.localPort, "local_port");
      Success(Descriptor(
        p.instanceId,
        DocumentName(PortForwarding),
        Some(map[PortNumberKey := [PortString(remote)],
                 LocalPortNumberKey := [PortString(local)]])))
    case PortForwardingToRemoteHost =>
      var host :- Unwrap(p.remoteHost, "remote_host");
      var remote :- Unwrap(p.remotePort, "remote_port");
      var local :- Unwrap(p.localPort, "local_port");
      Success(Descriptor(
        p.instanceId,
        DocumentName(PortForwardingToRemoteHost),
        Some(map[HostKey := [host.text],
                 PortNumberKey := [PortString(remote)],
                 LocalPortNumberKey := [PortString(local)]])))
  }

  /** Once `get_mode` has returned, none of the `unwrap()` calls in the
      parameter map or in the descriptor can panic. */
  lemma UnwrapsNeverFail(p: SessionManagerProp)
    requires GetMode(p).Success?
    ensures BuildParameters(GetMode(p).value, p).Success?
    ensures BuildDescriptor(GetMode(p).value, p).Success?
  {
  }

  /** The helper is told exactly what the broker was asked: same target,
      same document and the same parameters (none for `Direct`). */
  lemma DescriptorAgreesWithRequest(p: SessionManagerProp)
    requires GetMode(p).Success?
    ensures BuildRequest(p).Success? && BuildDescriptor(GetMode(p).value, p).Success?
    ensures var req := BuildRequest(p).value;
            BuildDescriptor(GetMode(p).value, p).value
              == Descriptor(req.target, req.documentName, req.parameters)
  {
  }

  /** The SSM endpoint passed as the helper's last argument. */
  function Endpoint(region: string): (url: string)
    ensures |url| == |EndpointPrefix| + |region| + |EndpointSuffix|
    ensures url[..|EndpointPrefix|] == EndpointPrefix
    ensures url[|EndpointPrefix|..|EndpointPrefix| + |region|] == region
    ensures url[|EndpointPrefix| + |region|..] == EndpointSuffix
  {
    EndpointPrefix + region + EndpointSuffix
  }

  /** The region an SSM endpoint URL names, if it has the endpoint's shape. */
  function EndpointRegion(url: string): Option<string> {
    if |url| >= |EndpointPrefix| + |EndpointSuffix|
       && url[..|EndpointPrefix|] == EndpointPrefix
       && url[|url| - |EndpointSuffix|..] == EndpointSuffix
    then Some(url[|EndpointPrefix|..|url| - |EndpointSuffix|])
    else None
  }

  /** The endpoint names its region and nothing else: `Endpoint` and
      `EndpointRegion` are inverse to each other. */
  lemma EndpointRoundTrip(region: string, url: string)
    ensures EndpointRegion(url) == Some(region) <==> Endpoint(region) == url
  {
  }

  /** The broker's answer, serialised as the helper's first argument. */
  datatype Credentials = Credentials(sessionId: string, tokenValue: string, streamUrl: string)

  /** The argument list of the `session-manager-plugin` launch, kept structured. */
  datatype HelperInvocation = HelperInvocation(
    program: string,
    response: Credentials,
    region: string,
    operation: string,
    profile: string,
    descriptor: Descriptor,
    endpoint: string
  )

  /** The pure part of `start_session`: resolve the mode, ask the broker
      (`None` is a failed call), then assemble the helper's arguments. */
  function StartSession(p: SessionManagerProp, broker: BrokerRequest -> Option<Credentials>)
    : (r: Result<HelperInvocation, Error>)
    ensures GetMode(p).Failure? ==> r == Failure(InvalidCombination)
    ensures r.Failure? ==> r.error == InvalidCombination || r.error == BrokerFailure
    ensures GetMode(p).Success? ==>
              (r.Success? <==> broker(BuildRequest(p).value).Some?)
    ensures GetMode(p).Success? && broker(BuildRequest(p).value).None? ==>
              r == Failure(BrokerFailure)
    ensures r.Success? ==>
              var req := BuildRequest(p).value;
              && r.value.program == SessionManagerBinName
              && r.value.response == broker(req).value
              && r.value.region == p.region
              && r.value.operation == "StartSession"
              && r.value.profile == ""
              && r.value.descriptor == Descriptor(req.target, req.documentName, req.parameters)
              && EndpointRegion(r.value.endpoint) == Some(p.region)
  {
    var request :- BuildRequest(p);
    var mode := GetMode(p).value;
    match broker(request)
    case None => Failure(BrokerFailure)
    case Some(response) =>
      DescriptorAgreesWithRequest(p);
      EndpointRoundTrip(p.region, Endpoint(p.region));
      var descriptor := BuildDescriptor(mode, p).value;
      Success(HelperInvocation(SessionManagerBinName, response, p.region, "StartSession", "",
                               descriptor, Endpoint(p.region)))
  }
}
