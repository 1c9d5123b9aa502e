/** Session-mode resolution: the request record, the three session modes,
    the SSM document each mode selects, and `get_mode`, which classifies the
    presence of the three optional fields and rejects every other combination. */
module SessionMode {
  import opened Wrappers
  import opened Decimal

  /** A `url::Host`, kept opaque: only its `Display` rendering is used. */
  datatype Host = Host(text: string)

  /** The request built once per invocation; `SessionManagerProp::new` is
      this datatype's constructor, storing each argument unchanged. */
  datatype SessionManagerProp = SessionManagerProp(
    region: string,
    instanceId: string,
    localPort: Option<u16>,
    remotePort: Option<u16>,
    remoteHost: Option<Host>
  )

  datatype Mode = Direct | PortForwarding | PortForwardingToRemoteHost

  /** The ways `start_session` fails before the helper is launched. */
  datatype Error =
    | InvalidCombination      // the `panic!()` of `get_mode`
    | UnwrapNone(field: string) // an `unwrap()` on `None`
    | BrokerFailure           // the `StartSession` call returned an error

  const PortForwardingDocument: string := "AWS-StartPortForwardingSession"
  const RemoteHostDocument: string := "AWS-StartPortForwardingSessionToRemoteHost"

  /** `SessionMode::get_document_name`. */
  function DocumentName(mode: Mode): (r: Option<string>)
    ensures r.None? <==> mode == Direct
    ensures mode == PortForwarding ==> r == Some(PortForwardingDocument)
    ensures mode == PortForwardingToRemoteHost ==> r == Some(RemoteHostDocument)
  {
    match mode
    case Direct => None
    case PortForwarding => Some(PortForwardingDocument)
    case PortForwardingToRemoteHost => Some(RemoteHostDocument)
  }

  /** Which mode a document selects, as the helper reads it back. */
  function ModeOfDocument(doc: Option<string>): (r: Option<Mode>)
  {
    match doc
    case None => Some(Direct)
    case Some(name) =>
      if name == PortForwardingDocument then Some(PortForwarding)
      else if name == RemoteHostDocument then Some(PortForwardingToRemoteHost)
      else None
  }

  /** The document selection loses nothing: the mode is recoverable from it,
      and only the three mode documents are ever recognised. */
  lemma DocumentNameInverse(mode: Mode, doc: Option<string>)
    ensures ModeOfDocument(doc) == Some(mode) <==> DocumentName(mode) == doc
  {
  }

  /** Different modes select different documents. */
  lemma DocumentNameInjective(a: Mode, b: Mode)
    ensures DocumentName(a) == DocumentName(b) <==> a == b
  {
  }

  /** The classification table of the three presence flags (local port,
      remote port, remote host), written out independently of `GetMode`. */
  function ModeOfPresence(local: bool, remote: bool, host: bool): (r: Option<Mode>)
  {
    match (local, remote, host)
    case (false, false, false) => Some(Direct)
    case (true, true, false) => Some(PortForwarding)
    case (true, true, true) => Some(PortForwardingToRemoteHost)
    case _ => None
  }

  /** `get_mode`: the first guard that matches decides; no guard matching is
      the `panic!()` of `start_session.rs:100`. */
  function GetMode(p: SessionManagerProp): (r: Result<Mode, Error>)
    ensures r == Success(Direct) <==>
              p.localPort.None? && p.remotePort.None? && p.remoteHost.None?
    ensures r == Success(PortForwarding) <==>
              p.localPort.Some? && p.remotePort.Some? && p.remoteHost.None?
    ensures r == Success(PortForwardingToRemoteHost) <==>
              p.localPort.Some? && p.remotePort.Some? && p.remoteHost.Some?
    ensures r.Failure? ==> r.error == InvalidCombination
  {
    if p.localPort.None? && p.remotePort.None? && p.remoteHost.None? then
      Success(Direct)
    else if p.localPort.Some? && p.remotePort.Some? && p.remoteHost.None? then
      Success(PortForwarding)
    else if p.localPort.Some? && p.remotePort.Some? && p.remoteHost.Some? then
      Success(PortForwardingToRemoteHost)
    else
      Failure(InvalidCombination)
  }

  /** `get_mode` agrees with the classification table on every one of the
      eight presence combinations: it accepts exactly the three table rows
      and never coerces any other combination into a mode. */
  lemma GetModeMatchesTable(p: SessionManagerProp)
    ensures var t := ModeOfPresence(p.localPort.Some?, p.remotePort.Some?, p.remoteHost.Some?);
            && (t.None? <==> GetMode(p) == Failure(InvalidCombination))
            && (forall m :: t == Some(m) <==> GetMode(p) == Success(m))
  {
  }

  /** The mode depends only on which fields are present, not on their values,
      the region or the instance id. */
  lemma GetModeOnlyPresence(p: SessionManagerProp, q: SessionManagerProp)
    requires p.localPort.Some? == q.localPort.Some?
    requires p.remotePort.Some? == q.remotePort.Some?
    requires p.remoteHost.Some? == q.remoteHost.Some?
    ensures GetMode(p) == GetMode(q)
  {
  }

  /** The fields a mode reads: both ports for the forwarding modes, and the
      host for forwarding to a remote host. */
  predicate Supplies(p: SessionManagerProp, mode: Mode) {
    match mode
    case Direct => true
    case PortForwarding => p.localPort.Some? && p.remotePort.Some?
    case PortForwardingToRemoteHost =>
      p.localPort.Some? && p.remotePort.Some? && p.remoteHost.Some?
  }

  /** A resolved mode always finds the fields it needs. */
  lemma GetModeSupplies(p: SessionManagerProp)
    requires GetMode(p).Success?
    ensures Supplies(p, GetMode(p).value)
  {
  }

  /** The accepted and rejected inputs of the in-file `test_get_mode`. */
  lemma GetModeTestCases()
    ensures GetMode(SessionManagerProp("region", "instance_id", None, None, None))
              == Success(Direct)
    ensures GetMode(SessionManagerProp("region", "instance_id", Some(12345), Some(12345), None))
              == Success(PortForwarding)
    ensures GetMode(SessionManagerProp("region", "instance_id", Some(12345), Some(12345),
                                       Some(Host("example.com"))))
              == Success(PortForwardingToRemoteHost)
    ensures GetMode(SessionManagerProp("region", "instance_id", Some(12345), None, None)).Failure?
    ensures GetMode(SessionManagerProp("region", "instance_id", None, Some(12345), None)).Failure?
    ensures GetMode(SessionManagerProp("region", "instance_id", None, None,
                                       Some(Host("example.com")))).Failure?
    ensures GetMode(SessionManagerProp("region", "instance_id", Some(12345), None,
                                       Some(Host("example.com")))).Failure?
    ensures GetMode(SessionManagerProp("region", "instance_id", None, Some(12345),
                                       Some(Host("example.com")))).Failure?
  {
  }
}
