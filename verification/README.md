# session-manager-wrapper: session request shaping, in Dafny

This project models the request-shaping core of `session-manager-wrapper`, a
small Rust command-line tool that starts an AWS Systems Manager (SSM) session
against an instance and hands the broker's answer to the
`session-manager-plugin` helper. The model covers:

- **Mode resolution** (`get_mode`). The presence of the three optional
  fields `local_port`, `remote_port` and `remote_host` is classified into
  `Direct`, `PortForwarding` or `PortForwardingToRemoteHost`. Every other
  combination is the `panic!()` of the source. The model turns that panic
  into `Failure(InvalidCombination)`.
- **Document selection** (`SessionMode::get_document_name`) and the second
  match in `start_session` that picks the document name.
- **The broker parameter map.** This is the `HashMap<String, Vec<String>>`
  built by successive inserts. Each `unwrap()` is modelled as a possible
  `Failure(UnwrapNone(field))`. An empty map is sent as no parameters.
- **The `StartSession` broker request.** It holds the target, the document
  and the parameters.
- **The helper descriptor** (`session_manager_param`). This is a structured
  value, not JSON text. A `None` field stands for a key the JSON object
  does not have.
- **The SSM endpoint string** `https://ssm.<region>.amazonaws.com`.
- **The whole pure part of `start_session`.** The broker call is a function
  parameter `BrokerRequest -> Option<Credentials>`, where `None` is a failed
  call. The result is the structured argument list of the helper launch.

Ports are `u16` (a newtype `0 <= x < 65536`). They are rendered by
`Decimal.ToDecimal`, which is what Rust's `to_string` produces. That
rendering is proved to be a bijection onto canonical numerals, with
`ParseDecimal` as its inverse. A `url::Host` is kept opaque: the model
holds only its `Display` string. `SessionManagerProp::new` just stores its
five arguments (src/aws_sdk/start_session.rs:41-57), so the model uses the
constructor of the `SessionManagerProp` datatype for it.

Modules: `Wrappers` (Option/Result), `Decimal` (port rendering and its
inverse), `SessionMode` (types, documents, `get_mode`) and `SessionRequest`
(parameters, request, descriptor, endpoint, `start_session`).

## Model

| member | source | states |
|---|---|---|
| Decimal.ToDecimal | src/aws_sdk/start_session.rs:131-138 | a port's `to_string` is a canonical decimal numeral: non-empty, digits only, no leading zero except "0" itself, one digit exactly for values below ten |
| Decimal.ParseDecimal | src/aws_sdk/start_session.rs:131-138 | the reader of port strings accepts exactly the canonical numerals |
| Decimal.ValueOfToDecimal | src/aws_sdk/start_session.rs:131-138 | the numeral of a port denotes that port's number |
| Decimal.ToDecimalOfValue | src/aws_sdk/start_session.rs:131-138 | every canonical numeral is the rendering of the number it denotes |
| Decimal.ParseToDecimal | src/aws_sdk/start_session.rs:131-138 | parsing the rendering of n gives back n |
| Decimal.ParseDecimalInverse | src/aws_sdk/start_session.rs:131-138 | parsing and rendering are inverse to each other in both directions |
| Decimal.ToDecimalInjective | src/aws_sdk/start_session.rs:131-138 | two port values render to the same string only if they are equal |
| SessionMode.DocumentName | src/aws_sdk/start_session.rs:17-25 | `Direct` selects no document; the two forwarding modes select `AWS-StartPortForwardingSession` and `AWS-StartPortForwardingSessionToRemoteHost` |
| SessionMode.DocumentNameInverse | src/aws_sdk/start_session.rs:17-25 | a document names exactly one mode; the mode is recovered from the document and no other document is recognised |
| SessionMode.DocumentNameInjective | src/aws_sdk/start_session.rs:17-25 | different modes select different documents |
| SessionMode.GetMode | src/aws_sdk/start_session.rs:87-103 | `Direct` iff all three fields are absent; `PortForwarding` iff both ports are present and the host is absent; `PortForwardingToRemoteHost` iff all three are present; any other combination fails with `InvalidCombination` |
| SessionMode.GetModeMatchesTable | src/aws_sdk/start_session.rs:87-103 | on all eight presence combinations `get_mode` agrees with an independently written three-row table; the five other rows are rejected and never coerced to a mode |
| SessionMode.GetModeOnlyPresence | src/aws_sdk/start_session.rs:88-97 | the mode depends only on which fields are present, not on their values, the region or the instance id |
| SessionMode.GetModeSupplies | src/aws_sdk/start_session.rs:87-103 | a resolved mode always finds present every field it reads |
| SessionMode.GetModeTestCases | src/aws_sdk/start_session.rs:247-325 | the three accepted inputs of `test_get_mode` give their modes and its five rejected inputs fail |
| SessionRequest.BuildParameters | src/aws_sdk/start_session.rs:127-155 | the map is built exactly when the mode's fields are present, and otherwise the result is an unwrap failure; its keys are none for `Direct`, `portNumber`/`localPortNumber` for port forwarding, plus `host` for a remote host; every value is a single string: the remote port's numeral, the local port's numeral, the host's text |
| SessionRequest.PortStringRoundTrip | src/aws_sdk/start_session.rs:131-138 | a port stored as a one-string value under a key is read back as that port |
| SessionRequest.ParametersRoundTrip | src/aws_sdk/start_session.rs:127-155 | reading the map of a resolved request back gives exactly its local port, remote port and host, so the map resolves to the same mode |
| SessionRequest.ParametersInjective | src/aws_sdk/start_session.rs:127-155 | two requests of one mode give the same map iff their ports and host agree |
| SessionRequest.SetParameters | src/aws_sdk/start_session.rs:162-166 | an empty map becomes no parameters; a non-empty map is passed unchanged |
| SessionRequest.ParametersOmittedIffDirect | src/aws_sdk/start_session.rs:127-166 | for a resolved mode, parameters are omitted exactly when the mode is `Direct` |
| SessionRequest.SelectedDocument | src/aws_sdk/start_session.rs:119-125 | the `document_name` chosen in `start_session` is always `get_document_name` of the mode |
| SessionRequest.BuildRequest | src/aws_sdk/start_session.rs:112-166 | the broker request exists iff the mode resolves, and otherwise the failure is `InvalidCombination`; it targets the instance id and carries the mode's document; it carries as parameters exactly the mode's parameter map, omitted when that map is empty, which happens only for `Direct`; those parameters read back to the request's ports and host |
| SessionRequest.BuildDescriptor | src/aws_sdk/start_session.rs:186-205 | the descriptor is built exactly when the mode's fields are present; for `Direct` it holds only the target; otherwise it holds the target, the mode's document and exactly the map the parameter builder produces for that mode |
| SessionRequest.UnwrapsNeverFail | src/aws_sdk/start_session.rs:127-205 | given a mode returned by `get_mode`, no `unwrap()` in the parameter map or the descriptor is on `None` |
| SessionRequest.DescriptorAgreesWithRequest | src/aws_sdk/start_session.rs:157-205 | the helper descriptor repeats the broker request's target, document and parameters exactly |
| SessionRequest.Endpoint | src/aws_sdk/start_session.rs:217 | the endpoint is `https://ssm.` followed by the region followed by `.amazonaws.com` |
| SessionRequest.EndpointRoundTrip | src/aws_sdk/start_session.rs:217 | the region is recovered from the endpoint, and only an endpoint-shaped URL yields a region |
| SessionRequest.StartSession | src/aws_sdk/start_session.rs:108-222 | an invalid combination fails before the broker is asked; no unwrap panic is reachable; once the mode resolves, a failed broker call gives exactly `BrokerFailure`; on success the helper gets the broker's response, the region, `StartSession`, an empty profile, a descriptor equal to the request, and the region's endpoint |

## Left out

- `get_client` and the sending of the `StartSession` call (src/aws_sdk/start_session.rs:59-66, 157-168). These are AWS SDK network I/O. The call is the opaque `broker` parameter of `SessionRequest.StartSession`.
- The `unwrap()` calls on the response's session id, token and stream URL (src/aws_sdk/start_session.rs:173-177). The model's `Credentials` always carries all three fields, because the SDK response type is not modelled.
- `check_binary_exist`, the `subprocess::Exec` launch and the `assert!` on the exit status (src/aws_sdk/start_session.rs:68-82, 211-219). These are process spawning. Only the helper's argument list is modelled.
- The `tokio::spawn` / `ctrl_c` listener (src/aws_sdk/start_session.rs:207-210). It handles asynchronous signals.
- The serialisation of the response and the descriptor to JSON text by `serde_json`, and all `log::` calls. The descriptor is a structured datatype.
- The parsing and `Display` of `url::Host`. This is a foreign library, so the host is an opaque string.
- src/util/clap.rs and src/main.rs. These are command-line parsing, the `AWS_REGION` environment read, logger setup, and an interactive branch that the source leaves unimplemented.
