# Uplink core of the air-quality node, in Dafny

This project models the path from sensor data to the network in the
graduation-project firmware. The path has five parts:

- The AT drivers (`at_send`, `at_read`, `at_send_wait`) write a command to
  the SIM modem's serial port and collect its response.
- The `eSimResult` wrappers of the SIM command layer run one or two AT
  transactions each. They judge the response text into PASS, WAIT or FAIL.
- The MQTT transport stores the client, server and message configuration.
  It runs one session step per state handler and reports each outcome to the
  SIM state machine.
- The HTTP transport is a three-state machine (PREPARE, SEND, STOP) guarded
  by a running flag. It sends the JSON text taken from a mailbox.
- The coordinator holds the active layer and the state of each machine, and
  dispatches to the handler of that layer.

Modules follow the source files:

| module (file) | models |
|---|---|
| `Text` (text.dfy) | `strstr`, the NUL-terminated view of a buffer, and the `sscanf` conversions the wrappers use |
| `At` (at.dfy) | src/sim/at.c |
| `AtCmd` (at_cmd.dfy) | src/sim/at_cmd.c |
| `SimCmd` (sim_cmd.dfy) | src/sim/sim_cmd.c |
| `Mqtt` (mqtt.dfy) | src/transport/mqtt.c |
| `Http` (http.dfy) | src/transport/http.c |
| `Fsm` (fsm.dfy) | src/fsm/fsm.c |

The serial port is a trace of events. Each `write` call consumes a
`WriteEvent` and each `read` call a `ReadEvent`. A read event carries the
monotonic clock reading the loop takes after it.

Above the drivers the modem is an oracle `Modem`. Its `script` is the list of
replies its transactions get. A transaction either fails (`at_send_wait` < 0)
or returns the response text. A transaction past the end of the script gets
an empty text, which is what a silent modem gives once `at_read` times out.

A wrapper is described by a `Plan`: its transactions, the gate between them
and the verdict on the last response. `Outcome` gives its result and `Issued`
the transactions it makes. `Chain` describes a sequence of wrapper calls that
stops at the first result that is not PASS. The MQTT ready handler and the
HTTP prepare and send steps are such chains.

The handlers do not call `updateSimState` or `setHttpState`. Their targets
are not in this model, so each handler appends the call it would make to a
log (`updates`, `phases`).

## Model

| member | source | states |
|---|---|---|
| Text.FindSpec | src/sim/at.c:93-94 | the index `strstr` points at is the first occurrence of the pattern; no index is found only when the pattern occurs nowhere |
| Text.Strstr | src/sim/sim_cmd.c:90 | the suffix `strstr` returns exists exactly when the pattern occurs; it starts with the pattern and is a suffix of the text |
| Text.CStr | src/sim/at.c:91 | what the C string functions see of a buffer: a NUL-free prefix, ended by a NUL or by the end of the buffer |
| Text.CStrTerminated | src/sim/at.c:105 | a NUL written after the data hides whatever follows it |
| Text.ScanIntShow | src/sim/sim_cmd.c:94 | a `%d` conversion reads back the decimal rendering of any natural number, leaving the rest |
| Text.ScanCodesRoundTrip | src/sim/sim_cmd.c:94 | `sscanf(s, "<NAME>: %d,%d")` reads both fields of a report the modem prints |
| Text.ScanCodeRoundTrip | src/sim/sim_cmd.c:202 | `sscanf(s, "<NAME>: %d")` reads the field of a one-field report |
| At.SendLoop | src/sim/at.c:47-60 | the write loop: each accepted write adds what the kernel took, never more than is left; EINTR retries; any other failure ends with -1; the loop is done once every byte is written |
| At.SendResult | src/sim/at.c:40-61 | a closed port gives -1; otherwise the total the write loop reaches, or -1 when it failed |
| At.Send | src/sim/at.c:40-61 | the write loop returns -1 (closed port, or a write error other than EINTR) or is the value `SendResult` gives the trace |
| At.SendAllOrNothing | src/sim/at.c:47-60 | `at_send` returns -1 or the whole length; it never reports a partial write |
| At.InterruptRetried | src/sim/at.c:50-52 | an EINTR in front of the trace never changes the result |
| At.WriteFailureFails | src/sim/at.c:49-56 | a write failure other than EINTR makes the call return -1 at once, whatever accepted, partial or interrupted writes came before it while bytes were still unwritten |
| At.QuietTurn | src/sim/at.c:79-100 | one turn after a read: a hard read error is exactly what ends the turn with -1; otherwise the byte is stored, and the turn stops on a result code with the line quiet for 80 ms, or on the deadline, and never for any other reason |
| At.QuietLoop | src/sim/at.c:74-103 | the loop: a full buffer (`idx >= max_len - 1`) ends it before the next read; otherwise one turn, and the next |
| At.QuietRead | src/sim/at.c:68-103 | the loop started with an empty buffer and `last_rx` at the start time |
| At.ReadResult | src/sim/at.c:63-106 | the guard of line 65 gives -1; a hard read error gives -1; otherwise the count of bytes stored |
| At.Read | src/sim/at.c:63-107 | the guard of line 65 gives -1 and leaves the buffer alone; otherwise the buffer holds exactly the bytes the loop stored, NUL-terminated, and the result is their count, or -1 on a hard read error |
| At.QuietReadEnds | src/sim/at.c:74-103 | on a trace that reaches the deadline the loop ends. It stores the bytes received, in order, within `max_len - 1`. Every earlier event was neither a hard error nor past the deadline. It stops because the buffer is full, or a result code was seen with the line quiet for 80 ms, or the timeout, or a hard error. No earlier poll found a result code with the line quiet for 80 ms, so it stops at the first one that does. A read is only made while the buffer has room, so the loop stops as soon as the buffer is full; and when a read ends the loop, the result is a hard error exactly when that read failed hard |
| At.MarkerAloneDoesNotStop | src/sim/at.c:96-97 | in the model, where one clock reading stands for a whole turn, the turn that stores a byte never ends the loop by quiescence; a later poll must find the line quiet |
| At.Store | src/sim/at.c:82-91 | one turn stores the byte at `idx`, NUL-terminates after it and leaves the rest of the buffer |
| At.Poll | src/sim/at.c:82-100 | one turn after a byte, a 0 return or a transient error stops exactly when the loop's turn function says so, and always leaves the buffer NUL-terminated |
| At.Exchange | src/sim/at.c:26-38 | a transaction returns a reply only when the whole command was written, and the reply text has no NUL |
| At.SendWait | src/sim/at.c:26-38 | returns 0 or -1, -1 exactly when the write or the read failed; a failed write leaves the buffer untouched; on 0 the buffer reads back as the reply |
| AtCmd.Read | src/sim/at_cmd.c:64-108 | the closed port gives -1 and leaves the buffer alone; otherwise the result is the count of bytes stored (or -1 on a hard error) and the buffer holds them |
| AtCmd.MarkerTurn | src/sim/at_cmd.c:77-103 | one turn after a read: a hard read error is exactly what ends it with -1; otherwise a stored byte that completes a result code once four bytes are in ends it, or the deadline does, and nothing else |
| AtCmd.MarkerLoop | src/sim/at_cmd.c:72-104 | the loop: a full buffer ends it before the next read; otherwise one turn, and the next |
| AtCmd.MarkerRead | src/sim/at_cmd.c:69-104 | the loop started with an empty buffer |
| AtCmd.MarkerReadEnds | src/sim/at_cmd.c:72-104 | the loop ends and stores the bytes in order within capacity. It stops at the first stored byte that completes a result code (once four bytes are in), at the deadline, on a full buffer or on a hard error, and never on a quiet period. A read is only made while the buffer has room, so the loop stops as soon as the buffer is full; and when a read ends the loop, the result is a hard error exactly when that read failed hard |
| AtCmd.Take | src/sim/at_cmd.c:80-103 | one turn stores the byte and looks for a result code only once four bytes are in |
| AtCmd.SendWaitResult | src/sim/at_cmd.c:21-39 | the result is -1 exactly when the write failed or the read ended on a hard error. Otherwise it is the number of bytes read into the 128-byte frame, which is only ever the case after the whole command was written |
| AtCmd.SendWait | src/sim/at_cmd.c:21-39 | the method returns what `SendWaitResult` gives |
| SimCmd.Classify | src/sim/sim_cmd.c:25-36 | judging a response text never gives WAIT |
| SimCmd.Open | src/sim/sim_cmd.c:119-120 | the gate on a first response never gives WAIT: "ERROR" fails (or, at a '>' prompt, is judged by the report's code), a missing '>' or "DOWNLOAD" fails, and otherwise the second transaction follows |
| SimCmd.Continues | src/sim/sim_cmd.c:116-124 | a second transaction follows only in a two-transaction wrapper whose first transaction completed and whose gate opened |
| SimCmd.Issued | src/sim/sim_cmd.c:116-124 | a wrapper issues its first transaction, and the second exactly when `Continues` holds |
| SimCmd.Outcome | src/sim/sim_cmd.c:102-131 | a failed transaction gives WAIT; otherwise the gate, then the verdict on the last response, decide |
| SimCmd.WaitOnlyOnFailure | src/sim/sim_cmd.c:28-29 | a wrapper gives WAIT exactly when a transaction it issued failed |
| SimCmd.FailedFirstStops | src/sim/sim_cmd.c:116-117 | a failed first transaction gives WAIT and nothing further is sent |
| SimCmd.RegEpsReport | src/sim/sim_cmd.c:77-100 | a `+CEREG` report followed by OK passes exactly when stat is 1 or 5 |
| SimCmd.RegEpsRejects | src/sim/sim_cmd.c:84-92 | a registration response with "ERROR", or without a `CEREG` report, fails |
| SimCmd.PdpStateReport | src/sim/sim_cmd.c:169-180 | a `+CGACT` report after OK passes exactly when the state is 1 |
| SimCmd.ActivatePdpGate | src/sim/sim_cmd.c:154-181 | "ERROR" on the activation fails without the status query; a pass needs state 1 in the status reply |
| SimCmd.MqttStartAfterOk | src/sim/sim_cmd.c:197-209 | a `+CMQTTSTART` report after OK passes exactly on code 0 |
| SimCmd.MqttStartOnError | src/sim/sim_cmd.c:192-195 | an "ERROR" response to the service start passes, as the service already runs |
| SimCmd.AcquireVerdict | src/sim/sim_cmd.c:242-270 | acquiring passes on "OK", and when refused passes exactly on code 0 or 19 |
| SimCmd.ReleaseVerdict | src/sim/sim_cmd.c:212-240 | releasing passes on "OK", and when refused passes exactly on code 0 or 20 |
| SimCmd.ConnectionVerdicts | src/sim/sim_cmd.c:272-325 | connect passes exactly on code 0 or 19; disconnect and publish pass exactly on code 0 |
| SimCmd.PromptGateIff | src/sim/sim_cmd.c:338-366 | the topic or payload bytes are sent exactly when the first response has no "ERROR" and holds '>'; the wrapper then passes exactly when the second response holds "OK" |
| SimCmd.TopicRefused | src/sim/sim_cmd.c:338-353 | a refused topic is judged by its report's code alone, and the topic bytes are not sent |
| SimCmd.DownloadRequired | src/sim/sim_cmd.c:701-702 | the HTTP data is sent exactly after a "DOWNLOAD" prompt; without one the call fails |
| SimCmd.HttpServiceVerdicts | src/sim/sim_cmd.c:555-583 | stopping and starting the HTTP service pass exactly on a response that holds "ERROR" or "OK" and fail on any other; so both final result codes pass. The action passes whenever its transaction completes |
| SimCmd.CheckAlivePlan | src/sim/sim_cmd.c:25-36 | `AT` with 500 ms; PASS on "OK" |
| SimCmd.EchoOnPlan | src/sim/sim_cmd.c:38-49 | `ATE1` with 500 ms; PASS on "OK" |
| SimCmd.EchoOffPlan | src/sim/sim_cmd.c:51-62 | `ATE0` with 500 ms; PASS on "OK" |
| SimCmd.CheckReadyPlan | src/sim/sim_cmd.c:64-75 | the PIN query with 1000 ms; PASS on "CPIN: READY" |
| SimCmd.CheckRegEpsPlan | src/sim/sim_cmd.c:77-100 | the EPS registration query with 1000 ms; PASS on stat 1 or 5 of a `+CEREG` report without "ERROR" |
| SimCmd.SetPdpContextPlan | src/sim/sim_cmd.c:102-131 | the context definition with 1500 ms; on no "ERROR" the context query with 1000 ms; PASS on the APN |
| SimCmd.AttachGprsPlan | src/sim/sim_cmd.c:133-152 | the attach with 2000 ms; on no "ERROR" the status query with 1000 ms; PASS on "CGATT: 1" |
| SimCmd.ActivatePdpPlan | src/sim/sim_cmd.c:154-181 | the activation with 2000 ms; on no "ERROR" the status query with 1000 ms; PASS on state 1 of the `+CGACT` report |
| SimCmd.MqttStartPlan | src/sim/sim_cmd.c:185-210 | the service start with 2000 ms; PASS on "ERROR" or on code 0 of the `+CMQTTSTART` report |
| SimCmd.ReleasePlan | src/sim/sim_cmd.c:212-240 | the release of the client with 2000 ms; PASS on "OK" or on code 0 or 20 of the `+CMQTTREL` report |
| SimCmd.AcquirePlan | src/sim/sim_cmd.c:242-270 | the acquire of the client ID with 2000 ms; PASS on "OK" or on code 0 or 19 of the `+CMQTTACCQ` report |
| SimCmd.DisconnectPlan | src/sim/sim_cmd.c:272-297 | the fixed disconnect command with 2000 ms; PASS on code 0 of the `+CMQTTDISC` report |
| SimCmd.ConnectPlan | src/sim/sim_cmd.c:299-325 | the connect with 2000 ms; PASS on code 0 or 19 of the `+CMQTTCONNECT` report |
| SimCmd.TopicPlan | src/sim/sim_cmd.c:327-367 | the topic length with 200 ms; through the '>' gate the topic with 150 ms; PASS on "OK" |
| SimCmd.PayloadPlan | src/sim/sim_cmd.c:369-409 | the payload length with 200 ms; through the '>' gate the payload with 150 ms; PASS on "OK" |
| SimCmd.PublishPlan | src/sim/sim_cmd.c:411-434 | the publish with 200 ms; PASS on code 0 of the `+CMQTTPUB` report |
| SimCmd.HttpStartPlan | src/sim/sim_cmd.c:555-570 | the HTTP init with 200 ms; PASS on "ERROR" or "OK" |
| SimCmd.HttpStopPlan | src/sim/sim_cmd.c:572-583 | the HTTP term with 200 ms; PASS on "ERROR" or "OK" |
| SimCmd.HttpSetUrlPlan | src/sim/sim_cmd.c:585-598 | the URL parameter with 200 ms; PASS on "OK" |
| SimCmd.HttpSetContentPlan | src/sim/sim_cmd.c:600-613 | the content type with 200 ms; PASS on "OK" |
| SimCmd.HttpSetAcceptPlan | src/sim/sim_cmd.c:615-628 | the accept type with 200 ms; PASS on "OK" |
| SimCmd.HttpSetConnTimeoutPlan | src/sim/sim_cmd.c:630-643 | the connection timeout with 200 ms; PASS on "OK" |
| SimCmd.HttpSetRecvTimeoutPlan | src/sim/sim_cmd.c:645-658 | the reception timeout with 200 ms; PASS on "OK" |
| SimCmd.HttpSetSslPlan | src/sim/sim_cmd.c:660-673 | the SSL context with 200 ms; PASS on "OK" |
| SimCmd.HttpSetHeaderPlan | src/sim/sim_cmd.c:675-688 | the user-data header with 200 ms; PASS on "OK" |
| SimCmd.HttpSendDataPlan | src/sim/sim_cmd.c:690-713 | the data command with 200 ms; after a "DOWNLOAD" prompt the data with 200 ms; PASS on "OK" |
| SimCmd.HttpSendActionPlan | src/sim/sim_cmd.c:715-725 | the action with 2000 ms; PASS whenever the transaction completes |
| SimCmd.Chain | src/transport/mqtt.c:102-115 | a chain makes no more calls than it lists; it makes all of them when it ends in PASS |
| SimCmd.ChainStops | src/transport/http.c:41-63 | the calls after the first one that does not pass are never made |
| SimCmd.ChainFailsLast | src/transport/mqtt.c:103-108 | when a chain does not pass, every call before its last passed |
| SimCmd.Chain2 | src/transport/http.c:72-77 | the second of two calls is made only after the first passed, and its transactions follow the first one's |
| SimCmd.Chain3 | src/transport/mqtt.c:102-112 | the second of three calls is made only after the first passed, the third only after both did |
| SimCmd.Modem.constructor | src/sim/at.c:105-106 | a modem's replies are texts as `at_read` leaves them, up to the buffer's NUL, so none holds a NUL |
| SimCmd.Modem.Transact | src/sim/at.c:26-38 | a transaction appends its command to the log and gets the script's next reply |
| SimCmd.Modem.Run | src/sim/sim_cmd.c:25-36 | a wrapper issues the transactions `Issued` names and returns the result `Outcome` gives |
| SimCmd.Modem.RunAll | src/transport/mqtt.c:102-115 | the calls made are those of `Chain`, and the log grows by their transactions |
| SimCmd.Modem.CheckAlive | src/sim/sim_cmd.c:25-36 | `simCheckAlive` issues `AT` and returns the outcome of its reply |
| SimCmd.Modem.EchoOn | src/sim/sim_cmd.c:38-49 | `simEchoOn` in the same terms |
| SimCmd.Modem.EchoOff | src/sim/sim_cmd.c:51-62 | `simEchoOff` in the same terms |
| SimCmd.Modem.CheckReady | src/sim/sim_cmd.c:64-75 | `simCheckReady` in the same terms |
| SimCmd.Modem.CheckRegEps | src/sim/sim_cmd.c:77-100 | `simCheckRegEps` in the same terms |
| SimCmd.Modem.SetPdpContext | src/sim/sim_cmd.c:102-131 | `simSetPdpContext`: the status query is sent only when the definition had no "ERROR" |
| SimCmd.Modem.AttachGprs | src/sim/sim_cmd.c:133-152 | `simAttachGprs` in the same terms |
| SimCmd.Modem.ActivatePdp | src/sim/sim_cmd.c:154-181 | `simActivatePdp` in the same terms |
| SimCmd.Modem.MqttStartService | src/sim/sim_cmd.c:185-210 | `mqttStartService` in the same terms |
| SimCmd.Modem.MqttReleaseClient | src/sim/sim_cmd.c:212-240 | `mqttReleaseClient` in the same terms |
| SimCmd.Modem.MqttAcquireClient | src/sim/sim_cmd.c:242-270 | `mqttAcquireClient` in the same terms |
| SimCmd.Modem.MqttDisconnect | src/sim/sim_cmd.c:272-297 | `mqttDisconnect` in the same terms |
| SimCmd.Modem.MqttConnect | src/sim/sim_cmd.c:299-325 | `mqttConnect` in the same terms |
| SimCmd.Modem.MqttSetPublishTopic | src/sim/sim_cmd.c:327-367 | `mqttSetPublishTopic`: the topic is sent only through the '>' gate |
| SimCmd.Modem.MqttSetPayload | src/sim/sim_cmd.c:369-409 | `mqttSetPayload`: the payload is sent only through the '>' gate |
| SimCmd.Modem.MqttPublish | src/sim/sim_cmd.c:411-434 | `mqttPublish` in the same terms |
| SimCmd.Modem.HttpStartService | src/sim/sim_cmd.c:555-570 | `httpStartService` in the same terms |
| SimCmd.Modem.HttpStopService | src/sim/sim_cmd.c:572-583 | `httpStopService` in the same terms |
| SimCmd.Modem.HttpSetUrl | src/sim/sim_cmd.c:585-598 | `httpSetUrl` in the same terms |
| SimCmd.Modem.HttpSetContent | src/sim/sim_cmd.c:600-613 | `httpSetContent` in the same terms |
| SimCmd.Modem.HttpSetAccept | src/sim/sim_cmd.c:615-628 | `httpSetAccept` in the same terms |
| SimCmd.Modem.HttpSetConnectionTimeout | src/sim/sim_cmd.c:630-643 | `httpSetConnectionTimeout` in the same terms |
| SimCmd.Modem.HttpSetReceptionTimeout | src/sim/sim_cmd.c:645-658 | `httpSetReceptionTimeout` in the same terms |
| SimCmd.Modem.HttpSetSslContextId | src/sim/sim_cmd.c:660-673 | `httpSetSslContextId` in the same terms |
| SimCmd.Modem.HttpSetCustomHeader | src/sim/sim_cmd.c:675-688 | `httpSetCustomHeader` in the same terms |
| SimCmd.Modem.HttpSendData | src/sim/sim_cmd.c:690-713 | `httpSendData`: the data goes out only after a "DOWNLOAD" prompt |
| SimCmd.Modem.HttpSendAction | src/sim/sim_cmd.c:715-725 | `httpSendAction` in the same terms |
| Mqtt.ClientIdOf | src/transport/mqtt.c:21-28 | the stored ID is the given one when its length is in [1, 128), otherwise "DefaultClient"; either way its length is in range |
| Mqtt.ServerAddrOf | src/transport/mqtt.c:45-52 | the stored address is the given one when its length is in [9, 256), otherwise the default broker |
| Mqtt.OrEmpty | src/transport/mqtt.c:30-38 | a NULL user name or password is stored as "" |
| Mqtt.ValidationIdempotent | src/transport/mqtt.c:15-53 | storing an already stored configuration again changes nothing |
| Mqtt.ReadyPlans | src/transport/mqtt.c:102-112 | the ready handler's calls, in order: the topic, the payload, then the publish |
| Mqtt.AcquireTxs | src/transport/mqtt.c:75-87 | the acquire handler sends a disconnect and a release of the same client only when the acquire failed |
| Mqtt.MqttSession.ClientInit | src/transport/mqtt.c:15-39 | the client fields are stored as validated, and nothing else changes |
| Mqtt.MqttSession.ServerInit | src/transport/mqtt.c:41-53 | the server fields are stored as validated, and nothing else changes |
| Mqtt.MqttSession.PublishMessageConfig | src/transport/mqtt.c:55-67 | a message without a topic changes nothing; otherwise the four message fields are stored |
| Mqtt.MqttSession.StartHandler | src/transport/mqtt.c:69-73 | starts the service and reports its result with targets NET_READY and MQTT_ACCQ |
| Mqtt.MqttSession.AcquireHandler | src/transport/mqtt.c:75-87 | acquires the client; on FAIL it also disconnects and releases it; reports with targets PDP_ACTIVE and MQTT_CONNECT |
| Mqtt.MqttSession.ConnectHandler | src/transport/mqtt.c:89-93 | connects with the stored client and server and reports with targets MQTT_START and MQTT_READY |
| Mqtt.MqttSession.ReadyHandler | src/transport/mqtt.c:95-116 | a message over 100 bytes changes nothing. Otherwise topic, payload and publish run as a chain. Full success reports nothing, and any other result is reported with targets MQTT_ACCQ and MQTT_READY |
| Mqtt.MqttSession.DisconnectHandler | src/transport/mqtt.c:118-121 | sends one disconnect |
| Mqtt.MqttSession.ReleaseClientHandler | src/transport/mqtt.c:123-126 | sends one release of the stored client |
| Http.Kept | src/transport/http.c:166-174 | the kept headers are no more than those given and each is at most 256 bytes |
| Http.KeptAppend | src/transport/http.c:166-174 | filtering keeps the order the headers were given in |
| Http.KeptMembers | src/transport/http.c:168-173 | a header is kept exactly when it was given and is at most 256 bytes |
| Http.KeptIdempotent | src/transport/http.c:166-174 | filtering twice is filtering once |
| Http.ClampCount | src/transport/http.c:136-139 | the count used is the given one, but at most 10 |
| Http.ClampTestsStoredCount | src/transport/http.c:136-139 | the clamp as written lets a count of 11 through on a first initialisation |
| Http.SkippedInitMiscounts | src/transport/http.c:153-166 | a path that jumps past the counter's initialisation miscounts the kept headers |
| Http.DrainedAsWritten | sys/json.c:10-14 | the copy fills the start of the buffer and leaves the rest as it was |
| Http.StaleTail | src/transport/http.c:96 | a short message drained over a longer one is sent with the longer one's tail |
| Http.Drained | src/transport/http.c:96 | the corrected drain: the message, then a NUL, then the old rest |
| Http.DrainedReadsBack | src/transport/http.c:72 | what the send step reads of a drained buffer is exactly the message |
| Http.SetupPlans | src/transport/http.c:40-56 | the prepare step's first call after the start is the connection timeout |
| Http.HeaderPlans | src/transport/http.c:58-61 | one custom-header call per header, in order |
| Http.PreparePlansCount | src/transport/http.c:40-61 | each NULL setting issues no call, each present one a call, and the header calls come last |
| Http.PreparePlans | src/transport/http.c:40-61 | the prepare step's calls after the start: the connection timeout, the URL, content and accept types that are present, then one call per header |
| Http.KeptHeadersSent | src/transport/http.c:58-61 | every header the prepare step sends was given by the caller and is at most 256 bytes |
| Http.SendPlans | src/transport/http.c:72-77 | the send step's calls: the data, with its `strlen` as length, then the action for the method |
| Http.SendActionGated | src/transport/http.c:72-77 | the action is sent only when the data was accepted |
| Http.HttpSession.constructor | src/transport/http.c:23-25 | the context, the buffer and the running flag start zeroed |
| Http.HttpSession.PrepareHandler | src/transport/http.c:32-68 | a failed start sets the layer to SIM and reports no state. Otherwise the settings and headers run as a chain; the state becomes STOP on failure and SEND on success. Nothing else changes |
| Http.HttpSession.SendHandler | src/transport/http.c:70-81 | sends what `strlen` sees of the buffer, clears the buffer, sends the action only after PASS, and ends in STOP |
| Http.HttpSession.StopHandler | src/transport/http.c:83-87 | stops the service and moves to PREPARE |
| Http.HttpSession.Drain | src/transport/http.c:96-97 | the mailbox is copied to the buffer (terminated), emptied, and its flag cleared |
| Http.HttpSession.FsmHandler | src/transport/http.c:89-121 | an idle machine ignores every request but PREPARE. PREPARE while idle drains the mailbox and starts the machine. A running machine runs the handler of the requested state, and STOP ends the run |
| Http.HttpSession.ContextInit | src/transport/http.c:123-180 | without a URL nothing changes. Otherwise the URL, method and timeouts are stored. The content and accept types are stored only when present and at most 256 bytes. The kept headers fill the first slots in order, the count is their number, and the other slots keep their contents |
| Http.HttpSession.KeepHeaders | src/transport/http.c:164-174 | the filtering loop puts exactly the kept headers, in order, into the first slots, starting from a zero count |
| Fsm.Dispatch | src/fsm/fsm.c:11-36 | the two-level switch on the layer, then on the transport type |
| Fsm.DispatchCases | src/fsm/fsm.c:11-36 | the SIM layer runs the SIM handler, the transport layer with MQTT the MQTT handler, with HTTP none; each handler gets its own machine's state |
| Fsm.SimLayerIgnoresTransport | src/fsm/fsm.c:15-17 | in the SIM layer the transport and the MQTT state do not matter |
| Fsm.FsmContext.constructor | src/fsm/fsm.c:9 | the static context starts at every enum's first value |
| Fsm.FsmContext.Init | src/fsm/fsm.c:63-69 | `fsm_context_init`: layer SIM, transport MQTT, both machines at RESET, the HTTP state untouched |
| Fsm.FsmContext.SetLayer | src/fsm/fsm.c:38-41 | sets the layer only |
| Fsm.FsmContext.SetSimState | src/fsm/fsm.c:43-46 | sets the SIM state only |
| Fsm.FsmContext.GetSimState | src/fsm/fsm.c:48-51 | returns the SIM state |
| Fsm.FsmContext.SetMqttState | src/fsm/fsm.c:53-56 | sets the MQTT state only |
| Fsm.FsmContext.GetMqttState | src/fsm/fsm.c:58-61 | returns the MQTT state |
| Fsm.FsmContext.Handle | src/fsm/fsm.c:11-36 | `fsmHandler` selects the handler `Dispatch` names and writes nothing of the context |
| Fsm.SetGetRoundTrip | src/fsm/fsm.c:43-61 | a state set is read back unchanged, and the other fields keep their values |
| Fsm.InitThenHandle | src/fsm/fsm.c:63-69 | after initialisation the SIM handler runs at RESET |

## Left out

- Threads, the mutex and the condition variable around the mailbox are not modelled. The wait at src/transport/http.c:93-94 becomes the precondition that `jsonReady` is set when an idle machine gets PREPARE.
- The clock is not read. `at_read` takes its timestamps from the read trace, and the model requires that the clock never goes back and that the trace reaches the deadline; `usleep` is dropped.
- At.Poll and At.MarkerAloneDoesNotStop: one clock reading per read event stands for all the `now_ms()` calls of a turn (src/sim/at.c:84, :96 and :99). A stall of 80 ms or more between the reading that sets `last_rx` and the quiet test would let the C loop stop by quiescence in the very turn that stored the byte; the model does not capture that.
- At.Send: the model requires the write trace to decide the call. A port that returns EINTR forever would loop forever in C.
- Logging (`LOG_*`, `mqttLogResult`) is not modelled.
- The `snprintf` command text and its truncation to the command buffer are not modelled; commands are the datatype `Command`.
- The access point name is fixed to the VIETTEL build's "v-internet".
- `simEnterCmdMode` and `simEnterDataMode` call `at_send` directly and return no `eSimResult`; they are not modelled.
- `updateSimState` and `setHttpState` are not defined in the files modelled. Each call is recorded in a log (`updates`, `phases`) instead.
- `simFsmHandler` and `mqttFsmHandler` are not modelled; `Fsm.FsmContext.Handle` returns which of them would run.
- The STATE_* targets of `updateSimState` are the datatype `Mqtt.Stage`, because the enum they belong to is not in the files modelled.
- The HTTP states PREPARE/SEND/STOP used by src/transport/http.c are not declared in src/fsm/fsm.h, whose HTTP enum has other names; the model uses its own `Http.HttpPhase`.
- Mqtt.MqttSession.AcquireHandler requires a stored client ID, which src/sim/sim_cmd.c:246-248 formats with `snprintf`; a NULL ID there is undefined behaviour.
- Mqtt.MqttSession.ConnectHandler requires a configured client and server, because src/sim/sim_cmd.c:303-306 formats the address, the user name and the password with `snprintf`.
- Mqtt.MqttSession.ReadyHandler requires a stored topic. The topic never reaches `snprintf`, which gets only its length. Once the first reply holds no "ERROR" and holds '>', src/sim/sim_cmd.c:360 sends the topic with `at_send_wait`, whose `strlen` would read a NULL pointer.
- Http.HttpSession.ContextInit: a NULL slot of the caller's header array is taken as the empty string. The C loop would call `strlen` on NULL.
- Http.HttpSession.Valid requires the mailbox to hold fewer than 2048 bytes. The ring buffer's capacity lives in sys/ringbuffer.h, which is not part of this model.
- Http.HttpSession.PrepareHandler and Mqtt.MqttSession.ReadyHandler run their sequences of wrapper calls through `SimCmd.Modem.RunAll`, a recursive method, rather than as straight-line code with a loop. The calls made and their order are the same.
- Http.HttpSession.PrepareHandler runs the start wrapper through `SimCmd.Modem.Invoke`, which makes the same transactions as `SimCmd.Modem.HttpStartService`.
- Mqtt.MqttSession.AcquireHandler runs its fail path through the disconnect and release handlers, which make the same two calls.
- The UART setup (`sim_uart_init`, `sim_init`), the sensors, the JSON formatting, src/sim/sim.c, src/sim/at_mqtt.c and src/sim/mqtt.c are not modelled.

## Findings

| source | as written | input that shows it | evidently intended | confidence | as-written member | corrected member |
|---|---|---|---|---|---|---|
| src/transport/http.c:136-139 | the clamp tests the stored count `ctx.headerCount`, not the given one | a first initialisation (stored count 0) with a count of 11 stores 11, and the loop then reads the caller's header slot 10 of 10 | clamp the given count to 10 | not executed | Http.ClampTestsStoredCount | Http.ClampCount |
| src/transport/http.c:153-166 | the gotos for a missing or too long accept type jump past `int cnt = 0;` into the header loop | no accept type, one short header, and a counter that happens to hold 3: the count becomes 4 instead of 1 | the counter starts at 0 on every path | not executed | Http.SkippedInitMiscounts | Http.HttpSession.KeepHeaders |
| src/transport/http.c:96 | `getJsonData` copies the mailbox with no NUL after it. The buffer is cleared only by the send step, so a failed prepare leaves the old text in it | after `{"v":12}` stays in the buffer, draining `{}` makes the send step read `{}v":12}` | terminate the copy | not executed | Http.StaleTail | Http.Drained |
