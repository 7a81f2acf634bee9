/** The SIM command layer of `src/sim/sim_cmd.c`: every wrapper runs one or
    two AT transactions through `at_send_wait` and turns the response text
    into PASS, WAIT or FAIL. A failed transaction gives WAIT at once; a
    response is judged by `strstr`/`strchr` searches and by the integer
    codes `sscanf` reads after a report prefix, a code that is not read
    keeping its -1 default. */
module SimCmd {
  import opened Text
  import opened At

  datatype SimResult = Pass | Wait | Fail

  /** The result codes of the vendor MQTT commands that the wrappers name. */
  const MQTT_RES_OK: int := 0
  const MQTT_RES_CLIENT_USED: int := 19
  const MQTT_RES_CLIENT_NOT_ACQUIRED: int := 20

  /** The access point name selected at compile time (the VIETTEL build). */
  const APN: string := "v-internet"

  /** The AT commands the wrappers issue, with the values formatted into
      them. `Raw` is a text sent as it is (a topic, a payload, HTTP data). */
  datatype Command =
    | Sync | EchoOn | EchoOff | PinStatus | EpsRegStatus
    | DefinePdp(apn: string) | PdpContexts | GprsAttach | GprsStatus
    | PdpActivate | PdpStatus
    | MqttStart | MqttRelease(client: int) | MqttAcquire(client: int, id: string, serverType: int)
    | MqttDisconnect
    | MqttConnect(client: int, addr: string, keepAlive: int, cleanSession: int, user: string, password: string)
    | MqttTopic(client: int, len: int) | MqttPayload(client: int, len: int)
    | MqttPublish(client: int, qos: int, pubTimeout: int)
    | Raw(bytes: string)
    | HttpInit | HttpTerm | HttpUrl(url: string) | HttpContentType(content: string)
    | HttpAcceptType(accept: string) | HttpConnTimeout(seconds: int) | HttpRecvTimeout(seconds: int)
    | HttpSslContext(ctxId: int) | HttpUserData(header: string) | HttpData(len: int, time: int)
    | HttpAction(action: int)

  /** One call of `at_send_wait`: the command and its timeout. */
  datatype Tx = Tx(cmd: Command, timeoutMs: nat)

  // ---------------------------------------------------------------------------
  // Judging a response
  // ---------------------------------------------------------------------------

  /** How a wrapper judges its last response. */
  datatype Verdict =
    | Expect(word: string)                 // PASS when the text holds `word`
    | RegStatus                            // +CEREG: PASS when stat is 1 or 5
    | PdpState                             // +CGACT: PASS when state is 1
    | ServiceStart                         // +CMQTTSTART: "ERROR" or code 0
    | ClientCode(okPasses: bool, name: string, accepted: set<int>)
                                           // "OK" (when it counts) or the second code of `name`
    | EitherWord                           // PASS on "ERROR" or "OK"
    | Always                               // PASS whatever the text

  /** The integer that `sscanf(strstr(text, name), "<name>: %d,%d", ...)`
      leaves in the second variable, which starts at -1. */
  function SecondCode(text: string, name: string): int
  {
    match Strstr(text, name)
    case None => -1
    case Some(tail) => ScanCodes(tail, name).1.GetOr(-1)
  }

  /** The same for the single code of `"<name>: %d"`. */
  function FirstCode(text: string, name: string): int
  {
    match Strstr(text, name)
    case None => -1
    case Some(tail) => ScanCode(tail, name).GetOr(-1)
  }

  /** A response text never makes a wrapper WAIT: only a failed transaction
      does. */
  function Classify(v: Verdict, text: string): (r: SimResult)
    ensures r != Wait
  {
    match v
    case Expect(word) => if Contains(text, word) then Pass else Fail
    case RegStatus =>
      if Contains(text, "ERROR") || !Contains(text, "CEREG") then Fail
      else
        var stat := SecondCode(text, "CEREG");
        if stat == 1 || stat == 5 then Pass else Fail
    case PdpState =>
      if !Contains(text, "CGACT") then Fail
      else if SecondCode(text, "CGACT") == 1 then Pass else Fail
    case ServiceStart =>
      if Contains(text, "ERROR") then Pass
      else if !Contains(text, "CMQTTSTART") then Fail
      else if FirstCode(text, "CMQTTSTART") == MQTT_RES_OK then Pass else Fail
    case ClientCode(okPasses, name, accepted) =>
      if okPasses && Contains(text, "OK") then Pass
      else if !Contains(text, name) then Fail
      else if SecondCode(text, name) in accepted then Pass else Fail
    case EitherWord => if Contains(text, "ERROR") || Contains(text, "OK") then Pass else Fail
    case Always => Pass
  }

  /** What the first response of a two-transaction wrapper decides. */
  datatype Step = Done(result: SimResult) | Proceed

  /** How a two-transaction wrapper reads its first response. */
  datatype Gate =
    | RejectOnError               // "ERROR" fails, anything else proceeds
    | Prompt(name: string)        // "ERROR" is judged by the code of `name`; proceeds on '>'
    | Download                    // proceeds on "DOWNLOAD", fails otherwise

  function Open(g: Gate, text: string): (s: Step)
    ensures s.Done? ==> s.result != Wait
  {
    match g
    case RejectOnError => if Contains(text, "ERROR") then Done(Fail) else Proceed
    case Prompt(name) =>
      if Contains(text, "ERROR") then Done(Classify(ClientCode(false, name, {MQTT_RES_OK}), text))
      else if '>' !in text then Done(Fail)
      else Proceed
    case Download => if Contains(text, "DOWNLOAD") then Proceed else Done(Fail)
  }

  /** A wrapper: one transaction judged by a verdict, or two transactions
      with a gate between them. */
  datatype Plan =
    | One(tx: Tx, verdict: Verdict)
    | Two(tx: Tx, gate: Gate, follow: Tx, verdict: Verdict)

  /** Whether the first response lets a two-transaction wrapper issue its
      second transaction. */
  predicate Continues(p: Plan, first: Reply) {
    p.Two? && first.Replied? && Open(p.gate, first.text).Proceed?
  }

  /** The transactions a wrapper issues, given the first reply. */
  function Issued(p: Plan, first: Reply): (txs: seq<Tx>)
    ensures 1 <= |txs| <= 2 && txs[0] == p.tx
    ensures |txs| == 2 <==> Continues(p, first)
  {
    if Continues(p, first) then [p.tx, p.follow] else [p.tx]
  }

  /** The result of a wrapper whose transactions get the replies `first`
      and, when it is issued, `second`. */
  function Outcome(p: Plan, first: Reply, second: Reply): SimResult
  {
    if first.Failed? then Wait
    else
      match p
      case One(_, v) => Classify(v, first.text)
      case Two(_, g, _, v) =>
        match Open(g, first.text)
        case Done(r) => r
        case Proceed => if second.Failed? then Wait else Classify(v, second.text)
  }

  /** WAIT exactly when a transaction that was issued failed. */
  lemma WaitOnlyOnFailure(p: Plan, first: Reply, second: Reply)
    ensures Outcome(p, first, second) == Wait <==>
      first.Failed? || (Continues(p, first) && second.Failed?)
  {
  }

  /** A failed first transaction gives WAIT and nothing further is issued. */
  lemma FailedFirstStops(p: Plan, first: Reply, second: Reply)
    requires first.Failed?
    ensures Outcome(p, first, second) == Wait && Issued(p, first) == [p.tx]
  {
  }

  /** The second reply only matters when the second transaction is issued. */
  lemma SecondReplyIrrelevant(p: Plan, first: Reply, second: Reply, other: Reply)
    requires !Continues(p, first)
    ensures Outcome(p, first, second) == Outcome(p, first, other)
  {
  }

  // ---------------------------------------------------------------------------
  // Judging the responses a modem prints
  // ---------------------------------------------------------------------------

  /** An information response `\r\n+<name>: a,b\r\n`. */
  function Report2(name: string, a: nat, b: nat): string {
    "\r\n+" + (Field2(name, a, b) + "\r\n")
  }

  /** An information response `\r\n+<name>: a\r\n`. */
  function Report1(name: string, a: nat): string {
    "\r\n+" + (Field1(name, a) + "\r\n")
  }

  /** A name the scan can find after a report's own lead-in. */
  predicate ReportName(name: string, pre: string) {
    |name| > 0 && name[0] != '\r' && name[0] != '\n' && name[0] != '+' && name[0] !in pre
  }

  /** The scan finds a two-field report at the start of a text and reads
      its second field. */
  lemma Report2ScanFirst(name: string, a: nat, b: nat, tail: string)
    requires ReportName(name, [])
    ensures Contains(Report2(name, a, b) + tail, name)
    ensures SecondCode(Report2(name, a, b) + tail, name) == b
  {
    var f := Field2(name, a, b);
    var post := "\r\n" + tail;
    Assoc("\r\n+", f + "\r\n", tail);
    Assoc(f, "\r\n", tail);
    Field2Split(name, a, b, post);
    assert (f + post)[..|name|] == name;
    StrstrAfter("\r\n+", name, f + post);
    ScanCodesRoundTrip(name, a, b, post);
  }

  /** The same for a two-field report after text free of the report name's
      first letter. */
  lemma Report2ScanLast(pre: string, name: string, a: nat, b: nat)
    requires ReportName(name, pre)
    ensures Contains(pre + Report2(name, a, b), name)
    ensures SecondCode(pre + Report2(name, a, b), name) == b
  {
    var f := Field2(name, a, b);
    Assoc(pre, "\r\n+", f + "\r\n");
    Field2Split(name, a, b, "\r\n");
    assert (f + "\r\n")[..|name|] == name;
    StrstrAfter(pre + "\r\n+", name, f + "\r\n");
    ScanCodesRoundTrip(name, a, b, "\r\n");
  }

  /** And for a one-field report after such a text, and its only field. */
  lemma Report1ScanLast(pre: string, name: string, a: nat)
    requires ReportName(name, pre)
    ensures Contains(pre + Report1(name, a), name)
    ensures FirstCode(pre + Report1(name, a), name) == a
  {
    var f := Field1(name, a);
    Assoc(pre, "\r\n+", f + "\r\n");
    assert (f + "\r\n")[..|name|] == name;
    StrstrAfter(pre + "\r\n+", name, f + "\r\n");
    ScanCodeRoundTrip(name, a, "\r\n");
  }

  /** A letter that is neither in the report name nor a digit nor in the
      report's punctuation is not in the report. */
  lemma ReportLacks(name: string, a: nat, b: nat, c: char)
    requires c !in name && !IsDigit(c) && c != '\r' && c != '\n' && c != '+' && c != ':' && c != ' ' && c != ','
    ensures c !in Report2(name, a, b) && c !in Report1(name, a)
  {
    NotInDigits(Show(a), c);
    NotInDigits(Show(b), c);
  }

  /** A text that ends in the final ERROR contains "ERROR". */
  lemma EndsWithError(x: string)
    ensures Contains(x + ERROR_MARK, "ERROR")
  {
    assert ERROR_MARK == "\r\n" + "ERROR" + "\r\n";
    assert x + ERROR_MARK == (x + "\r\n") + "ERROR" + "\r\n";
    ContainsInfix(x + "\r\n", "ERROR", "\r\n");
  }

  /** A registration report and the final OK hold no "ERROR": the report has
      no 'O', the final OK no 'E', and no occurrence can straddle them. */
  lemma RegReportNoError(n: nat, stat: nat)
    ensures !Contains(Report2("CEREG", n, stat) + OK_MARK, "ERROR")
  {
    var report := Report2("CEREG", n, stat);
    ReportLacks("CEREG", n, stat, 'O');
    AbsentChar(report, "ERROR", 'O');
    AbsentChar(OK_MARK, "ERROR", 'E');
    ContainsSplit(report, OK_MARK, "ERROR");
  }

  /** How the verdicts judge a text whose report they have found. */
  lemma RegStatusOf(text: string, stat: int)
    requires !Contains(text, "ERROR") && Contains(text, "CEREG") && SecondCode(text, "CEREG") == stat
    ensures Classify(RegStatus, text) == (if stat == 1 || stat == 5 then Pass else Fail)
  {
  }

  lemma ServiceStartOf(text: string, code: int)
    requires !Contains(text, "ERROR") && Contains(text, "CMQTTSTART") && FirstCode(text, "CMQTTSTART") == code
    ensures Classify(ServiceStart, text) == (if code == MQTT_RES_OK then Pass else Fail)
  {
  }

  lemma ClientCodeOf(okPasses: bool, name: string, accepted: set<int>, text: string, err: int)
    requires Contains(text, name) && SecondCode(text, name) == err
    requires !okPasses || !Contains(text, "OK")
    ensures Classify(ClientCode(okPasses, name, accepted), text) == (if err in accepted then Pass else Fail)
  {
  }

  /** A registration report followed by the final OK: registered (stat 1,
      home network) and registered roaming (stat 5) pass, every other stat
      fails (3GPP TS 27.007, section 10.1.22). */
  lemma RegEpsReport(n: nat, stat: nat)
    ensures Classify(RegStatus, Report2("CEREG", n, stat) + OK_MARK) ==
      (if stat == 1 || stat == 5 then Pass else Fail)
  {
    var text := Report2("CEREG", n, stat) + OK_MARK;
    Report2ScanFirst("CEREG", n, stat, OK_MARK);
    RegReportNoError(n, stat);
    RegStatusOf(text, stat);
  }

  /** A registration response that reports an error fails, and so does one
      with no registration report. */
  lemma RegEpsRejects(text: string)
    requires Contains(text, "ERROR") || !Contains(text, "CEREG")
    ensures Classify(RegStatus, text) == Fail
  {
  }

  /** The PDP context activation report after the final OK: the context
      passes when its state is 1, activated (3GPP TS 27.007, section
      10.1.10). */
  lemma PdpStateReport(cid: nat, state: nat)
    ensures Classify(PdpState, Report2("CGACT", cid, state) + OK_MARK) ==
      (if state == 1 then Pass else Fail)
  {
    Report2ScanFirst("CGACT", cid, state, OK_MARK);
  }

  /** A service start report after text with no "ERROR" and no report name
      (the final OK, say) passes exactly on code 0. */
  lemma MqttStartReport(pre: string, code: nat)
    requires ReportName("CMQTTSTART", pre) && 'E' !in pre
    ensures Classify(ServiceStart, pre + Report1("CMQTTSTART", code)) ==
      (if code == MQTT_RES_OK then Pass else Fail)
  {
    Report1ScanLast(pre, "CMQTTSTART", code);
    StartReportNoError(pre, code);
    ServiceStartOf(pre + Report1("CMQTTSTART", code), code);
  }

  lemma StartReportNoError(pre: string, code: nat)
    requires 'E' !in pre
    ensures !Contains(pre + Report1("CMQTTSTART", code), "ERROR")
  {
    ReportLacks("CMQTTSTART", code, 0, 'E');
    LacksChar(pre, Report1("CMQTTSTART", code), "ERROR", 'E');
  }

  /** In particular after the final OK. */
  lemma MqttStartAfterOk(code: nat)
    ensures Classify(ServiceStart, OK_MARK + Report1("CMQTTSTART", code)) ==
      (if code == MQTT_RES_OK then Pass else Fail)
  {
    MqttStartReport(OK_MARK, code);
  }

  /** An "ERROR" response to the service start means the service already
      runs, and passes. */
  lemma MqttStartOnError(text: string)
    ensures Classify(ServiceStart, text + ERROR_MARK) == Pass
  {
    EndsWithError(text);
  }

  /** A client report followed by a final ERROR: with no "OK" anywhere in
      the text, the verdict of a client command is decided by the second
      code of its report alone. */
  lemma ClientCodeRejected(okPasses: bool, name: string, accepted: set<int>, client: nat, err: nat)
    requires ReportName(name, []) && 'K' !in name
    ensures Classify(ClientCode(okPasses, name, accepted), Report2(name, client, err) + ERROR_MARK) ==
      (if err as int in accepted then Pass else Fail)
  {
    Report2ScanFirst(name, client, err, ERROR_MARK);
    ClientReportNoOk(name, client, err);
    ClientCodeOf(okPasses, name, accepted, Report2(name, client, err) + ERROR_MARK, err);
  }

  lemma ClientReportNoOk(name: string, client: nat, err: nat)
    requires 'K' !in name
    ensures !Contains(Report2(name, client, err) + ERROR_MARK, "OK")
  {
    ReportLacks(name, client, err, 'K');
    LacksChar(Report2(name, client, err), ERROR_MARK, "OK", 'K');
  }

  /** A client report that follows the final OK (as the connect, disconnect
      and publish reports do): a command for which "OK" does not count is
      decided by the report's second code. */
  lemma ClientCodeAfterOk(name: string, accepted: set<int>, client: nat, err: nat)
    requires ReportName(name, OK_MARK)
    ensures Classify(ClientCode(false, name, accepted), OK_MARK + Report2(name, client, err)) ==
      (if err as int in accepted then Pass else Fail)
  {
    var text := OK_MARK + Report2(name, client, err);
    Report2ScanLast(OK_MARK, name, client, err);
    ClientCodeOf(false, name, accepted, text, err);
  }

  /** Acquiring a client passes on "OK" or, when refused, on code 0 or 19
      (the client is already in use). */
  lemma AcquireVerdict(index: int, id: string, serverType: int, text: string, client: nat, err: nat)
    ensures Contains(text, "OK") ==> Outcome(AcquirePlan(index, id, serverType), Replied(text), Failed) == Pass
    ensures Outcome(AcquirePlan(index, id, serverType), Replied(Report2("CMQTTACCQ", client, err) + ERROR_MARK), Failed) ==
      (if err == 0 || err == 19 then Pass else Fail)
  {
    ClientCodeRejected(true, "CMQTTACCQ", {MQTT_RES_OK, MQTT_RES_CLIENT_USED}, client, err);
  }

  /** Releasing a client passes on "OK" or, when refused, on code 0 or 20
      (the client was not acquired). */
  lemma ReleaseVerdict(index: int, text: string, client: nat, err: nat)
    ensures Contains(text, "OK") ==> Outcome(ReleasePlan(index), Replied(text), Failed) == Pass
    ensures Outcome(ReleasePlan(index), Replied(Report2("CMQTTREL", client, err) + ERROR_MARK), Failed) ==
      (if err == 0 || err == 20 then Pass else Fail)
  {
    ClientCodeRejected(true, "CMQTTREL", {MQTT_RES_OK, MQTT_RES_CLIENT_NOT_ACQUIRED}, client, err);
  }

  /** Connecting passes on code 0 or 19; disconnecting and publishing pass
      on code 0 only. */
  lemma ConnectionVerdicts(index: int, addr: string, keepAlive: int, cleanSession: int, user: string, password: string,
                           qos: int, pubTimeout: int, client: nat, err: nat)
    ensures Outcome(ConnectPlan(index, addr, keepAlive, cleanSession, user, password),
                    Replied(OK_MARK + Report2("CMQTTCONNECT", client, err)), Failed) ==
      (if err == 0 || err == 19 then Pass else Fail)
    ensures Outcome(DisconnectPlan(), Replied(OK_MARK + Report2("CMQTTDISC", client, err)), Failed) ==
      (if err == 0 then Pass else Fail)
    ensures Outcome(PublishPlan(index, qos, pubTimeout), Replied(OK_MARK + Report2("CMQTTPUB", client, err)), Failed) ==
      (if err == 0 then Pass else Fail)
  {
    ClientCodeAfterOk("CMQTTCONNECT", {MQTT_RES_OK, MQTT_RES_CLIENT_USED}, client, err);
    ClientCodeAfterOk("CMQTTDISC", {MQTT_RES_OK}, client, err);
    ClientCodeAfterOk("CMQTTPUB", {MQTT_RES_OK}, client, err);
  }

  /** The topic (or payload) bytes are sent only after a first response with
      no "ERROR" and a '>' prompt, and the wrapper then passes exactly when
      the second response holds "OK". */
  lemma PromptGateIff(p: Plan, name: string, first: string, second: Reply)
    requires p.Two? && p.gate == Prompt(name) && p.verdict == Expect("OK")
    ensures Continues(p, Replied(first)) <==> !Contains(first, "ERROR") && '>' in first
    ensures Continues(p, Replied(first)) ==>
      (Outcome(p, Replied(first), second) == Pass <==> second.Replied? && Contains(second.text, "OK"))
  {
  }

  /** A refused topic is judged by the code of its report, without sending
      the topic. */
  lemma TopicRefused(index: int, topic: string, len: int, client: nat, err: nat, second: Reply)
    ensures var first := Replied(Report2("CMQTTTOPIC", client, err) + ERROR_MARK);
      Issued(TopicPlan(index, topic, len), first) == [Tx(MqttTopic(index, len), 200)] &&
      Outcome(TopicPlan(index, topic, len), first, second) == (if err == 0 then Pass else Fail)
  {
    EndsWithError(Report2("CMQTTTOPIC", client, err));
    ClientCodeRejected(false, "CMQTTTOPIC", {MQTT_RES_OK}, client, err);
  }

  /** `httpSendData` sends the data only after a "DOWNLOAD" prompt and fails
      at once without one. */
  lemma DownloadRequired(data: string, len: int, time: int, first: string, second: Reply)
    ensures Continues(HttpSendDataPlan(data, len, time), Replied(first)) <==> Contains(first, "DOWNLOAD")
    ensures !Contains(first, "DOWNLOAD") ==> Outcome(HttpSendDataPlan(data, len, time), Replied(first), second) == Fail
  {
  }

  /** Stopping (and starting) the HTTP service passes exactly on a response
      that holds "ERROR" or "OK", so on either final result code; the action
      passes whenever its transaction completes. */
  lemma HttpServiceVerdicts(action: int, text: string, second: Reply)
    ensures Outcome(HttpStopPlan(), Replied(text), second) == Pass <==> Contains(text, "ERROR") || Contains(text, "OK")
    ensures Outcome(HttpStopPlan(), Replied(text), second) != Pass ==> Outcome(HttpStopPlan(), Replied(text), second) == Fail
    ensures Outcome(HttpStartPlan(), Replied(text), second) == Pass <==> Contains(text, "ERROR") || Contains(text, "OK")
    ensures Outcome(HttpStartPlan(), Replied(text), second) != Pass ==> Outcome(HttpStartPlan(), Replied(text), second) == Fail
    ensures Outcome(HttpStopPlan(), Replied(OK_MARK), second) == Pass
    ensures Outcome(HttpStopPlan(), Replied(ERROR_MARK), second) == Pass
    ensures Outcome(HttpStartPlan(), Replied(OK_MARK), second) == Pass
    ensures Outcome(HttpStartPlan(), Replied(ERROR_MARK), second) == Pass
    ensures Outcome(HttpSendActionPlan(action), Replied(text), second) == Pass
  {
    ContainsInfix("\r\n", "OK", "\r\n");
    assert "\r\n" + "OK" + "\r\n" == OK_MARK;
    EndsWithError([]);
    assert [] + ERROR_MARK == ERROR_MARK;
  }

  /** `simActivatePdp` fails without a second transaction on a first
      response with "ERROR", and passes only on a state field of 1. */
  lemma ActivatePdpGate(first: string, second: Reply)
    ensures Contains(first, "ERROR") ==>
      Outcome(ActivatePdpPlan(), Replied(first), second) == Fail &&
      Issued(ActivatePdpPlan(), Replied(first)) == [Tx(PdpActivate, 2000)]
    ensures Outcome(ActivatePdpPlan(), Replied(first), second) == Pass ==>
      second.Replied? && SecondCode(second.text, "CGACT") == 1
  {
  }

  // ---------------------------------------------------------------------------
  // The wrappers
  // ---------------------------------------------------------------------------

  function CheckAlivePlan(): Plan { One(Tx(Sync, 500), Expect("OK")) }
  function EchoOnPlan(): Plan { One(Tx(EchoOn, 500), Expect("OK")) }
  function EchoOffPlan(): Plan { One(Tx(EchoOff, 500), Expect("OK")) }
  function CheckReadyPlan(): Plan { One(Tx(PinStatus, 1000), Expect("CPIN: READY")) }
  function CheckRegEpsPlan(): Plan { One(Tx(EpsRegStatus, 1000), RegStatus) }
  function SetPdpContextPlan(): Plan {
    Two(Tx(DefinePdp(APN), 1500), RejectOnError, Tx(PdpContexts, 1000), Expect(APN))
  }
  function AttachGprsPlan(): Plan {
    Two(Tx(GprsAttach, 2000), RejectOnError, Tx(GprsStatus, 1000), Expect("CGATT: 1"))
  }
  function ActivatePdpPlan(): Plan {
    Two(Tx(PdpActivate, 2000), RejectOnError, Tx(PdpStatus, 1000), PdpState)
  }
  function MqttStartPlan(): Plan { One(Tx(MqttStart, 2000), ServiceStart) }
  function ReleasePlan(index: int): Plan {
    One(Tx(MqttRelease(index), 2000), ClientCode(true, "CMQTTREL", {MQTT_RES_OK, MQTT_RES_CLIENT_NOT_ACQUIRED}))
  }
  function AcquirePlan(index: int, id: string, serverType: int): Plan {
    One(Tx(MqttAcquire(index, id, serverType), 2000), ClientCode(true, "CMQTTACCQ", {MQTT_RES_OK, MQTT_RES_CLIENT_USED}))
  }
  /** `AT_CMD_MQTT_DISCONNECT` has no conversions, so the index and timeout
      given to `mqttDisconnect` never reach the command. */
  function DisconnectPlan(): Plan {
    One(Tx(MqttDisconnect, 2000), ClientCode(false, "CMQTTDISC", {MQTT_RES_OK}))
  }
  function ConnectPlan(index: int, addr: string, keepAlive: int, cleanSession: int, user: string, password: string): Plan {
    One(Tx(MqttConnect(index, addr, keepAlive, cleanSession, user, password), 2000),
        ClientCode(false, "CMQTTCONNECT", {MQTT_RES_OK, MQTT_RES_CLIENT_USED}))
  }
  function TopicPlan(index: int, topic: string, len: int): Plan {
    Two(Tx(MqttTopic(index, len), 200), Prompt("CMQTTTOPIC"), Tx(Raw(topic), 150), Expect("OK"))
  }
  function PayloadPlan(index: int, msg: string, len: int): Plan {
    Two(Tx(MqttPayload(index, len), 200), Prompt("CMQTTPAYLOAD"), Tx(Raw(msg), 150), Expect("OK"))
  }
  function PublishPlan(index: int, qos: int, pubTimeout: int): Plan {
    One(Tx(MqttPublish(index, qos, pubTimeout), 200), ClientCode(false, "CMQTTPUB", {MQTT_RES_OK}))
  }
  function HttpStartPlan(): Plan { One(Tx(HttpInit, 200), EitherWord) }
  function HttpStopPlan(): Plan { One(Tx(HttpTerm, 200), EitherWord) }
  function HttpSetUrlPlan(url: string): Plan { One(Tx(HttpUrl(url), 200), Expect("OK")) }
  function HttpSetContentPlan(c: string): Plan { One(Tx(HttpContentType(c), 200), Expect("OK")) }
  function HttpSetAcceptPlan(a: string): Plan { One(Tx(HttpAcceptType(a), 200), Expect("OK")) }
  function HttpSetConnTimeoutPlan(t: int): Plan { One(Tx(HttpConnTimeout(t), 200), Expect("OK")) }
  function HttpSetRecvTimeoutPlan(t: int): Plan { One(Tx(HttpRecvTimeout(t), 200), Expect("OK")) }
  function HttpSetSslPlan(id: int): Plan { One(Tx(HttpSslContext(id), 200), Expect("OK")) }
  function HttpSetHeaderPlan(h: string): Plan { One(Tx(HttpUserData(h), 200), Expect("OK")) }
  function HttpSendDataPlan(data: string, len: int, time: int): Plan {
    Two(Tx(HttpData(len, time), 200), Download, Tx(Raw(data), 200), Expect("OK"))
  }
  function HttpSendActionPlan(action: int): Plan { One(Tx(HttpAction(action), 2000), Always) }

  /** The modem as the wrappers see it: transaction `k` gets reply
      `script[k]`, the reply `at_send_wait` produces for it (see
      `At.Exchange`); a modem that has nothing more to say answers with an
      empty text, as a read that times out with no byte does. */
  function ReplyAt(script: seq<Reply>, k: nat): Reply {
    if k < |script| then script[k] else Replied("")
  }

  /** One wrapper call: its result and the transactions it issued. */
  datatype Call = Call(result: SimResult, issued: seq<Tx>)

  /** How the wrapper `p` behaves when its first transaction is transaction
      `k` of the script. */
  function CallFor(script: seq<Reply>, k: nat, p: Plan): Call {
    Call(Outcome(p, ReplyAt(script, k), ReplyAt(script, k + 1)), Issued(p, ReplyAt(script, k)))
  }

  /** The same, as the step function of a chain of calls. */
  function CallAt(script: seq<Reply>): (nat, Plan) -> Call {
    (k: nat, p: Plan) => Call(Outcome(p, ReplyAt(script, k), ReplyAt(script, k + 1)), Issued(p, ReplyAt(script, k)))
  }

  /** What a sequence of wrapper calls produces when each call is made only
      while every call before it passed: the result of the last call made
      (PASS when all passed, or there were none), the transactions issued,
      and how many calls were made. */
  datatype Chained = Chained(result: SimResult, txs: seq<Tx>, calls: nat)

  /** The calls `plans` made in order from transaction `k`, each behaving as
      `step` says, stopping at the first result that is not PASS. */
  function Chain<P>(step: (nat, P) -> Call, k: nat, plans: seq<P>): (r: Chained)
    ensures r.calls <= |plans|
    ensures plans != [] ==> 1 <= r.calls
    ensures r.result == Pass ==> r.calls == |plans|
    decreases |plans|
  {
    if plans == [] then Chained(Pass, [], 0)
    else
      var r := Chain(step, k, plans[..|plans| - 1]);
      if r.result != Pass then r
      else
        var c := step(k + |r.txs|, plans[|plans| - 1]);
        Chained(c.result, r.txs + c.issued, r.calls + 1)
  }

  /** One more call is made only when every call before it passed, and its
      transactions follow theirs. */
  lemma ChainSnoc<P>(step: (nat, P) -> Call, k: nat, plans: seq<P>, p: P)
    ensures var r := Chain(step, k, plans);
      var c := step(k + |r.txs|, p);
      Chain(step, k, plans + [p]) ==
        if r.result != Pass then r else Chained(c.result, r.txs + c.issued, r.calls + 1)
  {
    var q := plans + [p];
    assert q[..|q| - 1] == plans && q[|q| - 1] == p;
  }

  /** The calls after the one that did not pass are never made: the chain
      over all the calls is the chain over those it made. */
  lemma {:induction false} ChainStops<P>(step: (nat, P) -> Call, k: nat, plans: seq<P>)
    ensures Chain(step, k, plans) == Chain(step, k, plans[..Chain(step, k, plans).calls])
    decreases |plans|
  {
    if plans != [] {
      var init := plans[..|plans| - 1];
      var r := Chain(step, k, init);
      if r.result != Pass {
        ChainStops(step, k, init);
        assert init[..r.calls] == plans[..r.calls];
      } else {
        assert plans[..|plans|] == plans;
      }
    }
  }

  /** When a call does not pass, every call before it passed. */
  lemma {:induction false} ChainFailsLast<P>(step: (nat, P) -> Call, k: nat, plans: seq<P>)
    requires Chain(step, k, plans).result != Pass
    ensures Chain(step, k, plans[..Chain(step, k, plans).calls - 1]).result == Pass
    decreases |plans|
  {
    var init := plans[..|plans| - 1];
    var r := Chain(step, k, init);
    if r.result != Pass {
      ChainFailsLast(step, k, init);
      assert init[..r.calls - 1] == plans[..r.calls - 1];
    }
  }

  lemma SeqAssoc<T>(a: seq<T>, b: seq<T>, c: seq<T>)
    ensures (a + b) + c == a + (b + c)
  {
  }

  /** Once a call has not passed, the calls listed after it change nothing. */
  lemma {:induction false} ChainStopped<P>(step: (nat, P) -> Call, k: nat, plans: seq<P>, n: nat)
    requires n <= |plans| && Chain(step, k, plans[..n]).result != Pass
    ensures Chain(step, k, plans) == Chain(step, k, plans[..n])
    decreases |plans|
  {
    if n == |plans| {
      assert plans[..n] == plans;
    } else {
      var init := plans[..|plans| - 1];
      assert init[..n] == plans[..n];
      ChainStopped(step, k, init, n);
    }
  }

  /** Two calls in a row: the second is made only when the first passed. */
  lemma Chain2<P>(step: (nat, P) -> Call, k: nat, a: P, b: P)
    ensures var r := Chain(step, k, [a, b]);
      var ra := step(k, a);
      var rb := step(k + |ra.issued|, b);
      (ra.result != Pass ==> r == Chained(ra.result, ra.issued, 1)) &&
      (ra.result == Pass ==> r == Chained(rb.result, ra.issued + rb.issued, 2))
  {
    var ra := step(k, a);
    assert [a][..0] == [] && [] + ra.issued == ra.issued;
    assert Chain(step, k, [a]) == Chained(ra.result, ra.issued, 1);
    assert [a, b][..1] == [a];
  }

  /** Three calls in a row: the second is made only when the first passed
      and the third only when both did. */
  lemma Chain3<P>(step: (nat, P) -> Call, k: nat, a: P, b: P, c: P)
    ensures var r := Chain(step, k, [a, b, c]);
      var ra := step(k, a);
      var rb := step(k + |ra.issued|, b);
      var rc := step(k + |ra.issued| + |rb.issued|, c);
      (ra.result != Pass ==> r == Chained(ra.result, ra.issued, 1)) &&
      (ra.result == Pass && rb.result != Pass ==> r == Chained(rb.result, ra.issued + rb.issued, 2)) &&
      (ra.result == Pass && rb.result == Pass ==> r == Chained(rc.result, ra.issued + rb.issued + rc.issued, 3))
  {
    var s0: seq<P> := [];
    var s1 := s0 + [a];
    var s2 := s1 + [b];
    var s3 := s2 + [c];
    ChainSnoc(step, k, s0, a);
    ChainSnoc(step, k, s1, b);
    ChainSnoc(step, k, s2, c);
    assert [] + step(k, a).issued == step(k, a).issued;
    assert s3 == [a, b, c];
  }

  class Modem {
    const script: seq<Reply>
    /** The transactions issued so far, in order. */
    var sent: seq<Tx>

    /** A reply text is what `at_send_wait` leaves in the buffer up to its
        NUL (see `At.Exchange`), so it never holds a NUL itself. */
    constructor (script: seq<Reply>)
      requires forall i :: 0 <= i < |script| && script[i].Replied? ==> '\0' !in script[i].text
      ensures this.script == script && sent == []
    {
      this.script := script;
      sent := [];
    }

    /** The reply the next transaction gets, and the one after it. */
    function Next(): Reply reads this { ReplyAt(script, |sent|) }
    function AfterNext(): Reply reads this { ReplyAt(script, |sent| + 1) }

    /** `at_send_wait(cmd, resp, sizeof(resp), timeout)` on a zeroed `resp`. */
    method Transact(tx: Tx) returns (r: Reply)
      modifies this
      ensures sent == old(sent) + [tx]
      ensures r == ReplyAt(script, |old(sent)|)
    {
      r := Next();
      sent := sent + [tx];
    }

    /** A wrapper's body: the first transaction, WAIT if it failed, the gate,
        the second transaction, WAIT if it failed, and the verdict. */
    method Run(p: Plan) returns (r: SimResult)
      modifies this
      ensures sent == old(sent) + Issued(p, ReplyAt(script, |old(sent)|))
      ensures r == Outcome(p, ReplyAt(script, |old(sent)|), ReplyAt(script, |old(sent)| + 1))
    {
      var first := Transact(p.tx);
      if first.Failed? {
        return Wait;
      }
      match p
      case One(_, v) =>
        r := Classify(v, first.text);
      case Two(_, g, follow, v) =>
        var s := Open(g, first.text);
        if s.Done? {
          return s.result;
        }
        var second := Transact(follow);
        if second.Failed? {
          return Wait;
        }
        r := Classify(v, second.text);
    }

    /** One wrapper call, with the transactions it issued. */
    method Invoke(p: Plan) returns (c: Call)
      modifies this
      ensures c == CallAt(script)(|old(sent)|, p)
      ensures sent == old(sent) + c.issued
    {
      var issued := Issued(p, Next());
      var res := Run(p);
      c := Call(res, issued);
    }

    /** The wrappers `plans` called in order, each only while every call
        before it passed. */
    method RunAll(plans: seq<Plan>) returns (r: Chained)
      modifies this
      ensures r == Chain(CallAt(script), |old(sent)|, plans)
      ensures sent == old(sent) + r.txs
      decreases |plans|
    {
      if plans == [] {
        return Chained(Pass, [], 0);
      }
      ghost var k := |sent|;
      var init, last := plans[..|plans| - 1], plans[|plans| - 1];
      assert init + [last] == plans;
      ChainSnoc(CallAt(script), k, init, last);
      r := RunAll(init);
      if r.result != Pass {
        return;
      }
      var c := Invoke(last);
      SeqAssoc(old(sent), r.txs, c.issued);
      r := Chained(c.result, r.txs + c.issued, r.calls + 1);
    }

    method CheckAlive() returns (r: SimResult)
      modifies this
      ensures sent == old(sent) + [CheckAlivePlan().tx]
      ensures r == Outcome(CheckAlivePlan(), ReplyAt(script, |old(sent)|), ReplyAt(script, |old(sent)| + 1))
    {
      r := Run(CheckAlivePlan());
    }

    method EchoOn() returns (r: SimResult)
      modifies this
      ensures sent == old(sent) + [EchoOnPlan().tx]
      ensures r == Outcome(EchoOnPlan(), ReplyAt(script, |old(sent)|), ReplyAt(script, |old(sent)| + 1))
    {
      r := Run(EchoOnPlan());
    }

    method EchoOff() returns (r: SimResult)
      modifies this
      ensures sent == old(sent) + [EchoOffPlan().tx]
      ensures r == Outcome(EchoOffPlan(), ReplyAt(script, |old(sent)|), ReplyAt(script, |old(sent)| + 1))
    {
      r := Run(EchoOffPlan());
    }

    method CheckReady() returns (r: SimResult)
      modifies this
      ensures sent == old(sent) + [CheckReadyPlan().tx]
      ensures r == Outcome(CheckReadyPlan(), ReplyAt(script, |old(sent)|), ReplyAt(script, |old(sent)| + 1))
    {
      r := Run(CheckReadyPlan());
    }

    method CheckRegEps() returns (r: SimResult)
      modifies this
      ensures sent == old(sent) + [CheckRegEpsPlan().tx]
      ensures r == Outcome(CheckRegEpsPlan(), ReplyAt(script, |old(sent)|), ReplyAt(script, |old(sent)| + 1))
    {
      r := Run(CheckRegEpsPlan());
    }

    method SetPdpContext() returns (r: SimResult)
      modifies this
      ensures sent == old(sent) + Issued(SetPdpContextPlan(), ReplyAt(script, |old(sent)|))
      ensures r == Outcome(SetPdpContextPlan(), ReplyAt(script, |old(sent)|), ReplyAt(script, |old(sent)| + 1))
    {
      r := Run(SetPdpContextPlan());
    }

    method AttachGprs() returns (r: SimResult)
      modifies this
      ensures sent == old(sent) + Issued(AttachGprsPlan(), ReplyAt(script, |old(sent)|))
      ensures r == Outcome(AttachGprsPlan(), ReplyAt(script, |old(sent)|), ReplyAt(script, |old(sent)| + 1))
    {
      r := Run(AttachGprsPlan());
    }

    method ActivatePdp() returns (r: SimResult)
      modifies this
      ensures sent == old(sent) + Issued(ActivatePdpPlan(), ReplyAt(script, |old(sent)|))
      ensures r == Outcome(ActivatePdpPlan(), ReplyAt(script, |old(sent)|), ReplyAt(script, |old(sent)| + 1))
    {
      r := Run(ActivatePdpPlan());
    }

    method MqttStartService() returns (r: SimResult)
      modifies this
      ensures sent == old(sent) + [MqttStartPlan().tx]
      ensures r == Outcome(MqttStartPlan(), ReplyAt(script, |old(sent)|), ReplyAt(script, |old(sent)| + 1))
    {
      r := Run(MqttStartPlan());
    }

    method MqttReleaseClient(index: int) returns (r: SimResult)
      modifies this
      ensures sent == old(sent) + [ReleasePlan(index).tx]
      ensures r == Outcome(ReleasePlan(index), ReplyAt(script, |old(sent)|), ReplyAt(script, |old(sent)| + 1))
    {
      r := Run(ReleasePlan(index));
    }

    method MqttAcquireClient(index: int, id: string, serverType: int) returns (r: SimResult)
      modifies this
      ensures sent == old(sent) + [AcquirePlan(index, id, serverType).tx]
      ensures r == Outcome(AcquirePlan(index, id, serverType), ReplyAt(script, |old(sent)|), ReplyAt(script, |old(sent)| + 1))
    {
      r := Run(AcquirePlan(index, id, serverType));
    }

    method MqttDisconnect(index: int, timeout: int) returns (r: SimResult)
      modifies this
      ensures sent == old(sent) + [DisconnectPlan().tx]
      ensures r == Outcome(DisconnectPlan(), ReplyAt(script, |old(sent)|), ReplyAt(script, |old(sent)| + 1))
    {
      r := Run(DisconnectPlan());
    }

    method MqttConnect(index: int, addr: string, keepAlive: int, cleanSession: int, user: string, password: string)
      returns (r: SimResult)
      modifies this
      ensures sent == old(sent) + [ConnectPlan(index, addr, keepAlive, cleanSession, user, password).tx]
      ensures r == Outcome(ConnectPlan(index, addr, keepAlive, cleanSession, user, password), ReplyAt(script, |old(sent)|), ReplyAt(script, |old(sent)| + 1))
    {
      r := Run(ConnectPlan(index, addr, keepAlive, cleanSession, user, password));
    }

    method MqttSetPublishTopic(index: int, topic: string, len: int) returns (r: SimResult)
      modifies this
      ensures sent == old(sent) + Issued(TopicPlan(index, topic, len), ReplyAt(script, |old(sent)|))
      ensures r == Outcome(TopicPlan(index, topic, len), ReplyAt(script, |old(sent)|), ReplyAt(script, |old(sent)| + 1))
    {
      r := Run(TopicPlan(index, topic, len));
    }

    method MqttSetPayload(index: int, msg: string, len: int) returns (r: SimResult)
      modifies this
      ensures sent == old(sent) + Issued(PayloadPlan(index, msg, len), ReplyAt(script, |old(sent)|))
      ensures r == Outcome(PayloadPlan(index, msg, len), ReplyAt(script, |old(sent)|), ReplyAt(script, |old(sent)| + 1))
    {
      r := Run(PayloadPlan(index, msg, len));
    }

    method MqttPublish(index: int, qos: int, pubTimeout: int) returns (r: SimResult)
      modifies this
      ensures sent == old(sent) + [PublishPlan(index, qos, pubTimeout).tx]
      ensures r == Outcome(PublishPlan(index, qos, pubTimeout), ReplyAt(script, |old(sent)|), ReplyAt(script, |old(sent)| + 1))
    {
      r := Run(PublishPlan(index, qos, pubTimeout));
    }

    method HttpStartService() returns (r: SimResult)
      modifies this
      ensures sent == old(sent) + [HttpStartPlan().tx]
      ensures r == Outcome(HttpStartPlan(), ReplyAt(script, |old(sent)|), ReplyAt(script, |old(sent)| + 1))
    {
      r := Run(HttpStartPlan());
    }

    method HttpStopService() returns (r: SimResult)
      modifies this
      ensures sent == old(sent) + [HttpStopPlan().tx]
      ensures r == Outcome(HttpStopPlan(), ReplyAt(script, |old(sent)|), ReplyAt(script, |old(sent)| + 1))
    {
      r := Run(HttpStopPlan());
    }

    method HttpSetUrl(url: string) returns (r: SimResult)
      modifies this
      ensures sent == old(sent) + [HttpSetUrlPlan(url).tx]
      ensures r == Outcome(HttpSetUrlPlan(url), ReplyAt(script, |old(sent)|), ReplyAt(script, |old(sent)| + 1))
    {
      r := Run(HttpSetUrlPlan(url));
    }

    method HttpSetContent(content: string) returns (r: SimResult)
      modifies this
      ensures sent == old(sent) + [HttpSetContentPlan(content).tx]
      ensures r == Outcome(HttpSetContentPlan(content), ReplyAt(script, |old(sent)|), ReplyAt(script, |old(sent)| + 1))
    {
      r := Run(HttpSetContentPlan(content));
    }

    method HttpSetAccept(accept: string) returns (r: SimResult)
      modifies this
      ensures sent == old(sent) + [HttpSetAcceptPlan(accept).tx]
      ensures r == Outcome(HttpSetAcceptPlan(accept), ReplyAt(script, |old(sent)|), ReplyAt(script, |old(sent)| + 1))
    {
      r := Run(HttpSetAcceptPlan(accept));
    }

    method HttpSetConnectionTimeout(timeout: int) returns (r: SimResult)
      modifies this
      ensures sent == old(sent) + [HttpSetConnTimeoutPlan(timeout).tx]
      ensures r == Outcome(HttpSetConnTimeoutPlan(timeout), ReplyAt(script, |old(sent)|), ReplyAt(script, |old(sent)| + 1))
    {
      r := Run(HttpSetConnTimeoutPlan(timeout));
    }

    method HttpSetReceptionTimeout(timeout: int) returns (r: SimResult)
      modifies this
      ensures sent == old(sent) + [HttpSetRecvTimeoutPlan(timeout).tx]
      ensures r == Outcome(HttpSetRecvTimeoutPlan(timeout), ReplyAt(script, |old(sent)|), ReplyAt(script, |old(sent)| + 1))
    {
      r := Run(HttpSetRecvTimeoutPlan(timeout));
    }

    method HttpSetSslContextId(ctxId: int) returns (r: SimResult)
      modifies this
      ensures sent == old(sent) + [HttpSetSslPlan(ctxId).tx]
      ensures r == Outcome(HttpSetSslPlan(ctxId), ReplyAt(script, |old(sent)|), ReplyAt(script, |old(sent)| + 1))
    {
      r := Run(HttpSetSslPlan(ctxId));
    }

    method HttpSetCustomHeader(header: string) returns (r: SimResult)
      modifies this
      ensures sent == old(sent) + [HttpSetHeaderPlan(header).tx]
      ensures r == Outcome(HttpSetHeaderPlan(header), ReplyAt(script, |old(sent)|), ReplyAt(script, |old(sent)| + 1))
    {
      r := Run(HttpSetHeaderPlan(header));
    }

    method HttpSendData(data: string, len: int, time: int) returns (r: SimResult)
      modifies this
      ensures sent == old(sent) + Issued(HttpSendDataPlan(data, len, time), ReplyAt(script, |old(sent)|))
      ensures r == Outcome(HttpSendDataPlan(data, len, time), ReplyAt(script, |old(sent)|), ReplyAt(script, |old(sent)| + 1))
    {
      r := Run(HttpSendDataPlan(data, len, time));
    }

    method HttpSendAction(action: int) returns (r: SimResult)
      modifies this
      ensures sent == old(sent) + [HttpSendActionPlan(action).tx]
      ensures r == Outcome(HttpSendActionPlan(action), ReplyAt(script, |old(sent)|), ReplyAt(script, |old(sent)| + 1))
    {
      r := Run(HttpSendActionPlan(action));
    }
  }
}
