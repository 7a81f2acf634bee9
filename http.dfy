/**
 * The HTTP transport: a three-state machine (PREPARE, SEND, STOP) guarded by
 * a running flag, the stored request context, the payload buffer filled from
 * the JSON mailbox, and the context initialisation that filters the custom
 * headers.
 */
module Http {
  import opened Text
  import opened At
  import opened SimCmd
  import opened Fsm

  const MAX_HTTP_HEADERS: nat := 10
  const MAX_HEADER_LEN: nat := 256
  const RING_BUFFER_SIZE: nat := 2048

  /** The states the HTTP handlers move between. */
  datatype HttpPhase = Prepare | Send | Stop

  datatype HttpMethod = Get | Post | Head | Delete | Put

  function MethodValue(m: HttpMethod): int {
    match m case Get => 0 case Post => 1 case Head => 2 case Delete => 3 case Put => 4
  }

  /** The caller's request context; `None` stands for a NULL string. */
  datatype HttpConfig = HttpConfig(url: Option<string>, contentType: Option<string>, acceptType: Option<string>,
                                   header: seq<string>, headerCount: int, httpMethod: HttpMethod,
                                   connTimeout: int, inputTimeout: int)

  // ---------------------------------------------------------------------------
  // Header filtering
  // ---------------------------------------------------------------------------

  /** The headers that are kept: those of at most 256 bytes, in their order. */
  function Kept(hs: seq<string>): (r: seq<string>)
    ensures |r| <= |hs|
    ensures forall j :: 0 <= j < |r| ==> |r[j]| <= MAX_HEADER_LEN
    decreases |hs|
  {
    if hs == [] then []
    else Kept(hs[..|hs| - 1]) + (if |hs[|hs| - 1]| <= MAX_HEADER_LEN then [hs[|hs| - 1]] else [])
  }

  /** Filtering a concatenation filters each part: the kept headers keep the
      order they were given in. */
  lemma {:induction false} KeptAppend(a: seq<string>, b: seq<string>)
    ensures Kept(a + b) == Kept(a) + Kept(b)
    decreases |b|
  {
    if b == [] {
      assert a + b == a;
    } else {
      var b' := b[..|b| - 1];
      assert (a + b)[..|a + b| - 1] == a + b';
      KeptAppend(a, b');
    }
  }

  /** A header is kept exactly when it was given and is at most 256 bytes. */
  lemma {:induction false} KeptMembers(hs: seq<string>, h: string)
    ensures h in Kept(hs) <==> h in hs && |h| <= MAX_HEADER_LEN
    decreases |hs|
  {
    if hs != [] {
      var init := hs[..|hs| - 1];
      KeptMembers(init, h);
      assert hs == init + [hs[|hs| - 1]];
    }
  }

  /** Nothing is dropped when every header is short enough, and filtering
      twice is filtering once. */
  lemma {:induction false} KeptShort(hs: seq<string>)
    requires forall j :: 0 <= j < |hs| ==> |hs[j]| <= MAX_HEADER_LEN
    ensures Kept(hs) == hs
    decreases |hs|
  {
    if hs != [] {
      KeptShort(hs[..|hs| - 1]);
    }
  }

  lemma KeptIdempotent(hs: seq<string>)
    ensures Kept(Kept(hs)) == Kept(hs)
  {
    KeptShort(Kept(hs));
  }

  /** The header count that is stored: the given count, but at most 10. */
  function ClampCount(given: int): (r: int)
    ensures r <= MAX_HTTP_HEADERS
    ensures given <= MAX_HTTP_HEADERS ==> r == given
    ensures given > MAX_HTTP_HEADERS ==> r == MAX_HTTP_HEADERS
  {
    if given > MAX_HTTP_HEADERS then MAX_HTTP_HEADERS else given
  }

  /** How many of the given headers the filtering loop looks at. */
  function Span(count: int): nat {
    if count < 0 then 0 else if count > MAX_HTTP_HEADERS then MAX_HTTP_HEADERS else count
  }

  /** The clamp as written tests the count already stored instead of the one
      given, so a first initialisation keeps any count. */
  function StoredCountAsWritten(stored: int, given: int): int {
    if stored > MAX_HTTP_HEADERS then MAX_HTTP_HEADERS else given
  }

  /** From the zero-initialised context, a request with 11 headers gets a
      count of 11, and the loop then reads past the 10 header slots; the
      corrected clamp stores 10. */
  lemma ClampTestsStoredCount()
    ensures StoredCountAsWritten(0, 11) == 11 > MAX_HTTP_HEADERS
    ensures ClampCount(11) == MAX_HTTP_HEADERS
  {
  }

  /** Whether the accept-type jumps to the header loop, past the
      initialisation of the kept-header counter. */
  predicate SkipsCounterInit(acceptType: Option<string>) {
    acceptType.None? || |acceptType.value| > MAX_HEADER_LEN
  }

  /** The count the filtering ends with as written: on a path that skipped
      the initialisation, the counter starts from whatever value `start` it
      happens to hold. */
  function KeptCountAsWritten(start: int, acceptType: Option<string>, hs: seq<string>): int {
    (if SkipsCounterInit(acceptType) then start else 0) + |Kept(hs)|
  }

  /** A request without an accept-type and one short header, on a counter
      holding 3, ends with a count of 4 instead of 1; with the counter
      initialised the count is the number kept. */
  lemma SkippedInitMiscounts()
    ensures KeptCountAsWritten(3, None, ["Connection: close"]) == 4
    ensures |Kept(["Connection: close"])| == 1
  {
    assert Kept(["Connection: close"]) == ["Connection: close"] by {
      KeptShort(["Connection: close"]);
    }
  }

  // ---------------------------------------------------------------------------
  // The payload buffer
  // ---------------------------------------------------------------------------

  /** The buffer after the mailbox text `msg` is copied to its start, as
      written: the bytes after the copy stay as they were. */
  function DrainedAsWritten(data: string, msg: string): (r: string)
    requires |msg| <= |data|
    ensures |r| == |data| && r[..|msg|] == msg && r[|msg|..] == data[|msg|..]
  {
    msg + data[|msg|..]
  }

  /** A shorter message drained over a longer one is sent with the tail of
      the longer one. */
  lemma StaleTail()
    ensures CStr(DrainedAsWritten("{\"v\":12}\0", "{}")) == "{}v\":12}"
  {
    var r := DrainedAsWritten("{\"v\":12}\0", "{}");
    assert r == "{}v\":12}" + "\0" + [];
    CStrTerminated("{}v\":12}", []);
    CStrNoNul("{}v\":12}");
  }

  /** The buffer after the drain, with the copy NUL-terminated. */
  function Drained(data: string, msg: string): (r: string)
    requires |msg| < |data|
    ensures |r| == |data| && r[..|msg|] == msg && r[|msg|] == '\0' && r[|msg| + 1..] == data[|msg| + 1..]
  {
    msg + ['\0'] + data[|msg| + 1..]
  }

  /** What the send step reads back from a drained buffer is the message. */
  lemma DrainedReadsBack(data: string, msg: string)
    requires |msg| < |data| && '\0' !in msg
    ensures CStr(Drained(data, msg)) == msg
  {
    CStrTerminated(msg, data[|msg| + 1..]);
    CStrNoNul(msg);
  }

  // ---------------------------------------------------------------------------
  // The wrapper calls of each step
  // ---------------------------------------------------------------------------

  /** One optional setting: a call only when the string is present. */
  function IfPresent(s: Option<string>, p: string -> Plan): seq<Plan> {
    if s.Some? then [p(s.value)] else []
  }

  /** The calls of the prepare step before the headers. */
  function SetupPlans(connTimeout: int, url: Option<string>, contentType: Option<string>,
                      acceptType: Option<string>): (r: seq<Plan>)
    ensures |r| >= 1 && r[0] == HttpSetConnTimeoutPlan(connTimeout)
  {
    [HttpSetConnTimeoutPlan(connTimeout)] + IfPresent(url, HttpSetUrlPlan) +
      IfPresent(contentType, HttpSetContentPlan) + IfPresent(acceptType, HttpSetAcceptPlan)
  }

  /** One custom-header call per header, in order. */
  function HeaderPlans(hs: seq<string>): (r: seq<Plan>)
    ensures |r| == |hs|
    ensures forall j :: 0 <= j < |hs| ==> r[j] == HttpSetHeaderPlan(hs[j])
    decreases |hs|
  {
    if hs == [] then [] else HeaderPlans(hs[..|hs| - 1]) + [HttpSetHeaderPlan(hs[|hs| - 1])]
  }

  /** Every call of the prepare step after the start, in order: the
      connection timeout, the URL, the content type and the accept type
      (those present), then the headers. */
  function PreparePlans(connTimeout: int, url: Option<string>, contentType: Option<string>,
                        acceptType: Option<string>, hs: seq<string>): seq<Plan> {
    SetupPlans(connTimeout, url, contentType, acceptType) + HeaderPlans(hs)
  }

  /** A setting that is NULL issues no call, and each header one. */
  lemma PreparePlansCount(connTimeout: int, url: Option<string>, contentType: Option<string>,
                          acceptType: Option<string>, hs: seq<string>)
    ensures var n := (if url.Some? then 1 else 0) + (if contentType.Some? then 1 else 0) + (if acceptType.Some? then 1 else 0);
      var ps := PreparePlans(connTimeout, url, contentType, acceptType, hs);
      |ps| == 1 + n + |hs| &&
      ps[0] == HttpSetConnTimeoutPlan(connTimeout) &&
      (url.Some? ==> ps[1] == HttpSetUrlPlan(url.value)) &&
      ps[1 + n..] == HeaderPlans(hs)
  {
  }

  /** Every header the prepare step sends after an initialisation is one the
      caller gave, of at most 256 bytes, in the caller's order. */
  lemma KeptHeadersSent(hs: seq<string>, j: nat)
    requires j < |Kept(hs)|
    ensures HeaderPlans(Kept(hs))[j] == HttpSetHeaderPlan(Kept(hs)[j])
    ensures Kept(hs)[j] in hs && |Kept(hs)[j]| <= MAX_HEADER_LEN
  {
    KeptMembers(hs, Kept(hs)[j]);
  }

  /** The calls of the send step: the data, then the action. */
  function SendPlans(payload: string, inputTimeout: int, httpMethod: HttpMethod): seq<Plan> {
    [HttpSendDataPlan(payload, |payload|, inputTimeout), HttpSendActionPlan(MethodValue(httpMethod))]
  }

  /** The action is issued only when the data was accepted. */
  lemma SendActionGated(script: seq<Reply>, k: nat, payload: string, inputTimeout: int, httpMethod: HttpMethod)
    ensures var d := CallAt(script)(k, HttpSendDataPlan(payload, |payload|, inputTimeout));
      var r := Chain(CallAt(script), k, SendPlans(payload, inputTimeout, httpMethod));
      (d.result != Pass ==> r.txs == d.issued) &&
      (d.result == Pass ==> r.txs == d.issued + [HttpSendActionPlan(MethodValue(httpMethod)).tx])
  {
    var a, b := HttpSendDataPlan(payload, |payload|, inputTimeout), HttpSendActionPlan(MethodValue(httpMethod));
    Chain2(CallAt(script), k, a, b);
    assert SendPlans(payload, inputTimeout, httpMethod) == [a, b];
  }

  // ---------------------------------------------------------------------------
  // The HTTP session
  // ---------------------------------------------------------------------------

  class HttpSession {
    const modem: Modem
    const fsm: FsmContext
    /** The stored custom headers. */
    const header: array<string>
    /** The payload buffer. */
    const data: array<char>
    var url: Option<string>
    var contentType: Option<string>
    var acceptType: Option<string>
    var headerCount: int
    var httpMethod: HttpMethod
    var connTimeout: int
    var inputTimeout: int
    var running: bool
    /** The states reported by `setHttpState`, in order. */
    var phases: seq<HttpPhase>
    /** The JSON mailbox and its ready flag, shared with the producer. */
    var ring: string
    var jsonReady: bool

    /** The buffers have their C sizes, the count fits the header slots,
        and the mailbox holds less than a full buffer. */
    predicate Valid()
      reads this
    {
      header.Length == MAX_HTTP_HEADERS && data.Length == RING_BUFFER_SIZE &&
      0 <= headerCount <= MAX_HTTP_HEADERS && |ring| < RING_BUFFER_SIZE
    }

    /** The static zero initialisers. */
    constructor (modem: Modem, fsm: FsmContext)
      ensures Valid() && fresh(header) && fresh(data)
      ensures this.modem == modem && this.fsm == fsm
      ensures url.None? && contentType.None? && acceptType.None? && headerCount == 0
      ensures httpMethod == Get && connTimeout == 0 && inputTimeout == 0
      ensures !running && phases == [] && ring == [] && !jsonReady
      ensures forall j :: 0 <= j < data.Length ==> data[j] == '\0'
    {
      this.modem := modem;
      this.fsm := fsm;
      header := new string[MAX_HTTP_HEADERS](_ => "");
      data := new char[RING_BUFFER_SIZE](_ => '\0');
      url, contentType, acceptType := None, None, None;
      headerCount := 0;
      httpMethod := Get;
      connTimeout, inputTimeout := 0, 0;
      running := false;
      phases := [];
      ring := [];
      jsonReady := false;
    }

    /** Everything but the phase log, the payload and the stored headers. */
    function Settings(): (Option<string>, Option<string>, Option<string>, int, HttpMethod, int, int, bool, string, bool)
      reads this
    {
      (url, contentType, acceptType, headerCount, httpMethod, connTimeout, inputTimeout, running, ring, jsonReady)
    }

    /** The calls the prepare step makes after the start. */
    function Plans(): seq<Plan>
      requires Valid()
      reads this, header
    {
      PreparePlans(connTimeout, url, contentType, acceptType, header[..headerCount])
    }

    /** The prepare step from a modem that had sent `sent0`, with phases
        `phases0` and the coordinator in the given layer: when the start
        fails the layer becomes SIM and no state is reported; otherwise
        the calls are made until one does not pass, and the state becomes
        STOP on failure and SEND on success. */
    predicate Prepared(sent0: seq<Tx>, phases0: seq<HttpPhase>, layer0: Layer, sim0: SimState,
                       trans0: Transport, mqtt0: MqttState, http0: HttpStage)
      requires Valid()
      reads this, header, modem, fsm
    {
      var k := |sent0|;
      var start := CallAt(modem.script)(k, HttpStartPlan());
      fsm.simState == sim0 && fsm.transType == trans0 && fsm.mqttState == mqtt0 && fsm.httpState == http0 &&
      if start.result != Pass then
        modem.sent == sent0 + start.issued && phases == phases0 && fsm.layer == SimLayer
      else
        var r := Chain(CallAt(modem.script), k + |start.issued|, Plans());
        modem.sent == sent0 + start.issued + r.txs && fsm.layer == layer0 &&
        phases == phases0 + [if r.result == Pass then Send else Stop]
    }

    /** `httpPrepareStatusHandler`. */
    method PrepareHandler()
      requires Valid()
      modifies this, modem, fsm
      ensures Valid() && Settings() == old(Settings())
      ensures Prepared(old(modem.sent), old(phases), old(fsm.layer), old(fsm.simState), old(fsm.transType),
                       old(fsm.mqttState), old(fsm.httpState))
    {
      var start := modem.Invoke(HttpStartPlan());   // httpStartService
      if start.result != Pass {
        fsm.SetLayer(SimLayer);
        return;
      }
      var r := modem.RunAll(Plans());
      SeqAssoc(old(modem.sent), start.issued, r.txs);
      if r.result != Pass {
        phases := phases + [Stop];
      } else {
        phases := phases + [Send];
      }
    }

    /** The send step: the payload is what `strlen` sees of the buffer. */
    predicate SentFrom(sent0: seq<Tx>, phases0: seq<HttpPhase>, data0: string)
      reads this, modem, data
    {
      var r := Chain(CallAt(modem.script), |sent0|, SendPlans(CStr(data0), inputTimeout, httpMethod));
      modem.sent == sent0 + r.txs && phases == phases0 + [Stop] &&
      forall j :: 0 <= j < data.Length ==> data[j] == '\0'
    }

    /** `httpSendStatusHandler`: send the buffer, clear it, issue the action
        only when the data was accepted, and move to STOP. */
    method SendHandler()
      requires Valid()
      modifies this, modem, data
      ensures Valid() && Settings() == old(Settings())
      ensures SentFrom(old(modem.sent), old(phases), old(data[..]))
    {
      var payload := CStr(data[..]);
      var r := modem.RunAll(SendPlans(payload, inputTimeout, httpMethod));
      forall j | 0 <= j < data.Length {
        data[j] := '\0';
      }
      phases := phases + [Stop];
    }

    /** `httpStopStatusHandler`: stop the service and move to PREPARE. */
    method StopHandler()
      requires Valid()
      modifies this, modem
      ensures Valid() && Settings() == old(Settings())
      ensures modem.sent == old(modem.sent) + [HttpStopPlan().tx]
      ensures phases == old(phases) + [Prepare]
    {
      var _ := modem.HttpStopService();
      phases := phases + [Prepare];
    }
  
    /** `getJsonData` into the payload buffer, with the copy terminated:
        the mailbox is emptied and its flag cleared. */
    method Drain()
      requires Valid()
      modifies this, data
      ensures Valid() && data[..] == Drained(old(data[..]), old(ring))
      ensures ring == [] && !jsonReady
      ensures (url, contentType, acceptType, headerCount) == old((url, contentType, acceptType, headerCount))
      ensures (httpMethod, connTimeout, inputTimeout, running, phases) == old((httpMethod, connTimeout, inputTimeout, running, phases))
    {
      var msg := ring;
      forall j | 0 <= j < |msg| {
        data[j] := msg[j];
      }
      data[|msg|] := '\0';
      ring := [];
      jsonReady := false;
    }

    /** `httpFsmHandler`: a PREPARE request while idle first drains the
        mailbox, whose producer has set `jsonReady`, and starts the machine;
        an idle machine ignores every other request; a running one runs the
        handler of the requested state, and STOP also ends the run. */
    method FsmHandler(state: HttpPhase)
      requires Valid()
      requires state == Prepare && !running ==> jsonReady
      modifies this, modem, fsm, data
      ensures Valid()
      ensures (url, contentType, acceptType, headerCount) == old((url, contentType, acceptType, headerCount))
      ensures (httpMethod, connTimeout, inputTimeout) == old((httpMethod, connTimeout, inputTimeout))
      ensures !old(running) && state != Prepare ==>
        !running && phases == old(phases) && modem.sent == old(modem.sent) && ring == old(ring) &&
        jsonReady == old(jsonReady) && data[..] == old(data[..]) && unchanged(fsm)
      ensures state == Prepare ==>
        running &&
        data[..] == (if old(running) then old(data[..]) else Drained(old(data[..]), old(ring))) &&
        (if old(running) then ring == old(ring) && jsonReady == old(jsonReady) else ring == [] && !jsonReady) &&
        Prepared(old(modem.sent), old(phases), old(fsm.layer), old(fsm.simState), old(fsm.transType),
                 old(fsm.mqttState), old(fsm.httpState))
      ensures old(running) && state == Send ==>
        running && ring == old(ring) && jsonReady == old(jsonReady) && unchanged(fsm) &&
        SentFrom(old(modem.sent), old(phases), old(data[..]))
      ensures old(running) && state == Stop ==>
        !running && ring == old(ring) && jsonReady == old(jsonReady) && unchanged(fsm) &&
        data[..] == old(data[..]) && modem.sent == old(modem.sent) + [HttpStopPlan().tx] &&
        phases == old(phases) + [Prepare]
    {
      if state == Prepare && !running {
        Drain();
        running := true;
      }
      if !running {
        return;
      }
      match state {
        case Prepare => PrepareHandler();
        case Send => SendHandler();
        case Stop =>
          StopHandler();
          running := false;
      }
    }

    /** `http_context_init`, with the count clamped by the given count and
        the kept-header counter starting from zero: without a URL nothing
        changes; otherwise the URL, method and timeouts are stored, the
        content and accept types only when present and at most 256 bytes,
        and the headers among the first (at most 10) given that are at most
        256 bytes go, in order, to the first slots, the count becoming how
        many were kept. */
    method ContextInit(cfg: HttpConfig)
      requires Valid() && |cfg.header| == MAX_HTTP_HEADERS
      modifies this, header
      ensures Valid()
      ensures (running, phases, ring, jsonReady) == old((running, phases, ring, jsonReady))
      ensures cfg.url.None? ==> Settings() == old(Settings()) && header[..] == old(header[..])
      ensures cfg.url.Some? ==>
        url == cfg.url && httpMethod == cfg.httpMethod && connTimeout == cfg.connTimeout && inputTimeout == cfg.inputTimeout &&
        contentType == (if cfg.contentType.Some? && |cfg.contentType.value| <= MAX_HEADER_LEN then cfg.contentType else old(contentType)) &&
        acceptType == (if cfg.acceptType.Some? && |cfg.acceptType.value| <= MAX_HEADER_LEN then cfg.acceptType else old(acceptType)) &&
        header[..headerCount] == Kept(cfg.header[..Span(cfg.headerCount)]) &&
        forall j :: headerCount <= j < MAX_HTTP_HEADERS ==> header[j] == old(header[j])
    {
      if cfg.url.None? {
        return;
      }
      url := cfg.url;
      httpMethod := cfg.httpMethod;
      connTimeout := cfg.connTimeout;
      inputTimeout := cfg.inputTimeout;
      headerCount := ClampCount(cfg.headerCount);
      if cfg.contentType.Some? && |cfg.contentType.value| <= MAX_HEADER_LEN {
        contentType := cfg.contentType;
      }
      if cfg.acceptType.Some? && |cfg.acceptType.value| <= MAX_HEADER_LEN {
        acceptType := cfg.acceptType;
      }
      var cnt := KeepHeaders(cfg.header, headerCount);
      if cnt != headerCount {
        headerCount := cnt;
      }
    }

    /** The filtering loop: the headers among the first `count` given that
        are at most 256 bytes go, in order, to the first slots; the other
        slots keep what they held. */
    method KeepHeaders(hs: seq<string>, count: int) returns (cnt: int)
      requires header.Length == MAX_HTTP_HEADERS && |hs| == MAX_HTTP_HEADERS && count <= MAX_HTTP_HEADERS
      modifies header
      ensures 0 <= cnt <= Span(count)
      ensures header[..cnt] == Kept(hs[..Span(count)])
      ensures forall j :: cnt <= j < MAX_HTTP_HEADERS ==> header[j] == old(header[j])
    {
      cnt := 0;
      var i := 0;
      while i < count
        invariant 0 <= i <= Span(count)
        invariant 0 <= cnt <= i
        invariant header[..cnt] == Kept(hs[..i])
        invariant forall j :: cnt <= j < MAX_HTTP_HEADERS ==> header[j] == old(header[j])
      {
        assert hs[..i + 1][..i] == hs[..i];
        if |hs[i]| <= MAX_HEADER_LEN {
          header[cnt] := hs[i];
          cnt := cnt + 1;
        }
        i := i + 1;
      }
    }
  }
}
