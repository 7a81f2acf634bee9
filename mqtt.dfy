/**
 * The MQTT transport: the stored client, server and publish-message
 * configuration, and the state handlers that run one step of the MQTT
 * session through the SIM command wrappers and report its outcome to the
 * SIM state machine.
 */
module Mqtt {
  import opened Text
  import opened SimCmd

  const CLIENT_ID_DEFAULT: string := "DefaultClient"
  const SERVER_ADDR_DEFAULT: string := "tcp://test.mosquitto.org:1883"
  const CLIENT_ID_MIN_LEN: nat := 1
  const CLIENT_ID_MAX_LEN: nat := 128
  const SERVER_ADDR_MIN_LEN: nat := 9
  const SERVER_ADDR_MAX_LEN: nat := 256
  const DISCONNECT_TIMEOUT_180S: int := 180
  /** The longest message the ready handler publishes. */
  const READY_MAX_LEN: int := 100

  datatype ClientIndex = First | Second
  datatype ServerType = Tcp | SslTls

  function IndexValue(i: ClientIndex): int {
    match i case First => 0 case Second => 1
  }

  function ServerTypeValue(t: ServerType): int {
    match t case Tcp => 0 case SslTls => 1
  }

  /** A client configuration; `None` stands for a NULL string. */
  datatype ClientConfig = ClientConfig(index: ClientIndex, id: Option<string>, userName: Option<string>,
                                       password: Option<string>, keepAliveTime: int, cleanSession: int)

  datatype ServerConfig = ServerConfig(serverType: ServerType, addr: Option<string>)

  datatype PublishConfig = PublishConfig(topic: Option<string>, topicLength: int, qos: int, publishTimeout: int)

  /** The SIM and MQTT states a handler names as the targets of its outcome. */
  datatype Stage =
    | StateReset | StateAtSync | StateSimReady | StateNetReady | StatePdpActive
    | StateMqttStart | StateMqttAccq | StateMqttConnect | StateMqttReady

  /** One report `updateSimState(res, onFail, onPass)` to the SIM state
      machine. */
  datatype Update = Update(res: SimResult, onFail: Stage, onPass: Stage)

  /** The client ID that is stored: the given one when its length is in
      [1, 128), the default otherwise. */
  function ClientIdOf(id: Option<string>): (r: string)
    ensures CLIENT_ID_MIN_LEN <= |r| < CLIENT_ID_MAX_LEN
    ensures id.Some? && CLIENT_ID_MIN_LEN <= |id.value| < CLIENT_ID_MAX_LEN ==> r == id.value
    ensures !(id.Some? && CLIENT_ID_MIN_LEN <= |id.value| < CLIENT_ID_MAX_LEN) ==> r == CLIENT_ID_DEFAULT
  {
    if id.Some? && CLIENT_ID_MIN_LEN <= |id.value| < CLIENT_ID_MAX_LEN then id.value else CLIENT_ID_DEFAULT
  }

  /** The server address that is stored: the given one when its length is
      in [9, 256), the default broker otherwise. */
  function ServerAddrOf(addr: Option<string>): (r: string)
    ensures SERVER_ADDR_MIN_LEN <= |r| < SERVER_ADDR_MAX_LEN
    ensures addr.Some? && SERVER_ADDR_MIN_LEN <= |addr.value| < SERVER_ADDR_MAX_LEN ==> r == addr.value
    ensures !(addr.Some? && SERVER_ADDR_MIN_LEN <= |addr.value| < SERVER_ADDR_MAX_LEN) ==> r == SERVER_ADDR_DEFAULT
  {
    if addr.Some? && SERVER_ADDR_MIN_LEN <= |addr.value| < SERVER_ADDR_MAX_LEN then addr.value else SERVER_ADDR_DEFAULT
  }

  /** A NULL credential is stored as the empty string. */
  function OrEmpty(s: Option<string>): (r: string)
    ensures s.None? ==> r == []
    ensures s.Some? ==> r == s.value
  {
    if s.Some? then s.value else []
  }

  /** Storing a configuration that was stored before changes nothing. */
  lemma ValidationIdempotent(id: Option<string>, addr: Option<string>, s: Option<string>)
    ensures ClientIdOf(Some(ClientIdOf(id))) == ClientIdOf(id)
    ensures ServerAddrOf(Some(ServerAddrOf(addr))) == ServerAddrOf(addr)
    ensures OrEmpty(Some(OrEmpty(s))) == OrEmpty(s)
  {
  }

  /** The three steps of a publication, in the order they are made. */
  function ReadyPlans(index: int, topic: string, topicLength: int, msg: string, len: int, qos: int, pubTimeout: int): seq<Plan> {
    [TopicPlan(index, topic, topicLength), PayloadPlan(index, msg, len), PublishPlan(index, qos, pubTimeout)]
  }

  /** The transactions of the acquire handler: the acquire request and, only
      when it failed, a disconnect and a release of the same client. */
  function AcquireTxs(index: int, id: string, serverType: int, res: SimResult): (txs: seq<Tx>)
    ensures |txs| == (if res == Fail then 3 else 1)
    ensures txs[0] == Tx(MqttAcquire(index, id, serverType), 2000)
    ensures res == Fail ==> txs[1] == Tx(MqttDisconnect, 2000) && txs[2] == Tx(MqttRelease(index), 2000)
  {
    [AcquirePlan(index, id, serverType).tx] +
      (if res == Fail then [DisconnectPlan().tx, ReleasePlan(index).tx] else [])
  }

  /** The stored MQTT configuration and the session's effects. */
  class MqttSession {
    const modem: Modem
    var index: ClientIndex
    var clientId: Option<string>
    var userName: Option<string>
    var password: Option<string>
    var keepAliveTime: int
    var cleanSession: int
    var serverType: ServerType
    var serverAddr: Option<string>
    var topic: Option<string>
    var topicLength: int
    var qos: int
    var publishTimeout: int
    /** The reports made to the SIM state machine, in order. */
    var updates: seq<Update>

    /** The static zero initialisers: every string NULL, every number 0. */
    constructor (modem: Modem)
      ensures this.modem == modem && updates == []
      ensures index == First && clientId.None? && userName.None? && password.None?
      ensures keepAliveTime == 0 && cleanSession == 0
      ensures serverType == Tcp && serverAddr.None?
      ensures topic.None? && topicLength == 0 && qos == 0 && publishTimeout == 0
    {
      this.modem := modem;
      index := First;
      clientId := None;
      userName := None;
      password := None;
      keepAliveTime := 0;
      cleanSession := 0;
      serverType := Tcp;
      serverAddr := None;
      topic := None;
      topicLength := 0;
      qos := 0;
      publishTimeout := 0;
      updates := [];
    }

    /** Everything the handlers read and never write. */
    function Config(): (ClientIndex, Option<string>, Option<string>, Option<string>, int, int,
                        ServerType, Option<string>, Option<string>, int, int, int)
      reads this
    {
      (index, clientId, userName, password, keepAliveTime, cleanSession,
       serverType, serverAddr, topic, topicLength, qos, publishTimeout)
    }

    /** Whether the client and the server have been configured. */
    predicate Configured()
      reads this
    {
      clientId.Some? && userName.Some? && password.Some? && serverAddr.Some?
    }

    /** `mqttClientInit`. */
    method ClientInit(cli: ClientConfig)
      modifies this
      ensures index == cli.index && keepAliveTime == cli.keepAliveTime && cleanSession == cli.cleanSession
      ensures clientId == Some(ClientIdOf(cli.id))
      ensures userName == Some(OrEmpty(cli.userName)) && password == Some(OrEmpty(cli.password))
      ensures serverType == old(serverType) && serverAddr == old(serverAddr)
      ensures topic == old(topic) && topicLength == old(topicLength) && qos == old(qos)
      ensures publishTimeout == old(publishTimeout) && updates == old(updates)
    {
      index := cli.index;
      keepAliveTime := cli.keepAliveTime;
      cleanSession := cli.cleanSession;
      if cli.id.Some? && CLIENT_ID_MIN_LEN <= |cli.id.value| < CLIENT_ID_MAX_LEN {
        clientId := cli.id;
      } else {
        clientId := Some(CLIENT_ID_DEFAULT);
      }
      if cli.userName.Some? {
        userName := cli.userName;
      } else {
        userName := Some([]);
      }
      if cli.password.Some? {
        password := cli.password;
      } else {
        password := Some([]);
      }
    }

    /** `mqttServerInit`. */
    method ServerInit(ser: ServerConfig)
      modifies this
      ensures serverType == ser.serverType && serverAddr == Some(ServerAddrOf(ser.addr))
      ensures index == old(index) && clientId == old(clientId) && userName == old(userName)
      ensures password == old(password) && keepAliveTime == old(keepAliveTime)
      ensures cleanSession == old(cleanSession)
      ensures topic == old(topic) && topicLength == old(topicLength) && qos == old(qos)
      ensures publishTimeout == old(publishTimeout) && updates == old(updates)
    {
      serverType := ser.serverType;
      if ser.addr.Some? && SERVER_ADDR_MIN_LEN <= |ser.addr.value| < SERVER_ADDR_MAX_LEN {
        serverAddr := ser.addr;
      } else {
        serverAddr := Some(SERVER_ADDR_DEFAULT);
      }
    }

    /** `mqttPublishMessageConfig`: a configuration without a topic is
        refused and changes nothing. */
    method PublishMessageConfig(msg: PublishConfig)
      modifies this
      ensures msg.topic.None? ==>
        topic == old(topic) && topicLength == old(topicLength) && qos == old(qos) &&
        publishTimeout == old(publishTimeout)
      ensures msg.topic.Some? ==>
        topic == msg.topic && topicLength == msg.topicLength && qos == msg.qos &&
        publishTimeout == msg.publishTimeout
      ensures index == old(index) && clientId == old(clientId) && userName == old(userName)
      ensures password == old(password) && keepAliveTime == old(keepAliveTime)
      ensures cleanSession == old(cleanSession) && serverType == old(serverType)
      ensures serverAddr == old(serverAddr) && updates == old(updates)
    {
      if msg.topic.None? {
        return;
      }
      topic := msg.topic;
      topicLength := msg.topicLength;
      qos := msg.qos;
      publishTimeout := msg.publishTimeout;
    }

    /** `mqttStartStatusHandler`: start the service; back to NET_READY on
        failure, on to MQTT_ACCQ on success. */
    method StartHandler()
      modifies this, modem
      ensures Config() == old(Config())
      ensures var c := CallFor(modem.script, |old(modem.sent)|, MqttStartPlan());
        modem.sent == old(modem.sent) + c.issued && updates == old(updates) + [Update(c.result, StateNetReady, StateMqttAccq)]
    {
      var res := modem.MqttStartService();
      updates := updates + [Update(res, StateNetReady, StateMqttAccq)];
    }

    /** `mqttAccquiredStatusHandler`: acquire the client; when that fails,
        disconnect (timeout 180 s) and release it before reporting FAIL.
        Back to PDP_ACTIVE on failure, on to MQTT_CONNECT on success. */
    method AcquireHandler()
      requires clientId.Some?
      modifies this, modem
      ensures Config() == old(Config())
      ensures var c := CallFor(modem.script, |old(modem.sent)|, AcquirePlan(IndexValue(old(index)), old(clientId.value), ServerTypeValue(old(serverType))));
        modem.sent == old(modem.sent) + AcquireTxs(IndexValue(old(index)), old(clientId.value), ServerTypeValue(old(serverType)), c.result) &&
        updates == old(updates) + [Update(c.result, StatePdpActive, StateMqttConnect)]
    {
      var i, id, st := IndexValue(index), clientId.value, ServerTypeValue(serverType);
      var res := modem.MqttAcquireClient(i, id, st);
      if res != Fail {
        updates := updates + [Update(res, StatePdpActive, StateMqttConnect)];
        return;
      }
      // the same two calls as the disconnect and release handlers below
      DisconnectHandler();
      ReleaseClientHandler();
      updates := updates + [Update(Fail, StatePdpActive, StateMqttConnect)];
    }

    /** `mqttConnectedStatusHandler`: connect to the broker; back to
        MQTT_START on failure, on to MQTT_READY on success. */
    method ConnectHandler()
      requires Configured()
      modifies this, modem
      ensures Config() == old(Config())
      ensures var p := ConnectPlan(IndexValue(old(index)), old(serverAddr.value), old(keepAliveTime), old(cleanSession),
                                   old(userName.value), old(password.value));
        var c := CallFor(modem.script, |old(modem.sent)|, p);
        modem.sent == old(modem.sent) + c.issued && updates == old(updates) + [Update(c.result, StateMqttStart, StateMqttReady)]
    {
      var res := modem.MqttConnect(IndexValue(index), serverAddr.value, keepAliveTime, cleanSession, userName.value, password.value);
      updates := updates + [Update(res, StateMqttStart, StateMqttReady)];
    }

    /** `mqttReadyStatusHandler`: a message longer than 100 bytes is
        skipped; otherwise topic, payload and publish are made in turn until
        one does not pass, and only an unsuccessful publication is reported
        (back to MQTT_ACCQ on failure). */
    method ReadyHandler(msg: string, len: int)
      requires topic.Some?
      modifies this, modem
      ensures Config() == old(Config())
      ensures len > READY_MAX_LEN ==> modem.sent == old(modem.sent) && updates == old(updates)
      ensures len <= READY_MAX_LEN ==>
        var r := Chain(CallAt(modem.script), |old(modem.sent)|,
                       ReadyPlans(IndexValue(old(index)), old(topic.value), old(topicLength), msg, len, old(qos), old(publishTimeout)));
        modem.sent == old(modem.sent) + r.txs &&
        updates == old(updates) + (if r.result == Pass then [] else [Update(r.result, StateMqttAccq, StateMqttReady)])
    {
      if len > READY_MAX_LEN {
        return;
      }
      var r := modem.RunAll(ReadyPlans(IndexValue(index), topic.value, topicLength, msg, len, qos, publishTimeout));
      if r.result != Pass {
        updates := updates + [Update(r.result, StateMqttAccq, StateMqttReady)];
      }
    }

    /** `mqttDisconnectHandler`. */
    method DisconnectHandler()
      modifies modem
      ensures modem.sent == old(modem.sent) + [Tx(MqttDisconnect, 2000)]
    {
      var _ := modem.MqttDisconnect(IndexValue(index), DISCONNECT_TIMEOUT_180S);
    }

    /** `mqttReleaseClientHandler`. */
    method ReleaseClientHandler()
      modifies modem
      ensures modem.sent == old(modem.sent) + [Tx(MqttRelease(IndexValue(index)), 2000)]
    {
      var _ := modem.MqttReleaseClient(IndexValue(index));
    }
  }
}
