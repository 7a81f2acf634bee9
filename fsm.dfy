/**
 * The coordinator of the finite state machines: one context record holding
 * the active layer, the transport in use and the state of each machine, with
 * setters, getters and a two-level dispatch to the layer handlers.
 */
module Fsm {

  /** The two layers the coordinator switches between. */
  datatype Layer = SimLayer | TransportLayer

  /** The SIM bring-up states. */
  datatype SimState = SimReset | AtSync | SimReady | NetReady | PdpActive

  /** The MQTT session states. */
  datatype MqttState = MqttReset | MqttStart | MqttAccq | MqttConnect | MqttReady

  /** The HTTP states as the context header declares them. */
  datatype HttpStage = HttpStart | HttpSetParam | HttpInputData | HttpAction | HttpStop

  /** The transports; `TransportHttp` is the zero value of the C enum. */
  datatype Transport = TransportHttp | TransportMqtt

  /** Which handler a dispatch runs, and with which state. */
  datatype HandlerCall = SimHandler(simState: SimState) | MqttHandler(mqttState: MqttState) | NoHandler

  /** The handler the dispatch selects for a context in the given fields. */
  function Dispatch(layer: Layer, transType: Transport, simState: SimState, mqttState: MqttState): HandlerCall {
    match layer
    case SimLayer => SimHandler(simState)
    case TransportLayer =>
      match transType
      case TransportHttp => NoHandler
      case TransportMqtt => MqttHandler(mqttState)
  }

  /** Exactly one of the three outcomes happens, each in exactly the
      situation the two-level switch gives it, and a handler always receives
      the state of its own machine. */
  lemma DispatchCases(layer: Layer, transType: Transport, simState: SimState, mqttState: MqttState)
    ensures var h := Dispatch(layer, transType, simState, mqttState);
      (h.SimHandler? <==> layer == SimLayer) &&
      (h.MqttHandler? <==> layer == TransportLayer && transType == TransportMqtt) &&
      (h == NoHandler <==> layer == TransportLayer && transType == TransportHttp) &&
      (h.SimHandler? ==> h.simState == simState) &&
      (h.MqttHandler? ==> h.mqttState == mqttState)
  {
  }

  /** The SIM layer ignores the transport and the MQTT state. */
  lemma SimLayerIgnoresTransport(transType: Transport, simState: SimState, mqttState: MqttState)
    ensures Dispatch(SimLayer, transType, simState, mqttState) == Dispatch(SimLayer, TransportHttp, simState, MqttReset)
  {
  }

  /** The coordinator's context record. */
  class FsmContext {
    var layer: Layer
    var simState: SimState
    var transType: Transport
    var mqttState: MqttState
    var httpState: HttpStage

    /** The static zero initialiser: every field holds its enum's first
        value, so the transport is HTTP until the context is initialised. */
    constructor()
      ensures layer == SimLayer && simState == SimReset && transType == TransportHttp
      ensures mqttState == MqttReset && httpState == HttpStart
    {
      layer := SimLayer;
      simState := SimReset;
      transType := TransportHttp;
      mqttState := MqttReset;
      httpState := HttpStart;
    }

    /** `fsm_context_init`: the SIM layer, the MQTT transport and both
        machines at RESET; the HTTP state is not touched. */
    method Init()
      modifies this
      ensures layer == SimLayer && transType == TransportMqtt
      ensures simState == SimReset && mqttState == MqttReset
      ensures httpState == old(httpState)
    {
      layer := SimLayer;
      transType := TransportMqtt;
      simState := SimReset;
      mqttState := MqttReset;
    }

    method SetLayer(l: Layer)
      modifies this
      ensures layer == l
      ensures simState == old(simState) && transType == old(transType)
      ensures mqttState == old(mqttState) && httpState == old(httpState)
    {
      layer := l;
    }

    method SetSimState(s: SimState)
      modifies this
      ensures simState == s
      ensures layer == old(layer) && transType == old(transType)
      ensures mqttState == old(mqttState) && httpState == old(httpState)
    {
      simState := s;
    }

    method GetSimState() returns (s: SimState)
      ensures s == simState
    {
      s := simState;
    }

    method SetMqttState(s: MqttState)
      modifies this
      ensures mqttState == s
      ensures layer == old(layer) && transType == old(transType)
      ensures simState == old(simState) && httpState == old(httpState)
    {
      mqttState := s;
    }

    method GetMqttState() returns (s: MqttState)
      ensures s == mqttState
    {
      s := mqttState;
    }

    /** `fsmHandler`: reports the handler it runs; it has no `modifies`
        clause, so it writes nothing of the context. */
    method Handle() returns (h: HandlerCall)
      ensures h == Dispatch(layer, transType, simState, mqttState)
      ensures h.SimHandler? <==> layer == SimLayer
      ensures h.MqttHandler? <==> layer == TransportLayer && transType == TransportMqtt
      ensures h.SimHandler? ==> h.simState == simState
      ensures h.MqttHandler? ==> h.mqttState == mqttState
    {
      match layer {
        case SimLayer =>
          h := SimHandler(simState);
        case TransportLayer =>
          match transType {
            case TransportHttp =>
              h := NoHandler;
            case TransportMqtt =>
              h := MqttHandler(mqttState);
          }
      }
    }
  }

  /** Setting a state and reading it back returns what was set, for both
      machines, and leaves the other machine's state alone. */
  method SetGetRoundTrip(c: FsmContext, s: SimState, m: MqttState) returns (s': SimState, m': MqttState)
    modifies c
    ensures s' == s && m' == m
    ensures c.layer == old(c.layer) && c.transType == old(c.transType) && c.httpState == old(c.httpState)
  {
    c.SetSimState(s);
    c.SetMqttState(m);
    s' := c.GetSimState();
    m' := c.GetMqttState();
  }

  /** After initialisation the coordinator dispatches to the SIM handler at
      RESET. */
  method InitThenHandle(c: FsmContext) returns (h: HandlerCall)
    modifies c
    ensures h == SimHandler(SimReset)
  {
    c.Init();
    h := c.Handle();
  }
}
