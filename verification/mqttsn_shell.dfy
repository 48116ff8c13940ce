/**
 * The MQTT-SN shell of the weather-station firmware
 * (Presentation/riotOS/IOT-Assignment-2/main.c): the argument checks of
 * `con`, `discon`, `pub`, `sub`, `unsub` and `will`, the QoS parser, the
 * fixed table of subscription slots, and `sendPayload`.
 *
 * The emCute library is reduced to the requests the shell makes and the
 * success of each, which arrive as parameters; so does the IPv6 address
 * parser.
 */
module MqttSnShell {
  import opened Wrappers
  import opened CText
  import Stations

  /** `NUMOFSUBS`, `TOPIC_MAXLEN` and `EMCUTE_PORT`. */
  const NumOfSubs: nat := 16
  const TopicMaxLen: nat := 64
  const EmcutePort: Uint16 := 1883

  datatype Qos = Qos0 | Qos1 | Qos2

  /** One entry of `subscriptions`: topic id, topic name (absent while `topic.name` is NULL), callback set. */
  datatype Slot = Slot(topicId: Uint16, name: Option<string>, hasCallback: bool)

  /** A zeroed entry. */
  const EmptySlot: Slot := Slot(0, None, false)

  /** The table as `main` leaves it after clearing it. */
  const EmptyTable: seq<Slot> := seq(NumOfSubs, _ => EmptySlot)

  type Subscriptions = t: seq<Slot> | |t| == NumOfSubs witness EmptyTable

  /** A slot is free while its topic id is 0. */
  predicate Free(s: Slot) {
    s.topicId == 0
  }

  /** A request handed to emCute. */
  datatype Request =
    | Connect(gateway: string, port: Uint16, will: Option<(string, string)>)
    | Disconnect
    | Register(topic: string)
    | Publish(topic: string, data: Stations.Uplink, qos: Qos)
    | Subscribe(topic: string, qos: Qos)
    | Unsubscribe(topic: string)
    | WillTopic(topic: string)
    | WillMessage(message: string)

  /** Exit status, subscription table afterwards, requests made in order. */
  datatype Reply = Reply(status: int, subs: Subscriptions, requests: seq<Request>)

  /** The usage or error message before any request: exit status 1, nothing changed. */
  function Usage(subs: Subscriptions): (r: Reply)
    ensures r.status == 1 && r.subs == subs && r.requests == []
  {
    Reply(1, subs, [])
  }

  /** `get_qos`: the level `atoi` reads, anything but 1 and 2 meaning level 0. */
  function GetQos(s: string): (q: Qos)
    ensures q == Qos1 <==> Atoi(s) == 1
    ensures q == Qos2 <==> Atoi(s) == 2
    ensures q == Qos0 <==> Atoi(s) !in {1, 2}
  {
    match Atoi(s)
    case 1 => Qos1
    case 2 => Qos2
    case _ => Qos0
  }

  /** The decimal levels read back as themselves; every other number is level 0. */
  lemma GetQosOfDecimal(n: nat)
    ensures GetQos(Decimal(n)) == (if n == 1 then Qos1 else if n == 2 then Qos2 else Qos0)
    ensures GetQos("-" + Decimal(n)) == Qos0
  {
    AtoiReadsDecimal(n);
    var neg := "-" + Decimal(n);
    assert Atoi(neg) <= 0;
    assert GetQos(neg) == Qos0;
  }

  /** Text without leading digits, such as a word, is level 0. */
  lemma GetQosOfWord(word: string)
    requires |word| > 0 && !IsSpace(word[0]) && word[0] !in "+-" && !IsHexDigit(word[0])
    ensures GetQos(word) == Qos0
  {
    AtoiOfWord(word);
  }

  /** The lowest free slot. */
  function FirstFree(slots: seq<Slot>): (r: Option<nat>)
    ensures r.Some? ==> r.value < |slots| && Free(slots[r.value])
                        && forall k :: 0 <= k < r.value ==> !Free(slots[k])
    ensures r.None? ==> forall k :: 0 <= k < |slots| ==> !Free(slots[k])
  {
    if |slots| == 0 then None
    else if Free(slots[0]) then Some(0)
    else match FirstFree(slots[1..])
      case None => None
      case Some(i) => Some(i + 1)
  }

  /** The lowest slot whose name is `name`. */
  function FirstNamed(slots: seq<Slot>, name: string): (r: Option<nat>)
    ensures r.Some? ==> r.value < |slots| && slots[r.value].name == Some(name)
                        && forall k :: 0 <= k < r.value ==> slots[k].name != Some(name)
    ensures r.None? ==> forall k :: 0 <= k < |slots| ==> slots[k].name != Some(name)
  {
    if |slots| == 0 then None
    else if slots[0].name == Some(name) then Some(0)
    else match FirstNamed(slots[1..], name)
      case None => None
      case Some(i) => Some(i + 1)
  }

  /**
   * `sub <topic> [QoS]`. The callback and the name are stored in the lowest
   * free slot before the request; the topic id the gateway assigns
   * (`granted`, None when the request fails) is stored only on success.
   */
  function CmdSub(subs: Subscriptions, argv: seq<string>, granted: Option<Uint16>): (r: Reply)
    ensures |argv| < 2 || Strlen(argv[1]) > TopicMaxLen || FirstFree(subs).None? ==> r == Usage(subs)
    ensures r.status == 0 <==> |argv| >= 2 && Strlen(argv[1]) <= TopicMaxLen && FirstFree(subs).Some? && granted.Some?
    ensures r.requests != [] <==> |argv| >= 2 && Strlen(argv[1]) <= TopicMaxLen && FirstFree(subs).Some?
    ensures r.status != 0 ==> r.status == 1
    ensures r.requests != [] ==>
              var i := FirstFree(subs).value;
              r.requests == [Subscribe(argv[1], if |argv| >= 3 then GetQos(argv[2]) else Qos0)]
              && r.subs[i].name == Some(argv[1]) && r.subs[i].hasCallback
              && r.subs[i].topicId == (if granted.Some? then granted.value else 0)
              && forall k :: 0 <= k < NumOfSubs && k != i ==> r.subs[k] == subs[k]
  {
    if |argv| < 2 || Strlen(argv[1]) > TopicMaxLen then Usage(subs)
    else
      var qos := if |argv| >= 3 then GetQos(argv[2]) else Qos0;
      match FirstFree(subs)
      case None => Usage(subs)
      case Some(i) =>
        var pending := subs[i].(hasCallback := true, name := Some(argv[1]));
        match granted
        case None => Reply(1, subs[i := pending], [Subscribe(argv[1], qos)])
        case Some(id) => Reply(0, subs[i := pending.(topicId := id)], [Subscribe(argv[1], qos)])
  }

  /**
   * `unsub <topic>`: the lowest slot with that name is zeroed when the
   * request succeeds (`ok`); the status is 0 either way once a slot matched.
   */
  function CmdUnsub(subs: Subscriptions, argv: seq<string>, ok: bool): (r: Reply)
    ensures |argv| < 2 ==> r == Usage(subs)
    ensures r.status == 0 <==> |argv| >= 2 && FirstNamed(subs, argv[1]).Some?
    ensures r.status != 0 ==> r == Usage(subs)
    ensures r.status == 0 ==>
              var i := FirstNamed(subs, argv[1]).value;
              r.requests == [Unsubscribe(argv[1])]
              && r.subs[i] == (if ok then EmptySlot else subs[i])
              && forall k :: 0 <= k < NumOfSubs && k != i ==> r.subs[k] == subs[k]
  {
    if |argv| < 2 then Usage(subs)
    else match FirstNamed(subs, argv[1])
      case None => Usage(subs)
      case Some(i) => Reply(0, if ok then subs[i := EmptySlot] else subs, [Unsubscribe(argv[1])])
  }

  /** The number of slots in use. */
  function InUse(slots: seq<Slot>): (n: nat)
    ensures n <= |slots|
  {
    if |slots| == 0 then 0 else InUse(slots[..|slots| - 1]) + (if Free(slots[|slots| - 1]) then 0 else 1)
  }

  /** Changing one slot changes the count by what that slot contributes. */
  lemma {:induction false} InUseUpdate(slots: seq<Slot>, i: nat, s: Slot)
    requires i < |slots|
    ensures InUse(slots[i := s]) + (if Free(slots[i]) then 0 else 1) == InUse(slots) + (if Free(s) then 0 else 1)
  {
    var last := |slots| - 1;
    if i < last {
      assert slots[i := s][..last] == slots[..last][i := s];
      InUseUpdate(slots[..last], i, s);
    } else {
      assert slots[i := s][..last] == slots[..last];
    }
  }

  /** A subscription takes at most one more slot, an unsubscription frees at most one. */
  lemma SlotsInUse(subs: Subscriptions, argv: seq<string>, granted: Option<Uint16>, ok: bool)
    ensures InUse(CmdSub(subs, argv, granted).subs) <= InUse(subs) + 1
    ensures InUse(subs) <= InUse(CmdUnsub(subs, argv, ok).subs) + 1
  {
    var r := CmdSub(subs, argv, granted);
    if r.requests != [] {
      var i := FirstFree(subs).value;
      assert r.subs == subs[i := r.subs[i]];
      InUseUpdate(subs, i, r.subs[i]);
    }
    var u := CmdUnsub(subs, argv, ok);
    if u.status == 0 && ok {
      var i := FirstNamed(subs, argv[1]).value;
      assert u.subs == subs[i := EmptySlot];
      InUseUpdate(subs, i, EmptySlot);
    }
  }

  /**
   * Subscribing to a topic no slot names and then unsubscribing from it
   * zeroes exactly the slot the subscription took, and every other slot is
   * as before.
   */
  lemma SubThenUnsub(subs: Subscriptions, topic: string, qos: seq<string>, id: Uint16)
    requires Strlen(topic) <= TopicMaxLen && |qos| <= 1
    requires FirstFree(subs).Some?
    requires forall k :: 0 <= k < NumOfSubs ==> subs[k].name != Some(topic)
    ensures var after := CmdSub(subs, ["sub", topic] + qos, Some(id));
            var back := CmdUnsub(after.subs, ["unsub", topic], true);
            after.status == 0 && back.status == 0
            && back.subs == subs[FirstFree(subs).value := EmptySlot]
  {
    var i := FirstFree(subs).value;
    var argv := ["sub", topic] + qos;
    assert argv[1] == topic;
    var after := CmdSub(subs, argv, Some(id));
    assert after.requests != [];
    assert after.subs[i].name == Some(topic);
    assert forall k :: 0 <= k < i ==> after.subs[k].name != Some(topic);
    assert FirstNamed(after.subs, topic) == Some(i);
    var back := CmdUnsub(after.subs, ["unsub", topic], true);
    assert back.subs == after.subs[i := EmptySlot];
    assert after.subs == subs[i := after.subs[i]];
  }

  /**
   * A subscription the gateway refuses still leaves its name in the slot it
   * took, so a later `unsub` of that topic finds the slot and succeeds.
   */
  lemma RefusedSubKeepsName(subs: Subscriptions, topic: string, qos: seq<string>)
    requires Strlen(topic) <= TopicMaxLen && |qos| <= 1
    requires FirstFree(subs).Some?
    requires forall k :: 0 <= k < NumOfSubs ==> subs[k].name != Some(topic)
    ensures var after := CmdSub(subs, ["sub", topic] + qos, None);
            after.status == 1 && after.requests != []
            && FirstNamed(after.subs, topic) == FirstFree(subs)
            && CmdUnsub(after.subs, ["unsub", topic], true).status == 0
  {
    var i := FirstFree(subs).value;
    var argv := ["sub", topic] + qos;
    assert argv[1] == topic;
    var after := CmdSub(subs, argv, None);
    assert after.subs[i].name == Some(topic);
    assert forall k :: 0 <= k < i ==> after.subs[k].name != Some(topic);
  }

  /** On a table fresh from start-up, the same round trip restores the table. */
  lemma SubThenUnsubFromEmpty(topic: string, id: Uint16)
    requires Strlen(topic) <= TopicMaxLen
    ensures var after := CmdSub(EmptyTable, ["sub", topic], Some(id));
            CmdUnsub(after.subs, ["unsub", topic], true).subs == EmptyTable
  {
    assert FirstFree(EmptyTable) == Some(0) by { assert Free(EmptyTable[0]); }
    SubThenUnsub(EmptyTable, topic, [], id);
    assert EmptyTable[0 := EmptySlot] == EmptyTable;
  }

  /** A topic name of exactly `TOPIC_MAXLEN` bytes passes the length check. */
  lemma SubAcceptsMaxLength(subs: Subscriptions, topic: string, id: Uint16)
    requires Strlen(topic) == TopicMaxLen && FirstFree(subs).Some?
    ensures CmdSub(subs, ["sub", topic], Some(id)).status == 0
  {
  }

  /** With every slot in use, `sub` refuses before any request. */
  lemma SubWhenFull(subs: Subscriptions, argv: seq<string>, granted: Option<Uint16>)
    requires forall k :: 0 <= k < NumOfSubs ==> !Free(subs[k])
    ensures CmdSub(subs, argv, granted) == Usage(subs)
  {
    assert FirstFree(subs).None?;
  }

  /**
   * `con <addr> [port] [<will topic> <will message>]`. `isIpv6` stands for
   * `ipv6_addr_from_str`, `ok` for the result of `emcute_con`.
   */
  function CmdCon(subs: Subscriptions, argv: seq<string>, isIpv6: string -> bool, ok: bool): (r: Reply)
    ensures r.subs == subs
    ensures |argv| < 2 || !isIpv6(argv[1]) ==> r == Usage(subs)
    ensures r.requests != [] ==>
              r.requests == [Connect(argv[1],
                                     if |argv| >= 3 then ToUint16(Atoi(argv[2])) else EmcutePort,
                                     if |argv| >= 5 then Some((argv[3], argv[4])) else None)]
    ensures r.status == 0 <==> |argv| >= 2 && isIpv6(argv[1]) && ok
    ensures |argv| >= 2 && isIpv6(argv[1]) ==> r.requests != []
    ensures r.status != 0 ==> r.status == 1
  {
    if |argv| < 2 || !isIpv6(argv[1]) then Usage(subs)
    else
      var port := if |argv| >= 3 then ToUint16(Atoi(argv[2])) else EmcutePort;
      var will := if |argv| >= 5 then Some((argv[3], argv[4])) else None;
      Reply(if ok then 0 else 1, subs, [Connect(argv[1], port, will)])
  }

  /** A decimal port below 65536 is used as given; larger ones wrap around modulo 65536. */
  lemma ConPort(subs: Subscriptions, addr: string, n: nat, isIpv6: string -> bool, ok: bool)
    requires isIpv6(addr)
    ensures CmdCon(subs, ["con", addr, Decimal(n)], isIpv6, ok).requests
            == [Connect(addr, n % 0x1_0000, None)]
  {
    AtoiReadsDecimal(n);
  }

  datatype DisconOutcome = DisconOk | NoGateway | DisconError

  /** `discon`: succeeds only when the library does. */
  function CmdDiscon(subs: Subscriptions, outcome: DisconOutcome): (r: Reply)
    ensures r.subs == subs && r.requests == [Disconnect]
    ensures r.status == 0 <==> outcome == DisconOk
    ensures r.status != 0 ==> r.status == 1
  {
    Reply(if outcome == DisconOk then 0 else 1, subs, [Disconnect])
  }

  /** Register, then publish only if the registration succeeded. */
  function RegisterAndPublish(subs: Subscriptions, topic: string, data: Stations.Uplink, qos: Qos,
                              registered: bool, published: bool): (r: Reply)
    ensures r.subs == subs
    ensures r.status == 0 <==> registered && published
    ensures r.status != 0 ==> r.status == 1
    ensures r.requests == [Register(topic)] + (if registered then [Publish(topic, data, qos)] else [])
  {
    if !registered then Reply(1, subs, [Register(topic)])
    else Reply(if published then 0 else 1, subs, [Register(topic), Publish(topic, data, qos)])
  }

  /** The QoS `pub` uses: the fourth argument when given. */
  function PubQos(argv: seq<string>): Qos {
    if |argv| >= 4 then GetQos(argv[3]) else Qos0
  }

  /** `pub <topic> <data> [QoS]`. */
  function CmdPub(subs: Subscriptions, argv: seq<string>, registered: bool, published: bool): (r: Reply)
    ensures |argv| < 3 ==> r == Usage(subs)
    ensures r.subs == subs
    ensures |argv| >= 3 ==>
              r.requests == [Register(argv[1])]
                            + (if registered then [Publish(argv[1], Stations.ShellText(argv[2]), PubQos(argv))] else [])
    ensures r.status == 0 <==> |argv| >= 3 && registered && published
  {
    if |argv| < 3 then Usage(subs)
    else RegisterAndPublish(subs, argv[1], Stations.ShellText(argv[2]), PubQos(argv), registered, published)
  }

  /** `will <topic> <message>`: the message is updated only after the topic was. */
  function CmdWill(subs: Subscriptions, argv: seq<string>, topicOk: bool, messageOk: bool): (r: Reply)
    ensures |argv| < 3 ==> r == Usage(subs)
    ensures r.subs == subs
    ensures |argv| >= 3 ==>
              r.requests == [WillTopic(argv[1])] + (if topicOk then [WillMessage(argv[2])] else [])
    ensures r.status == 0 <==> |argv| >= 3 && topicOk && messageOk
  {
    if |argv| < 3 then Usage(subs)
    else if !topicOk then Reply(1, subs, [WillTopic(argv[1])])
    else Reply(if messageOk then 0 else 1, subs, [WillTopic(argv[1]), WillMessage(argv[2])])
  }

  /**
   * The calls `sendPayload` as written can make: with a sensor selected and
   * exactly three arguments it reads the fourth, which C passes as the NULL
   * that ends `argv`.
   */
  predicate SendPayloadDefined(sel: Stations.Selection, argv: seq<string>) {
    !(sel.selected && |argv| == 3)
  }

  /** `sendPayload <topic> [QoS]` as written: the QoS is read from the fourth argument. */
  function SendPayload(subs: Subscriptions, sel: Stations.Selection, argv: seq<string>,
                       registered: bool, published: bool): (r: Reply)
    requires SendPayloadDefined(sel, argv)
    ensures !sel.selected || |argv| < 2 ==> r == Usage(subs)
    ensures sel.selected && |argv| >= 2 ==>
              r == RegisterAndPublish(subs, argv[1], Stations.SensorReading(sel.current),
                                      if |argv| >= 4 then GetQos(argv[3]) else Qos0, registered, published)
  {
    if !sel.selected || |argv| < 2 then Usage(subs)
    else
      var qos := if |argv| >= 3 then GetQos(argv[3]) else Qos0;
      RegisterAndPublish(subs, argv[1], Stations.SensorReading(sel.current), qos, registered, published)
  }

  /** `sendPayload <topic> [QoS]` reading the QoS from the argument its usage line names. */
  function SendPayloadFixed(subs: Subscriptions, sel: Stations.Selection, argv: seq<string>,
                            registered: bool, published: bool): (r: Reply)
    ensures !sel.selected || |argv| < 2 ==> r == Usage(subs)
    ensures sel.selected && |argv| >= 2 ==>
              |r.requests| == (if registered then 2 else 1) && r.requests[0] == Register(argv[1])
              && (registered ==> r.requests[1].Publish? && r.requests[1].data == Stations.SensorReading(sel.current))
    ensures r.status == 0 <==> sel.selected && |argv| >= 2 && registered && published
  {
    if !sel.selected || |argv| < 2 then Usage(subs)
    else
      var qos := if |argv| >= 3 then GetQos(argv[2]) else Qos0;
      RegisterAndPublish(subs, argv[1], Stations.SensorReading(sel.current), qos, registered, published)
  }

  /**
   * The documented form `sendPayload <topic> <QoS>` is outside what the code
   * as written can handle, and with a fourth argument present the third is
   * ignored: `sendPayload t 2 1` publishes at level 1.
   */
  lemma SendPayloadReadsWrongArgument(subs: Subscriptions, sel: Stations.Selection, topic: string)
    requires sel.selected
    ensures !SendPayloadDefined(sel, ["sendPayload", topic, "2"])
    ensures SendPayload(subs, sel, ["sendPayload", topic, "2", "1"], true, true).requests[1].qos == Qos1
    ensures SendPayloadFixed(subs, sel, ["sendPayload", topic, "2", "1"], true, true).requests[1].qos == Qos2
  {
    AtoiReadsDecimal(1);
    AtoiReadsDecimal(2);
    assert Decimal(1) == "1" && Decimal(2) == "2";
  }

  /**
   * The corrected command publishes the reading with exactly the QoS `pub`
   * would use for the same topic and QoS argument.
   */
  lemma SendPayloadFixedMatchesPub(subs: Subscriptions, sel: Stations.Selection, topic: string, qos: seq<string>,
                                   data: string, registered: bool)
    requires sel.selected && |qos| <= 1 && registered
    ensures var sent := SendPayloadFixed(subs, sel, ["sendPayload", topic] + qos, registered, true);
            var pub := CmdPub(subs, ["pub", topic, data] + qos, registered, true);
            sent.requests[1] == pub.requests[1].(data := Stations.SensorReading(sel.current))
            && sent.status == pub.status
  {
  }

  // ---------------------------------------------------------------------
  // Last will

  /**
   * The will pair a command leaves at the gateway, if any: a pair counts only
   * when the command reports success, since a failed `emcute_con` or will
   * update leaves the gateway's will unknown or incomplete.
   */
  function WillInstalled(r: Reply): Option<(string, string)> {
    if r.status != 0 then None
    else if |r.requests| == 1 && r.requests[0].Connect? then r.requests[0].will
    else if |r.requests| == 2 && r.requests[0].WillTopic? && r.requests[1].WillMessage? then
      Some((r.requests[0].topic, r.requests[1].message))
    else None
  }

  /**
   * `will <topic> <message>` leaves the gateway the same will pair as
   * `con <addr> <port> <topic> <message>` does; either command installs it
   * exactly when every library call it makes succeeds.
   */
  lemma WillMatchesCon(subs: Subscriptions, addr: string, port: string, topic: string, message: string,
                       isIpv6: string -> bool, connected: bool, topicOk: bool, messageOk: bool)
    requires isIpv6(addr)
    ensures WillInstalled(CmdCon(subs, ["con", addr, port, topic, message], isIpv6, connected))
            == (if connected then Some((topic, message)) else None)
    ensures WillInstalled(CmdWill(subs, ["will", topic, message], topicOk, messageOk))
            == (if topicOk && messageOk then Some((topic, message)) else None)
  {
  }

  // ---------------------------------------------------------------------
  // The command table

  /** What the address parser and the gateway answer during one command line. */
  datatype Gateway = Gateway(isIpv6: string -> bool, connected: bool, discon: DisconOutcome,
                             registered: bool, published: bool, granted: Option<Uint16>,
                             unsubscribed: bool, willTopicSet: bool, willMessageSet: bool)

  /** The state the commands share: the subscription table and the sensor selection. */
  datatype Node = Node(subs: Subscriptions, sel: Stations.Selection)

  /** The node once `main` has cleared the table. */
  const StartNode: Node := Node(EmptyTable, Stations.Unselected)

  /** The result of one command line: exit status, node afterwards, requests made. */
  datatype Outcome = Outcome(status: int, node: Node, requests: seq<Request>)

  /** The names in `shell_commands`. */
  const CommandNames: set<string> :=
    {"con", "discon", "pub", "sub", "unsub", "will", "readEnv", "printPay", "initSensor", "sendPayload"}

  function OutcomeOf(node: Node, r: Reply): Outcome {
    Outcome(r.status, node.(subs := r.subs), r.requests)
  }

  /**
   * `shell_commands`: runs the command `argv[0]` names; None when no entry
   * has that name. `sendPayload` is the corrected command.
   */
  function Run(node: Node, argv: seq<string>, gw: Gateway): (r: Option<Outcome>)
    ensures r.Some? <==> |argv| > 0 && argv[0] in CommandNames
    ensures r.Some? ==> r.value.status in {0, 1}
  {
    if |argv| == 0 then None
    else if argv[0] == "con" then Some(OutcomeOf(node, CmdCon(node.subs, argv, gw.isIpv6, gw.connected)))
    else if argv[0] == "discon" then Some(OutcomeOf(node, CmdDiscon(node.subs, gw.discon)))
    else if argv[0] == "pub" then Some(OutcomeOf(node, CmdPub(node.subs, argv, gw.registered, gw.published)))
    else if argv[0] == "sub" then Some(OutcomeOf(node, CmdSub(node.subs, argv, gw.granted)))
    else if argv[0] == "unsub" then Some(OutcomeOf(node, CmdUnsub(node.subs, argv, gw.unsubscribed)))
    else if argv[0] == "will" then
      Some(OutcomeOf(node, CmdWill(node.subs, argv, gw.willTopicSet, gw.willMessageSet)))
    else if argv[0] == "readEnv" then Some(Outcome(0, node, []))
    else if argv[0] == "printPay" then Some(Outcome(Stations.PrintPayload(node.sel).0, node, []))
    else if argv[0] == "initSensor" then
      var (code, sel) := Stations.InitSensor(Stations.MqttTable, node.sel, argv);
      Some(Outcome(code, node.(sel := sel), []))
    else if argv[0] == "sendPayload" then
      Some(OutcomeOf(node, SendPayloadFixed(node.subs, node.sel, argv, gw.registered, gw.published)))
    else None
  }

  /**
   * Each command keeps to its own state: only `sub` and `unsub` change the
   * subscription table, by at most one slot in use, and only `initSensor`
   * changes the selection.
   */
  lemma RunChangesOwnState(node: Node, argv: seq<string>, gw: Gateway)
    requires Run(node, argv, gw).Some?
    ensures var after := Run(node, argv, gw).value.node;
            (after.subs != node.subs ==> argv[0] in {"sub", "unsub"})
            && (after.sel != node.sel ==> argv[0] == "initSensor")
            && InUse(after.subs) <= InUse(node.subs) + 1
            && InUse(node.subs) <= InUse(after.subs) + 1
  {
    if argv[0] == "sub" {
      var r := CmdSub(node.subs, argv, gw.granted);
      assert Run(node, argv, gw).value.node.subs == r.subs;
      if r.subs != node.subs {
        var i := FirstFree(node.subs).value;
        assert r.subs == node.subs[i := r.subs[i]];
        InUseUpdate(node.subs, i, r.subs[i]);
      }
    } else if argv[0] == "unsub" {
      var r := CmdUnsub(node.subs, argv, gw.unsubscribed);
      assert Run(node, argv, gw).value.node.subs == r.subs;
      if r.subs != node.subs {
        var i := FirstNamed(node.subs, argv[1]).value;
        assert r.subs == node.subs[i := r.subs[i]];
        InUseUpdate(node.subs, i, r.subs[i]);
      }
    }
  }

  /** `discon` makes one disconnect request and leaves the node as it was, whatever the gateway answers. */
  lemma DisconKeepsNode(node: Node, gw: Gateway)
    ensures var r := Run(node, ["discon"], gw).value;
            r.node == node && r.requests == [Disconnect] && (r.status == 0 <==> gw.discon == DisconOk)
  {
  }
}
