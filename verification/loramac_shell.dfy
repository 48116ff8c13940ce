/**
 * The `loramac` shell command of the LoRaWAN weather-station firmware
 * (Presentation/riotOS/IOT-Assignment-3/main.c) and its `sendPayload`
 * command.
 *
 * The Semtech LoRaMAC stack is reduced to the settings the shell reads and
 * writes (`Mac`) and to the outcomes of its join, send and receive calls,
 * which arrive as parameters (`Radio`). A reply carries the exit status, the
 * settings afterwards, the value `get` prints after its label, and the
 * request handed to the stack, if any.
 */
module LoRaMacShell {
  import opened Wrappers
  import opened CText
  import Stations

  /** Key lengths in bytes, from RIOT's `net/loramac.h`. */
  const DevEuiLen: nat := 8
  const AppEuiLen: nat := 8
  const AppKeyLen: nat := 16
  const AppSKeyLen: nat := 16
  const NwkSKeyLen: nat := 16
  const DevAddrLen: nat := 4

  /** `LORAMAC_DR_15` and `LORAMAC_TX_PWR_15`: the largest accepted index. */
  const MaxDataRate: Uint8 := 15
  const MaxTxPower: Uint8 := 15

  /** `LORAMAC_DEFAULT_TX_PORT`; application ports run from 1 to 223. */
  const DefaultTxPort: Uint8 := 2
  const MaxTxPort: Uint8 := 223

  datatype DeviceClass = ClassA | ClassB | ClassC
  datatype TxMode = Confirmed | Unconfirmed
  datatype JoinType = Otaa | Abp

  /** `LORAMAC_DEFAULT_TX_MODE`. */
  const DefaultTxMode: TxMode := Confirmed

  datatype Key = DevEui | AppEui | AppKey | AppSKey | NwkSKey | DevAddr

  /** The settings of the MAC layer the shell can read and write. */
  datatype Mac = Mac(
    devEui: seq<Uint8>, appEui: seq<Uint8>, appKey: seq<Uint8>,
    appSKey: seq<Uint8>, nwkSKey: seq<Uint8>, devAddr: seq<Uint8>,
    deviceClass: DeviceClass, dataRate: Uint8, adr: bool, publicNetwork: bool,
    netId: Uint32, txPower: Uint8, rx2Freq: Uint32, rx2DataRate: Uint8,
    txMode: TxMode, txPort: Uint8)

  /** Results of `semtech_loramac_join`, `_send` and `_recv` the shell distinguishes. */
  datatype JoinOutcome = JoinDutyCycleRestricted | JoinBusy | JoinFailed | AlreadyJoined | JoinSucceeded | JoinOther
  datatype SendOutcome = NotJoined | SendDutyCycleRestricted | SendBusy | SendTxError | SendOther
  datatype RecvOutcome = DataReceived | RecvDutyCycleRestricted | RecvBusy | RecvTxError | TxDone | RecvOther

  /** What the stack answers to the calls of one command. */
  datatype Radio = Radio(join: JoinOutcome, send: SendOutcome, recv: RecvOutcome)

  /** The request a command hands to the stack. */
  datatype Action = JoinRequest(joinType: JoinType) | Transmit(uplink: Stations.Uplink) | LinkCheckRequest | SaveConfig | EraseConfig

  datatype Reply = Reply(status: int, mac: Mac, shown: Option<string>, action: Option<Action>)

  /** The usage message: exit status 1, nothing changed, nothing requested. */
  function Usage(mac: Mac): (r: Reply)
    ensures r.status == 1 && r.mac == mac && r.shown.None? && r.action.None?
  {
    Reply(1, mac, None, None)
  }

  function KeyLen(k: Key): nat {
    match k
    case DevEui => DevEuiLen
    case AppEui => AppEuiLen
    case AppKey => AppKeyLen
    case AppSKey => AppSKeyLen
    case NwkSKey => NwkSKeyLen
    case DevAddr => DevAddrLen
  }

  function KeyOf(mac: Mac, k: Key): seq<Uint8> {
    match k
    case DevEui => mac.devEui
    case AppEui => mac.appEui
    case AppKey => mac.appKey
    case AppSKey => mac.appSKey
    case NwkSKey => mac.nwkSKey
    case DevAddr => mac.devAddr
  }

  /** Stores one key; every other setting is kept. */
  function WithKey(mac: Mac, k: Key, b: seq<Uint8>): (m: Mac)
    ensures KeyOf(m, k) == b
    ensures forall k' :: k' != k ==> KeyOf(m, k') == KeyOf(mac, k')
    ensures m.(devEui := mac.devEui, appEui := mac.appEui, appKey := mac.appKey,
               appSKey := mac.appSKey, nwkSKey := mac.nwkSKey, devAddr := mac.devAddr) == mac
  {
    match k
    case DevEui => mac.(devEui := b)
    case AppEui => mac.(appEui := b)
    case AppKey => mac.(appKey := b)
    case AppSKey => mac.(appSKey := b)
    case NwkSKey => mac.(nwkSKey := b)
    case DevAddr => mac.(devAddr := b)
  }

  /** Every key has its fixed length. */
  predicate WellFormed(mac: Mac) {
    forall k :: |KeyOf(mac, k)| == KeyLen(k)
  }

  /** The settings `get` and `set` name. */
  datatype Param = KeyParam(key: Key) | ClassParam | DataRateParam | AdrParam | PublicParam
                 | NetIdParam | TxPowerParam | Rx2FreqParam | Rx2DataRateParam

  function ParamName(p: Param): string {
    match p
    case KeyParam(DevEui) => "deveui"
    case KeyParam(AppEui) => "appeui"
    case KeyParam(AppKey) => "appkey"
    case KeyParam(AppSKey) => "appskey"
    case KeyParam(NwkSKey) => "nwkskey"
    case KeyParam(DevAddr) => "devaddr"
    case ClassParam => "class"
    case DataRateParam => "dr"
    case AdrParam => "adr"
    case PublicParam => "public"
    case NetIdParam => "netid"
    case TxPowerParam => "tx_power"
    case Rx2FreqParam => "rx2_freq"
    case Rx2DataRateParam => "rx2_dr"
  }

  /** The `strcmp` chain shared by `get` and `set`. */
  function ParamNamed(s: string): Option<Param> {
    if s == "deveui" then Some(KeyParam(DevEui))
    else if s == "appeui" then Some(KeyParam(AppEui))
    else if s == "appkey" then Some(KeyParam(AppKey))
    else if s == "appskey" then Some(KeyParam(AppSKey))
    else if s == "nwkskey" then Some(KeyParam(NwkSKey))
    else if s == "devaddr" then Some(KeyParam(DevAddr))
    else if s == "class" then Some(ClassParam)
    else if s == "dr" then Some(DataRateParam)
    else if s == "adr" then Some(AdrParam)
    else if s == "public" then Some(PublicParam)
    else if s == "netid" then Some(NetIdParam)
    else if s == "tx_power" then Some(TxPowerParam)
    else if s == "rx2_freq" then Some(Rx2FreqParam)
    else if s == "rx2_dr" then Some(Rx2DataRateParam)
    else None
  }

  /** The chain recognises exactly the fourteen names, each as its own setting. */
  lemma ParamNamedIff(s: string, p: Param)
    ensures ParamNamed(s) == Some(p) <==> s == ParamName(p)
  {
  }

  function ClassText(c: DeviceClass): string {
    match c
    case ClassA => "A"
    case ClassB => "B"
    case ClassC => "C"
  }

  function ParseClass(s: string): Option<DeviceClass> {
    if s == "A" then Some(ClassA) else if s == "B" then Some(ClassB) else if s == "C" then Some(ClassC) else None
  }

  function OnOffText(b: bool): string {
    if b then "on" else "off"
  }

  function ParseOnOff(s: string): Option<bool> {
    if s == "on" then Some(true) else if s == "off" then Some(false) else None
  }

  /** The enumerated values are accepted exactly as they are printed. */
  lemma WordsRoundTrip(s: string, c: DeviceClass, b: bool)
    ensures ParseClass(s) == Some(c) <==> s == ClassText(c)
    ensures ParseOnOff(s) == Some(b) <==> s == OnOffText(b)
  {
  }

  /** The text `get` prints after the setting's label. */
  function Shown(mac: Mac, p: Param): string {
    match p
    case KeyParam(k) => BytesToHex(KeyOf(mac, k))
    case ClassParam => ClassText(mac.deviceClass)
    case DataRateParam => Decimal(mac.dataRate)
    case AdrParam => OnOffText(mac.adr)
    case PublicParam => OnOffText(mac.publicNetwork)
    case NetIdParam => Decimal(mac.netId)
    case TxPowerParam => Decimal(mac.txPower)
    case Rx2FreqParam => Decimal(mac.rx2Freq)
    case Rx2DataRateParam => Decimal(mac.rx2DataRate)
  }

  /** `loramac get <name>`: only reads. */
  function Get(mac: Mac, argv: seq<string>): (r: Reply)
    requires |argv| >= 2
    ensures r.mac == mac && r.action.None?
    ensures r.status == 0 <==> |argv| >= 3 && ParamNamed(argv[2]).Some?
    ensures r.status == 0 ==> r.shown == Some(Shown(mac, ParamNamed(argv[2]).value))
    ensures r.status != 0 ==> r.status == 1 && r.shown.None?
  {
    if |argv| < 3 then Usage(mac)
    else match ParamNamed(argv[2])
      case None => Usage(mac)
      case Some(p) => Reply(0, mac, Some(Shown(mac, p)), None)
  }

  /** The index `atoi` gives, as the `uint8_t` it is stored in. */
  function ByteArg(s: string): Uint8 {
    ToUint8(Atoi(s))
  }

  /**
   * The new settings for `set <name> <value>`, or None when the value is
   * rejected. `name` is the setting's own text, which `netid` parses.
   */
  function Assign(mac: Mac, p: Param, name: string, value: string): (m: Option<Mac>)
    ensures p.KeyParam? ==> (m.Some? <==> Strlen(value) == 2 * KeyLen(p.key))
    ensures p.ClassParam? ==> (m.Some? <==> value in {"A", "B", "C"})
    ensures p.AdrParam? || p.PublicParam? ==> (m.Some? <==> value in {"on", "off"})
    ensures p.DataRateParam? || p.Rx2DataRateParam? ==> (m.Some? <==> ByteArg(value) <= MaxDataRate)
    ensures p.TxPowerParam? ==> (m.Some? <==> ByteArg(value) <= MaxTxPower)
    ensures p.NetIdParam? || p.Rx2FreqParam? ==> m.Some?
  {
    match p
    case KeyParam(k) =>
      if Strlen(value) != 2 * KeyLen(k) then None else Some(WithKey(mac, k, HexToBytes(CBytes(value))))
    case ClassParam =>
      (match ParseClass(value) case None => None case Some(c) => Some(mac.(deviceClass := c)))
    case DataRateParam =>
      var dr := ByteArg(value);
      if dr > MaxDataRate then None else Some(mac.(dataRate := dr))
    case AdrParam =>
      (match ParseOnOff(value) case None => None case Some(b) => Some(mac.(adr := b)))
    case PublicParam =>
      (match ParseOnOff(value) case None => None case Some(b) => Some(mac.(publicNetwork := b)))
    case NetIdParam =>
      Some(mac.(netId := StrToUl(name)))
    case TxPowerParam =>
      var power := ByteArg(value);
      if power > MaxTxPower then None else Some(mac.(txPower := power))
    case Rx2FreqParam =>
      Some(mac.(rx2Freq := ToUint32(Atoi(value))))
    case Rx2DataRateParam =>
      var dr := ByteArg(value);
      if dr > MaxDataRate then None else Some(mac.(rx2DataRate := dr))
  }

  /** `loramac set <name> <value>`: a rejected value changes nothing. */
  function Set(mac: Mac, argv: seq<string>): (r: Reply)
    requires |argv| >= 2
    ensures r.action.None? && r.shown.None?
    ensures r.status == 0 <==> |argv| >= 4 && ParamNamed(argv[2]).Some?
                               && Assign(mac, ParamNamed(argv[2]).value, argv[2], argv[3]).Some?
    ensures r.status != 0 ==> r.status == 1 && r.mac == mac
  {
    if |argv| < 3 then Usage(mac)
    else match ParamNamed(argv[2])
      case None => Usage(mac)
      case Some(p) =>
        if |argv| < 4 then Usage(mac)
        else match Assign(mac, p, argv[2], argv[3])
          case None => Usage(mac)
          case Some(m) => Reply(0, m, None, None)
  }

  /** `loramac join <otaa|abp>`: only the four failure outcomes exit with 1. */
  function Join(mac: Mac, argv: seq<string>, outcome: JoinOutcome): (r: Reply)
    requires |argv| >= 2
    ensures r.mac == mac && r.shown.None?
    ensures r.action.Some? <==> |argv| >= 3 && argv[2] in {"otaa", "abp"}
    ensures r.action.Some? ==> r.action.value == JoinRequest(if argv[2] == "otaa" then Otaa else Abp)
    ensures r.status == 0 <==> r.action.Some? && outcome in {JoinSucceeded, JoinOther}
  {
    if |argv| < 3 then Usage(mac)
    else
      var joinType :=
        if argv[2] == "otaa" then Some(Otaa) else if argv[2] == "abp" then Some(Abp) else None;
      match joinType
      case None => Usage(mac)
      case Some(t) =>
        var status := match outcome
          case JoinDutyCycleRestricted => 1
          case JoinBusy => 1
          case JoinFailed => 1
          case AlreadyJoined => 1
          case JoinSucceeded => 0
          case JoinOther => 0;
        Reply(status, mac, None, Some(JoinRequest(t)))
  }

  /** The send outcomes reported as "Cannot send". */
  predicate SendFailed(outcome: SendOutcome) {
    outcome != SendOther
  }

  /** The receive outcomes reported as errors. */
  predicate RecvFailed(outcome: RecvOutcome) {
    outcome in {RecvDutyCycleRestricted, RecvBusy, RecvTxError}
  }

  function ParseTxMode(s: string): Option<TxMode> {
    if s == "cnf" then Some(Confirmed) else if s == "uncnf" then Some(Unconfirmed) else None
  }

  /** The mode and port `tx` would use, or None when an optional argument is rejected. */
  function TxOptions(argv: seq<string>): (o: Option<(TxMode, Uint8)>)
    requires |argv| >= 3
    ensures |argv| == 3 ==> o == Some((DefaultTxMode, DefaultTxPort))
    ensures o.Some? ==> 1 <= o.value.1 <= MaxTxPort
    ensures |argv| > 3 ==>
              (o.Some? <==> (ParseTxMode(argv[3]).Some? && (|argv| > 4 ==> 1 <= ByteArg(argv[4]) <= MaxTxPort)))
    ensures |argv| > 3 && o.Some? ==> o.value.0 == ParseTxMode(argv[3]).value
    ensures |argv| > 4 && o.Some? ==> o.value.1 == ByteArg(argv[4])
    ensures |argv| == 4 && o.Some? ==> o.value.1 == DefaultTxPort
  {
    if |argv| == 3 then Some((DefaultTxMode, DefaultTxPort))
    else match ParseTxMode(argv[3])
      case None => None
      case Some(mode) =>
        var port := if |argv| > 4 then ByteArg(argv[4]) else DefaultTxPort;
        if port == 0 || port > MaxTxPort then None else Some((mode, port))
  }

  /**
   * `loramac tx <payload> [<cnf|uncnf>] [port]`: mode and port are stored
   * before the send, so they stay set even when the send fails.
   */
  function Tx(mac: Mac, argv: seq<string>, radio: Radio): (r: Reply)
    requires |argv| >= 2
    ensures r.shown.None?
    ensures r.action.Some? <==> |argv| >= 3 && TxOptions(argv).Some?
    ensures r.action.None? ==> r.status == 1 && r.mac == mac
    ensures r.action.Some? ==>
              r.action.value == Transmit(Stations.ShellText(argv[2]))
              && r.mac == mac.(txMode := TxOptions(argv).value.0, txPort := TxOptions(argv).value.1)
              && (r.status == 0 <==> !SendFailed(radio.send) && !RecvFailed(radio.recv))
  {
    if |argv| < 3 then Usage(mac)
    else match TxOptions(argv)
      case None => Usage(mac)
      case Some((mode, port)) =>
        var m := mac.(txMode := mode, txPort := port);
        var status := if SendFailed(radio.send) || RecvFailed(radio.recv) then 1 else 0;
        Reply(status, m, None, Some(Transmit(Stations.ShellText(argv[2]))))
  }

  /** `link_check`, `save` and `erase` take no further argument. */
  function NoArgCommand(mac: Mac, argv: seq<string>, action: Action): (r: Reply)
    requires |argv| >= 2
    ensures r.mac == mac && r.shown.None?
    ensures r.status == 0 <==> |argv| == 2
    ensures r.action.Some? <==> |argv| == 2
    ensures r.action.Some? ==> r.action.value == action
  {
    if |argv| > 2 then Usage(mac) else Reply(0, mac, None, Some(action))
  }

  /**
   * `_cmd_loramac`. `eeprom` stands for the build flag `MODULE_PERIPH_EEPROM`
   * that compiles the `save` and `erase` subcommands in.
   */
  function Loramac(mac: Mac, argv: seq<string>, radio: Radio, eeprom: bool): (r: Reply)
    ensures |argv| < 2 ==> r == Usage(mac)
    ensures (|argv| >= 2 && argv[1] !in {"get", "set", "join", "tx", "link_check"}
             && (!eeprom || argv[1] !in {"save", "erase"})) ==> r == Usage(mac)
    ensures r.status in {0, 1}
    ensures r.status == 1 && r.action.None? ==> r.mac == mac
    ensures r.mac != mac ==> argv[1] in {"set", "tx"}
  {
    if |argv| < 2 then Usage(mac)
    else if argv[1] == "get" then Get(mac, argv)
    else if argv[1] == "set" then Set(mac, argv)
    else if argv[1] == "join" then Join(mac, argv, radio.join)
    else if argv[1] == "tx" then Tx(mac, argv, radio)
    else if argv[1] == "link_check" then NoArgCommand(mac, argv, LinkCheckRequest)
    else if eeprom && argv[1] == "save" then NoArgCommand(mac, argv, SaveConfig)
    else if eeprom && argv[1] == "erase" then NoArgCommand(mac, argv, EraseConfig)
    else Usage(mac)
  }

  /** Settings other than the keys leave every key as it was. */
  lemma AssignKeepsKeys(mac: Mac, p: Param, name: string, value: string)
    requires !p.KeyParam? && Assign(mac, p, name, value).Some?
    ensures forall k :: KeyOf(Assign(mac, p, name, value).value, k) == KeyOf(mac, k)
  {
    var m := Assign(mac, p, name, value).value;
    assert m.(devEui := mac.devEui, appEui := mac.appEui, appKey := mac.appKey,
              appSKey := mac.appSKey, nwkSKey := mac.nwkSKey, devAddr := mac.devAddr) == m;
    assert m.devEui == mac.devEui && m.appEui == mac.appEui && m.appKey == mac.appKey
           && m.appSKey == mac.appSKey && m.nwkSKey == mac.nwkSKey && m.devAddr == mac.devAddr;
  }

  /** A successful assignment keeps every key at its fixed length. */
  lemma AssignKeepsWellFormed(mac: Mac, p: Param, name: string, value: string)
    requires WellFormed(mac) && Assign(mac, p, name, value).Some?
    ensures WellFormed(Assign(mac, p, name, value).value)
  {
    var m := Assign(mac, p, name, value).value;
    if p.KeyParam? {
      assert |CBytes(value)| == 2 * KeyLen(p.key);
      assert m == WithKey(mac, p.key, HexToBytes(CBytes(value)));
      assert |HexToBytes(CBytes(value))| == KeyLen(p.key);
    } else {
      AssignKeepsKeys(mac, p, name, value);
    }
  }

  /** No command leaves a key at a length other than its own. */
  lemma LoramacKeepsWellFormed(mac: Mac, argv: seq<string>, radio: Radio, eeprom: bool)
    requires WellFormed(mac)
    ensures WellFormed(Loramac(mac, argv, radio, eeprom).mac)
  {
    var r := Loramac(mac, argv, radio, eeprom);
    if |argv| >= 4 && argv[1] == "set" && r.status == 0 {
      assert r == Set(mac, argv);
      var p := ParamNamed(argv[2]).value;
      assert r.mac == Assign(mac, p, argv[2], argv[3]).value;
      AssignKeepsWellFormed(mac, p, argv[2], argv[3]);
    } else if |argv| >= 2 && argv[1] == "set" {
      assert r.mac == mac;
    } else {
      forall k ensures KeyOf(r.mac, k) == KeyOf(mac, k) {
      }
    }
  }

  function SetArgs(p: Param, value: string): seq<string> {
    ["loramac", "set", ParamName(p), value]
  }

  function GetArgs(p: Param): seq<string> {
    ["loramac", "get", ParamName(p)]
  }

  /** `loramac set <name> <value>` applies the named setting's own rule. */
  lemma SetDispatch(mac: Mac, p: Param, value: string, radio: Radio, eeprom: bool)
    ensures var r := Loramac(mac, SetArgs(p, value), radio, eeprom);
            match Assign(mac, p, ParamName(p), value)
            case None => r == Usage(mac)
            case Some(m) => r.status == 0 && r.mac == m
  {
    var argv := SetArgs(p, value);
    ParamNamedIff(ParamName(p), p);
    assert Loramac(mac, argv, radio, eeprom) == Set(mac, argv);
  }

  /** `loramac get <name>` prints the named setting and changes nothing. */
  lemma GetDispatch(mac: Mac, p: Param, radio: Radio, eeprom: bool)
    ensures Loramac(mac, GetArgs(p), radio, eeprom) == Reply(0, mac, Some(Shown(mac, p)), None)
  {
    var argv := GetArgs(p);
    ParamNamedIff(ParamName(p), p);
    assert Loramac(mac, argv, radio, eeprom) == Get(mac, argv);
  }

  /**
   * Setting a key from hex text of the right length and reading it back
   * prints the same text in upper case; no other setting changes.
   */
  lemma SetKeyThenGet(mac: Mac, k: Key, hex: string, radio: Radio, eeprom: bool)
    requires |hex| == 2 * KeyLen(k) && IsHexText(hex)
    ensures var r := Loramac(mac, SetArgs(KeyParam(k), hex), radio, eeprom);
            r.status == 0
            && Loramac(r.mac, GetArgs(KeyParam(k)), radio, eeprom).shown == Some(UpperHex(hex))
            && forall k' :: k' != k ==> KeyOf(r.mac, k') == KeyOf(mac, k')
  {
    ParamNamedIff(ParamName(KeyParam(k)), KeyParam(k));
    HexTextIsAscii(hex);
    StrlenIsLength(hex);
    var r := Loramac(mac, SetArgs(KeyParam(k), hex), radio, eeprom);
    assert r.mac == WithKey(mac, k, HexToBytes(hex));
    BytesToHexOfHexToBytes(hex);
  }

  /** A key value of any other length in bytes is refused and nothing changes. */
  lemma SetKeyWrongLength(mac: Mac, k: Key, value: string, radio: Radio, eeprom: bool)
    requires Strlen(value) != 2 * KeyLen(k)
    ensures Loramac(mac, SetArgs(KeyParam(k), value), radio, eeprom) == Usage(mac)
  {
    ParamNamedIff(ParamName(KeyParam(k)), KeyParam(k));
  }

  /** The class and the on/off switches accept exactly the words `get` prints, and print them back. */
  lemma SetWordThenGet(mac: Mac, p: Param, w: string, radio: Radio, eeprom: bool)
    requires p in {ClassParam, AdrParam, PublicParam}
    ensures var r := Loramac(mac, SetArgs(p, w), radio, eeprom);
            (r.status == 0 <==> (if p == ClassParam then w in {"A", "B", "C"} else w in {"on", "off"}))
            && (r.status == 0 ==> Loramac(r.mac, GetArgs(p), radio, eeprom).shown == Some(w))
            && (r.status == 1 ==> r.mac == mac)
  {
    ParamNamedIff(ParamName(p), p);
  }

  /**
   * Index settings read back the decimal text they were given when it names
   * an accepted index; the frequency accepts any 32-bit value.
   */
  lemma SetNumberThenGet(mac: Mac, p: Param, n: nat, radio: Radio, eeprom: bool)
    requires (p in {DataRateParam, Rx2DataRateParam, TxPowerParam} && n <= 15)
             || (p == Rx2FreqParam && n < 0x1_0000_0000)
    ensures var r := Loramac(mac, SetArgs(p, Decimal(n)), radio, eeprom);
            r.status == 0 && Loramac(r.mac, GetArgs(p), radio, eeprom).shown == Some(Decimal(n))
  {
    AtoiReadsDecimal(n);
    var m := Assign(mac, p, ParamName(p), Decimal(n));
    assert m.Some?;
    SetDispatch(mac, p, Decimal(n), radio, eeprom);
    GetDispatch(m.value, p, radio, eeprom);
  }

  /** `netid` is parsed from the text "netid" itself: the network id becomes 0 whatever is given. */
  lemma SetNetIdIgnoresValue(mac: Mac, value: string, radio: Radio, eeprom: bool)
    ensures var r := Loramac(mac, SetArgs(NetIdParam, value), radio, eeprom);
            r.status == 0 && r.mac == mac.(netId := 0)
  {
    var name := ParamName(NetIdParam);
    assert name == "netid";
    StrToUlOfWord(name);
    assert Assign(mac, NetIdParam, name, value) == Some(mac.(netId := 0));
    SetDispatch(mac, NetIdParam, value, radio, eeprom);
  }

  /** The index is reduced to a byte before the bound check: "271" stores 15. */
  lemma SetDataRateWrapsAround(mac: Mac, radio: Radio, eeprom: bool)
    ensures Loramac(mac, SetArgs(DataRateParam, "271"), radio, eeprom).mac == mac.(dataRate := 15)
  {
    ByteArgExamples();
    assert Assign(mac, DataRateParam, "dr", "271") == Some(mac.(dataRate := 15));
    SetDispatch(mac, DataRateParam, "271", radio, eeprom);
  }

  /** An index of 16 is refused and nothing changes. */
  lemma SetDataRateBound(mac: Mac, radio: Radio, eeprom: bool)
    ensures Loramac(mac, SetArgs(DataRateParam, "16"), radio, eeprom) == Usage(mac)
  {
    ByteArgExamples();
    assert Assign(mac, DataRateParam, "dr", "16") == None;
    SetDispatch(mac, DataRateParam, "16", radio, eeprom);
  }

  /** The byte values of the decimal texts the examples use. */
  lemma ByteArgExamples()
    ensures ByteArg("271") == 15 && ByteArg("16") == 16 && ByteArg("257") == 1
  {
    DecimalTexts();
    AtoiReadsDecimal(271);
    AtoiReadsDecimal(16);
    AtoiReadsDecimal(257);
  }

  /** The port is reduced to a byte before the range check: "257" sends on port 1. */
  lemma TxPortWrapsAround(mac: Mac, payload: string, radio: Radio, eeprom: bool)
    ensures Loramac(mac, ["loramac", "tx", payload, "uncnf", "257"], radio, eeprom).mac
            == mac.(txMode := Unconfirmed, txPort := 1)
  {
    var argv := ["loramac", "tx", payload, "uncnf", "257"];
    ByteArgExamples();
    assert ByteArg(argv[4]) == 1;
    assert TxOptions(argv) == Some((Unconfirmed, 1));
    assert Loramac(mac, argv, radio, eeprom) == Tx(mac, argv, radio);
  }

  /** The decimal texts the examples above use. */
  lemma DecimalTexts()
    ensures Decimal(16) == "16" && Decimal(271) == "271" && Decimal(257) == "257"
  {
    assert Decimal(1) == "1" && Decimal(2) == "2" && Decimal(25) == "25" && Decimal(27) == "27";
  }

  /** A bare `tx` sends confirmed on the default port. */
  lemma TxDefaults(mac: Mac, payload: string, radio: Radio, eeprom: bool)
    ensures var r := Loramac(mac, ["loramac", "tx", payload], radio, eeprom);
            r.action == Some(Transmit(Stations.ShellText(payload)))
            && r.mac == mac.(txMode := Confirmed, txPort := 2)
  {
  }

  /**
   * `sendPayload` (LoRaWAN build): refused while no sensor is selected;
   * otherwise the selected reading is sent confirmed on the default port.
   */
  function SendPayload(sel: Stations.Selection, mac: Mac, send: SendOutcome): (r: Reply)
    ensures !sel.selected ==> r == Usage(mac)
    ensures sel.selected ==>
              r.action == Some(Transmit(Stations.SensorReading(sel.current)))
              && r.mac == mac.(txMode := DefaultTxMode, txPort := DefaultTxPort)
              && (r.status == 0 <==> !SendFailed(send))
  {
    if !sel.selected then Usage(mac)
    else
      var m := mac.(txMode := DefaultTxMode, txPort := DefaultTxPort);
      Reply(if SendFailed(send) then 1 else 0, m, None, Some(Transmit(Stations.SensorReading(sel.current))))
  }

  /** Nothing is sent before `initSensor` has selected a sensor, and after a selection the reading sent is the selected one. */
  lemma SendPayloadNeedsSelection(table: seq<Stations.WeatherStation>, argv: seq<string>, mac: Mac, send: SendOutcome)
    ensures SendPayload(Stations.Unselected, mac, send).status == 1
    ensures var (code, sel) := Stations.InitSensor(table, Stations.Unselected, argv);
            (SendPayload(sel, mac, send).action.Some? <==> code == 0 && |argv| >= 3)
            && (SendPayload(sel, mac, send).action.Some? ==>
                  SendPayload(sel, mac, send).action.value.uplink.current.value.sensor.sensorName == argv[2])
  {
  }
}
