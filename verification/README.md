# Weather-station telemetry and activity recognition, modelled in Dafny

The repository is an IoT course project with four logic pieces. This model covers each one.

- **The web dashboard's log wrapper** (`wrapperLogData.js`). It reshapes the backend's
  station → sensor → log snapshot into two grouped views:
  - a view by station name, holding the logs of the current day;
  - a view by sensor type, holding the logs of the current hour.

  Each group is sorted newest first, and each value is printed as the first five
  characters of the number followed by a unit.
- **The phone's activity recogniser** (`mobileApp/public/main.js`). Accelerometer
  readings are reduced to magnitudes and buffered in pairs. The difference of a pair is
  classified as still, walking or running, and the result is uploaded.
- **The LoRaMAC shell of the RIOT node** (`IOT-Assignment-3/main.c`). It covers:
  - `loramac get/set/join/tx/link_check/save/erase` over the MAC settings;
  - the simulated weather-station table;
  - `initSensor`, which selects a sensor;
  - `sendPayload`, which transmits the selected sensor's reading.
- **The MQTT-SN shell of the RIOT node** (`IOT-Assignment-2/main.c`). It covers:
  - `con`, `discon`, `pub`, `sub`, `unsub` and `will` over a 16-slot subscription table;
  - the same station table and `initSensor`;
  - `sendPayload`, which publishes the reading.

Modules:

- `Wrappers`: `Option` and `Result`.
- `CText`: the C library pieces the shells rely on:
  - `atoi` and `strtoul(…, 0)`;
  - conversion to `uint8_t`, `uint16_t` and `uint32_t`;
  - RIOT's hex formatting of keys.
- `LogRows`: the formatted record and the newest-first sort.
- `LogView`: the wrapper itself.
- `Activity`: the recogniser.
- `Stations`: the shared station table and `initSensor`.
- `LoRaMacShell` and `MqttSnShell`: the two shells.

Everything the code reads from outside is a parameter of the model:

- **The clock.** moment's whole-day and whole-hour differences from now.
- **Other library calls.**
  - moment's date text;
  - `Number.prototype.toString`;
  - `Math.sqrt`;
  - the IPv6 parser.
- **The network stacks' answers.** The outcomes of the semtech-loramac and emCute calls.

A shell command is a function from the state it touches and its `argv` to a `Reply`. The reply holds:

- the exit status;
- the state afterwards;
- the text `get` prints;
- the requests handed to the stack.

Arguments are Dafny strings of Unicode characters. Where the C code measures an argument with `strlen`, the model measures its UTF-8 encoding (`CText.Strlen`), and `fmt_hex_bytes` reads those bytes (`CText.CBytes`). The two counts agree exactly on ASCII text.

Where the design description and the code differ, the model follows the code:

- **Sensor-type view.** Groups are keyed by each sensor's `type` field. A group is created, or emptied again, only by a sensor that has no `sensorType` field. A sensor whose group does not exist yet makes the whole view fail with a TypeError, because the code pushes onto `undefined`. The design description instead expects one group per encountered type.
- **Malformed snapshot.** A raw value that is present but has no `data` object raises a TypeError. It does not contribute nothing.
- **Time windows.** The day and hour windows are whatever moment's `diff` truncates to 0, not calendar days. The model takes both differences as given functions.

## Model

| member | source | states |
|---|---|---|
| LogView.IsJsonObjectEmpty | Presentation/webApp/Wrapper/wrapperLogData.js:151-157 | The emptiness test both entry points apply to the raw value and to `data.data`: true for null, undefined and objects without own keys; `LogView.StationsOf` states what each outcome leads to |
| LogView.StationsOf | Presentation/webApp/Wrapper/wrapperLogData.js:27-31 | A null, undefined or key-less raw value, or an empty `data.data`, yields no stations; a non-empty raw value without `data` is a TypeError; otherwise the stations are those of `data.data` |
| LogView.ByStation | Presentation/webApp/Wrapper/wrapperLogData.js:24-69 | The station view fails exactly when reading the stations fails, is empty for an empty snapshot, and has exactly one key per station name |
| LogView.StationViewKeys | Presentation/webApp/Wrapper/wrapperLogData.js:36-38 | Every station creates the group of its name even when none of its logs qualifies, and no other key appears |
| LogView.StationViewGroups | Presentation/webApp/Wrapper/wrapperLogData.js:33-66 | Each group of the station view is newest first and is a permutation of the reference list of all day records of all stations sharing that name |
| LogView.SensorPassesCollects | Presentation/webApp/Wrapper/wrapperLogData.js:40-65 | The per-sensor push-then-sort loop adds exactly the station's day records to the group and keeps it newest first |
| LogView.WindowRows | Presentation/webApp/Wrapper/wrapperLogData.js:43-63 | The records kept for a sensor are exactly the formatted logs whose window difference is 0, each stamped with its station's name |
| LogView.WindowRowsCount | Presentation/webApp/Wrapper/wrapperLogData.js:57-62 | One record is pushed per log in the window: the number of records equals the number of log positions whose difference is 0 |
| LogView.StationRowsOfAbsentKey | Presentation/webApp/Wrapper/wrapperLogData.js:36-62 | A key that no station name gives collects no record |
| LogView.StationViewRowsQualify | Presentation/webApp/Wrapper/wrapperLogData.js:57-62 | Soundness: every record in a station group is from the current day and belongs to a station whose name is the group key |
| LogView.StationViewListsLog | Presentation/webApp/Wrapper/wrapperLogData.js:43-62 | Completeness: every log of the current day appears, formatted, in the group of its station's name |
| LogView.BySensor | Presentation/webApp/Wrapper/wrapperLogData.js:75-122 | The sensor view fails when reading the stations fails, and otherwise succeeds exactly when every sensor with a `sensorType` field finds its group already created; on success its keys are the types of the resetting sensors |
| LogView.SensorViewGroups | Presentation/webApp/Wrapper/wrapperLogData.js:84-118 | Success of the sensor loop is equivalent to all groups being created in time; each group is then newest first and a permutation of the hour records since the group's last reset |
| LogView.SensorViewRowsQualify | Presentation/webApp/Wrapper/wrapperLogData.js:107-113 | Soundness: every record in the sensor view is from the current hour |
| LogView.ResetDiscardsEarlierRows | Presentation/webApp/Wrapper/wrapperLogData.js:90-92 | A sensor without `sensorType` leaves its group holding only its own hour records: whatever earlier sensors of that type put there is gone |
| LogView.FirstFive | Presentation/webApp/Wrapper/wrapperLogData.js:131 | `slice(0, 5)` is a prefix of at most five characters, all of the text when shorter |
| LogView.FormatValue | Presentation/webApp/Wrapper/wrapperLogData.js:129-141 | A displayed value is at most 13 characters, ends in a space and the unit of the sensor type, and what precedes them is the first five characters of the number's text |
| LogView.FormatValueSplits | Presentation/webApp/Wrapper/wrapperLogData.js:129-141 | Round trip: a displayed value splits back into exactly the five-character prefix of the number's text and the unit of the sensor type |
| LogView.SplitUnit | Presentation/webApp/Wrapper/wrapperLogData.js:130-140 | No unit can be mistaken for another when read from the end of a displayed value |
| LogView.FormatValueTruncates | Presentation/webApp/Wrapper/wrapperLogData.js:131 | Readings whose texts share their first five characters display identically (truncation, not rounding) |
| LogView.NegativeTemperatureShown | Presentation/webApp/Wrapper/wrapperLogData.js:130-131 | The sign takes one of the five characters: -23.456789 displays as "-23.4 C" |
| LogRows.SortByDate | Presentation/webApp/Wrapper/wrapperLogData.js:143-145 | Sorting with `b.timestamp - a.timestamp` yields a newest-first permutation of the records |
| LogRows.InsertKeepsOrder | Presentation/webApp/Wrapper/wrapperLogData.js:143-145 | Inserting one record into a newest-first list keeps it newest first |
| Activity.Measure | Presentation/mobileApp/public/main.js:181-194 | The buffered reading keeps the three axes and has a non-negative magnitude |
| Activity.Delta | Presentation/mobileApp/public/main.js:140-141 | The signal is non-negative and is the difference of the two magnitudes in one order or the other |
| Activity.DeltaSymmetric | Presentation/mobileApp/public/main.js:140-141 | The signal does not depend on which reading came first |
| Activity.ClassifyBands | Presentation/mobileApp/public/main.js:147-154 | Still exactly below 2, walking exactly from 2 up to but excluding 4, running exactly from 4 up |
| Activity.ClassifyMonotone | Presentation/mobileApp/public/main.js:147-154 | A larger difference never yields a calmer label |
| Activity.LabelTextRoundTrip | Presentation/mobileApp/public/main.js:147-154 | Each label's text reads back as that label and is never the "no activity detected." placeholder |
| Activity.Evaluate | Presentation/mobileApp/public/main.js:133-166 | Fewer than two buffered readings change nothing; otherwise the buffer is emptied and one payload is uploaded with all buffered readings, the second reading's axes and the label of their difference |
| Activity.HandleReading | Presentation/mobileApp/public/main.js:105-119 | The first reading of a pair is only buffered; the second empties the buffer and uploads both, carrying the new reading's axes |
| Activity.ReplayPairs | Presentation/mobileApp/public/main.js:105-166 | Over any stream, the buffer holds the unpaired last reading if the count is odd; there are exactly n/2 uploads, upload k being built from readings 2k and 2k+1, carrying the second one's axes and the label of their magnitude difference |
| CText.ToUint8 | Presentation/riotOS/IOT-Assignment-3/main.c:284-292 | Storing into a `uint8_t` keeps the value modulo 256 and leaves in-range values unchanged |
| CText.ToUint16 | Presentation/riotOS/IOT-Assignment-2/main.c:134-136 | Storing into a `uint16_t` keeps the value modulo 65536 and leaves in-range values unchanged |
| CText.ToUint32 | Presentation/riotOS/IOT-Assignment-3/main.c:348-355 | Storing into a `uint32_t` keeps the value modulo 2^32 and leaves in-range values unchanged |
| CText.SkipSpaces | Presentation/riotOS/IOT-Assignment-3/main.c:284-292 | The leading white space `atoi` skips: a suffix whose dropped part is all spaces and whose head is not a space |
| CText.AtoiReadsDecimal | Presentation/riotOS/IOT-Assignment-2/main.c:101-109 | `atoi` reads back every decimal text, with or without a minus sign |
| CText.AtoiOfWord | Presentation/riotOS/IOT-Assignment-2/main.c:101-109 | Text starting with no space, sign or digit reads as 0 |
| CText.StrToUlOfWord | Presentation/riotOS/IOT-Assignment-3/main.c:329-335 | `strtoul` of text starting with no space, sign or digit is 0 |
| CText.HexToBytesOfBytesToHex | Presentation/riotOS/IOT-Assignment-3/main.c:110-133 | Printing key bytes as hex and parsing them back gives the same bytes |
| CText.BytesToHexOfHexToBytes | Presentation/riotOS/IOT-Assignment-3/main.c:206-258 | Parsing a hex key and printing it back gives the key in upper case |
| CText.StrlenIsLength | Presentation/riotOS/IOT-Assignment-2/main.c:229 | `strlen` of an argument counts its UTF-8 bytes: it equals the character count exactly when the text is ASCII, and on ASCII text the bytes C scans are the characters themselves |
| Stations.FindStation | Presentation/riotOS/IOT-Assignment-3/main.c:780-783 | The index found is the first station with that name; none is found only when no station has it |
| Stations.FindSensor | Presentation/riotOS/IOT-Assignment-3/main.c:787-789 | The index found is the first sensor with that name; none is found only when no sensor has it |
| Stations.InitSensor | Presentation/riotOS/IOT-Assignment-3/main.c:764-821 | Fewer than two arguments exit 0 with nothing changed; the command succeeds exactly when station and sensor are both found, and then selects that sensor of that station with the generator its type text picks; every failure exits with 1 and leaves the selection as it was |
| Stations.SelectionIsSticky | Presentation/riotOS/IOT-Assignment-2/main.c:555-612 | No `initSensor` call clears the selected flag once set |
| Stations.TableGenerators | Presentation/riotOS/IOT-Assignment-3/main.c:604-663 | In both tables the misspelled and capitalised type texts match no compared text: every sensor but humidity and rain draws a wind intensity |
| Stations.NoTemperatureDrawn | Presentation/riotOS/IOT-Assignment-3/main.c:794-804 | No sensor of either table is ever given the temperature or wind-direction generator |
| Stations.InitSensorFindsListed | Presentation/riotOS/IOT-Assignment-2/main.c:570-598 | Naming a listed station and one of its listed sensors always selects a sensor |
| Stations.PrintPayloadAfterInit | Presentation/riotOS/IOT-Assignment-3/main.c:696-758 | From start-up, `printPay` builds a payload exactly when an earlier `initSensor` named a listed station and one of its listed sensors, and never before any selection |
| LoRaMacShell.Loramac | Presentation/riotOS/IOT-Assignment-3/main.c:99-533 | Missing or unknown subcommands print usage and change nothing; the status is always 0 or 1; only `set` and `tx` change the settings |
| LoRaMacShell.Get | Presentation/riotOS/IOT-Assignment-3/main.c:106-198 | `get` only reads: it succeeds exactly for the fourteen setting names and then prints that setting |
| LoRaMacShell.ParamNamedIff | Presentation/riotOS/IOT-Assignment-3/main.c:200-371 | The name comparison chain recognises each of the fourteen names as its own setting and nothing else |
| LoRaMacShell.Assign | Presentation/riotOS/IOT-Assignment-3/main.c:206-367 | Each setting's acceptance rule: a key's text needs a `strlen` (its UTF-8 byte count) of exactly twice the key's size in bytes; class needs A, B or C; adr and public need on or off; data rates and power need an index of at most 15 after byte conversion; netid and rx2 frequency take anything |
| LoRaMacShell.Set | Presentation/riotOS/IOT-Assignment-3/main.c:200-371 | `set` succeeds exactly when the name is known and the value is accepted; otherwise it exits 1 with nothing changed |
| LoRaMacShell.WithKey | Presentation/riotOS/IOT-Assignment-3/main.c:206-258 | Storing one key changes that key only |
| LoRaMacShell.WordsRoundTrip | Presentation/riotOS/IOT-Assignment-3/main.c:260-328 | The class and on/off values are accepted exactly as `get` prints them |
| LoRaMacShell.AssignKeepsKeys | Presentation/riotOS/IOT-Assignment-3/main.c:260-367 | Settings other than keys leave every key as it was |
| LoRaMacShell.AssignKeepsWellFormed | Presentation/riotOS/IOT-Assignment-3/main.c:206-258 | A successful assignment keeps every key at its fixed length |
| LoRaMacShell.LoramacKeepsWellFormed | Presentation/riotOS/IOT-Assignment-3/main.c:99-533 | No command leaves a key at a length other than its own |
| LoRaMacShell.SetDispatch | Presentation/riotOS/IOT-Assignment-3/main.c:200-371 | `loramac set <name> <value>` applies exactly the named setting's acceptance rule |
| LoRaMacShell.GetDispatch | Presentation/riotOS/IOT-Assignment-3/main.c:106-198 | `loramac get <name>` prints the named setting and changes nothing |
| LoRaMacShell.SetKeyThenGet | Presentation/riotOS/IOT-Assignment-3/main.c:206-258 | Setting a key from hex text of the right length succeeds, `get` then prints the same text in upper case, and the other keys are unchanged |
| LoRaMacShell.SetKeyWrongLength | Presentation/riotOS/IOT-Assignment-3/main.c:207-209 | A key value whose `strlen` in UTF-8 bytes is not twice the key size prints usage and changes nothing, however many characters it has |
| LoRaMacShell.SetWordThenGet | Presentation/riotOS/IOT-Assignment-3/main.c:260-328 | Class, adr and public accept exactly the printed words and `get` prints the word back; a refused word changes nothing |
| LoRaMacShell.SetNumberThenGet | Presentation/riotOS/IOT-Assignment-3/main.c:281-367 | Data rates and power set from an accepted decimal index, and the rx2 frequency from any 32-bit decimal, read back as the same text |
| LoRaMacShell.SetNetIdIgnoresValue | Presentation/riotOS/IOT-Assignment-3/main.c:329-335 | `set netid` parses the word "netid" instead of the value, so the network id always becomes 0 |
| LoRaMacShell.SetDataRateWrapsAround | Presentation/riotOS/IOT-Assignment-3/main.c:281-292 | The index is reduced to a byte before the bound check: "271" stores data rate 15 |
| LoRaMacShell.SetDataRateBound | Presentation/riotOS/IOT-Assignment-3/main.c:286-290 | Data rate 16 is refused and nothing changes |
| LoRaMacShell.Join | Presentation/riotOS/IOT-Assignment-3/main.c:373-411 | A join is requested exactly for otaa or abp, of that type, and succeeds exactly when the stack reports success or an outcome the shell does not test |
| LoRaMacShell.TxOptions | Presentation/riotOS/IOT-Assignment-3/main.c:418-440 | The mode defaults to confirmed and the port to 2; given ones are used only when the mode word is known and the byte-converted port is 1 to 223 |
| LoRaMacShell.Tx | Presentation/riotOS/IOT-Assignment-3/main.c:412-499 | `tx` transmits the text exactly when its options are accepted, records the mode and port it used, and exits 0 exactly when neither sending nor receiving failed |
| LoRaMacShell.TxPortWrapsAround | Presentation/riotOS/IOT-Assignment-3/main.c:430-438 | Port "257" is reduced to a byte and sends on port 1 |
| LoRaMacShell.TxDefaults | Presentation/riotOS/IOT-Assignment-3/main.c:418-419 | A bare `tx` sends the text confirmed on port 2 |
| LoRaMacShell.NoArgCommand | Presentation/riotOS/IOT-Assignment-3/main.c:500-526 | `link_check`, `save` and `erase` request their action exactly when given no further argument |
| LoRaMacShell.SendPayload | Presentation/riotOS/IOT-Assignment-3/main.c:828-929 | Without a selection it prints usage and sends nothing; with one it sends the selected reading confirmed on port 2 and exits 0 exactly when sending did not fail |
| LoRaMacShell.SendPayloadNeedsSelection | Presentation/riotOS/IOT-Assignment-3/main.c:833-836 | Nothing is sent before `initSensor` selected a sensor; after a successful selection the reading sent is that of the selected sensor |
| MqttSnShell.GetQos | Presentation/riotOS/IOT-Assignment-2/main.c:101-109 | Level 1 exactly when `atoi` reads 1, level 2 exactly when it reads 2, level 0 for every other number |
| MqttSnShell.GetQosOfDecimal | Presentation/riotOS/IOT-Assignment-2/main.c:101-109 | Decimal 1 and 2 give those levels; every other decimal and every negative number gives level 0 |
| MqttSnShell.GetQosOfWord | Presentation/riotOS/IOT-Assignment-2/main.c:101-109 | A word such as "high" gives level 0 |
| MqttSnShell.FirstFree | Presentation/riotOS/IOT-Assignment-2/main.c:238-239 | The slot chosen is the lowest one whose topic id is 0; none only when all are taken |
| MqttSnShell.FirstNamed | Presentation/riotOS/IOT-Assignment-2/main.c:269-271 | The slot chosen is the lowest one with that topic name; none only when no slot has it |
| MqttSnShell.CmdSub | Presentation/riotOS/IOT-Assignment-2/main.c:220-255 | Missing topic, a topic over 64 bytes by `strlen` of its UTF-8 text, or a full table print usage before any request; otherwise a Subscribe is always requested, whether or not the gateway grants it, and the lowest free slot takes the name and the callback; the topic id is stored only on success, the other slots are unchanged, the status is 0 exactly when the gateway granted the subscription, and 1 otherwise |
| MqttSnShell.CmdUnsub | Presentation/riotOS/IOT-Assignment-2/main.c:261-285 | The command exits 0 exactly when a slot has the topic name; the lowest such slot is zeroed only if the gateway accepted, and no other slot changes |
| MqttSnShell.InUseUpdate | Presentation/riotOS/IOT-Assignment-2/main.c:45 | Replacing one slot changes the in-use count by exactly that slot's contribution |
| MqttSnShell.SlotsInUse | Presentation/riotOS/IOT-Assignment-2/main.c:220-285 | A subscription takes at most one more slot and an unsubscription frees at most one |
| MqttSnShell.SubThenUnsub | Presentation/riotOS/IOT-Assignment-2/main.c:220-285 | Subscribing to an unused topic and unsubscribing again zeroes exactly the slot taken and leaves every other slot as before |
| MqttSnShell.RefusedSubKeepsName | Presentation/riotOS/IOT-Assignment-2/main.c:244-271 | A refused subscription still sends the request and leaves the topic's name in the slot it took, so a later `unsub` of that topic finds that slot and succeeds |
| MqttSnShell.SubThenUnsubFromEmpty | Presentation/riotOS/IOT-Assignment-2/main.c:755 | From the start-up table the round trip restores the table |
| MqttSnShell.SubAcceptsMaxLength | Presentation/riotOS/IOT-Assignment-2/main.c:229-232 | A topic of exactly 64 UTF-8 bytes passes the length check |
| MqttSnShell.SubWhenFull | Presentation/riotOS/IOT-Assignment-2/main.c:238-243 | With every slot in use `sub` refuses before any request |
| MqttSnShell.CmdCon | Presentation/riotOS/IOT-Assignment-2/main.c:115-151 | No address or an unparsable one prints usage; otherwise one connect is always requested, even when it fails, with the given or default port 1883 and the will pair when both are given; the status is 0 exactly when the connection succeeds, and 1 otherwise |
| MqttSnShell.ConPort | Presentation/riotOS/IOT-Assignment-2/main.c:134-136 | A decimal port is used modulo 65536 |
| MqttSnShell.DisconKeepsNode | Presentation/riotOS/IOT-Assignment-2/main.c:157-173 | `discon` makes one disconnect request, changes neither the subscription table nor the selection, and exits 0 exactly when the library reports success |
| MqttSnShell.RegisterAndPublish | Presentation/riotOS/IOT-Assignment-2/main.c:196-213 | The topic is always registered, publishing happens only after a successful registration, and the status is 0 exactly when both succeed |
| MqttSnShell.CmdPub | Presentation/riotOS/IOT-Assignment-2/main.c:179-214 | `pub` needs topic and data; it registers, then publishes the data at the optional fourth argument's level, and exits 0 exactly when both steps succeed |
| MqttSnShell.CmdWill | Presentation/riotOS/IOT-Assignment-2/main.c:287-305 | The will message is updated only after the will topic was, and the status is 0 exactly when both updates succeed |
| MqttSnShell.WillMatchesCon | Presentation/riotOS/IOT-Assignment-2/main.c:137-141 | `will <topic> <message>` leaves the gateway the same will pair as `con <addr> <port> <topic> <message>`; a command installs the pair exactly when it reports success, so a failed `emcute_con`, topic update or message update installs none |
| MqttSnShell.Run | Presentation/riotOS/IOT-Assignment-2/main.c:731-743 | Exactly the ten names of the command table run a command, and every command exits with 0 or 1; the `sendPayload` entry is the corrected `MqttSnShell.SendPayloadFixed` (see Findings), since the command as written has no defined result for `sendPayload <topic> <QoS>` |
| MqttSnShell.RunChangesOwnState | Presentation/riotOS/IOT-Assignment-2/main.c:731-743 | Only `sub` and `unsub` change the subscription table, each by at most one slot in use, and only `initSensor` changes the sensor selection |
| MqttSnShell.SendPayload | Presentation/riotOS/IOT-Assignment-2/main.c:619-720 | As written: without a selection or topic it prints usage; otherwise it registers and publishes the selected reading at the level of the fourth argument |
| MqttSnShell.SendPayloadReadsWrongArgument | Presentation/riotOS/IOT-Assignment-2/main.c:682-684 | `sendPayload t 2` reads past the end of `argv`, and `sendPayload t 2 1` publishes at level 1 where the corrected command uses level 2 |
| MqttSnShell.SendPayloadFixed | Presentation/riotOS/IOT-Assignment-2/main.c:676-711 | Corrected: it registers and publishes the selected reading and exits 0 exactly when selected, given a topic, and both steps succeed |
| MqttSnShell.SendPayloadFixedMatchesPub | Presentation/riotOS/IOT-Assignment-2/main.c:190-192 | The corrected command publishes at exactly the level `pub` would use for the same QoS argument, with the same status |

## Left out

- Network I/O is left out: the HTTP uploads, the backend fetch and the radio and MQTT-SN transports. A stack call that returns a result is represented by that result, given as a parameter. The `void` setters `semtech_loramac_set_*` are modelled as storing their argument unchanged.
- The random readings are left out: `get_Temperature`, `get_Humidity`, `get_Rain`, `get_WindIntensity`, `get_WindDirection` and `randstring` draw from a random source. A selection records only which generator would be used.
- The payload text built with `sprintf`/`strcat` in `buildPayload` and both `sendPayload` commands is not modelled. A sent reading is represented by the selected sensor and its generator.
- The values `readEnv` prints are left out, because they are random. The command table models `readEnv` as exiting 0 with nothing changed.
- moment's date text and day and hour differences are left out, because they depend on the date library and the clock. They are injected as functions, with "now" fixed for the whole pass.
- `Number.prototype.toString` and `Math.sqrt` are left out, because they are floating-point library calls. They are injected; the square root only promises a non-negative result.
- Floating point is modelled as `real`, with no NaN, infinities or rounding.
- The recogniser does not check for missing coordinates, so `undefined` axes would give NaN. The model takes readings with all three axes.
- Object key order is modelled as a sequence, so JavaScript's integer-like keys listed first and prototype properties are not modelled. A station named "constructor" finds `response[name]` already defined through the prototype, so the code pushes onto a function and throws a TypeError where `LogView.ByStation` succeeds; a sensor type "toString" does the same in the sensor view.
- A log without a `value` field makes `formatValue` throw at `value.toString()`. `LogView.Log` always carries a value, as the backend's writer always sets one.
- MqttSnShell.SendPayload: requires that the call is not `sendPayload <topic> <QoS>` after a selection. In that case the code passes the NULL that ends `argv` to `atoi`, and C leaves the behaviour undefined. The Findings row and `MqttSnShell.SendPayloadFixed` cover it.
- `LogRows.SortByDate`: the contract states newest-first order and permutation, not the stability of ES2019 `Array.prototype.sort`. The insertion it uses is stable by construction.
- LoRaMacShell.SetNumberThenGet: holds only under the stored-unchanged model of `semtech_loramac_set_dr`, `_set_rx2_dr`, `_set_tx_power` and `_set_rx2_freq`. Those setters are not part of this model, and the stack may keep the old value when a region refuses a data rate or power. The rx2 frequency case for values of 2^31 and above also rests on the unbounded `atoi` below.
- LoRaMacShell.SetDataRateWrapsAround: "271" reaching the stack as 15 is the shell's own truncation. That the stack then stores 15 rests on the same setter model.
- LoRaMacShell.SetWordThenGet: the class, adr and public-network setters are likewise assumed to store what they are given.
- `atoi` beyond the range of `int` is undefined behaviour in C; the model keeps the mathematical value.
- `CText.StrToUl` has no contract of its own: the code only applies it to the word "netid", which `CText.StrToUlOfWord` covers.
- `fmt_hex_bytes` leaves non-hex characters to the library; the model reads them as 0, and that includes every byte of a non-ASCII character. `set` does not check the characters of a key, only its length.
- The `Invalid` class text of `get class` is left out: the stack only stores the three classes the shell can set.
- The link-check reply and received downlink data are only printed, so printing them is not modelled.
- The `topics` buffer in `cmd_sub` has 64 bytes, so copying a 64-byte topic with its terminator overflows it. The model stores topic names as strings, so this is not visible. `MqttSnShell.SubAcceptsMaxLength` shows that such a topic is accepted.
- `on_pub` is left out: it prints incoming publications.
- The emCute thread and the shell loop are left out.
- The EEPROM commands `save` and `erase` are modelled only as requests; whether they exist is a parameter (`eeprom`).

## Findings

| source | as written | input that shows it | evidently intended | confidence | as-written member | corrected member |
|---|---|---|---|---|---|---|
| Presentation/riotOS/IOT-Assignment-2/main.c:682-684 | with three or more arguments the QoS is read from `argv[3]` | `sendPayload t 2` reads the NULL that ends `argv`; `sendPayload t 2 1` publishes at level 1 | the QoS is read from `argv[2]`, as the usage line `sendPayload <topic> [QoS]` and `cmd_sub` do | high, not executed | MqttSnShell.SendPayloadReadsWrongArgument | MqttSnShell.SendPayloadFixed |
