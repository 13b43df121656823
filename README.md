# bpart-host in Dafny

bpart-host is the gateway software of the TECO bPart sensor nodes. A Linux host
talks to each bPart (or a TI SensorTag) over Bluetooth Low Energy through the
`gatttool` command-line helper. It switches the node's sensors on and collects
their temperature, light, humidity and acceleration readings. Each complete set
of readings is uploaded to the CUMULUS collector, keyed by the device's MAC
address. Two variants exist:

- **The asynchronous gateway** (`python/bpart_async`):
  - `Peripheral` (btle.py) drives `gatttool` in interactive mode. It discovers
    services and characteristics, writes the notification handles, and runs a
    connect / initialize / listen loop.
  - `BPart` (bpart.py) and `SensorTag` (sensortag.py) decode the notifications.
  - `BPart` in btle_alt.py is a stand-alone copy of both halves, with
    hard-coded handles.
- **The synchronous gateway** (`python/bpart_sync`): a connector thread builds
  a `BPart` for every configured address. A gateway thread reads the four
  sensors of every connected device in turn and uploads them. Devices that can
  no longer be reached go back to the connector.

The model has one module per source file, plus modules for the library
behaviour the code relies on:

| module | file | what it holds |
|---|---|---|
| `Outcomes` | outcomes.dfy | `Option`, `Result`, `Outcome` and the exception kinds |
| `Hex` | hex.dfy | `binascii` hex, the `%X` and `{0:0>4x}` formats, `int(s, 16)` |
| `Text` | text.dfy | `split`, `replace`, `upper`, `splitlines`, slices |
| `Codec` | codec.dfy | the `struct` layouts |
| `Uuid` | uuid.dfy | the `UUID` class |
| `Gatt` | gatt.dfy | `Service`, `Characteristic`, the parsers of gatttool's listings, the `services` dictionary |
| `Btle` | btle.dfy | class `Peripheral` |
| `ServiceLookup` | lookup.dfy | `_serviceToHandle` |
| `Switching` | switching.dfy | the sensor switch writes |
| `Cumulus` | cumulus.dfy | the JSON payload and the collector URL |
| `AsyncBPart` | bpart_async.dfy | class `BPart` |
| `AltBPart` | btle_alt.dfy | class `BPart` of btle_alt.py |
| `SensorTag` | sensortag.dfy | class `Tag` |
| `SyncBPart` | sync_bpart.dfy | the sensor UUIDs, binding and reads |
| `SyncGateway` | gateway.dfy | classes `Gateway` and `Connector` |

Exceptions become `Err`/`Fail` values, naming the Python exception that would
be raised.

The helper process and the network are inputs:
- What `pexpect.run` prints is a `ToolOutput` or a plain string.
- Each `expect` is answered by a `Resp`: `Matched`, `Timeout` or `Eof`.
- Commands written to the helper and uploads made are recorded in sequences.

Classes whose fields the source assigns are Dafny classes. Their methods are
proved against specification functions on the state, and the properties of
those functions are lemmas.

## Model

| member | source | states |
|---|---|---|
| Hex.LowerDigit | python/bpart_async/btle.py:58 | the digit `b2a_hex` prints for a nibble is a lower-case hex digit of that value |
| Hex.UpperDigit | python/bpart_async/btle.py:45 | the digit `%X` prints for a nibble is an upper-case hex digit of that value |
| Hex.LowerHex | python/bpart_async/btle.py:53-58 | folding text to lower case keeps its length and folds each character on its own |
| Hex.PairsAt | python/bpart_async/btle.py:53 | byte i of decoded hex text comes from digits 2i and 2i+1 |
| Hex.Unhexlify | python/bpart_async/btle.py:53 | `a2b_hex` succeeds exactly on an even number of hex digits, giving half as many bytes; otherwise TypeError |
| Hex.Hexlify | python/bpart_async/btle.py:58 | `b2a_hex` prints two characters per byte |
| Hex.HexlifyDigits | python/bpart_async/btle.py:58 | byte i is printed high nibble first at positions 2i and 2i+1 |
| Hex.HexlifyLower | python/bpart_async/btle.py:58 | `b2a_hex` prints lower-case digits only |
| Hex.UnhexlifyHexlify | python/bpart_async/btle.py:53-58 | decoding what `b2a_hex` printed gives the bytes back |
| Hex.HexlifyUnhexlify | python/bpart_async/btle.py:53-58 | printing decoded hex text gives that text in lower case |
| Hex.UpperDigits | python/bpart_async/btle.py:45 | the digits of a number are at least one upper-case hex digit |
| Hex.FormatUpper | python/bpart_sync/bpart.py:15 | `%0wX` is at least `width` upper-case hex digits long |
| Hex.UpperDigitsValue | python/bpart_sync/bpart.py:15 | the printed digits read back as the number |
| Hex.FormatUpperValue | python/bpart_sync/bpart.py:15 | `%0wX` loses nothing: its digits read back as the number |
| Hex.FormatUpperShape | python/bpart_async/btle.py:45 | `%0wX` is the bare digits behind just enough zeros to reach the width, never truncated |
| Hex.UpperDigitsLength | python/bpart_async/btle.py:45 | a number below 16^k needs at most k digits |
| Hex.ParseHexInt | python/bpart_async/bpart.py:68 | on the unsigned, unpadded handle strings gatttool prints, `int(s, 16)` succeeds exactly on non-empty hex digits after an optional `0x`; otherwise ValueError |
| Hex.ParseFormatted | python/bpart_async/btle.py:377 | `int(..., 16)` reads back what `%0wX` printed, with or without `0x` |
| Hex.FormatLower | python/bpart_async/btle.py:377 | `'{0:0>4x}'` gives at least four lower-case hex digits |
| Hex.LowerHexValue | python/bpart_async/btle.py:377 | folding hex digits to lower case keeps their value |
| Hex.ParseFormattedLower | python/bpart_async/btle.py:377 | `int(..., 16)` reads back what `'{0:0>4x}'` printed |
| Text.Split | python/bpart_async/bpart.py:108 | `split(sep)` gives at least one piece; no piece holds `sep`, and joining them with `sep` gives the text back |
| Text.SplitCount | python/bpart_async/btle.py:124 | `split(':')` gives one piece more than there are separators |
| Text.SplitJoin | python/bpart_async/btle.py:124 | `split(sep)` takes apart pieces joined by `sep` that hold none of it |
| Text.Fields | python/bpart_async/btle.py:300 | `split()` gives non-empty pieces without whitespace |
| Text.FieldsKeepText | python/bpart_async/btle.py:300 | joining the pieces of `split()` gives every non-whitespace character, in order |
| Text.FieldsOfJoin | python/bpart_async/btle.py:300 | `split()` takes apart words joined by single spaces |
| Text.Remove | python/bpart_async/btle.py:49 | `replace(c, '')` leaves no `c`, never lengthens the text and keeps text without `c` as it is |
| Text.RemoveAppend | python/bpart_async/btle.py:49 | removing from a concatenation removes from each part |
| Text.RemoveCount | python/bpart_async/btle.py:49 | removing `c` shortens the text by the number of `c` in it |
| Text.RemoveJoin | python/bpart_sync/main.py:40 | removing the separator from joined pieces runs the pieces together |
| Text.Upper | python/bpart_async/sensortag.py:136 | `upper()` keeps the length and upper-cases each character |
| Text.SplitLines | python/bpart_async/btle.py:297 | `splitlines()` gives lines without line breaks |
| Text.SingleLine | python/bpart_async/btle.py:297 | text without line breaks is one line, or no line when empty |
| Text.SliceToLast | python/bpart_async/sensortag.py:141 | `parts[k:-1]` is everything from k up to the last element, and empty when nothing is left |
| Codec.Signed | python/bpart_async/bpart.py:83 | the two's complement reading is in range and negative exactly when the top bit is set |
| Codec.U16 | python/bpart_async/bpart.py:90 | `unpack('<H')` needs exactly 2 bytes (else struct.error) and gives a 16-bit value |
| Codec.U32 | python/bpart_async/bpart.py:76 | `unpack('<I')` needs exactly 4 bytes and gives a 32-bit value |
| Codec.I16 | python/bpart_async/bpart.py:83 | `unpack('<h')` needs exactly 2 bytes and is negative exactly when the high byte's top bit is set |
| Codec.I8 | python/bpart_async/sensortag.py:125 | `unpack('b')` needs exactly 1 byte and gives a signed byte |
| Codec.I16Triple | python/bpart_async/bpart.py:97 | `unpack('<hhh')` needs exactly 6 bytes (else struct.error) and gives three signed 16-bit values |
| Codec.I8Triple | python/bpart_async/sensortag.py:125 | `unpack('bbb')` needs exactly 3 bytes (else struct.error) and gives three signed bytes |
| Codec.I16Pair | python/bpart_async/sensortag.py:98 | `unpack('<hh')` needs exactly 4 bytes (else struct.error) and gives two signed 16-bit values |
| Codec.U16Pair | python/bpart_async/sensortag.py:115 | `unpack('<HH')` needs exactly 4 bytes (else struct.error) and gives two unsigned 16-bit values |
| Codec.U16RoundTrip | python/bpart_async/bpart.py:90 | `<H` reads back every packed 16-bit value |
| Codec.U16Injective | python/bpart_async/bpart.py:90 | two bytes are the packing of what `<H` reads from them |
| Codec.U32RoundTrip | python/bpart_async/bpart.py:76 | `<I` reads back every packed 32-bit value |
| Codec.U32Injective | python/bpart_async/bpart.py:76 | four bytes are the packing of what `<I` reads from them |
| Codec.I16RoundTrip | python/bpart_async/bpart.py:83 | `<h` reads back every packed signed 16-bit value |
| Codec.I16Injective | python/bpart_async/bpart.py:83 | two bytes are the packing of what `<h` reads from them |
| Codec.I8RoundTrip | python/bpart_async/sensortag.py:125 | `b` reads back every packed signed byte |
| Codec.I16TripleRoundTrip | python/bpart_async/bpart.py:97 | `<hhh` reads back three packed i16 values, in order |
| Codec.I8TripleRoundTrip | python/bpart_async/sensortag.py:125 | `bbb` reads back three packed signed bytes, in order |
| Codec.I16PairRoundTrip | python/bpart_async/sensortag.py:98 | `<hh` reads back two packed i16 values, in order |
| Codec.U16PairRoundTrip | python/bpart_async/sensortag.py:115 | `<HH` reads back two packed u16 values, in order |
| Codec.FromHex | python/bpart_async/bpart.py:75-76 | hex decoding comes first (TypeError), then the unpacking and its size check |
| Uuid.Expand | python/bpart_async/btle.py:49-51 | a short form is left-padded to 8 digits and followed by the Base UUID tail |
| Uuid.HexText | python/bpart_async/btle.py:42-51 | the digit text of a UUID has no dashes; an integer out of range is a ValueError |
| Uuid.Parse | python/bpart_async/btle.py:39-55 | `UUID(val)` succeeds exactly on 32 hex digits (after dashes and short-form expansion); an odd count or a non-hex digit is a TypeError, other lengths a ValueError |
| Uuid.ToString | python/bpart_async/btle.py:57-59 | `str(u)` is 36 characters: lower-case digits with dashes at 8, 13, 18 and 23 |
| Uuid.Dashed | python/bpart_async/btle.py:59 | the 8-4-4-4-12 split puts the digits in order around four dashes |
| Uuid.RemoveDashesOfString | python/bpart_async/btle.py:49-59 | removing the dashes of `str(u)` gives `b2a_hex` of its bytes |
| Uuid.RemoveDashed | python/bpart_async/btle.py:49-59 | removing the dashes from the 8-4-4-4-12 split gives the 32 digits back |
| Uuid.ParseToString | python/bpart_async/btle.py:49-59 | `UUID(str(u)) == u` |
| Uuid.SameIsEquality | python/bpart_async/btle.py:61-65 | `__cmp__` on the printed forms is equality of UUIDs |
| Uuid.ToStringOfParse | python/bpart_async/btle.py:49-59 | printing a parsed UUID gives its digits in lower case, whatever dashes the input had |
| Uuid.BigEndian | python/bpart_async/btle.py:53 | a number as k bytes is k bytes long |
| Uuid.PairsValue | python/bpart_async/btle.py:53 | an even run of hex digits decodes to the big-endian bytes of its value |
| Uuid.ShortFormBytes | python/bpart_async/btle.py:42-53 | `UUID(n)` for an in-range integer is the Base UUID with n in its first four bytes |
| Uuid.BaseTailBytes | python/bpart_async/btle.py:51 | the Base UUID tail text spells the 12 Base UUID bytes |
| Uuid.IntAndTextAgree | python/bpart_async/btle.py:42-47 | an integer and its `%04X` text make the same UUID |
| Uuid.ClientConfigurationDescriptor | python/bpart_async/btle.py:42-59 | `UUID(0x2902)` prints as `00002902-0000-1000-8000-00805f9b34fb` and equals the UUID of that text |
| Uuid.HexlifyAppend | python/bpart_async/btle.py:58 | `b2a_hex` of a concatenation is the concatenation of the two prints |
| Gatt.Lines | python/bpart_async/btle.py:296-297 | the listing without commas, split into lines: no line holds a comma |
| Gatt.ParseServiceLine | python/bpart_async/btle.py:298-303 | a service line needs nine tokens (else BTLE INTERNAL_ERROR) and a parsable last token; the key is that token and the range is tokens 3 and 8 |
| Gatt.ServiceLineFormat | python/bpart_async/btle.py:298-303 | what gatttool prints for a primary service parses to the range and UUID it names |
| Gatt.ParseCharLine | python/bpart_async/btle.py:328-331 | a characteristic line needs twelve tokens (else IndexError); handle, properties and value handle are tokens 2, 6 and 11 |
| Gatt.CharLineFormat | python/bpart_async/btle.py:328-331 | what gatttool prints for a characteristic parses to its handle, properties, value handle and UUID |
| Gatt.ParseCharsFrom | python/bpart_async/btle.py:328-332 | all lines parse or the first bad line's error is raised; on success line i gives characteristic i |
| Gatt.ParseCharacteristics | python/bpart_async/btle.py:319-333 | a listing holding gatttool's "Discover all characteristics failed:" message is BTLE DISCONNECTED; otherwise every comma-stripped line is one characteristic |
| Gatt.Matching | python/bpart_async/btle.py:82-84 | the filter keeps exactly the characteristics of the UUID |
| Gatt.MatchingAppend | python/bpart_async/btle.py:82-84 | the filter keeps the cached order |
| Gatt.MatchingNone | python/bpart_async/btle.py:82-84 | with no characteristic of the UUID the filter is empty |
| Gatt.ServiceChars | python/bpart_async/btle.py:78-85 | the characteristics are fetched once and cached; an error leaves the service as it was; the UUID filter applies to the cache |
| Gatt.FindFrom | python/bpart_async/btle.py:316 | finds the first entry of a key at or after i, or reports that none has it |
| Gatt.Find | python/bpart_async/btle.py:316 | finds an entry of a key exactly when the key is in the dictionary |
| Gatt.Get | python/bpart_async/btle.py:316 | `d[k]` exists exactly when k is a key |
| Gatt.Put | python/bpart_async/btle.py:303 | `d[k] = v` adds k, keeps the keys unique and leaves every other entry |
| Gatt.PutGet | python/bpart_async/btle.py:303 | after `d[k] = v`, k maps to v and every other key to what it mapped to before |
| ServiceLookup.ServiceOf | python/bpart_async/bpart.py:63-69 | no services gives None; with services an unreadable handle is a ValueError |
| ServiceLookup.ServiceOfFirst | python/bpart_async/bpart.py:63-69 | the first service whose range holds the handle gives the answer |
| ServiceLookup.ServiceOfNone | python/bpart_async/sensortag.py:61-67 | no range holds the handle: the answer is None |
| ServiceLookup.ServiceOfFound | python/bpart_async/bpart.py:63-69 | a UUID found always belongs to a service whose range holds the handle, with none before it holding it |
| ServiceLookup.ServiceToHandle | python/bpart_async/bpart.py:63-69 | the loop returns from inside as soon as a range holds the handle, agreeing with `ServiceOf` |
| Switching.SwitchFromStep | python/bpart_async/bpart.py:176-179 | a failed switch write stops the sequence; a passed one goes on to the next |
| Switching.Requests | python/bpart_async/bpart.py:176-179 | one write request per switch |
| Switching.SwitchStep | python/bpart_async/bpart.py:183-186 | a cached switch sends its one request; a timeout only marks the link down |
| Switching.WritingSends | python/bpart_async/bpart.py:183-201 | cached switches send their requests |
| Switching.SwitchAllSent | python/bpart_async/sensortag.py:184-189 | writes that all pass send their requests in order and pass |
| Switching.AllSwitched | python/bpart_async/bpart.py:176-179 | cached switches pass and send exactly their requests, in order, keeping services and handles |
| Cumulus.Payload | python/bpart_async/bpart.py:146-151 | the JSON `data` object has six distinct entries, each with its unit |
| Cumulus.Lookup | python/bpart_async/bpart.py:150 | the entry found under a name carries that name |
| Cumulus.PayloadCarries | python/bpart_sync/main.py:36 | every reading travels under its own key, unchanged (temperature /1000, acceleration /16000) |
| Cumulus.LookupAt | python/bpart_async/bpart.py:150 | the first entry carrying a name is the one found under it |
| Cumulus.CollectorUrl | python/bpart_async/bpart.py:158 | the URL is the collector base followed by the address without colons |
| Cumulus.UrlOfAddress | python/bpart_sync/main.py:40 | the URL ends with the colon-separated groups run together, in order |
| Btle.AddressCheck | python/bpart_async/btle.py:124-127 | an address passes exactly when it has six colon-separated pieces; otherwise NameError |
| Btle.AddressCheckIntended | python/bpart_async/btle.py:124-127 | the same test raising the ValueError its message intends |
| Btle.ShortAddressNameError | python/bpart_async/btle.py:124-125 | "00:07:80" raises NameError as written, ValueError as intended |
| Btle.DisconnectEffects | python/bpart_async/btle.py:189-201 | `disconnect` clears running, the link and the helper, says "disconnect" and "exit" only to a running helper, and is idempotent |
| Btle.DiscoverFrom | python/bpart_async/btle.py:296-303 | the discovery loop never reports a transport error and keeps the stored UUIDs valid |
| Btle.DiscoverKeys | python/bpart_async/btle.py:296-304 | discovery keeps keys unique and on success adds exactly the keys of the lines |
| Btle.DiscoverPasses | python/bpart_async/btle.py:296-304 | discovery succeeds exactly when every line parses |
| Btle.DiscoverFails | python/bpart_async/btle.py:296-303 | a failed discovery reports the error of the first bad line |
| Btle.GetServicesOnce | python/bpart_async/btle.py:306-312 | once discovered, asking again changes nothing |
| Btle.Values | python/bpart_async/btle.py:312 | `services.values()` in dictionary order |
| Btle.ServiceIndex | python/bpart_async/btle.py:314-316 | the lookup succeeds exactly when the printed UUID is a key; a missing one is KeyError, an unparsable one the UUID error |
| Btle.ServiceIndexFinds | python/bpart_async/btle.py:314-316 | a service stored under its canonical UUID is found by any accepted spelling |
| Btle.UpperKeyMissed | python/bpart_async/btle.py:314-316 | a key printed with an upper-case digit is never found |
| Btle.FetchFrom | python/bpart_async/btle.py:173-175 | fetching every service's characteristics never reports a transport error |
| Btle.FetchKeepsHandles | python/bpart_async/btle.py:173-175 | the fetch loop touches only the cached characteristics |
| Btle.HandlesFrom | python/bpart_async/btle.py:204-212 | the handle loop can only fail with IndexError |
| Btle.HandlesAppend | python/bpart_async/btle.py:204-212 | the handle list only grows: what was there stays in front |
| Btle.PrepareSpec | python/bpart_async/btle.py:170-176 | the preparation steps of `connect` never report a transport error |
| Btle.PrepareKeeps | python/bpart_async/btle.py:170-176 | preparing reads and caches and touches nothing of the session |
| Btle.ConnectOutcome | python/bpart_async/btle.py:168-187 | a matched reply connects; a timeout says "exit" and reports DISCONNECTED; EOF escapes |
| Btle.ConnectAppendsHandles | python/bpart_async/btle.py:176 | every attempt reaching the handle listing appends its handles |
| Btle.ReconnectDuplicates | python/bpart_async/btle.py:204-212 | the handle list is never cleared: after two attempts every handle is listed twice |
| Btle.ConnectKeeps | python/bpart_async/btle.py:168-187 | `connect` keeps the inbox, running and status; EOF comes only from the reply |
| Btle.NotifyFrom | python/bpart_async/btle.py:215-222 | the notification loop keeps the handles, the link and the helper |
| Btle.WriteReqs | python/bpart_async/btle.py:221 | one write request per handle, in list order |
| Btle.NotifyCommands | python/bpart_async/btle.py:215-222 | the loop sends a prefix of the write requests, all of them when it passes; without a helper BTLE INTERNAL_ERROR |
| Btle.NotifyAcked | python/bpart_async/btle.py:215-222 | with a helper and all writes acknowledged every handle is written, in order |
| Btle.DeactivationRewritesOn | python/bpart_async/btle.py:225-232 | deactivation as written sends the same "0100" requests activation sends; the intended one sends "0000" to the same handles |
| Btle.WriteCharCommand | python/bpart_async/btle.py:372-383 | one request naming the handle re-printed in lower-case hex (same value) is sent; a timeout drops the link |
| Btle.ValueTextOfAnswer | python/bpart_async/btle.py:362-363 | the value text of an answer is exactly its byte tokens |
| Btle.ReadByUuidCommand | python/bpart_async/btle.py:354-369 | the read names the UUID's canonical print, so every spelling sends the same command |
| Btle.SensorWriteCached | python/bpart_async/btle.py:78-99 | with the characteristics cached a write fetches nothing and sends one request to the cached value handle |
| Btle.Timeouts | python/bpart_async/btle.py:263-272 | k timeouts in a row |
| Btle.InitTimeoutsKeepInitializing | python/bpart_async/btle.py:263-272 | initialize is retried after each timeout until it passes |
| Btle.ListenTimeoutReconnects | python/bpart_async/btle.py:274-285 | a TIMEOUT of the notification wait or of the handler drops the link and the status, so the next round reconnects and reinitializes |
| Btle.HandlerErrorEndsRun | python/bpart_async/btle.py:274-285 | a handler error other than pexpect's TIMEOUT and EOF ends `run` with that error, after the notification was handed over |
| Btle.Texts | python/bpart_async/btle.py:276-277 | the notification texts of the waits |
| Btle.TextsAppend | python/bpart_async/btle.py:276-277 | the texts of joined waits are the joined texts |
| Btle.RunDelivers | python/bpart_async/btle.py:242-285 | `run` hands the notifications to the handler in arrival order, each once with one handler call, and keeps `running` and the address, whether it ends by running out, returning or raising |
| Btle.DeliversListen | python/bpart_async/btle.py:274-285 | the notification wait and the handler call deliver its text, including when the handler raises |
| Btle.RunReturnsOnEof | python/bpart_async/btle.py:242-285 | `run` returns only on an EOF: from a connect attempt, `initialize`, the wait or the handler |
| Btle.RunRaises | python/bpart_async/btle.py:242-285 | no pexpect TIMEOUT or EOF escapes `run`, and a BTLEException escapes only from `initialize` or the handler |
| Btle.Peripheral.Create | python/bpart_async/btle.py:116-129 | the fields start as `__init__` assigns them |
| Btle.Peripheral.Open | python/bpart_async/btle.py:116-129 | a malformed address raises NameError; otherwise a fresh peripheral in its initial state |
| Btle.Peripheral.OpenIntended | python/bpart_async/btle.py:116-129 | the same raising ValueError |
| Btle.Peripheral.StartHelper | python/bpart_async/btle.py:133-136 | starts the helper |
| Btle.Peripheral.StopHelper | python/bpart_async/btle.py:138-142 | says "exit" to a running helper and drops it |
| Btle.Peripheral.WriteCmd | python/bpart_async/btle.py:144-148 | sends only with a helper, else BTLE INTERNAL_ERROR |
| Btle.Peripheral.Disconnect | python/bpart_async/btle.py:189-201 | the new state is the disconnect step |
| Btle.Peripheral.DiscoverServices | python/bpart_async/btle.py:289-304 | the new state and outcome are those of the discovery loop |
| Btle.Peripheral.GetServices | python/bpart_async/btle.py:306-312 | discovers once and returns the services in dictionary order |
| Btle.Peripheral.GetServiceByUuid | python/bpart_async/btle.py:314-316 | found exactly when the printed UUID is a key, and then that service |
| Btle.Peripheral.GetCharacteristics | python/bpart_async/btle.py:319-333 | the characteristics the listing parses to |
| Btle.Peripheral.ServiceCharacteristics | python/bpart_async/btle.py:78-85 | the stored service gets the cache its call filled; the result is the filtered list |
| Btle.Peripheral.GetNotificationHandles | python/bpart_async/btle.py:204-212 | appends the handle tokens of the listing |
| Btle.Peripheral.Connect | python/bpart_async/btle.py:168-187 | the new state and outcome are those of `connect` |
| Btle.Peripheral.Prepare | python/bpart_async/btle.py:170-176 | services, characteristics, then notification handles |
| Btle.Peripheral.WriteNotificationHandles | python/bpart_async/btle.py:215-222 | the loop over the handles |
| Btle.Peripheral.ActivateNotifications | python/bpart_async/btle.py:215-222 | writes "0100" to every handle |
| Btle.Peripheral.DeactivateNotifications | python/bpart_async/btle.py:225-232 | as written: writes "0100" as well |
| Btle.Peripheral.DeactivateNotificationsIntended | python/bpart_async/btle.py:225-232 | writes "0000" to every handle |
| Btle.Peripheral.WriteCharacteristic | python/bpart_async/btle.py:372-383 | the write request for the re-printed handle |
| Btle.Peripheral.ReadCharacteristicByUuid | python/bpart_async/btle.py:354-369 | the read request and the value text of the answer |
| Btle.Peripheral.SensorWrite | python/bpart_async/bpart.py:183-186 | `getServiceByUUID(svc).getCharacteristics(chr)[0].write(val)` |
| Btle.Peripheral.Run | python/bpart_async/btle.py:242-285 | the new state and end are those of the run machine, with the handler's outcomes as inputs |
| Btle.Peripheral.ConnectLoopOf | python/bpart_async/btle.py:248-261 | the connect loop ends in the run machine's state, or connected and ready to initialize |
| Btle.Peripheral.InitLoopOf | python/bpart_async/btle.py:263-272 | the initialize loop ends in the run machine's state, or initialized |
| Btle.Peripheral.Listen | python/bpart_async/btle.py:274-285 | one notification wait and the handler call, as the run machine takes them; an error of the handler other than TIMEOUT and EOF ends `run` |
| AsyncBPart.ParseLight | python/bpart_async/bpart.py:71-76 | a light reading is a 32-bit unsigned value |
| AsyncBPart.ParseHumidity | python/bpart_async/bpart.py:85-90 | a humidity reading is a 16-bit unsigned value |
| AsyncBPart.ParseTemperature | python/bpart_async/bpart.py:78-83 | a raw temperature is a signed 16-bit value |
| AsyncBPart.ParseAcceleration | python/bpart_async/bpart.py:92-101 | the raw axes are three signed 16-bit values |
| AsyncBPart.ParsersOfBytes | python/bpart_async/bpart.py:71-101 | each parser of the hex print of bytes is the struct layout of those bytes |
| AsyncBPart.ParsersReject | python/bpart_async/bpart.py:71-101 | text that is not an even number of hex digits is a TypeError for every parser |
| AsyncBPart.LightRoundTrip | python/bpart_async/bpart.py:71-76 | the light value of packed bytes is the packed value |
| AsyncBPart.AccelerationRoundTrip | python/bpart_async/bpart.py:92-101 | the axes of packed bytes are the packed values |
| AsyncBPart.HumidityRoundTrip | python/bpart_async/bpart.py:85-90 | the humidity value of packed bytes is the packed value |
| AsyncBPart.TemperatureRoundTrip | python/bpart_async/bpart.py:78-83 | the temperature value of packed bytes is the packed value |
| AsyncBPart.Route | python/bpart_async/bpart.py:113-132 | exactly the four bPart service UUIDs are routed, each to its own channel |
| AsyncBPart.Store | python/bpart_async/bpart.py:113-132 | a missing payload token is an IndexError |
| AsyncBPart.StoreOfBytes | python/bpart_async/bpart.py:113-132 | well-formed payload tokens store the value of their bytes |
| AsyncBPart.JoinedHex | python/bpart_async/bpart.py:115-125 | joining the payload tokens gives the hex of their bytes |
| AsyncBPart.UploadExactlyWhenComplete | python/bpart_async/bpart.py:103-144 | an upload happens exactly when the slots become complete; the slots are then cleared; an error keeps them |
| AsyncBPart.NeverLeftComplete | python/bpart_async/bpart.py:135-144 | the slots are never left complete |
| AsyncBPart.OnlyOwnSlot | python/bpart_async/bpart.py:113-132 | a notification fills only its own channel's slot |
| AsyncBPart.UnroutedKeepsSlots | python/bpart_async/bpart.py:110-135 | a handle of no bPart service changes nothing and uploads nothing |
| AsyncBPart.NotificationStores | python/bpart_async/bpart.py:108-132 | a well-formed notification for a bPart service stores its bytes' value in that channel's slot |
| AsyncBPart.ZeroLightStalls | python/bpart_async/bpart.py:135 | a light reading of 0 counts as missing, so no upload happens until light changes |
| AsyncBPart.SwitchesOn | python/bpart_async/bpart.py:176-179 | the switch-on writes of the channels, in order |
| AsyncBPart.InitializeOrder | python/bpart_async/bpart.py:170-180 | initialize sends the four switch requests, then "0100" to every notification handle |
| AsyncBPart.InitSwitches | python/bpart_async/bpart.py:176-179 | light, humidity, acceleration, temperature, each "01" |
| AsyncBPart.BPart.Create | python/bpart_async/bpart.py:54-61 | the slots start empty and nothing is uploaded |
| AsyncBPart.BPart.Open | python/bpart_async/bpart.py:54-61 | the peripheral's address check, then empty slots |
| AsyncBPart.BPart.HandleNotification | python/bpart_async/bpart.py:103-144 | the new slots, the outcome and one upload to the device's URL exactly when the set completed |
| AsyncBPart.BPart.StoreReading | python/bpart_async/bpart.py:108-132 | routes the notification and stores its reading, or fails and keeps the slots |
| AsyncBPart.BPart.SwitchSensor | python/bpart_async/bpart.py:183-221 | `activate<Sensor>Sensor` writes "01", `deactivate<Sensor>Sensor` "00" |
| AsyncBPart.BPart.Initialize | python/bpart_async/bpart.py:170-180 | the initialize sequence |
| AltBPart.ConnectSpec | python/bpart_async/btle_alt.py:161-170 | `connect` fails only with DISCONNECTED or EOF |
| AltBPart.ConnectEffects | python/bpart_async/btle_alt.py:161-170 | the connect command is always sent; success exactly on a matched reply; a timeout drops the helper; the link flag stays honest |
| AltBPart.DisconnectSpec | python/bpart_async/btle_alt.py:172-179 | clears running and the link; a running helper gets "disconnect" and "exit" |
| AltBPart.ExchangeSends | python/bpart_async/btle_alt.py:186-194 | the exchange sends a prefix of the commands; acknowledged exactly when every answer comes |
| AltBPart.ActivationOutcome | python/bpart_async/btle_alt.py:181-200 | on a live link activation passes; ACTIVE exactly when all four writes are acknowledged, else ACTIVATING |
| AltBPart.ActivationWhileDown | python/bpart_async/btle_alt.py:199-200 | with the link down nothing is sent and the status is ACTIVATING |
| AltBPart.DeactivationOutcome | python/bpart_async/btle_alt.py:203-218 | INACTIVE after four acknowledged writes; the status is kept after a timeout |
| AltBPart.HandleRoute | python/bpart_async/btle_alt.py:225-243 | the four literal handles route to temperature, light, acceleration and humidity |
| AltBPart.UploadExactlyWhenComplete | python/bpart_async/btle_alt.py:223-253 | an upload exactly when the slots become complete, then cleared |
| AltBPart.OtherHandleKeepsSlots | python/bpart_async/btle_alt.py:225-246 | another handle changes nothing |
| AltBPart.OnlyOwnSlot | python/bpart_async/btle_alt.py:225-243 | a notification fills only its own slot |
| AltBPart.NotificationStores | python/bpart_async/btle_alt.py:226-242 | the payload bytes' value is stored |
| AltBPart.Flushed | python/bpart_async/btle_alt.py:246-253 | a complete set is uploaded and cleared; any other set is kept |
| AltBPart.NotificationFlushes | python/bpart_async/btle_alt.py:223-253 | the handler is the routing followed by the upload test |
| AltBPart.ServiceLine | python/bpart_async/btle_alt.py:312-313 | fewer than nine tokens is an IndexError; otherwise as in btle.py |
| AltBPart.Describe | python/bpart_async/btle_alt.py:314-321 | a description other than "No Description" exactly for the four bPart services |
| AltBPart.DiscoverFrom | python/bpart_async/btle_alt.py:311-321 | discovery never reports a transport error |
| AltBPart.DiscoverStep | python/bpart_async/btle_alt.py:311-321 | a bad line stops discovery; a good one is stored and described |
| AltBPart.DiscoverDescribes | python/bpart_async/btle_alt.py:307-322 | every stored service stays described |
| AltBPart.FetchOne | python/bpart_async/btle_alt.py:84-87 | fetching one service's characteristics changes only that entry |
| AltBPart.FetchFrom | python/bpart_async/btle_alt.py:279-280 | the fetch loop keeps the keys |
| AltBPart.InactiveRunIdles | python/bpart_async/btle_alt.py:275-293 | with notifications INACTIVE and the link up, the loop does nothing |
| AltBPart.ListenTimeout | python/bpart_async/btle_alt.py:293-300 | a notification timeout drops the link and sets ACTIVATING |
| AltBPart.AttemptKeepsLinked | python/bpart_async/btle_alt.py:276-285 | a connect attempt leaves the link up only with a helper |
| AltBPart.ActivationKeepsLinked | python/bpart_async/btle_alt.py:181-200 | activation keeps the link and the helper |
| AltBPart.RunKeepsLinked | python/bpart_async/btle_alt.py:273-303 | throughout `run`, whenever the link is up a helper runs |
| AltBPart.ActivationInRun | python/bpart_async/btle_alt.py:287-291 | activation inside `run` never meets the missing-helper error |
| AltBPart.BPart.Create | python/bpart_async/btle_alt.py:119-137 | the fields start as `__init__` assigns them |
| AltBPart.BPart.Open | python/bpart_async/btle_alt.py:119-137 | the same address check as btle.py, with the same NameError |
| AltBPart.BPart.StartHelper | python/bpart_async/btle_alt.py:140-142 | starts the helper |
| AltBPart.BPart.StopHelper | python/bpart_async/btle_alt.py:144-147 | stops the helper |
| AltBPart.BPart.WriteCmd | python/bpart_async/btle_alt.py:149-153 | sends only with a helper, else BTLE INTERNAL_ERROR |
| AltBPart.BPart.Connect | python/bpart_async/btle_alt.py:161-170 | the new state and outcome are those of `connect` |
| AltBPart.BPart.Disconnect | python/bpart_async/btle_alt.py:172-179 | the new state is that of `disconnect` |
| AltBPart.BPart.Stop | python/bpart_async/btle_alt.py:220-221 | clears running and nothing else |
| AltBPart.BPart.Exchange | python/bpart_async/btle_alt.py:187-188 | one write / answer pair |
| AltBPart.BPart.ExchangeAll | python/bpart_async/btle_alt.py:186-194 | the four write / answer pairs |
| AltBPart.BPart.ActivateNotifications | python/bpart_async/btle_alt.py:181-200 | the new state and outcome of activation |
| AltBPart.BPart.DeactivateNotifications | python/bpart_async/btle_alt.py:203-218 | the new state and outcome of deactivation |
| AltBPart.BPart.HandleNotification | python/bpart_async/btle_alt.py:223-253 | the new state and outcome of the handler |
| AltBPart.BPart.Flush | python/bpart_async/btle_alt.py:246-253 | the upload test |
| AltBPart.BPart.SetSlots | python/bpart_async/btle_alt.py:250-253 | assigns the four slots and nothing else |
| AltBPart.BPart.StoreReading | python/bpart_async/btle_alt.py:225-243 | the routing, or a failure keeping the state |
| AltBPart.BPart.DiscoverServices | python/bpart_async/btle_alt.py:307-322 | the new state and outcome of discovery |
| AltBPart.BPart.GetServices | python/bpart_async/btle_alt.py:324-327 | discovers once and returns the services in dictionary order |
| AltBPart.BPart.ServiceCharacteristics | python/bpart_async/btle_alt.py:84-87 | fetches one service's characteristics |
| AltBPart.BPart.Try | python/bpart_async/btle_alt.py:277-285 | one connect attempt |
| AltBPart.BPart.Run | python/bpart_async/btle_alt.py:273-303 | the new state and end are those of the run machine |
| AltBPart.BPart.ConnectLoopOf | python/bpart_async/btle_alt.py:276-285 | the connect loop |
| AltBPart.BPart.ActivationLoopOf | python/bpart_async/btle_alt.py:287-291 | the activation loop |
| AltBPart.BPart.ListenOnce | python/bpart_async/btle_alt.py:293-303 | one notification wait |
| SensorTag.ParseAxes | python/bpart_async/sensortag.py:69-72 | three signed 16-bit axes |
| SensorTag.ParseTemperature | python/bpart_async/sensortag.py:97-98 | the raw object voltage and ambient temperature are two signed 16-bit values |
| SensorTag.TemperatureRoundTrip | python/bpart_async/sensortag.py:97-98 | `<hh` of the hex print reads back the packed raw values; non-hex text is a TypeError |
| SensorTag.ParseAcceleration | python/bpart_async/sensortag.py:120-126 | three signed bytes |
| SensorTag.ClearLowBits | python/bpart_async/sensortag.py:117 | `& 0xFFFC` clears the two low bits and moves the value down by less than 4 |
| SensorTag.ParseHumidity | python/bpart_async/sensortag.py:110-118 | the raw humidity is a multiple of 4 |
| SensorTag.DecodeOfBytes | python/bpart_async/sensortag.py:69-126 | every decoder of the hex print of bytes decodes those bytes |
| SensorTag.DecodeRejects | python/bpart_async/sensortag.py:69-126 | text that is not an even number of hex digits is a TypeError, except for the barometer |
| SensorTag.HumidityIgnoresStatusBits | python/bpart_async/sensortag.py:115-117 | humidity values differing only in the two status bits decode alike |
| SensorTag.AxesRoundTrip | python/bpart_async/sensortag.py:69-86 | magnetometer and gyroscope read back the packed axes |
| SensorTag.AccelerationRoundTrip | python/bpart_async/sensortag.py:120-126 | the accelerometer reads back the packed bytes |
| SensorTag.Route | python/bpart_async/sensortag.py:136-165 | exactly the six sensor service UUIDs are routed, each to its own sensor |
| SensorTag.UnknownHandleRaises | python/bpart_async/sensortag.py:135-136 | a handle in no service's range raises AttributeError at `.upper()` |
| SensorTag.RouteIgnoresCase | python/bpart_async/sensortag.py:136 | routing is blind to case |
| SensorTag.ConcatByteTokens | python/bpart_async/sensortag.py:141 | running the byte tokens together gives the hex of their bytes |
| SensorTag.NotificationDecodes | python/bpart_async/sensortag.py:128-165 | a routed notification decodes the bytes of its payload tokens |
| SensorTag.CalibrationIsActivation | python/bpart_async/sensortag.py:214-227 | `calibrateBarometer` writes what `activateBarometerSensor` writes |
| SensorTag.SwitchesOn | python/bpart_async/sensortag.py:184-189 | one switch per sensor |
| SensorTag.InitSwitches | python/bpart_async/sensortag.py:184-189 | "01" to five sensors, then "07" to the gyroscope |
| SensorTag.WriteCharStep | python/bpart_async/btle.py:372-383 | one characteristic write with a running helper |
| SensorTag.ShortHandleValue | python/bpart_async/sensortag.py:170-173 | `int('0x00hl', 16)` |
| SensorTag.ShortHandleFormat | python/bpart_async/btle.py:377 | `'{0:0>4x}'` of a two-digit number |
| SensorTag.ShortHandle | python/bpart_async/sensortag.py:170-173 | `0x00hl` is re-printed as `00hl` |
| SensorTag.NotifyWrite | python/bpart_async/sensortag.py:170 | "0100" to `0x00hl` sends `char-write-req 00hl 0100` |
| SensorTag.NotificationRequests | python/bpart_async/sensortag.py:169-173 | the four requests to 0026, 002e, 0039 and 0041, in order |
| SensorTag.InitializeOrder | python/bpart_async/sensortag.py:177-192 | switches, then the four notification requests, then calibration |
| SensorTag.Tag.Create | python/bpart_async/sensortag.py:57-58 | wraps the peripheral |
| SensorTag.Tag.Open | python/bpart_async/sensortag.py:57-58 | only the peripheral's address check |
| SensorTag.Tag.HandleNotification | python/bpart_async/sensortag.py:128-165 | the reading the notification decodes to |
| SensorTag.Tag.SwitchSensor | python/bpart_async/sensortag.py:194-257 | the switch write of the sensor |
| SensorTag.Tag.CalibrateBarometer | python/bpart_async/sensortag.py:224-227 | the calibration write |
| SensorTag.Tag.ActivateNotifications | python/bpart_async/sensortag.py:169-173 | the four notification writes |
| SensorTag.Tag.SwitchAllOn | python/bpart_async/sensortag.py:184-189 | the switch writes in order |
| SensorTag.Tag.Initialize | python/bpart_async/sensortag.py:177-192 | the initialize sequence |
| SyncBPart.BPartUuidText | python/bpart_sync/bpart.py:15 | the text is at least 36 characters |
| SyncBPart.BPartUuid | python/bpart_sync/bpart.py:11-15 | a UUID made by `_bpart_UUID` is valid |
| SyncBPart.PrintsAs | python/bpart_sync/bpart.py:15 | a dashed UUID text prints back with its first group in lower case |
| SyncBPart.BPartUuidPrints | python/bpart_sync/bpart.py:11-15 | every number that fits makes a valid UUID printing as its digits and the fixed tail |
| SyncBPart.RangeDigits | python/bpart_sync/bpart.py:15 | the digits of the bPart range are "4B822F" and two more |
| SyncBPart.RangeUuid | python/bpart_sync/bpart.py:11-15 | the UUID of sensor 0xF00+16a+b prints as "4b822fab-3941-4a4b-a3cc-b2602ffe0d00" |
| SyncBPart.ServiceOffset | python/bpart_sync/bpart.py:42 | the service numbers lie in 0xF00..0xF3F |
| SyncBPart.DataOffset | python/bpart_sync/bpart.py:43 | each data UUID number is its service's number plus one |
| SyncBPart.SensorNumbers | python/bpart_sync/bpart.py:42-99 | the numbers the four sensor classes are declared with |
| SyncBPart.ServiceUuidPrints | python/bpart_sync/bpart.py:42-99 | each service UUID prints as its group and the shared tail |
| SyncBPart.DataUuidPrints | python/bpart_sync/bpart.py:42-99 | each data UUID prints as its group and the shared tail |
| SyncBPart.TemperatureText | python/bpart_async/bpart.py:38-51 | the asynchronous temperature UUID text |
| SyncBPart.LightText | python/bpart_async/bpart.py:38-51 | the asynchronous light UUID text |
| SyncBPart.HumidityText | python/bpart_async/bpart.py:38-51 | the asynchronous humidity UUID text |
| SyncBPart.AccelerationText | python/bpart_async/bpart.py:38-51 | the asynchronous acceleration UUID text |
| SyncBPart.AsyncServiceUuid | python/bpart_async/bpart.py:38-51 | the asynchronous UUID texts have the same shape |
| SyncBPart.ServiceUuidsAgree | python/bpart_sync/bpart.py:42-99 | each synchronous service UUID prints as the asynchronous one |
| SyncBPart.BindData | python/bpart_sync/bpart.py:29 | the sensor's data characteristic is in the service's cache and has the data UUID |
| SyncBPart.Open | python/bpart_sync/bpart.py:122-128 | a failed connection is what `BPart(addr)` raises; a built device keeps its address |
| SyncBPart.BindSensor | python/bpart_sync/bpart.py:23-29 | binding finds the service under its printed UUID (else KeyError) and its data characteristic |
| SyncBPart.NoDataCharacteristic | python/bpart_sync/bpart.py:29 | a service without the data characteristic raises IndexError |
| SyncBPart.SensorOf | python/bpart_sync/bpart.py:125-128 | the attribute holding a sensor |
| SyncBPart.OpenedDevice | python/bpart_sync/bpart.py:122-128 | an opened device was linked, keeps its address and binds every sensor to its data UUID |
| SyncBPart.DiscoveryFirst | python/bpart_sync/bpart.py:124 | a failed discovery is the error raised |
| SyncBPart.TemperatureFirst | python/bpart_sync/bpart.py:125 | with no temperature service the error is KeyError, whatever else is offered |
| SyncBPart.Decode | python/bpart_sync/bpart.py:48-113 | a read needs exactly its sensor's size (else struct.error); only the accelerometer gives axes |
| SyncBPart.DecodeRoundTrip | python/bpart_sync/bpart.py:48-113 | each sensor reads back the value its device packed |
| SyncBPart.DecodeAgreesWithNotifications | python/bpart_sync/bpart.py:48-113 | the synchronous reads agree with the asynchronous notification parsers |
| SyncGateway.Absorb | python/bpart_sync/main.py:55-57 | the connected devices gain the queued addresses |
| SyncGateway.AbsorbLatest | python/bpart_sync/main.py:57 | a later queued device replaces an earlier one |
| SyncGateway.AbsorbKeeps | python/bpart_sync/main.py:55-57 | an address no queued device has keeps its device |
| SyncGateway.ReadDevice | python/bpart_sync/main.py:61-75 | a device is marked unreachable only after a lost read; it sends exactly when all four reads fit |
| SyncGateway.SentCarries | python/bpart_sync/main.py:62-67 | a device that sends carries the four decoded values |
| SyncGateway.TemperatureReadFirst | python/bpart_sync/main.py:62-65 | a bad temperature read raises before a lost humidity read is seen |
| SyncGateway.PollFrom | python/bpart_sync/main.py:59-75 | a pass fails only with struct.error |
| SyncGateway.PollMarks | python/bpart_sync/main.py:59-75 | a completed pass marks exactly the unreachable devices, each once; it fails exactly when a device raised |
| SyncGateway.PollStep | python/bpart_sync/main.py:60-75 | one device: it raises, is marked or uploads |
| SyncGateway.PollUploads | python/bpart_sync/main.py:67-70 | every upload comes from a polled device whose reads succeeded |
| SyncGateway.ReachableUploads | python/bpart_sync/main.py:60-70 | every device whose reads succeed uploads |
| SyncGateway.RequeueAsWritten | python/bpart_sync/main.py:120-121 | `set.append` raises AttributeError whenever the queue is not empty |
| SyncGateway.Requeue | python/bpart_sync/main.py:120-121 | with `add`, every queued address joins the set |
| SyncGateway.LostDeviceReturns | python/bpart_sync/main.py:78-121 | a lost device makes the connector fail as written; with `add` it is tried again |
| SyncGateway.Build | python/bpart_sync/bpart.py:122-128 | a built bPart keeps its address |
| SyncGateway.RadioAddressed | python/bpart_sync/bpart.py:122-128 | building over the radio keeps addresses |
| SyncGateway.ConnectFrom | python/bpart_sync/main.py:123-131 | one device per connected address; a failure is AttributeError or not a BTLEException |
| SyncGateway.ConnectHandsOver | python/bpart_sync/main.py:124-128 | each device handed over is the one built for its address |
| SyncGateway.ConnectAll | python/bpart_sync/main.py:123-134 | a completed pass connects every address that builds, each once |
| SyncGateway.ConnectCompletes | python/bpart_sync/main.py:125-131 | only BTLEExceptions are caught: with a gateway such a pass completes |
| SyncGateway.Gateway.constructor | python/bpart_sync/main.py:27-33 | no connected devices, an empty queue, running |
| SyncGateway.Gateway.AddConnectedDevice | python/bpart_sync/main.py:92-97 | the device joins the back of the queue |
| SyncGateway.Gateway.Stop | python/bpart_sync/main.py:99-100 | clears running only |
| SyncGateway.Gateway.Drain | python/bpart_sync/main.py:55-57 | every queued device is stored under its address; the queue is empty |
| SyncGateway.Gateway.Poll | python/bpart_sync/main.py:59-75 | the uploads and lost devices of the pass |
| SyncGateway.Gateway.HandBack | python/bpart_sync/main.py:78-80 | lost devices are deleted and queued at the connector; without a connector AttributeError; the connector's set, `running` and gateway stay |
| SyncGateway.Gateway.Step | python/bpart_sync/main.py:54-80 | afterwards the connected devices are exactly the absorbed ones still reachable; the lost ones join the connector's queue, or raise AttributeError without a connector; the connector's other fields stay |
| SyncGateway.Gateway.Shutdown | python/bpart_sync/main.py:83-88 | every device is disconnected; the ones that raised are reported and stop nothing |
| SyncGateway.Connector.constructor | python/bpart_sync/main.py:110-115 | the configured addresses, an empty queue, running |
| SyncGateway.Connector.AddDisconnectedDevice | python/bpart_sync/main.py:136-141 | the address joins the back of the queue |
| SyncGateway.Connector.SetGateway | python/bpart_sync/main.py:143-147 | sets the gateway only |
| SyncGateway.Connector.Stop | python/bpart_sync/main.py:149-153 | clears running only |
| SyncGateway.Connector.DrainAsWritten | python/bpart_sync/main.py:120-121 | a non-empty queue raises AttributeError and changes nothing |
| SyncGateway.Connector.Drain | python/bpart_sync/main.py:120-121 | with `add`, the queue empties into the set |
| SyncGateway.Connector.Connect | python/bpart_sync/main.py:123-134 | built devices go to the gateway's queue; connected addresses leave the set; the gateway's devices, uploads, disconnects and `running` stay |
| SyncGateway.Connector.StepAsWritten | python/bpart_sync/main.py:119-134 | a returned device makes the pass fail with AttributeError; only the gateway's queue can change |
| SyncGateway.Connector.Step | python/bpart_sync/main.py:119-134 | afterwards the set is exactly the requeued addresses that did not build; only the gateway's queue can change |

## Left out

- `pexpect`, `gatttool` and the threads are not executed. Each listing, reply and notification is an input; `Thread.start`/`join` and `Queue` blocking are not modelled.
- Only one pass of each `while self.running` loop of bpart_sync/main.py is modelled, as `Step`; another thread's `stop` is the caller's choice between passes.
- `urllib2` is not executed. An upload is recorded as a URL and a payload; HTTP errors, which the source only logs, are not modelled. Other failures of `urlopen` (a URLError such as a refused connection) are not caught by `_sendDataToCumulus` (bpart.py:159-168, btle_alt.py:262-271, main.py:41-50). They would skip the reset of the four slots and end `run` (bpart.py:138, btle_alt.py:249), or get past the `except BTLEException` and end the gateway thread (main.py:70-73). The model treats every upload as made: AsyncBPart.HandleSpec, AltBPart.NotificationSpec and SyncGateway.PollFrom always record it and go on.
- JSON text is not produced: the payload is the `data` object's entries. Floating-point values are kept as a raw integer and a divisor (temperature /1000, acceleration /16000).
- `print`, `logging`, `time.sleep` and `random` are left out. `config.CUMULUS_URL`, `config.DEVICES` and `READ_INTERVAL` are parameters.
- Python dictionaries and sets iterate in an unspecified order. That order is an input (`order`, a permutation of the keys); `Peripheral.services` is an insertion-ordered list.
- The `btle` module the synchronous bPart imports is not part of this model. Its reads and its BTLEException are inputs (`Reads`, `Builds`, `Radio`). Its discovery and lookups are assumed to behave as those of the asynchronous btle.py: SyncBPart.Open, BindSensor and BindData discover services from gatttool's listing text (`Btle.DiscoverFrom`), look a service up by its printed UUID with KeyError when it is missing (`Btle.ServiceIndex`), and filter the characteristics by UUID (`Gatt.ServiceChars`).
- The unused `disconnectedDevices` field of the synchronous `Gateway` is not modelled.
- The async getters `getLight` … `getAcceleration` (bpart.py:225-247) and `getMagnetometer` … `getGyroscope` (sensortag.py:260-300) only copy a field and are left out.
- `readCharacteristic` by handle (btle.py:336-351), `getDescriptors`, `setSecurityLevel`, `setMTU`, `__del__`, `friendlyName`, `__str__` of Service and Characteristic, and the `__main__`/test drivers are left out: nothing in the core calls them.
- SensorTag.ParseAxes: the scaling of the magnetometer and gyroscope readings is not modelled (floating point).
- SensorTag.ParseHumidity: the conversion to degrees and percent is not modelled (floating point); the barometer and the IR temperature are kept as undecoded text for the same reason.
- AsyncBPart.ParseTemperature: gives the raw value before the division by 1000.0.
- Btle.Peripheral.Run: observed over finite input sequences; running out of them ends the run as `OutOfInput`. The subclass's `initialize` and `_handleNotification` are inputs too: one outcome per call, not tied to the subclass's own state.
- Hex.ParseHexInt: Python's `int(s, 16)` also accepts surrounding whitespace and a leading sign (`int(' 1a', 16) == 26`, `int('-1a', 16) == -26`); the model rejects them with ValueError. The handles it reads are tokens of gatttool's output split at spaces (btle.py:300, bpart.py:108), and gatttool prints them as `0x` and four hex digits, with neither.
- AltBPart.BPart.Run: observed for at most `rounds` passes of its main loop.
- SyncGateway.Gateway.Shutdown: whether `disconnect` raises is an input `fails`.

## Findings

| source | as written | input that shows it | evidently intended | confidence | as-written member | corrected member |
|---|---|---|---|---|---|---|
| python/bpart_async/btle.py:230-232 | `deactivateNotifications` writes `0100` to every notification handle, which switches notifications on | any connected peripheral with its handles listed and the writes acknowledged: the requests are the ones `activateNotifications` sends | write `0000` to switch them off | not executed | Btle.Peripheral.DeactivateNotifications, Btle.DeactivationRewritesOn | Btle.Peripheral.DeactivateNotificationsIntended, Btle.DeactivationRewritesOn |
| python/bpart_sync/main.py:112-121 | the connector's `disconnectedDevices` is a `set`, and its drain calls `append`, which sets do not have | the gateway hands back one unreachable device: the connector's next pass raises AttributeError and the thread ends | `add` the address, so the device is tried again | not executed | SyncGateway.Connector.DrainAsWritten, SyncGateway.LostDeviceReturns | SyncGateway.Connector.Drain, SyncGateway.Connector.Step |
| python/bpart_async/btle.py:124-125 | the ValueError for a malformed address formats `repr(addr)`, an undefined name | `Peripheral("00:07:80")` raises NameError instead of ValueError | raise the ValueError with `deviceAddr` | not executed | Btle.AddressCheck, Btle.ShortAddressNameError | Btle.AddressCheckIntended, Btle.Peripheral.OpenIntended |
