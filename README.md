# Samsung TV wall remote: command routing, aggregation and controller logic

This project models the decision logic of a controller for a wall of Samsung TVs. It proves properties of that logic. There are two programs.

**The HTTP backend (`backend/main.py`)** handles a bulk command in three steps:

- It rejects an empty list of addresses.
- It runs one task per address. Each task picks a controller function from fixed preference lists, calls it and normalises the value it returns into one record. An exception becomes a failure record.
- It folds the results, in request order, into the response list and the success and failure counts.

**The controller module (`backend/samsung_controller.py`)** keeps a table of TVs keyed by IP address. The module covers:

- reading a TV's name;
- merging fields into a record;
- obtaining the control-channel token, from the table or by pairing;
- sending one key over the control channel;
- building and sending the Wake-on-LAN magic packet;
- three command handlers: power-on with a ten-ping wait, power-off, and generic keys;
- a command-line front end that parses targets, routes the command, collects results as they complete and splits them into successes and failures.

Modules:

- `Common` holds `Option`, `Outcome` (a value, or the message of the exception raised) and decimal formatting.
- `Devices` is the TV table: `get_tv_name` and `update_tv_info`.
- `WakeOnLan` decodes the MAC the way `bytes.fromhex` does and builds the magic packet.
- `Controller` states the controller's operations as functions, each with an `Effect`: the result, the table afterwards and the frames written to the network. The `TvController` class runs the same steps on its own `tvs` and `wire` fields. Each method is proved equal to its function.
- `Api` covers routing, normalisation and the bulk request of the backend.
- `Cli` covers target parsing, command routing, result collection and the summary split.

The model treats everything the programs observe from outside as an input:

- ping answers, pairing replies and control-channel replies;
- the error raised by the UDP send;
- the clock and measured elapsed times;
- exceptions that escape a task.

What the controller writes to the network is recorded as a `Frame`. That is how "nothing was sent" is stated.

## Model

| member | source | states |
|---|---|---|
| Api.FirstAvailable | backend/main.py:85-89 | the index returned is the first candidate present in the available functions; every earlier candidate is absent; it equals the length when none is present |
| Api.FindFirst | backend/main.py:99-104 | the `for`/`break` search loop returns exactly the first available candidate |
| Api.Route | backend/main.py:77-122 | per command. power-on: handle_power_on whenever it exists, else the first available wake alias, else KEY_POWER via send_key or send_command. power-off: KEY_POWER via the first available key sender. discover: the first discovery function. Any other command goes to the first key sender with the command as the key. The chosen function is always available, and later names are never chosen. None exactly when no candidate exists |
| Api.ControllerRouting | backend/main.py:77-122 | with the controller module's real function names, power-on calls handle_power_on, power-off and ordinary commands call send_key, and discover finds no function |
| Api.NormaliseAsWritten | backend/main.py:131-149 | the normalisation as the code does it: a (bool, str) pair reaches the catch-all branch and is reported as success with the message "Result: ..."; every other kind of result is treated as by `Normalise` |
| Api.FailedPairReportedAsSuccess | backend/main.py:137-140 | a failed (False, message) pair is reported as success as written, and as failure by the corrected normalisation |
| Api.Normalise | backend/main.py:131-149 | the corrected normalisation. dict: success is true iff its success is true, and its message is used with default "Unknown result". bool: itself, with "Command executed" or "Command failed". Pair: its flag and message. Other: its truth value and "Result: ...". The ip, command, response time and raw text are always carried over |
| Api.CommandForTv | backend/main.py:67-165 | no function found, or a function returning None, gives "Error: No suitable function found for command: ...". An exception gives "Error: ..." with no raw result. Otherwise the record of `NormaliseAsWritten`, as the code produces it. Every record without a raw result is a failure whose message starts "Error: " |
| Api.ExecuteCommandForTv | backend/main.py:67-165 | the step-by-step search, call and as-written normalisation give exactly `CommandForTv` |
| Api.Gathered | backend/main.py:243-255 | one outcome per address, each at the position of its address |
| Api.Entry | backend/main.py:264-276 | a raised task gives ip "unknown", success false, response time 0, a message starting "Exception: " and no raw result; a returned record is kept as is |
| Api.CountSucceeded | backend/main.py:277-278 | the number of records that report success is at most the number of outcomes |
| Api.SuccessCountMatchesEntries | backend/main.py:259-280 | the success count equals the number of entries in the response that report success |
| Api.ProcessResults | backend/main.py:259-280 | the fold builds the processed list entry by entry in order and counts the successes; success and failure counts sum to the number of results |
| Api.ExecuteBulkCommand | backend/main.py:229-292 | an empty list is rejected with status 400 "No TV IPs provided", and only then. Otherwise there is one entry per address, in request order rather than completion order, plus the success count. The two counts sum to the number of addresses, and a task that did not raise reports its own address |
| Api.FailedSendCountedAsSuccess | backend/main.py:117-140 | when `send_command` is the only key sender and it returns (False, message), the bulk request counts that TV as a success, with the message "Result: ..." |
| Devices.TvName | backend/samsung_controller.py:75-77 | the stored name; "Unknown TV (<ip>)" when there is no record, the record is empty or it has no name |
| Devices.Updated | backend/samsung_controller.py:84-91 | an unknown address leaves the table unchanged. Otherwise only that record changes: the given fields override, the other fields stay, and last_updated is the clock reading. The set of addresses is unchanged |
| Devices.NameAfterUpdate | backend/samsung_controller.py:75-91 | after an update, the reported name changes only for the updated address, and only when the update sets "name" |
| Devices.UpdateIdempotent | backend/samsung_controller.py:84-91 | repeating the same update at the same time changes nothing further |
| WakeOnLan.RemoveSeparators | backend/samsung_controller.py:116 | the result has no ':' or '-' and is no longer than the input; text without separators is unchanged |
| WakeOnLan.RemoveSeparatorsAppend | backend/samsung_controller.py:116 | removing separators distributes over concatenation |
| WakeOnLan.FirstNonAscii | backend/samsung_controller.py:116 | the position of the first non-ASCII character, which `bytes.fromhex` reports before anything else |
| WakeOnLan.DecodePairs | backend/samsung_controller.py:116 | the reported error position lies within the decoded text |
| WakeOnLan.FromHex | backend/samsung_controller.py:116 | the reported error position lies within the argument |
| WakeOnLan.HexPairsAscii | backend/samsung_controller.py:116 | hex encoding, in either case, gives two hex digits per byte |
| WakeOnLan.DecodeHexPairs | backend/samsung_controller.py:116 | decoding the hex pairs of any bytes, upper or lower case, gives back those bytes |
| WakeOnLan.FormatMacStripped | backend/samsung_controller.py:116 | removing ':' or '-' from a formatted address leaves its bare hex pairs |
| WakeOnLan.ParseMac | backend/samsung_controller.py:116-118 | it returns exactly when the stripped text decodes to six bytes, and then returns those bytes. A decoding to any other length raises "Invalid MAC". A bad character raises the decoder's message with its position |
| WakeOnLan.ParseFormattedMac | backend/samsung_controller.py:116-118 | any six-byte address written in upper- or lower-case hex with ':' or '-' separators parses back to itself |
| WakeOnLan.Repeat | backend/samsung_controller.py:119 | n copies have n times the length |
| WakeOnLan.RepeatSplit | backend/samsung_controller.py:119 | in n copies, the k-th copy sits between the first k copies and the remaining n-k-1 |
| WakeOnLan.PacketSlot | backend/samsung_controller.py:119 | after a six-byte prefix, the k-th of n copies of a six-byte address sits at bytes 6+6k to 12+6k |
| WakeOnLan.MagicPacket | backend/samsung_controller.py:119 | 102 bytes: six 0xFF bytes, then the MAC in each of the 16 six-byte slots |
| WakeOnLan.SendWolPacket | backend/samsung_controller.py:113-125 | a packet is sent iff the MAC parses to six bytes and the send does not raise. The packet is then the magic packet and the message "WOL packet sent to <broadcast>". Every failure is (False, "Error sending WOL packet: ...") and sends nothing |
| Controller.Token | backend/samsung_controller.py:128-153 | no record (or an empty one) gives None. A stored token, when pairing is not forced, is returned without pairing. When pairing is forced or no token is stored, the reply's non-empty token is stored and returned, and otherwise the result is None with the table unchanged. A token is never empty. Nothing is sent |
| Controller.Send | backend/samsung_controller.py:156-189 | no token gives "Authentication token not available". Success holds exactly when a token was found, the first event is "ms.channel.connect" and the key was sent; then one key press went out with the message "Sent <key>". An unreachable channel fails with its error, any other event with the event's message (default "Connection issue"), and a failed send with its error. The stored token is cleared exactly when the first event is "ms.channel.unauthorized" |
| Controller.TokenKeptUnlessUnauthorized | backend/samsung_controller.py:169-172 | with a stored token, a send that was not answered "unauthorized" leaves the table unchanged |
| Controller.UnauthorizedClearsToken | backend/samsung_controller.py:169-172 | after an "unauthorized" answer the record's token is null, so the next token lookup pairs again: it yields the pairing reply's token, or None |
| Controller.GenericCommand | backend/samsung_controller.py:278-284 | a TV that does not answer the ping gives failure "TV is off.", with nothing sent and the table unchanged; otherwise the send's success and message. Success holds exactly when the key was sent |
| Controller.PowerOff | backend/samsung_controller.py:241-275 | a TV that does not answer gives success "TV is already off (unresponsive to ping).", with nothing sent; otherwise the result of sending KEY_POWER, with the fixed success or failure message |
| Controller.PowerOnWakesConfiguredTv | backend/samsung_controller.py:207-231 | an off TV whose record holds a well-formed MAC (either case, ':' or '-') is sent exactly one magic packet of that address, a 102-byte one, to its broadcast address on port 9 whenever the send does not raise, and the handler reports success |
| Controller.OffTvOutcomes | backend/samsung_controller.py:249-255 | on a TV that does not answer, power-off succeeds and a generic key fails; neither sends anything or changes the table |
| Controller.PowerOn | backend/samsung_controller.py:193-238 | a TV that is on gives "TV is already on.". An off TV with no record raises the AttributeError "'NoneType' object has no attribute 'get'" and sends nothing. A missing MAC gives failure "No MAC address configured.". Otherwise the result of `SendWolPacket` for the stored MAC and broadcast address (default "10.10.111.255") decides. A failure carries its message and sends nothing. A success sends one datagram with the magic packet of that MAC to that address on port 9, and reports "TV successfully powered on." if a later ping answers, else the timed-out message. The table never changes |
| Controller.TvController.AllTvs | backend/samsung_controller.py:80-81 | every configured address exactly once |
| Controller.TvController.UpdateTvInfo | backend/samsung_controller.py:84-91 | the table becomes `Updated` of the old table |
| Controller.TvController.GetToken | backend/samsung_controller.py:128-153 | the token and the new table are those of `Token` |
| Controller.TvController.SendCommand | backend/samsung_controller.py:156-189 | the result and the new table are those of `Send`, and the frames of `Send` are appended to the wire |
| Controller.TvController.ProcessGenericCommand | backend/samsung_controller.py:278-284 | the report, table and wire follow `GenericCommand` |
| Controller.TvController.HandlePowerOff | backend/samsung_controller.py:241-275 | the report, table and wire follow `PowerOff` |
| Controller.TvController.HandlePowerOn | backend/samsung_controller.py:193-238 | the ten-ping loop gives the outcome of `PowerOn`; the wire gets its frames |
| Cli.TrimStart | backend/samsung_controller.py:356 | the result is a suffix; everything dropped is whitespace, and the result does not start with whitespace |
| Cli.TrimEnd | backend/samsung_controller.py:356 | the result is a prefix; everything dropped is whitespace, and the result does not end with whitespace |
| Cli.Strip | backend/samsung_controller.py:356 | neither end of the result is whitespace |
| Cli.TrimStartPadded | backend/samsung_controller.py:356 | stripping the left removes exactly a leading run of whitespace |
| Cli.TrimEndPadded | backend/samsung_controller.py:356 | stripping the right removes exactly a trailing run of whitespace |
| Cli.StripPadded | backend/samsung_controller.py:356 | stripping removes exactly the whitespace around an address and nothing inside it |
| Cli.StripKeepsOut | backend/samsung_controller.py:356 | stripping introduces no character, so an address piece without a comma stays without one |
| Cli.StripTrimmed | backend/samsung_controller.py:356 | an address without surrounding whitespace is left unchanged by stripping |
| Cli.Split | backend/samsung_controller.py:356 | at least one piece, no piece holds the separator, and joining the pieces gives back the text |
| Cli.SplitJoin | backend/samsung_controller.py:356 | splitting undoes joining pieces that do not contain the separator |
| Cli.SplitPiece | backend/samsung_controller.py:356 | text without the separator splits into itself |
| Cli.SplitWithSeparator | backend/samsung_controller.py:356 | splitting at the first separator gives the piece before it, then the split of the rest |
| Cli.ParseTargetList | backend/samsung_controller.py:356 | one stripped address per comma-separated piece; none contains a comma or surrounding whitespace |
| Cli.ParseJoinedTargets | backend/samsung_controller.py:353-357 | a comma-joined list of clean addresses parses back to the same list |
| Cli.Targets | backend/samsung_controller.py:353-357 | "all" gives every configured address once each; anything else gives the parsed list |
| Cli.PlanFor | backend/samsung_controller.py:359-374 | power-on and power-off select their handlers. Any other command selects the generic handler exactly when the key table maps it to a non-empty key. Otherwise the command is unknown |
| Cli.Jobs | backend/samsung_controller.py:365-374 | an unknown command dispatches nothing; otherwise there is one handler call per target, with that target's address and the command's key |
| Cli.Collect | backend/samsung_controller.py:382-395 | one entry per job, in completion order. Each entry is the handler's report, or a failure carrying the exception message and the TV's name. Every job's entry is present |
| Cli.Filter | backend/samsung_controller.py:398-399 | the kept reports are exactly the reports of `results` with the given outcome, and there are no more of them than results |
| Cli.FilterAppend | backend/samsung_controller.py:398-399 | filtering a concatenation is the concatenation of the filtered pieces, so each list keeps the relative order of `results` |
| Cli.FilterSplits | backend/samsung_controller.py:398-399 | each report lands in exactly one of the two lists: sizes sum to the number of results and the multisets add up |
| Cli.Partition | backend/samsung_controller.py:398-399 | the two lists' sizes sum to the number of results. The first holds exactly the successful results and the second exactly the failed ones. Together they hold exactly the results, as a multiset. For every split of `results` into a prefix and a suffix, each list is the filtered prefix followed by the filtered suffix, which is the order of `results` |

## Left out

- Websocket connections, TLS options and the UDP socket (backend/samsung_controller.py:120-122, 140-152, 165-189) are network I/O. Their outcomes are the `World` inputs `pairing`, `session` and `udpError`. What was written is recorded as frames.
- `is_tv_on` runs `ping` as a subprocess, depending on the platform. It is the oracle `World.probe`, indexed by the ping's number within one handler call.
- Loading and saving tv_info.json and tv_keys.json is file I/O. The table and the key table are in-memory maps.
- The three-second sleeps in the power-on retry loop are not modelled. Only the ten pings and their outcome are.
- Concurrency is not modelled:
  - the backend's thread pool and `asyncio.gather` are an in-order map over the addresses;
  - the CLI's `as_completed` loop takes the handlers' outcomes and the completion order as inputs;
  - threads racing on tv_info.json, where one handler's save can overwrite another's token update, are not modelled. Each handler sees the table in isolation.
- Wall-clock times and `round` are floating point. Each TV's elapsed time is an input, and the bulk request's `total_time` is dropped from the response.
- The web framework is plumbing and is left out: the FastAPI app, CORS, the pydantic models, logging, `inspect` reflection, and the `/debug`, `/functions`, `/tvs`, `/commands` and `/health` endpoints. The detected function table is a set of names, and calling a function is the input `Env.invoke`.
- The CLI's argparse handling is CLI I/O and is left out: option parsing, `choices`, the required-argument check, `--list` and `--list-commands`. So is printing, including sorting the summary by name.
- Cli.Targets: for "all", the addresses follow the table's key set, not the file's insertion order, because a map has no order.
- Api.Normalise: a dict's `success` is modelled as absent, true or false. A non-boolean value, and its truthiness, are not modelled, and neither is a `success` key holding None.
- Fields of the TV table are strings or null. Other JSON types are not modelled.
- WakeOnLan.FromHex: follows the error positions of CPython 3.11's `bytes.fromhex`. Python 3.12 words the error for an odd number of digits differently; the model keeps one wording.
- Controller.PowerOn: a stored `broadcast_ip` of null is passed to the send unchanged. The oracle `udpError` decides whether that send raises.
- Controller.Send: the text of the exception raised when the JSON reply cannot be parsed is part of the `Unreachable` input, not derived.
- Api.ExecuteBulkCommand: the outcome of a call, the elapsed time and an escaping exception are inputs keyed by address, so a request that lists the same address twice gets the same outcome for both entries. The backend makes two independent calls there.
- Api.ExecuteBulkCommand: the HTTP status is a plain number. The response model's validation of the record fields is not modelled.

## Findings

| source | as written | input that shows it | evidently intended | confidence | as-written member | corrected member |
|---|---|---|---|---|---|---|
| backend/main.py:131-140 | a result that is neither dict nor bool is judged by `bool(result)`. A `(success, message)` tuple, which `send_command` and `send_wol_packet` return, is a non-empty tuple and so always truthy | a function table where `send_command` is chosen (no `send_key`), and `send_command` returns `(False, "Authentication token not available")`: the record says success with message "Result: (False, ...)", and the bulk request counts it as a success | a pair is judged by its first element, and its second element is the message | not executed; with the controller module as shipped `send_key` is preferred, so the case stays latent | Api.NormaliseAsWritten, Api.FailedPairReportedAsSuccess, Api.FailedSendCountedAsSuccess | Api.Normalise |

`Api.CommandForTv`, `Api.ExecuteCommandForTv` and `Api.ExecuteBulkCommand` follow the code as written, so they use `Api.NormaliseAsWritten`. `Api.Normalise` is the corrected definition. The two agree on every result that is not a pair.
