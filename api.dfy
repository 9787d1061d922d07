/**
 * The bulk-command endpoint of the API server: choosing which controller function to call for one TV,
 * turning what it returned into one result record, and folding the per-TV records of a bulk request
 * into the response with its success and failure counts.
 *
 * The thread pool and `asyncio.gather` are modelled as an in-order map over the requested addresses;
 * what a controller function returns (or raises) is given by the `invoke` oracle.
 */
module Api {
  import opened Common

  /** Wake-up functions tried in this order for "power-on" when `handle_power_on` is missing. */
  const PowerOnAliases: seq<string> := ["wake_tv", "power_on_tv", "turn_on_tv", "wake_on_lan"]
  /** Key-sending functions tried in this order for "power-off" and for every ordinary command. */
  const KeySenders: seq<string> := ["send_key", "send_command", "send_key_to_tv", "execute_command"]
  /** Discovery functions tried in this order for "discover". */
  const Discoverers: seq<string> := ["discover_tv", "discover", "find_tv", "scan_tv"]

  /** The functions the controller module actually defines: what auto-detection finds in it. */
  const ControllerFunctions: set<string> := {
    "load_tv_info", "save_tv_info", "load_tv_keys", "save_tv_keys", "get_tv_info", "get_tv_name",
    "get_all_tvs", "update_tv_info", "is_tv_on", "send_wol_packet", "get_token", "send_command",
    "handle_power_on", "handle_power_off", "process_generic_command", "send_key", "wake_tv",
    "power_on_tv", "power_off_tv", "main"
  }

  /** One call into the controller module: the function's name, the TV, and the key for functions that take one. */
  datatype Call = Call(name: string, ip: string, key: Option<string>)

  /** The kinds of value a controller function can return. `text` is the value's `str(...)`. */
  datatype RawResult =
    | NoneResult
      /** A dict; a key that is absent is None here. */
    | DictResult(success: Option<bool>, message: Option<string>, text: string)
    | BoolResult(flag: bool)
      /** A `(bool, str)` pair, the shape `send_command` and `send_wol_packet` return. */
    | PairResult(ok: bool, detail: string, text: string)
      /** Any other value, with its truth value. */
    | OtherResult(truthy: bool, text: string)

  /** `str(result)` */
  function Text(raw: RawResult): string {
    match raw
    case NoneResult => "None"
    case BoolResult(b) => if b then "True" else "False"
    case DictResult(_, _, t) => t
    case PairResult(_, _, t) => t
    case OtherResult(_, t) => t
  }

  /** The record reported for one TV (`response_time` in seconds, `raw_result` None on error). */
  datatype CommandResult = CommandResult(
    ip: string, command: string, success: bool, message: string, responseTime: real, rawResult: Option<string>)

  /** The bulk response; the total wall-clock time is not modelled. */
  datatype BulkReport = BulkReport(results: seq<CommandResult>, successCount: nat, failureCount: nat)

  datatype Response = Ok(report: BulkReport) | HttpError(status: nat, detail: string)

  /** What the server can observe of the world: the detected functions, what each call gives back,
      the elapsed time measured for each TV, and an exception escaping a task outside its own handler. */
  datatype Env = Env(
    available: set<string>,
    invoke: Call -> Outcome<RawResult>,
    elapsed: string -> real,
    taskError: string -> Option<string>)

  // ---------------------------------------------------------------------------------------------
  // Choosing the function to call

  /** The position of the first candidate that is available (|candidates| when there is none). */
  function FirstAvailable(candidates: seq<string>, available: set<string>): (k: nat)
    ensures k <= |candidates|
    ensures forall j :: 0 <= j < k ==> candidates[j] !in available
    ensures k < |candidates| ==> candidates[k] in available
  {
    if candidates == [] || candidates[0] in available then 0
    else 1 + FirstAvailable(candidates[1..], available)
  }

  /** The `for ... break ... else` search over a preference list. */
  method FindFirst(candidates: seq<string>, available: set<string>) returns (k: nat)
    ensures k == FirstAvailable(candidates, available)
  {
    k := 0;
    while k < |candidates|
      invariant k <= |candidates|
      invariant forall j :: 0 <= j < k ==> candidates[j] !in available
    {
      if candidates[k] in available {
        return;
      }
      k := k + 1;
    }
  }

  /** No candidate of the list is available. */
  predicate NoneAvailable(candidates: seq<string>, available: set<string>) {
    forall j :: 0 <= j < |candidates| ==> candidates[j] !in available
  }

  /** `name` is available and every candidate listed before it is not. */
  predicate FirstPreferred(name: string, candidates: seq<string>, available: set<string>) {
    name in available &&
    exists k :: 0 <= k < |candidates| && candidates[k] == name && forall j :: 0 <= j < k ==> candidates[j] !in available
  }

  function Pick(candidates: seq<string>, available: set<string>, ip: string, key: Option<string>): Option<Call> {
    var k := FirstAvailable(candidates, available);
    if k < |candidates| then Some(Call(candidates[k], ip, key)) else None
  }

  /** The function `execute_command_for_tv` calls for `command`, or None when it finds none. */
  function Route(command: string, ip: string, available: set<string>): (r: Option<Call>)
    ensures r.Some? ==> r.value.name in available && r.value.ip == ip
    // power-on: handle_power_on whenever it exists, else the first wake-up alias, else KEY_POWER
    ensures command == "power-on" && "handle_power_on" in available ==>
              r == Some(Call("handle_power_on", ip, None))
    ensures command == "power-on" && "handle_power_on" !in available && !NoneAvailable(PowerOnAliases, available) ==>
              r.Some? && r.value.key.None? && FirstPreferred(r.value.name, PowerOnAliases, available)
    ensures command == "power-on" && "handle_power_on" !in available && NoneAvailable(PowerOnAliases, available) ==>
              r == (if "send_key" in available then Some(Call("send_key", ip, Some("KEY_POWER")))
                    else if "send_command" in available then Some(Call("send_command", ip, Some("KEY_POWER")))
                    else None)
    // power-off: KEY_POWER through the first key sender
    ensures command == "power-off" ==>
              (r.None? <==> NoneAvailable(KeySenders, available)) &&
              (r.Some? ==> r.value.key == Some("KEY_POWER") && FirstPreferred(r.value.name, KeySenders, available))
    // discover: the first discovery function, called with the address only
    ensures command == "discover" ==>
              (r.None? <==> NoneAvailable(Discoverers, available)) &&
              (r.Some? ==> r.value.key.None? && FirstPreferred(r.value.name, Discoverers, available))
    // everything else: the command itself through the first key sender
    ensures command !in {"power-on", "power-off", "discover"} ==>
              (r.None? <==> NoneAvailable(KeySenders, available)) &&
              (r.Some? ==> r.value.key == Some(command) && FirstPreferred(r.value.name, KeySenders, available))
  {
    if command == "power-on" then
      if "handle_power_on" in available then Some(Call("handle_power_on", ip, None))
      else
        var wake := Pick(PowerOnAliases, available, ip, None);
        if wake.Some? then wake
        else if "send_key" in available then Some(Call("send_key", ip, Some("KEY_POWER")))
        else if "send_command" in available then Some(Call("send_command", ip, Some("KEY_POWER")))
        else None
    else if command == "power-off" then Pick(KeySenders, available, ip, Some("KEY_POWER"))
    else if command == "discover" then Pick(Discoverers, available, ip, None)
    else Pick(KeySenders, available, ip, Some(command))
  }

  /** With the controller module's real functions, power-on goes to `handle_power_on`, power-off and every
      ordinary command go to `send_key`, and "discover" finds nothing. */
  lemma ControllerRouting(command: string, ip: string)
    ensures command == "power-on" ==> Route(command, ip, ControllerFunctions) == Some(Call("handle_power_on", ip, None))
    ensures command == "power-off" ==> Route(command, ip, ControllerFunctions) == Some(Call("send_key", ip, Some("KEY_POWER")))
    ensures command == "discover" ==> Route(command, ip, ControllerFunctions).None?
    ensures command !in {"power-on", "power-off", "discover"} ==>
              Route(command, ip, ControllerFunctions) == Some(Call("send_key", ip, Some(command)))
  {
    assert KeySenders[0] == "send_key";
    if command == "discover" {
      assert NoneAvailable(Discoverers, ControllerFunctions);
    }
  }

  // ---------------------------------------------------------------------------------------------
  // Normalising what the chosen function returned

  /** The normalisation as written: a pair falls into the catch-all branch, where any non-empty tuple is truthy. */
  function NormaliseAsWritten(ip: string, command: string, raw: RawResult, elapsed: real): (r: CommandResult)
    ensures r.ip == ip && r.command == command && r.responseTime == elapsed && r.rawResult == Some(Text(raw))
    ensures raw.PairResult? ==> r.success && r.message == "Result: " + raw.text
    // every other kind of result is treated as the corrected normalisation treats it
    ensures !raw.PairResult? ==> r == Normalise(ip, command, raw, elapsed)
  {
    match raw
    case PairResult(_, _, t) => CommandResult(ip, command, true, "Result: " + t, elapsed, Some(t))
    case _ => Normalise(ip, command, raw, elapsed)
  }

  /** A failed `(False, message)` pair is reported, and counted, as a success by the code as written. */
  lemma FailedPairReportedAsSuccess(ip: string, command: string, detail: string, text: string, elapsed: real)
    ensures NormaliseAsWritten(ip, command, PairResult(false, detail, text), elapsed).success
    ensures !Normalise(ip, command, PairResult(false, detail, text), elapsed).success
  {
  }

  /** Turning a returned value into the TV's record: a dict gives its own `success` (default false) and
      `message` (default "Unknown result"), a bool gives itself with a fixed message, a pair gives its
      flag and its message, anything else its truth value. */
  function Normalise(ip: string, command: string, raw: RawResult, elapsed: real): (r: CommandResult)
    ensures r.ip == ip && r.command == command && r.responseTime == elapsed && r.rawResult == Some(Text(raw))
    ensures raw.DictResult? ==>
              (r.success <==> raw.success == Some(true)) &&
              r.message == (if raw.message.Some? then raw.message.value else "Unknown result")
    ensures raw.BoolResult? ==>
              r.success == raw.flag && r.message == (if raw.flag then "Command executed" else "Command failed")
    ensures raw.PairResult? ==> r.success == raw.ok && r.message == raw.detail
    ensures raw.OtherResult? ==> r.success == raw.truthy && r.message == "Result: " + raw.text
    ensures raw.NoneResult? ==> !r.success && r.message == "Result: None"
  {
    match raw
    case DictResult(s, m, t) => CommandResult(ip, command, s.GetOr(false), m.GetOr("Unknown result"), elapsed, Some(t))
    case BoolResult(b) =>
      CommandResult(ip, command, b, if b then "Command executed" else "Command failed", elapsed, Some(Text(raw)))
    case PairResult(ok, d, t) => CommandResult(ip, command, ok, d, elapsed, Some(t))
    case OtherResult(b, t) => CommandResult(ip, command, b, "Result: " + t, elapsed, Some(t))
    case NoneResult => CommandResult(ip, command, false, "Result: None", elapsed, Some("None"))
  }

  /** The record for an exception caught inside `execute_command_for_tv`. */
  function ErrorRecord(ip: string, command: string, error: string, elapsed: real): CommandResult {
    CommandResult(ip, command, false, "Error: " + error, elapsed, None)
  }

  /** `execute_command_for_tv`: pick, call, normalise as the code does; no exception escapes. */
  function CommandForTv(ip: string, command: string, available: set<string>,
                        invoke: Call -> Outcome<RawResult>, elapsed: real): (r: CommandResult)
    ensures r.ip == ip && r.command == command && r.responseTime == elapsed
    ensures Route(command, ip, available).None? ==>
              r == ErrorRecord(ip, command, "No suitable function found for command: " + command, elapsed)
    ensures Route(command, ip, available).Some? ==>
              var outcome := invoke(Route(command, ip, available).value);
              (outcome.Raised? ==> r == ErrorRecord(ip, command, outcome.error, elapsed)) &&
              (outcome == Returned(NoneResult) ==>
                 r == ErrorRecord(ip, command, "No suitable function found for command: " + command, elapsed)) &&
              (outcome.Returned? && outcome.value != NoneResult ==>
                 r == NormaliseAsWritten(ip, command, outcome.value, elapsed))
    ensures r.rawResult.None? ==> !r.success && "Error: " <= r.message
  {
    match Route(command, ip, available)
    case None => ErrorRecord(ip, command, "No suitable function found for command: " + command, elapsed)
    case Some(call) =>
      match invoke(call)
      case Raised(e) => ErrorRecord(ip, command, e, elapsed)
      case Returned(NoneResult) =>
        ErrorRecord(ip, command, "No suitable function found for command: " + command, elapsed)
      case Returned(raw) => NormaliseAsWritten(ip, command, raw, elapsed)
  }

  /** `execute_command_for_tv` step by step: the preference searches, the call, and the normalisation. */
  method ExecuteCommandForTv(ip: string, command: string, available: set<string>,
                             invoke: Call -> Outcome<RawResult>, elapsed: real) returns (r: CommandResult)
    ensures r == CommandForTv(ip, command, available, invoke, elapsed)
  {
    var call: Option<Call> := None;
    if command == "power-on" {
      if "handle_power_on" in available {
        call := Some(Call("handle_power_on", ip, None));
      } else {
        var k := FindFirst(PowerOnAliases, available);
        if k < |PowerOnAliases| {
          call := Some(Call(PowerOnAliases[k], ip, None));
        } else if "send_key" in available {
          call := Some(Call("send_key", ip, Some("KEY_POWER")));
        } else if "send_command" in available {
          call := Some(Call("send_command", ip, Some("KEY_POWER")));
        }
      }
    } else if command == "power-off" {
      var k := FindFirst(KeySenders, available);
      if k < |KeySenders| {
        call := Some(Call(KeySenders[k], ip, Some("KEY_POWER")));
      }
    } else if command == "discover" {
      var k := FindFirst(Discoverers, available);
      if k < |Discoverers| {
        call := Some(Call(Discoverers[k], ip, None));
      }
    } else {
      var k := FindFirst(KeySenders, available);
      if k < |KeySenders| {
        call := Some(Call(KeySenders[k], ip, Some(command)));
      }
    }
    assert call == Route(command, ip, available);

    var noFunction := "No suitable function found for command: " + command;
    if call.None? {
      return ErrorRecord(ip, command, noFunction, elapsed);
    }
    var outcome := invoke(call.value);
    if outcome.Raised? {
      r := ErrorRecord(ip, command, outcome.error, elapsed);
    } else if outcome.value == NoneResult {
      r := ErrorRecord(ip, command, noFunction, elapsed);
    } else {
      r := NormaliseAsWritten(ip, command, outcome.value, elapsed);
    }
  }

  // ---------------------------------------------------------------------------------------------
  // The bulk request

  /** What one task of the bulk request yields: the TV's record, or the exception the task raised. */
  function Task(ip: string, command: string, env: Env): Outcome<CommandResult> {
    match env.taskError(ip)
    case Some(e) => Raised(e)
    case None => Returned(CommandForTv(ip, command, env.available, env.invoke, env.elapsed(ip)))
  }

  /** `asyncio.gather(..., return_exceptions=True)`: one outcome per address, in the order of the addresses. */
  function Gathered(ips: seq<string>, command: string, env: Env): (g: seq<Outcome<CommandResult>>)
    ensures |g| == |ips|
    ensures forall i :: 0 <= i < |ips| ==> g[i] == Task(ips[i], command, env)
  {
    seq(|ips|, i requires 0 <= i < |ips| => Task(ips[i], command, env))
  }

  /** The entry a gathered outcome contributes to `processed_results`. */
  function Entry(t: Outcome<CommandResult>, command: string): (e: CommandResult)
    ensures t.Raised? ==> e.ip == "unknown" && e.command == command && !e.success && e.responseTime == 0.0 &&
                          e.message == "Exception: " + t.error && e.rawResult.None?
    ensures t.Returned? ==> e == t.value
  {
    match t
    case Raised(err) => CommandResult("unknown", command, false, "Exception: " + err, 0.0, None)
    case Returned(record) => record
  }

  function Processed(results: seq<Outcome<CommandResult>>, command: string): seq<CommandResult> {
    seq(|results|, i requires 0 <= i < |results| => Entry(results[i], command))
  }

  predicate Succeeded(t: Outcome<CommandResult>) {
    t.Returned? && t.value.success
  }

  /** How many gathered outcomes are records whose `success` is true. */
  function CountSucceeded(results: seq<Outcome<CommandResult>>): (n: nat)
    ensures n <= |results|
  {
    if results == [] then 0
    else CountSucceeded(results[..|results| - 1]) + (if Succeeded(results[|results| - 1]) then 1 else 0)
  }

  /** How many records of a list report success. */
  function CountSuccessful(records: seq<CommandResult>): nat {
    if records == [] then 0
    else CountSuccessful(records[..|records| - 1]) + (if records[|records| - 1].success then 1 else 0)
  }

  /** The success count is the number of entries in the response that report success. */
  lemma {:induction false} SuccessCountMatchesEntries(results: seq<Outcome<CommandResult>>, command: string)
    ensures CountSucceeded(results) == CountSuccessful(Processed(results, command))
  {
    if results != [] {
      var n := |results| - 1;
      assert Processed(results[..n], command) == Processed(results, command)[..n];
      SuccessCountMatchesEntries(results[..n], command);
    }
  }

  /** The fold over the gathered outcomes that builds `processed_results` and the two counts. */
  method ProcessResults(results: seq<Outcome<CommandResult>>, command: string)
    returns (processed: seq<CommandResult>, successCount: nat, failureCount: nat)
    ensures processed == Processed(results, command)
    ensures successCount == CountSucceeded(results)
    ensures successCount + failureCount == |processed| == |results|
  {
    processed, successCount, failureCount := [], 0, 0;
    for i := 0 to |results|
      invariant processed == Processed(results[..i], command)
      invariant successCount == CountSucceeded(results[..i])
      invariant successCount + failureCount == i
    {
      assert results[..i + 1][..i] == results[..i];
      match results[i]
      case Raised(e) =>
        processed := processed + [CommandResult("unknown", command, false, "Exception: " + e, 0.0, None)];
        failureCount := failureCount + 1;
      case Returned(record) =>
        processed := processed + [record];
        if record.success {
          successCount := successCount + 1;
        } else {
          failureCount := failureCount + 1;
        }
    }
    assert results[..|results|] == results;
  }

  /** `execute_bulk_command`: reject an empty list, run one task per address, fold the outcomes. */
  method ExecuteBulkCommand(ips: seq<string>, command: string, env: Env) returns (response: Response)
    ensures ips == [] <==> response.HttpError?
    ensures ips == [] ==> response == HttpError(400, "No TV IPs provided")
    ensures response.Ok? ==>
              var report := response.report;
              |report.results| == |ips| &&
              (forall i :: 0 <= i < |ips| ==> report.results[i] == Entry(Task(ips[i], command, env), command)) &&
              report.successCount == CountSucceeded(Gathered(ips, command, env)) &&
              report.successCount + report.failureCount == |ips|
    // entries keep the order of the request, whatever order the tasks finished in
    ensures response.Ok? ==>
              forall i :: 0 <= i < |ips| && env.taskError(ips[i]).None? ==>
                response.report.results[i].ip == ips[i] && response.report.results[i].command == command
  {
    if |ips| == 0 {
      return HttpError(400, "No TV IPs provided");
    }
    var gathered: seq<Outcome<CommandResult>> := [];
    for i := 0 to |ips|
      invariant |gathered| == i
      invariant forall k :: 0 <= k < i ==> gathered[k] == Task(ips[k], command, env)
    {
      var outcome: Outcome<CommandResult>;
      match env.taskError(ips[i]) {
        case Some(e) =>
          outcome := Raised(e);
        case None =>
          var record := ExecuteCommandForTv(ips[i], command, env.available, env.invoke, env.elapsed(ips[i]));
          outcome := Returned(record);
      }
      gathered := gathered + [outcome];
    }
    assert gathered == Gathered(ips, command, env);
    var processed, successCount, failureCount := ProcessResults(gathered, command);
    response := Ok(BulkReport(processed, successCount, failureCount));
  }

  /** The finding end to end: when `send_command` is the only key sender, a send that failed with
      `(False, message)` is counted as a success of the bulk request. */
  lemma FailedSendCountedAsSuccess(ip: string, command: string, env: Env, detail: string, text: string)
    requires command !in {"power-on", "power-off", "discover"}
    requires env.available == {"send_command"} && env.taskError(ip).None?
    requires env.invoke(Call("send_command", ip, Some(command))) == Returned(PairResult(false, detail, text))
    ensures CountSucceeded(Gathered([ip], command, env)) == 1
    ensures Entry(Gathered([ip], command, env)[0], command).message == "Result: " + text
  {
    assert FirstAvailable(KeySenders, env.available) == 1 by {
      assert KeySenders[0] !in env.available && KeySenders[1] in env.available;
    }
    assert Route(command, ip, env.available) == Some(Call("send_command", ip, Some(command)));
    var g := Gathered([ip], command, env);
    assert g[..0] == [];
  }
}
