/**
 * The TV controller's command logic: token lookup and pairing, sending one key over the control
 * channel, and the power-on, power-off and generic command handlers.
 *
 * Every network probe is an input (`World`): the ping answers, the pairing reply, the reply on the
 * control channel and the error of the broadcast send. What the controller writes to the network, a
 * key press or a magic packet, is recorded as a `Frame`. Each spec function gives the result, the table
 * afterwards and the frames written; the `TvController` class runs the same steps on its own state.
 */
module Controller {
  import opened Common
  import opened Devices
  import opened WakeOnLan

  const ConnectEvent: string := "ms.channel.connect"
  const UnauthorizedEvent: string := "ms.channel.unauthorized"
  /** Broadcast address used for power-on when the record has none. */
  const DefaultBroadcast: string := "10.10.111.255"
  /** Pings made after the magic packet before giving up waiting. */
  const PollAttempts: nat := 10

  /** What reading the control channel's first event gave. */
  datatype Session =
    /** Opening the channel or reading from it raised. */
    | Unreachable(error: string)
    /** The first event, its message, and the error raised when sending the key (if any). */
    | Replied(event: Option<string>, message: Option<string>, sendError: Option<string>)

  datatype World = World(
    /** `is_tv_on(ip)` on the n-th ping of one handler call (ping 0 is the first). */
    probe: (string, nat) -> bool,
    /** `data.token` of the pairing reply; None when pairing raised. */
    pairing: string -> Option<Value>,
    /** The control channel opened with (ip, token). */
    session: (string, string) -> Session,
    /** What the UDP broadcast send raised, by broadcast address. */
    udpError: Value -> Option<string>,
    /** The clock, formatted as `last_updated` stores it. */
    now: string)

  /** Something the controller put on the network. */
  datatype Frame = KeyPress(ip: string, key: string) | WolDatagram(broadcast: Value, port: nat, payload: seq<byte>)

  /** The dict each handler returns. */
  datatype TvReport = TvReport(ip: string, name: Value, success: bool, message: string)

  /** A result together with the table afterwards and the frames written, in order. */
  datatype Effect<T> = Effect(value: T, tvs: Table, frames: seq<Frame>)

  // ---------------------------------------------------------------------------------------------
  // Specifications

  /** `get_token(ip, force_pairing)` */
  function Token(tvs: Table, ip: string, forcePairing: bool, w: World): (e: Effect<Option<string>>)
    ensures e.frames == []
    ensures !Known(tvs, ip) ==> e == Effect(None, tvs, [])
    ensures Known(tvs, ip) && !forcePairing && Truthy(Get(tvs[ip], "token")) ==>
              e == Effect(Some(tvs[ip]["token"].s), tvs, [])
    ensures e.value.Some? ==> e.value.value != ""
    // pairing, when forced or when no token is stored: the reply's token is stored and returned, else None
    ensures Known(tvs, ip) && (forcePairing || !Truthy(Get(tvs[ip], "token"))) ==>
              e == if w.pairing(ip).Some? && Truthy(w.pairing(ip).value)
                   then Effect(Some(w.pairing(ip).value.s), Updated(tvs, ip, map["token" := w.pairing(ip).value], w.now), [])
                   else Effect(None, tvs, [])
    // the only change to the table is storing a token obtained by pairing
    ensures e.tvs == tvs || (e.value.Some? && e.tvs == Updated(tvs, ip, map["token" := Str(e.value.value)], w.now))
  {
    if !Known(tvs, ip) then Effect(None, tvs, [])
    else if !forcePairing && Truthy(Get(tvs[ip], "token")) then Effect(Some(tvs[ip]["token"].s), tvs, [])
    else
      match w.pairing(ip)
      case Some(v) =>
        if Truthy(v) then Effect(Some(v.s), Updated(tvs, ip, map["token" := v], w.now), [])
        else Effect(None, tvs, [])
      case None => Effect(None, tvs, [])
  }

  /** `send_command` obtained a token and the channel's first event was "unauthorized". */
  predicate Unauthorized(tvs: Table, ip: string, w: World) {
    var t := Token(tvs, ip, false, w);
    t.value.Some? && w.session(ip, t.value.value).Replied? &&
    w.session(ip, t.value.value).event == Some(UnauthorizedEvent)
  }

  /** `send_command(ip, key)`: (success, message). */
  function Send(tvs: Table, ip: string, key: string, w: World): (e: Effect<(bool, string)>)
    // success exactly when the key went out, with the message "Sent <key>"
    ensures e.value.0 <==> e.frames == [KeyPress(ip, key)]
    ensures e.value.0 ==> e.value.1 == "Sent " + key
    ensures !e.value.0 ==> e.frames == []
    ensures Token(tvs, ip, false, w).value.None? ==>
              e == Effect((false, "Authentication token not available"), Token(tvs, ip, false, w).tvs, [])
    // the stored token is cleared exactly when the channel answered "unauthorized"
    ensures e.tvs == if Unauthorized(tvs, ip, w) then Updated(Token(tvs, ip, false, w).tvs, ip, map["token" := Null], w.now)
                     else Token(tvs, ip, false, w).tvs
    ensures Unauthorized(tvs, ip, w) ==> !e.value.0
    // success exactly when a token was found, the channel answered "connect" and the key went out
    ensures var t := Token(tvs, ip, false, w).value;
            e.value.0 <==> t.Some? && w.session(ip, t.value).Replied? &&
                           w.session(ip, t.value).event == Some(ConnectEvent) && w.session(ip, t.value).sendError.None?
    // the message of each failure
    ensures var t := Token(tvs, ip, false, w).value;
            t.Some? ==>
              var reply := w.session(ip, t.value);
              (reply.Unreachable? ==> e.value == (false, reply.error)) &&
              (reply.Replied? && reply.event != Some(ConnectEvent) ==>
                 e.value == (false, if reply.message.Some? then reply.message.value else "Connection issue")) &&
              (reply.Replied? && reply.event == Some(ConnectEvent) && reply.sendError.Some? ==>
                 e.value == (false, reply.sendError.value))
  {
    var t := Token(tvs, ip, false, w);
    match t.value
    case None => Effect((false, "Authentication token not available"), t.tvs, [])
    case Some(token) =>
      match w.session(ip, token)
      case Unreachable(err) => Effect((false, err), t.tvs, [])
      case Replied(event, message, sendError) =>
        if event != Some(ConnectEvent) then
          var cleared := if event == Some(UnauthorizedEvent) then Updated(t.tvs, ip, map["token" := Null], w.now) else t.tvs;
          Effect((false, message.GetOr("Connection issue")), cleared, [])
        else if sendError.Some? then Effect((false, sendError.value), t.tvs, [])
        else Effect((true, "Sent " + key), t.tvs, [KeyPress(ip, key)])
  }

  /** `process_generic_command(ip, key)` */
  function GenericCommand(tvs: Table, ip: string, key: string, w: World): (e: Effect<TvReport>)
    ensures e.value.ip == ip && e.value.name == TvName(tvs, ip)
    ensures !w.probe(ip, 0) ==> e == Effect(TvReport(ip, TvName(tvs, ip), false, "TV is off."), tvs, [])
    ensures w.probe(ip, 0) ==>
              var s := Send(tvs, ip, key, w);
              e.value.success == s.value.0 && e.value.message == s.value.1 && e.tvs == s.tvs && e.frames == s.frames
    ensures e.value.success <==> e.frames == [KeyPress(ip, key)]
  {
    var name := TvName(tvs, ip);
    if !w.probe(ip, 0) then Effect(TvReport(ip, name, false, "TV is off."), tvs, [])
    else
      var s := Send(tvs, ip, key, w);
      Effect(TvReport(ip, name, s.value.0, s.value.1), s.tvs, s.frames)
  }

  /** `handle_power_off(ip)`: an unreachable TV counts as already off; otherwise the outcome of sending KEY_POWER. */
  function PowerOff(tvs: Table, ip: string, w: World): (e: Effect<TvReport>)
    ensures e.value.ip == ip && e.value.name == TvName(tvs, ip)
    ensures !w.probe(ip, 0) ==>
              e == Effect(TvReport(ip, TvName(tvs, ip), true, "TV is already off (unresponsive to ping)."), tvs, [])
    ensures w.probe(ip, 0) ==>
              var s := Send(tvs, ip, "KEY_POWER", w);
              e.tvs == s.tvs && e.frames == s.frames && e.value.success == s.value.0 &&
              e.value.message == (if s.value.0 then "Power-off command sent successfully."
                                  else "Failed to send power-off command: " + s.value.1)
    ensures e.value.success <==> !w.probe(ip, 0) || e.frames == [KeyPress(ip, "KEY_POWER")]
  {
    var name := TvName(tvs, ip);
    if !w.probe(ip, 0) then Effect(TvReport(ip, name, true, "TV is already off (unresponsive to ping)."), tvs, [])
    else
      var s := Send(tvs, ip, "KEY_POWER", w);
      if s.value.0 then Effect(TvReport(ip, name, true, "Power-off command sent successfully."), s.tvs, s.frames)
      else Effect(TvReport(ip, name, false, "Failed to send power-off command: " + s.value.1), s.tvs, s.frames)
  }

  /** One of the pings after the magic packet answered. */
  predicate CameUp(ip: string, w: World) {
    exists i :: 1 <= i <= PollAttempts && w.probe(ip, i)
  }

  /** The broadcast address for a record: its own, or the subnet default. */
  function BroadcastFor(rec: Record): Value {
    if "broadcast_ip" in rec then rec["broadcast_ip"] else Str(DefaultBroadcast)
  }

  /** `handle_power_on(ip)`. It raises when the TV is off and the address has no record at all. */
  function PowerOn(tvs: Table, ip: string, w: World): (e: Effect<Outcome<TvReport>>)
    ensures e.tvs == tvs
    ensures w.probe(ip, 0) ==> e == Effect(Returned(TvReport(ip, TvName(tvs, ip), true, "TV is already on.")), tvs, [])
    ensures e.value.Raised? <==> !w.probe(ip, 0) && ip !in tvs
    ensures e.value.Raised? ==> e.frames == [] && e.value.error == "'NoneType' object has no attribute 'get'"
    ensures !w.probe(ip, 0) && ip in tvs && !Truthy(Get(tvs[ip], "mac")) ==>
              e.value == Returned(TvReport(ip, TvName(tvs, ip), false, "No MAC address configured.")) && e.frames == []
    // a report of success means the TV answered, or exactly one magic packet went out
    ensures e.value.Returned? && e.value.value.success && !w.probe(ip, 0) ==>
              |e.frames| == 1 && e.frames[0].WolDatagram? && e.frames[0].port == WolPort &&
              |e.frames[0].payload| == 102
    ensures e.value.Returned? && !e.value.value.success ==> e.frames == []
    ensures e.value.Returned? ==> e.value.value.ip == ip && e.value.value.name == TvName(tvs, ip)
    // an off TV with a MAC: the packet sent, and then verification or the noted timeout
    ensures !w.probe(ip, 0) && ip in tvs && Truthy(Get(tvs[ip], "mac")) ==>
              var broadcast := BroadcastFor(tvs[ip]);
              var wol := SendWolPacket(Get(tvs[ip], "mac").s, broadcast, w.udpError(broadcast));
              e.value.Returned? && e.value.value.success == wol.ok &&
              (!wol.ok ==> e.value.value.message == wol.message && e.frames == []) &&
              (wol.ok ==>
                 e.frames == [WolDatagram(broadcast, WolPort, MagicPacket(ParseMac(Get(tvs[ip], "mac").s).value))] &&
                 e.value.value.message == if CameUp(ip, w) then "TV successfully powered on."
                                          else "WOL sent, but verification timed out. TV may be booting slowly.")
  {
    var name := TvName(tvs, ip);
    if w.probe(ip, 0) then Effect(Returned(TvReport(ip, name, true, "TV is already on.")), tvs, [])
    else if ip !in tvs then Effect(Raised("'NoneType' object has no attribute 'get'"), tvs, [])
    else
      var mac := Get(tvs[ip], "mac");
      if !Truthy(mac) then Effect(Returned(TvReport(ip, name, false, "No MAC address configured.")), tvs, [])
      else
        var broadcast := BroadcastFor(tvs[ip]);
        var wol := SendWolPacket(mac.s, broadcast, w.udpError(broadcast));
        if !wol.ok then Effect(Returned(TvReport(ip, name, false, wol.message)), tvs, [])
        else
          var sent := [WolDatagram(broadcast, WolPort, wol.packet.value)];
          if CameUp(ip, w) then Effect(Returned(TvReport(ip, name, true, "TV successfully powered on.")), tvs, sent)
          else Effect(Returned(TvReport(ip, name, true,
                                        "WOL sent, but verification timed out. TV may be booting slowly.")), tvs, sent)
  }

  /** An off TV whose record holds a well-formed MAC, written in either case with ':' or '-', is woken by
      exactly one magic packet for that address, sent to its broadcast address on port 9, whenever the send
      does not raise; the handler then reports success. */
  lemma PowerOnWakesConfiguredTv(tvs: Table, ip: string, w: World, mac: seq<byte>, sep: char, upper: bool)
    requires !w.probe(ip, 0) && ip in tvs
    requires |mac| == 6 && (sep == ':' || sep == '-')
    requires Get(tvs[ip], "mac") == Str(FormatMac(mac, sep, upper))
    requires w.udpError(BroadcastFor(tvs[ip])).None?
    ensures PowerOn(tvs, ip, w).value.Returned? && PowerOn(tvs, ip, w).value.value.success
    ensures PowerOn(tvs, ip, w).frames == [WolDatagram(BroadcastFor(tvs[ip]), WolPort, MagicPacket(mac))]
    ensures |PowerOn(tvs, ip, w).frames[0].payload| == 102
  {
    ParseFormattedMac(mac, sep, upper);
    FormatMacStripped(mac, sep, upper);
    HexPairsAscii(mac, upper);
    assert |RemoveSeparators(FormatMac(mac, sep, upper))| == 12;
    assert Truthy(Get(tvs[ip], "mac"));
  }

  /** Power-off never fails on a TV that does not answer, while a generic key does. */
  lemma OffTvOutcomes(tvs: Table, ip: string, key: string, w: World)
    requires !w.probe(ip, 0)
    ensures PowerOff(tvs, ip, w).value.success && !GenericCommand(tvs, ip, key, w).value.success
    ensures PowerOff(tvs, ip, w).frames == [] && GenericCommand(tvs, ip, key, w).frames == []
    ensures PowerOff(tvs, ip, w).tvs == tvs && GenericCommand(tvs, ip, key, w).tvs == tvs
  {
  }

  /** A failed send leaves the stored token in place unless the TV called it unauthorized. */
  lemma TokenKeptUnlessUnauthorized(tvs: Table, ip: string, key: string, w: World)
    requires Known(tvs, ip) && Truthy(Get(tvs[ip], "token")) && !Unauthorized(tvs, ip, w)
    ensures Send(tvs, ip, key, w).tvs == tvs
  {
  }

  /** An "unauthorized" reply leaves the record with a null token, so the next send has to pair again. */
  lemma UnauthorizedClearsToken(tvs: Table, ip: string, key: string, w: World)
    requires Unauthorized(tvs, ip, w)
    ensures var after := Send(tvs, ip, key, w).tvs;
            ip in after && Get(after[ip], "token") == Null && !Truthy(Get(after[ip], "token"))
    ensures var after := Send(tvs, ip, key, w).tvs;
            Token(after, ip, false, w).value ==
              if w.pairing(ip).Some? && Truthy(w.pairing(ip).value) then Some(w.pairing(ip).value.s) else None
  {
    var t := Token(tvs, ip, false, w);
    assert ip in t.tvs;
    var after := Send(tvs, ip, key, w).tvs;
    assert "token" in after[ip];
    assert Known(after, ip);
  }

  // ---------------------------------------------------------------------------------------------
  // The controller on its own state

  class TvController {
    /** The contents of tv_info.json. */
    var tvs: Table
    /** Everything written to the network so far, in order. */
    var wire: seq<Frame>

    constructor (initial: Table)
      ensures tvs == initial && wire == []
    {
      tvs := initial;
      wire := [];
    }

    /** `get_all_tvs()`: every configured address, once each (the file's key order is not modelled). */
    method AllTvs() returns (ips: seq<string>)
      ensures |ips| == |tvs.Keys|
      ensures forall i :: 0 <= i < |ips| ==> ips[i] in tvs
      ensures forall ip :: ip in tvs ==> ip in ips
      ensures forall i, j :: 0 <= i < j < |ips| ==> ips[i] != ips[j]
    {
      ips := [];
      var rest := tvs.Keys;
      while rest != {}
        invariant rest <= tvs.Keys
        invariant forall i :: 0 <= i < |ips| ==> ips[i] in tvs && ips[i] !in rest
        invariant forall ip :: ip in tvs ==> ip in ips || ip in rest
        invariant forall i, j :: 0 <= i < j < |ips| ==> ips[i] != ips[j]
        invariant |ips| + |rest| == |tvs.Keys|
        decreases |rest|
      {
        var ip :| ip in rest;
        ips := ips + [ip];
        rest := rest - {ip};
      }
    }

    /** `update_tv_info(ip, **fields)` */
    method UpdateTvInfo(ip: string, fields: Record, now: string)
      modifies this`tvs
      ensures tvs == Updated(old(tvs), ip, fields, now)
    {
      if ip !in tvs {
        return;
      }
      var rec := tvs[ip] + fields;
      rec := rec["last_updated" := Str(now)];
      assert rec == tvs[ip] + fields + map["last_updated" := Str(now)];
      tvs := tvs[ip := rec];
    }

    method GetToken(ip: string, forcePairing: bool, w: World) returns (token: Option<string>)
      modifies this`tvs
      ensures token == Token(old(tvs), ip, forcePairing, w).value
      ensures tvs == Token(old(tvs), ip, forcePairing, w).tvs
    {
      if !Known(tvs, ip) {
        return None;
      }
      var stored := Get(tvs[ip], "token");
      if !forcePairing && Truthy(stored) {
        return Some(stored.s);
      }
      token := None;
      var reply := w.pairing(ip);
      if reply.Some? && Truthy(reply.value) {
        UpdateTvInfo(ip, map["token" := reply.value], w.now);
        token := Some(reply.value.s);
      }
    }

    method SendCommand(ip: string, key: string, w: World) returns (ok: bool, message: string)
      modifies this
      ensures var e := Send(old(tvs), ip, key, w);
              (ok, message) == e.value && tvs == e.tvs && wire == old(wire) + e.frames
    {
      var token := GetToken(ip, false, w);
      if token.None? {
        return false, "Authentication token not available";
      }
      match w.session(ip, token.value) {
        case Unreachable(err) =>
          ok, message := false, err;
        case Replied(event, reply, sendError) =>
          if event != Some(ConnectEvent) {
            if event == Some(UnauthorizedEvent) {
              UpdateTvInfo(ip, map["token" := Null], w.now);
            }
            ok, message := false, reply.GetOr("Connection issue");
          } else if sendError.Some? {
            ok, message := false, sendError.value;
          } else {
            wire := wire + [KeyPress(ip, key)];
            ok, message := true, "Sent " + key;
          }
      }
    }

    method ProcessGenericCommand(ip: string, key: string, w: World) returns (report: TvReport)
      modifies this
      ensures var e := GenericCommand(old(tvs), ip, key, w);
              report == e.value && tvs == e.tvs && wire == old(wire) + e.frames
    {
      var name := TvName(tvs, ip);
      if !w.probe(ip, 0) {
        return TvReport(ip, name, false, "TV is off.");
      }
      var ok, message := SendCommand(ip, key, w);
      report := TvReport(ip, name, ok, message);
    }

    method HandlePowerOff(ip: string, w: World) returns (report: TvReport)
      modifies this
      ensures var e := PowerOff(old(tvs), ip, w);
              report == e.value && tvs == e.tvs && wire == old(wire) + e.frames
    {
      var name := TvName(tvs, ip);
      if !w.probe(ip, 0) {
        return TvReport(ip, name, true, "TV is already off (unresponsive to ping).");
      }
      var ok, message := SendCommand(ip, "KEY_POWER", w);
      if ok {
        report := TvReport(ip, name, true, "Power-off command sent successfully.");
      } else {
        report := TvReport(ip, name, false, "Failed to send power-off command: " + message);
      }
    }

    /** The retry loop waits three seconds before each ping; the waiting is not modelled. */
    method HandlePowerOn(ip: string, w: World) returns (outcome: Outcome<TvReport>)
      modifies this`wire
      ensures var e := PowerOn(tvs, ip, w);
              outcome == e.value && wire == old(wire) + e.frames
    {
      var name := TvName(tvs, ip);
      if w.probe(ip, 0) {
        return Returned(TvReport(ip, name, true, "TV is already on."));
      }
      if ip !in tvs {
        return Raised("'NoneType' object has no attribute 'get'");
      }
      var mac := Get(tvs[ip], "mac");
      if !Truthy(mac) {
        return Returned(TvReport(ip, name, false, "No MAC address configured."));
      }
      var broadcast := BroadcastFor(tvs[ip]);
      var wol := SendWolPacket(mac.s, broadcast, w.udpError(broadcast));
      if !wol.ok {
        return Returned(TvReport(ip, name, false, wol.message));
      }
      wire := wire + [WolDatagram(broadcast, WolPort, wol.packet.value)];
      var attempt := 1;
      while attempt <= PollAttempts
        invariant 1 <= attempt <= PollAttempts + 1
        invariant forall i :: 1 <= i < attempt ==> !w.probe(ip, i)
      {
        if w.probe(ip, attempt) {
          return Returned(TvReport(ip, name, true, "TV successfully powered on."));
        }
        attempt := attempt + 1;
      }
      outcome := Returned(TvReport(ip, name, true, "WOL sent, but verification timed out. TV may be booting slowly."));
    }
  }
}
