/**
 * The device table kept in tv_info.json: one record per TV address, each record a dictionary of
 * string fields (name, model, mac, broadcast_ip, token, last_updated, ...). Loading and saving the
 * file are not modelled; the table is the value the file holds.
 */
module Devices {

  /** A field value as JSON stores it: a string or null. */
  datatype Value = Null | Str(s: string)

  /** One TV's record, and the table of records keyed by IP address. */
  type Record = map<string, Value>
  type Table = map<string, Record>

  /** Python truthiness of a field value: a non-empty string. */
  predicate Truthy(v: Value) {
    v.Str? && v.s != ""
  }

  /** `record.get(key)`: the stored value, or None when the key is absent. */
  function Get(rec: Record, key: string): Value {
    if key in rec then rec[key] else Null
  }

  /** `get_tv_info(ip)` is truthy: a record exists and is not the empty dictionary. */
  predicate Known(tvs: Table, ip: string) {
    ip in tvs && tvs[ip] != map[]
  }

  function UnknownName(ip: string): string {
    "Unknown TV (" + ip + ")"
  }

  /** `get_tv_name`: the stored name, or "Unknown TV (<ip>)" when there is no record, the record is empty,
      or it has no name field. */
  function TvName(tvs: Table, ip: string): (name: Value)
    ensures !Known(tvs, ip) || "name" !in tvs[ip] ==> name == Str(UnknownName(ip))
    ensures Known(tvs, ip) && "name" in tvs[ip] ==> name == tvs[ip]["name"]
  {
    if Known(tvs, ip) && "name" in tvs[ip] then tvs[ip]["name"] else Str(UnknownName(ip))
  }

  /** `update_tv_info(ip, **fields)` with the clock reading `now`: an unknown address leaves the table as it
      was; otherwise that one record gets the fields merged in and `last_updated` set. */
  function Updated(tvs: Table, ip: string, fields: Record, now: string): (t: Table)
    ensures t.Keys == tvs.Keys
    ensures ip !in tvs ==> t == tvs
    ensures forall other :: other in tvs && other != ip ==> t[other] == tvs[other]
    ensures ip in tvs ==>
              && t[ip].Keys == tvs[ip].Keys + fields.Keys + {"last_updated"}
              && t[ip]["last_updated"] == Str(now)
              && (forall k :: k in fields && k != "last_updated" ==> t[ip][k] == fields[k])
              && (forall k :: k in tvs[ip] && k !in fields && k != "last_updated" ==> t[ip][k] == tvs[ip][k])
  {
    if ip !in tvs then tvs
    else tvs[ip := tvs[ip] + fields + map["last_updated" := Str(now)]]
  }

  /** Updating a record changes the name reported for it only when the update sets "name". */
  lemma NameAfterUpdate(tvs: Table, ip: string, fields: Record, now: string, other: string)
    ensures TvName(Updated(tvs, ip, fields, now), other) ==
              if other == ip && ip in tvs && "name" in fields then fields["name"] else TvName(tvs, other)
  {
    var t := Updated(tvs, ip, fields, now);
    if other == ip && ip in tvs {
      assert "last_updated" in t[ip];
      assert Known(t, ip);
      if "name" !in fields && Known(tvs, ip) && "name" in tvs[ip] {
        assert t[ip]["name"] == tvs[ip]["name"];
      }
    }
  }

  /** Repeating the same update at the same time changes nothing more. */
  lemma UpdateIdempotent(tvs: Table, ip: string, fields: Record, now: string)
    ensures Updated(Updated(tvs, ip, fields, now), ip, fields, now) == Updated(tvs, ip, fields, now)
  {
    var once := Updated(tvs, ip, fields, now);
    if ip in tvs {
      var r := once[ip] + fields + map["last_updated" := Str(now)];
      assert r == once[ip];
      assert once[ip := r] == once;
    }
  }
}
