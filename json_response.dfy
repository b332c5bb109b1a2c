/** `jsonResponse`: the `{ success, message, data }` envelope the affiliate routes answer with. */
module JsonResponse {
  import opened Wrappers

  /** A JSON value; serialisation to text is not modelled. */
  datatype Json = JNull | JBool(b: bool) | JNum(n: int) | JStr(s: string) | JObject(fields: seq<(string, Json)>)

  datatype Response = Response(status: int, contentType: string, body: Json)

  const DefaultData: Json := JNull
  const DefaultStatus: int := 200
  const DefaultMessage: string := ""

  /** The keys of an object, in order. */
  function Keys(j: Json): seq<string> {
    if j.JObject? then KeysOf(j.fields) else []
  }

  function KeysOf(fields: seq<(string, Json)>): (r: seq<string>)
    ensures |r| == |fields|
  {
    if fields == [] then [] else [fields[0].0] + KeysOf(fields[1..])
  }

  /** The value under `key` in an object (the first, if repeated). */
  function Get(j: Json, key: string): Option<Json> {
    if j.JObject? then GetIn(j.fields, key) else None
  }

  function GetIn(fields: seq<(string, Json)>, key: string): Option<Json> {
    if fields == [] then None
    else if fields[0].0 == key then Some(fields[0].1)
    else GetIn(fields[1..], key)
  }

  /** `jsonResponse(data, status, message)`. */
  function Respond(data: Json, status: int, message: string): (r: Response)
    ensures r.status == status && r.contentType == "application/json"
    ensures Keys(r.body) == ["success", "message", "data"]
    ensures Get(r.body, "success") == Some(JBool(status < 400))
    ensures Get(r.body, "message") == Some(JStr(message))
    ensures Get(r.body, "data") == Some(data)
  {
    var fields := [("success", JBool(status < 400)), ("message", JStr(message)), ("data", data)];
    assert fields[1..][1..][1..] == [];
    assert "success"[0] != "message"[0] && "success"[0] != "data"[0] && "message"[0] != "data"[0];
    assert KeysOf(fields[1..][1..]) == ["data"];
    assert GetIn(fields[1..][1..], "data") == Some(data);
    assert GetIn(fields[1..], "message") == Some(JStr(message));
    assert GetIn(fields[1..], "data") == Some(data);
    assert GetIn(fields, "data") == Some(data);
    assert KeysOf(fields) == ["success"] + KeysOf(fields[1..]);
    assert KeysOf(fields[1..]) == ["message"] + KeysOf(fields[1..][1..]);
    Response(status, "application/json", JObject(fields))
  }

  /** `success` is true exactly for the statuses below 400. */
  lemma SuccessIffBelow400(data: Json, status: int, message: string)
    ensures Get(Respond(data, status, message).body, "success") == Some(JBool(true)) <==> status < 400
  {
  }

  /** With every argument left out: a 200 whose envelope reports success, an empty message and null data. */
  lemma Defaults()
    ensures var r := Respond(DefaultData, DefaultStatus, DefaultMessage);
            r.status == 200 && Get(r.body, "success") == Some(JBool(true))
            && Get(r.body, "message") == Some(JStr("")) && Get(r.body, "data") == Some(JNull)
  {
  }
}
