/** JSON values as the server routes build and return them (`res.json(...)` bodies, analyses
    stored as JSON), and the HTTP replies that carry them. */
module JsonValues {
  import opened JsText

  /** A JSON value; numbers are integers here (no route computes with fractions). */
  datatype Json =
    | JNull
    | JBool(b: bool)
    | JNumber(n: int)
    | JString(s: string)
    | JArray(items: seq<Json>)
    | JObject(members: seq<(string, Json)>)

  /** `obj[key]`: the value of the last member with that key (as `JSON.parse` keeps the last
      of duplicate keys), `None` for a missing key or a value that is not an object. */
  function Get(j: Json, key: string): (r: Option<Json>)
    ensures r.Some? ==> j.JObject? && exists k :: 0 <= k < |j.members| && j.members[k] == (key, r.value)
    ensures r.None? ==> !j.JObject? || forall k :: 0 <= k < |j.members| ==> j.members[k].0 != key
    decreases if j.JObject? then |j.members| else 0
  {
    if !j.JObject? || |j.members| == 0 then None
    else if Last(j.members).0 == key then
      assert j.members[|j.members| - 1] == (key, Last(j.members).1);
      Some(Last(j.members).1)
    else
      var r := Get(JObject(Init(j.members)), key);
      assert forall k :: 0 <= k < |j.members| - 1 ==> Init(j.members)[k] == j.members[k];
      r
  }

  /** A member whose key no later member repeats is the one `Get` finds. */
  lemma {:induction false} GetMember(members: seq<(string, Json)>, k: nat, key: string)
    requires k < |members| && members[k].0 == key
    requires forall m :: k < m < |members| ==> members[m].0 != key
    ensures Get(JObject(members), key) == Some(members[k].1)
    decreases |members|
  {
    if k < |members| - 1 {
      GetMember(Init(members), k, key);
    }
  }

  /** The reply of a route that answers with `res.status(status).json(body)`. */
  datatype HttpReply = HttpReply(status: nat, body: Json)

  /** `{ success: false, error }` */
  function ErrorBody(error: string): Json {
    JObject([("success", JBool(false)), ("error", JString(error))])
  }

  /** `{ success: false, error, message }`, the body of the routes' 500 replies. */
  function FailureBody(error: string, message: string): Json {
    JObject([("success", JBool(false)), ("error", JString(error)), ("message", JString(message))])
  }

  /** A 200 reply whose body says `success: true`. */
  predicate Succeeded(r: HttpReply) {
    r.status == 200 && Get(r.body, "success") == Some(JBool(true))
  }
}
