/**
  The `/airquality` endpoint of the Flask server: a one-hour cache keyed by the
  lower-cased city name in front of the upstream air-quality API, and the
  mapping of every upstream outcome to an HTTP status and JSON body.  The clock
  and the upstream call are parameters.
 */
module Server {
  import opened PyStr
  import opened Wrappers

  /** A JSON value as `response.json()` decodes it and `jsonify` encodes it. */
  datatype Json =
    | JNull
    | JBool(b: bool)
    | JNum(x: real)
    | JStr(s: string)
    | JArr(items: seq<Json>)
    | JObj(fields: map<string, Json>)

  /** Python truthiness of a decoded value: `None`, `False`, zero and empty containers are false. */
  predicate Truthy(j: Json)
  {
    match j
    case JNull => false
    case JBool(b) => b
    case JNum(x) => x != 0.0
    case JStr(s) => s != []
    case JArr(items) => items != []
    case JObj(fields) => fields != map[]
  }

  /** What the upstream request does: a decoded body, an HTTP error raised by `raise_for_status`, or a transport failure. */
  datatype Upstream =
    | Fetched(data: Json)
    | HttpErr(code: nat, text: string)
    | ConnErr
    | TimeoutErr
    | OtherErr

  /** A cached upstream body and the time it was stored, in seconds. */
  datatype Entry = Entry(data: Json, timestamp: real)

  /** The status and JSON body the endpoint answers with. */
  datatype Reply = Reply(status: nat, body: Json)

  /** One hour, in seconds. */
  const CacheSeconds: real := 3600.0

  const MissingCity: string := "Parâmetro 'city' é obrigatório"
  const NotFoundUpstream: string := "Cidade não encontrada na API externa."
  const AuthFailure: string := "Erro de autenticação ou permissão com a API externa."
  const ConnFailure: string := "Não foi possível conectar à API externa. Verifique sua conexão."
  const TimeoutFailure: string := "A API externa demorou muito para responder."
  const OtherFailure: string := "Erro ao obter dados da qualidade do ar."
  const HttpFailurePrefix: string := "Erro na API externa: "

  /** `{"error": message}`. */
  function ErrorBody(message: string): Json
  {
    JObj(map["error" := JStr(message)])
  }

  /** The message for an upstream HTTP error other than 401, 403 and 404: the code, a dash and the upstream text. */
  function HttpFailure(code: nat, text: string): string
  {
    HttpFailurePrefix + Decimal(code) + " - " + text
  }

  /** An entry is served while it is strictly younger than one hour. */
  predicate IsFresh(e: Entry, now: real)
  {
    now - e.timestamp < CacheSeconds
  }

  /** The reply for an upstream outcome once the cache has missed. */
  function UpstreamReply(up: Upstream): Reply
  {
    match up
    case Fetched(data) =>
      if !Truthy(data) then Reply(404, ErrorBody(NotFoundUpstream)) else Reply(200, data)
    case HttpErr(code, text) =>
      if code == 404 then Reply(404, ErrorBody(NotFoundUpstream))
      else if code == 401 || code == 403 then Reply(code, ErrorBody(AuthFailure))
      else Reply(code, ErrorBody(HttpFailure(code, text)))
    case ConnErr => Reply(500, ErrorBody(ConnFailure))
    case TimeoutErr => Reply(504, ErrorBody(TimeoutFailure))
    case OtherErr => Reply(500, ErrorBody(OtherFailure))
  }

  /** Whether an upstream outcome is written to the cache: a truthy decoded body. */
  predicate Stores(up: Upstream)
  {
    up.Fetched? && Truthy(up.data)
  }

  /** The result of one request: the reply, the new cache, and whether the upstream API was called. */
  datatype Step = Step(reply: Reply, cache: map<string, Entry>, contacted: bool)

  /** The query-string value `city` is missing or empty. */
  predicate NoCity(city: Option<string>)
  {
    city.None? || city.value == []
  }

  /** One request against a cache, the clock read at lookup (`now`) and after the upstream call (`storedAt`). */
  function Serve(cache: map<string, Entry>, city: Option<string>, now: real, storedAt: real, up: Upstream): Step
  {
    if NoCity(city) then
      Step(Reply(400, ErrorBody(MissingCity)), cache, false)
    else
      var key := Lower(city.value);
      if key in cache && IsFresh(cache[key], now) then
        Step(Reply(200, cache[key].data), cache, false)
      else
        Step(UpstreamReply(up), if Stores(up) then cache[key := Entry(up.data, storedAt)] else cache, true)
  }

  /** The module-level cache dictionary and the request handler that reads and updates it. */
  class AirQualityServer {
    var cache: map<string, Entry>

    constructor ()
      ensures cache == map[]
    {
      cache := map[];
    }

    /** Handle one GET /airquality request; `contacted` tells whether the upstream API was called. */
    method GetAirQuality(city: Option<string>, now: real, storedAt: real, upstream: Upstream)
      returns (reply: Reply, contacted: bool)
      modifies this
      ensures Step(reply, cache, contacted) == Serve(old(cache), city, now, storedAt, upstream)
    {
      contacted := false;
      if NoCity(city) {
        return Reply(400, ErrorBody(MissingCity)), false;
      }
      var cityNormalized := Lower(city.value);
      if cityNormalized in cache {
        var cached := cache[cityNormalized];
        if now - cached.timestamp < CacheSeconds {
          return Reply(200, cached.data), false;
        }
      }
      contacted := true;
      match upstream {
        case Fetched(dados) =>
          if !Truthy(dados) {
            return Reply(404, ErrorBody(NotFoundUpstream)), true;
          }
          cache := cache[cityNormalized := Entry(dados, storedAt)];
          reply := Reply(200, dados);
        case HttpErr(code, text) =>
          if code == 404 {
            reply := Reply(404, ErrorBody(NotFoundUpstream));
          } else if code == 401 || code == 403 {
            reply := Reply(code, ErrorBody(AuthFailure));
          } else {
            reply := Reply(code, ErrorBody(HttpFailure(code, text)));
          }
        case ConnErr =>
          reply := Reply(500, ErrorBody(ConnFailure));
        case TimeoutErr =>
          reply := Reply(504, ErrorBody(TimeoutFailure));
        case OtherErr =>
          reply := Reply(500, ErrorBody(OtherFailure));
      }
    }
  }

  // ---------------------------------------------------------------- properties of Serve

  /** A missing or empty city answers 400 with the "obrigatório" message, calls nothing and keeps the cache. */
  lemma MissingCityRejected(cache: map<string, Entry>, city: Option<string>, now: real, storedAt: real, up: Upstream)
    requires NoCity(city)
    ensures Serve(cache, city, now, storedAt, up) == Step(Reply(400, ErrorBody(MissingCity)), cache, false)
  {
  }

  /** The cache answers, without calling upstream, exactly when the key is present and strictly younger than an hour. */
  lemma CacheHitIff(cache: map<string, Entry>, c: string, now: real, storedAt: real, up: Upstream)
    requires c != []
    ensures var st := Serve(cache, Some(c), now, storedAt, up);
      !st.contacted <==> Lower(c) in cache && now - cache[Lower(c)].timestamp < 3600.0
    ensures var st := Serve(cache, Some(c), now, storedAt, up);
      !st.contacted ==> st.reply == Reply(200, cache[Lower(c)].data) && st.cache == cache
  {
  }

  /** An entry exactly one hour old is no longer served: the comparison is strict. */
  lemma HourOldRefetched(cache: map<string, Entry>, c: string, now: real, storedAt: real, up: Upstream)
    requires c != [] && Lower(c) in cache
    requires now == cache[Lower(c)].timestamp + 3600.0
    ensures Serve(cache, Some(c), now, storedAt, up).contacted
    ensures Serve(cache, Some(c), now, storedAt, up).reply == UpstreamReply(up)
  {
  }

  /** Cities that differ only in letter case are the same request. */
  lemma CaseInsensitive(cache: map<string, Entry>, c1: string, c2: string, now: real, storedAt: real, up: Upstream)
    requires Lower(c1) == Lower(c2)
    ensures Serve(cache, Some(c1), now, storedAt, up) == Serve(cache, Some(c2), now, storedAt, up)
  {
    LowerEmptyIff(c1);
    LowerEmptyIff(c2);
  }

  /** After a miss, a falsy upstream body answers 404 and leaves the cache as it was. */
  lemma EmptyUpstreamNotCached(cache: map<string, Entry>, c: string, now: real, storedAt: real, data: Json)
    requires c != [] && !Truthy(data)
    requires Lower(c) !in cache || !IsFresh(cache[Lower(c)], now)
    ensures Serve(cache, Some(c), now, storedAt, Fetched(data))
      == Step(Reply(404, ErrorBody("Cidade não encontrada na API externa.")), cache, true)
  {
  }

  /** After a miss, a truthy upstream body is returned as is and stored under the lower-cased key, other keys untouched. */
  lemma SuccessStored(cache: map<string, Entry>, c: string, now: real, storedAt: real, data: Json)
    requires c != [] && Truthy(data)
    requires Lower(c) !in cache || !IsFresh(cache[Lower(c)], now)
    ensures var st := Serve(cache, Some(c), now, storedAt, Fetched(data));
      st.reply == Reply(200, data) && st.contacted
      && st.cache.Keys == cache.Keys + {Lower(c)}
      && st.cache[Lower(c)] == Entry(data, storedAt)
      && forall k :: k in cache && k != Lower(c) ==> st.cache[k] == cache[k]
  {
  }

  /** Upstream HTTP errors: 404 stays 404, 401 and 403 keep their code with the authentication message, others pass through. */
  lemma HttpErrorMapped(code: nat, text: string)
    ensures code == 404 ==> UpstreamReply(HttpErr(code, text)) == Reply(404, ErrorBody(NotFoundUpstream))
    ensures code in {401, 403} ==> UpstreamReply(HttpErr(code, text)) == Reply(code, ErrorBody(AuthFailure))
    ensures code !in {401, 403, 404} ==> UpstreamReply(HttpErr(code, text)).status == code
    ensures code !in {401, 403, 404} ==> UpstreamReply(HttpErr(code, text)).body == ErrorBody(HttpFailure(code, text))
  {
  }

  /** The pass-through message embeds the code, which reads back from the digits after the prefix, and ends with the upstream text. */
  lemma HttpFailureEmbedsCode(code: nat, text: string)
    ensures var m := HttpFailure(code, text);
      var n := |HttpFailurePrefix| + |Decimal(code)|;
      n + 3 + |text| == |m|
      && m[..|HttpFailurePrefix|] == HttpFailurePrefix
      && ParseDecimal(m[|HttpFailurePrefix|..n]) == code
      && m[n + 3..] == text
  {
    var m := HttpFailure(code, text);
    var n := |HttpFailurePrefix| + |Decimal(code)|;
    assert m[|HttpFailurePrefix|..n] == Decimal(code);
    assert m[n + 3..] == text;
    DecimalRoundTrip(code);
  }

  /** Transport failures answer 500, 504 and 500. */
  lemma TransportErrorsMapped()
    ensures UpstreamReply(ConnErr) == Reply(500, ErrorBody(ConnFailure))
    ensures UpstreamReply(TimeoutErr) == Reply(504, ErrorBody(TimeoutFailure))
    ensures UpstreamReply(OtherErr) == Reply(500, ErrorBody(OtherFailure))
  {
  }

  /** Only a stored upstream body changes the cache, and only under the request's key; nothing is ever evicted. */
  lemma CacheChangesOnlyByStore(cache: map<string, Entry>, city: Option<string>, now: real, storedAt: real, up: Upstream)
    ensures var st := Serve(cache, city, now, storedAt, up);
      cache.Keys <= st.cache.Keys
      && (forall k :: k in cache && (city.None? || k != Lower(city.value)) ==> st.cache[k] == cache[k])
      && (st.cache != cache ==>
            !NoCity(city) && st.contacted && Stores(up)
            && st.cache == cache[Lower(city.value) := Entry(up.data, storedAt)])
  {
  }

  /** Once a city is fetched, any spelling of it differing only in case is answered from the cache for the next hour. */
  lemma StoredThenServed(cache: map<string, Entry>, c1: string, c2: string, t1: real, s1: real,
                         data: Json, t2: real, s2: real, up2: Upstream)
    requires c1 != [] && Truthy(data) && Lower(c1) == Lower(c2)
    requires Lower(c1) !in cache || !IsFresh(cache[Lower(c1)], t1)
    requires t2 - s1 < 3600.0
    ensures var first := Serve(cache, Some(c1), t1, s1, Fetched(data));
      Serve(first.cache, Some(c2), t2, s2, up2) == Step(Reply(200, data), first.cache, false)
  {
    LowerEmptyIff(c1);
    LowerEmptyIff(c2);
  }
}
