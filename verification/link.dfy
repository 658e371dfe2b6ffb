/** EngageLink: the authenticated link to the efergy platform.

    The network is outside the model. A request is the value `Call` would send
    (a URL and its query parameters); the token exchange at construction is a
    function parameter `fetch` from a request to the decoded JSON body, or to
    `None` when the transport or the decoding fails. */
module Link {
  import opened Outcomes
  import opened Timestamps
  import Dicts

  /** The initialization api url base. */
  const Base: string := "https://engage.efergy.com/mobile/"
  /** The query api url base. */
  const BaseProxy: string := "https://engage.efergy.com/mobile_proxy/"

  /** A GET request: the url without its query string, and the parameters
      that are url-encoded into it. */
  datatype Request = Request(url: string, params: map<string, Json>)

  /** The token exchange request sent when no token is given. */
  function TokenRequest(username: Json, password: Json): (req: Request)
    ensures req.url == Base + "get_token"
    ensures req.params.Keys == {"username", "password", "device"}
    ensures req.params["username"] == username && req.params["password"] == password
    ensures req.params["device"] == JStr("android")
  {
    Request(Base + "get_token",
            map["username" := username, "password" := password, "device" := JStr("android")])
  }

  /** The credential selection of the constructor: the token the link will hold,
      or the error the constructor raises. A given token wins and is kept
      verbatim; otherwise both username and password are needed, and the token is
      the `token` field of the exchange's answer. */
  function ResolveToken(token: Json, username: Json, password: Json,
                        fetch: Request -> Option<Json>): (r: Result<Json>)
    ensures token != JNull ==> r == Ok(token)
    ensures r == Err(ConfigError) <==> token == JNull && (username == JNull || password == JNull)
    ensures token == JNull && r.Ok? ==>
              username != JNull && password != JNull &&
              fetch(TokenRequest(username, password)).Some? &&
              Field(fetch(TokenRequest(username, password)).value, "token") == r
    ensures token == JNull && username != JNull && password != JNull ==>
              (fetch(TokenRequest(username, password)).None? ==> r == Err(NetworkError)) &&
              (fetch(TokenRequest(username, password)).Some? ==>
                 r == Field(fetch(TokenRequest(username, password)).value, "token"))
  {
    if token != JNull then Ok(token)
    else if username != JNull && password != JNull then
      match fetch(TokenRequest(username, password))
      case None => Err(NetworkError)
      case Some(body) => Field(body, "token")
    else Err(ConfigError)
  }

  /** When a token is given, the username, the password and the token service
      play no part in the outcome. */
  lemma TokenIgnoresCredentials(token: Json, u1: Json, p1: Json, f1: Request -> Option<Json>,
                                u2: Json, p2: Json, f2: Request -> Option<Json>)
    requires token != JNull
    ensures ResolveToken(token, u1, p1, f1) == ResolveToken(token, u2, p2, f2) == Ok(token)
  {
  }

  /** The keyword arguments getCost passes to `call`. The zone offset is in
      hours and may be fractional (5.5 for UTC+5:30). The `period` argument is
      accepted but never sent. */
  function CostArgs(zoneOffset: real, period: string, fromTime: Instant, toTime: Instant)
    : (args: map<string, Json>)
    ensures args.Keys == {"offset", "fromTime", "toTime"}
    ensures "period" !in args
  {
    map["offset" := JNum(-zoneOffset * 60.0),
        "fromTime" := JNum(Encode(fromTime)),
        "toTime" := JNum(Encode(toTime))]
  }

  /** getCost as written: the period chosen by the caller does not reach the request. */
  lemma CostArgsIgnorePeriod(zoneOffset: real, p1: string, p2: string, fromTime: Instant, toTime: Instant)
    ensures CostArgs(zoneOffset, p1, fromTime, toTime) == CostArgs(zoneOffset, p2, fromTime, toTime)
  {
  }

  /** getCost with the period passed on, as its documentation describes it. */
  function CostArgsWithPeriod(zoneOffset: real, period: string, fromTime: Instant, toTime: Instant)
    : (args: map<string, Json>)
    ensures args.Keys == {"offset", "period", "fromTime", "toTime"}
    ensures args["period"] == JStr(period)
    ensures args - {"period"} == CostArgs(zoneOffset, period, fromTime, toTime)
  {
    CostArgs(zoneOffset, period, fromTime, toTime)["period" := JStr(period)]
  }

  /** With the period passed on, different periods give different requests. */
  lemma CostArgsWithPeriodDistinguish(zoneOffset: real, p1: string, p2: string, fromTime: Instant, toTime: Instant)
    requires p1 != p2
    ensures CostArgsWithPeriod(zoneOffset, p1, fromTime, toTime) != CostArgsWithPeriod(zoneOffset, p2, fromTime, toTime)
  {
    assert CostArgsWithPeriod(zoneOffset, p1, fromTime, toTime)["period"] == JStr(p1);
  }

  /** The keyword arguments getTimeSeries passes to `call`. */
  function TimeSeriesArgs(offset: real, fromTime: Instant, toTime: Instant,
                          aggPeriod: string, aggFunc: string): (args: map<string, Json>)
    ensures args.Keys == {"offset", "fromTime", "toTime", "aggPeriod", "aggFunc"}
    ensures args["aggPeriod"] == JStr(aggPeriod) && args["aggFunc"] == JStr(aggFunc)
  {
    map["offset" := JNum(-60.0 * offset),
        "fromTime" := JNum(Encode(fromTime)),
        "toTime" := JNum(Encode(toTime)),
        "aggPeriod" := JStr(aggPeriod),
        "aggFunc" := JStr(aggFunc)]
  }

  /** In both aggregation queries the remote offset is the hour offset, negated
      and in minutes, and both ends of the range are sent in seconds since the
      epoch. */
  lemma QueryArgsEncoding(zoneOffset: real, period: string, fromTime: Instant, toTime: Instant,
                          aggPeriod: string, aggFunc: string)
    ensures var c := CostArgs(zoneOffset, period, fromTime, toTime);
            c["offset"].n == -(zoneOffset * 60.0) &&
            c["fromTime"].n * 1000.0 == fromTime.ms as real &&
            c["toTime"].n * 1000.0 == toTime.ms as real
    ensures var t := TimeSeriesArgs(zoneOffset, fromTime, toTime, aggPeriod, aggFunc);
            t["offset"].n == -(zoneOffset * 60.0) &&
            t["fromTime"].n * 1000.0 == fromTime.ms as real &&
            t["toTime"].n * 1000.0 == toTime.ms as real
  {
  }

  /** A half-hour zone such as UTC+5:30 is sent as -330 minutes by both queries. */
  lemma HalfHourOffset(period: string, fromTime: Instant, toTime: Instant, aggPeriod: string, aggFunc: string)
    ensures CostArgs(5.5, period, fromTime, toTime)["offset"] == JNum(-330.0)
    ensures TimeSeriesArgs(5.5, fromTime, toTime, aggPeriod, aggFunc)["offset"] == JNum(-330.0)
  {
  }

  class EngageLink {
    /** The token sent with every query. */
    var token: Json

    constructor (token: Json)
      ensures this.token == token
    {
      this.token := token;
    }

    /** __init__: selects a credential, fetching a token when only a username
        and a password are given, and fails with ConfigError when neither a
        token nor both of them are given. */
    static method Open(token: Json, username: Json, password: Json,
                       fetch: Request -> Option<Json>) returns (r: Result<EngageLink>)
      ensures r.Ok? <==> ResolveToken(token, username, password, fetch).Ok?
      ensures r.Ok? ==> fresh(r.value) && r.value.token == ResolveToken(token, username, password, fetch).value
      ensures r.Err? ==> r.error == ResolveToken(token, username, password, fetch).error
    {
      if token != JNull {
        var link := new EngageLink(token);
        r := Ok(link);
      } else if username != JNull && password != JNull {
        var body := fetch(TokenRequest(username, password));
        if body.None? {
          r := Err(NetworkError);
        } else {
          var fetched := Field(body.value, "token");
          if fetched.Err? {
            r := Err(fetched.error);
          } else {
            var link := new EngageLink(fetched.value);
            r := Ok(link);
          }
        }
      } else {
        r := Err(ConfigError);
      }
    }

    /** call: the request for remote method `name`. The stored token comes first
        and a caller-supplied `token` parameter overrides it. */
    method Call(name: string, params: map<string, Json>) returns (req: Request)
      ensures req.url == BaseProxy + name
      ensures req.params.Keys == params.Keys + {"token"}
      ensures forall k :: k in params ==> req.params[k] == params[k]
      ensures "token" !in params ==> req.params["token"] == token
    {
      var merged := Dicts.MergeDicts(map["token" := token], params);
      req := Request(BaseProxy + name, merged);
    }

    /** getCost's request, as written: `period` is not sent. */
    method CostQuery(zoneOffset: real, period: string, fromTime: Instant, toTime: Instant)
      returns (req: Request)
      ensures req == Request(BaseProxy + "getCost",
                             map["token" := token] + CostArgs(zoneOffset, period, fromTime, toTime))
      ensures "period" !in req.params
    {
      req := Call("getCost", CostArgs(zoneOffset, period, fromTime, toTime));
    }

    /** getCost's request with the period passed on. */
    method CostQueryWithPeriod(zoneOffset: real, period: string, fromTime: Instant, toTime: Instant)
      returns (req: Request)
      ensures req == Request(BaseProxy + "getCost",
                             map["token" := token] + CostArgsWithPeriod(zoneOffset, period, fromTime, toTime))
      ensures req.params["period"] == JStr(period)
    {
      req := Call("getCost", CostArgsWithPeriod(zoneOffset, period, fromTime, toTime));
    }

    /** getTimeSeries's request; its answer is normalised by SeriesParse.ParseResults. */
    method TimeSeriesQuery(offset: real, fromTime: Instant, toTime: Instant,
                           aggPeriod: string, aggFunc: string) returns (req: Request)
      ensures req == Request(BaseProxy + "getTimeSeries",
                             map["token" := token] + TimeSeriesArgs(offset, fromTime, toTime, aggPeriod, aggFunc))
    {
      req := Call("getTimeSeries", TimeSeriesArgs(offset, fromTime, toTime, aggPeriod, aggFunc));
    }
  }
}
