/** The redirect service: a read-through cache (Redis) in front of the link
    service's internal lookup, with a best-effort click event published to
    the `clicks` queue (RabbitMQ) on every successful redirect. */
module RedirectService {
  import opened Http

  /** `ex=3600` on the cache write: one hour. */
  const CacheTtlSeconds: nat := 3600
  /** Path of the link service's internal lookup endpoint. */
  const LookupPath := "/internal/links/"
  /** The queue click events go to, declared durable. */
  const ClicksQueue := "clicks"
  /** `delivery_mode=2`: the broker persists the message. */
  const PersistentDelivery := 2
  /** The `detail` of the 404 raised for an unknown code. */
  const LinkNotFound := HttpError(404, "Link not found")

  /** Python truthiness of `str | None`: `None` and `""` are both false. */
  predicate Truthy(s: Option<string>) {
    s.Some? && s.value != ""
  }

  // ---------------------------------------------------------------
  // Lookup in the link service
  // ---------------------------------------------------------------

  /** The URL `get_link_from_api` requests for a short code, as a string:
      stripping the lookup prefix gives back `code`. The code is inserted
      unescaped; URLs are not parsed here. */
  function LookupUrl(base: string, code: string): (u: string)
    ensures CodeOfLookupUrl(base, u) == Some(code)
  {
    StripPrefixOfConcat(base + LookupPath, code);
    base + LookupPath + code
  }

  /** The string after the lookup prefix under `base`, if the URL has it. */
  function CodeOfLookupUrl(base: string, u: string): Option<string> {
    StripPrefix(base + LookupPath, u)
  }

  /** Distinct codes are looked up at distinct URLs. */
  lemma LookupUrlInjective(base: string, c1: string, c2: string)
    requires LookupUrl(base, c1) == LookupUrl(base, c2)
    ensures c1 == c2
  {
  }

  /** What the HTTP request to the link service produced: a response with
      its status code and JSON body, or a `RequestException` (connection
      failure, the 2-second timeout, ...). */
  datatype ApiAnswer = Response(statusCode: int, body: JsonObject) | RequestException

  /** The status mapping of `get_link_from_api`: the body's `original_url`
      on 200 (absent or null gives `None`), `None` on 404, on any other
      status and on a request exception. */
  function LinkFromApi(answer: ApiAnswer): (r: Option<string>)
    ensures r.Some? ==> answer.Response? && answer.statusCode == 200
    ensures answer.Response? && answer.statusCode == 200 ==> r == Get(answer.body, "original_url")
  {
    match answer
    case Response(status, body) =>
      if status == 200 then Get(body, "original_url")
      else if status == 404 then None
      else None
    case RequestException => None
  }

  // ---------------------------------------------------------------
  // Click events
  // ---------------------------------------------------------------

  /** The steps of `publish_click_event`'s try block, in order; a fault
      names the step that raised. */
  datatype BrokerStep = Connect | OpenChannel | DeclareQueue | Publish | Close

  function StepIndex(s: BrokerStep): nat {
    match s
    case Connect => 0
    case OpenChannel => 1
    case DeclareQueue => 2
    case Publish => 3
    case Close => 4
  }

  /** Whether `step` ran to completion when `fault` (if any) raised. */
  predicate Completed(fault: Option<BrokerStep>, step: BrokerStep) {
    fault.None? || StepIndex(step) < StepIndex(fault.value)
  }

  /** The JSON message `{short_code, timestamp}`. */
  datatype ClickMessage = ClickMessage(shortCode: string, timestamp: string)

  /** One `basic_publish` accepted by the broker. */
  datatype ClickDelivery = ClickDelivery(exchange: string, routingKey: string, body: ClickMessage, deliveryMode: int)

  /** The delivery a successful publish for `code` at time `now` makes. */
  function ClickFor(code: string, now: string): (d: ClickDelivery)
    ensures d.routingKey == ClicksQueue && d.exchange == "" && d.deliveryMode == PersistentDelivery
    ensures d.body.shortCode == code && d.body.timestamp == now
  {
    ClickDelivery("", ClicksQueue, ClickMessage(code, now), PersistentDelivery)
  }

  // ---------------------------------------------------------------
  // The redirect decision
  // ---------------------------------------------------------------

  /** An exception raised by the Redis client once it exists. The handler
      does not catch it, so it ends the request with a 500. */
  datatype CacheFault = NoCacheFault | GetRaises | SetRaises

  /** The answer of `perform_redirect`: a 307 to a URL, or an error. */
  datatype RedirectOutcome = Redirect307(location: string) | Failure(error: HttpError)

  /** What one redirect request does: its outcome, whether it asks the link
      service, whether it writes the cache and whether it publishes. */
  datatype Plan = Plan(outcome: RedirectOutcome, consultsLinkService: bool, writesCache: bool, publishes: bool)

  /** A cache read that returned `cached` counts as a hit. */
  predicate CacheHit(hasCache: bool, cached: Option<string>, fault: CacheFault) {
    hasCache && fault != GetRaises && Truthy(cached)
  }

  /** The request carries on to the link service. */
  predicate CacheMiss(hasCache: bool, cached: Option<string>, fault: CacheFault) {
    !(hasCache && fault == GetRaises) && !CacheHit(hasCache, cached, fault)
  }

  /** The decision `perform_redirect` makes, given whether a cache client
      exists, what the cache holds for the code, which cache call raises
      and what `get_link_from_api` would return. */
  function Resolve(hasCache: bool, cached: Option<string>, fault: CacheFault, fetched: Option<string>): (p: Plan)
    // a click event goes out exactly when the answer is a redirect
    ensures p.publishes <==> p.outcome.Redirect307?
    ensures p.outcome.Redirect307? ==> p.outcome.location != ""
    // cache hit: the cached URL, no lookup, no write
    ensures CacheHit(hasCache, cached, fault) ==>
      p == Plan(Redirect307(cached.value), false, false, true)
    // miss and the link service knows the code
    ensures CacheMiss(hasCache, cached, fault) && Truthy(fetched) && !(hasCache && fault == SetRaises) ==>
      p == Plan(Redirect307(fetched.value), true, hasCache, true)
    // miss and the link service yields nothing usable
    ensures CacheMiss(hasCache, cached, fault) && !Truthy(fetched) ==>
      p == Plan(Failure(LinkNotFound), true, false, false)
    // without a cache client the cache plays no part
    ensures !hasCache ==>
      && p.consultsLinkService && !p.writesCache
      && p.outcome == (if Truthy(fetched) then Redirect307(fetched.value) else Failure(LinkNotFound))
    ensures p.writesCache ==>
      hasCache && p.consultsLinkService && Truthy(fetched) && p.outcome == Redirect307(fetched.value)
    // a raising client ends the request before the step that would follow
    ensures hasCache && fault == GetRaises ==>
      p == Plan(Failure(InternalServerError), false, false, false)
    ensures CacheMiss(hasCache, cached, fault) && Truthy(fetched) && hasCache && fault == SetRaises ==>
      p == Plan(Failure(InternalServerError), true, false, false)
    // the only errors: an unknown code, or a raising cache client
    ensures p.outcome.Failure? ==>
      p.outcome.error == LinkNotFound || (hasCache && fault != NoCacheFault && p.outcome.error == InternalServerError)
  {
    if hasCache && fault == GetRaises then
      Plan(Failure(InternalServerError), false, false, false)
    else
      var hit := if hasCache then cached else None;
      if Truthy(hit) then
        Plan(Redirect307(hit.value), false, false, true)
      else if !Truthy(fetched) then
        Plan(Failure(LinkNotFound), true, false, false)
      else if hasCache && fault == SetRaises then
        Plan(Failure(InternalServerError), true, false, false)
      else
        Plan(Redirect307(fetched.value), true, hasCache, true)
  }

  /** A miss that populated the cache makes the next request for the same
      code a hit: the same redirect, without asking the link service. */
  lemma RepeatedRedirectHitsCache(cached: Option<string>, fetched: Option<string>, later: Option<string>)
    requires Resolve(true, cached, NoCacheFault, fetched).writesCache
    ensures Resolve(true, Some(fetched.value), NoCacheFault, later) ==
            Plan(Resolve(true, cached, NoCacheFault, fetched).outcome, false, false, true)
  {
  }

  /** The health report. */
  datatype Health = Health(status: string, redisConnected: bool)

  class Redirector {
    /** `redis_client is not None`: the startup ping succeeded. */
    const cacheConnected: bool
    /** `LINK_SERVICE_URL`. */
    const linkServiceUrl: string
    /** What Redis holds: short code to URL. */
    var cache: map<string, string>
    /** The `ex` argument of the last write of each key this service made. */
    var expiry: map<string, nat>
    /** The URLs requested from the link service, in order. */
    var lookups: seq<string>
    /** Whether `clicks` has been declared durable. */
    var clicksDurable: bool
    /** The click events the broker accepted, in order. */
    var clicks: seq<ClickDelivery>

    ghost predicate Valid()
      reads this
    {
      && expiry.Keys <= cache.Keys
      && (forall k :: k in expiry ==> expiry[k] == CacheTtlSeconds)
      && (forall i :: 0 <= i < |lookups| ==> CodeOfLookupUrl(linkServiceUrl, lookups[i]).Some?)
      && (forall i :: 0 <= i < |clicks| ==>
            clicks[i].routingKey == ClicksQueue && clicks[i].deliveryMode == PersistentDelivery)
      && (clicks != [] ==> clicksDurable)
    }

    /** Start-up: `pingSucceeds` says whether the Redis ping worked;
        `stored` is what Redis already holds. */
    constructor (pingSucceeds: bool, linkServiceUrl: string, stored: map<string, string>)
      ensures Valid()
      ensures cacheConnected == pingSucceeds && this.linkServiceUrl == linkServiceUrl
      ensures cache == stored && expiry == map[] && lookups == [] && !clicksDurable && clicks == []
    {
      cacheConnected := pingSucceeds;
      this.linkServiceUrl := linkServiceUrl;
      cache := stored;
      expiry := map[];
      lookups := [];
      clicksDurable := false;
      clicks := [];
    }

    /** `redis_client.get(code)`. */
    function CacheGet(code: string): (r: Option<string>)
      reads this
      ensures r.Some? <==> code in cache
      ensures r.Some? ==> cache[code] == r.value
    {
      if code in cache then Some(cache[code]) else None
    }

    /** `health_check`: always "ok"; `redis_connected` is whether the
        client exists. */
    function HealthCheck(): (h: Health)
      ensures h.status == "ok" && h.redisConnected == cacheConnected
    {
      Health("ok", cacheConnected)
    }

    /** `publish_click_event`: every failure is swallowed, so the method has
        no error result; the broker keeps what was done before the
        failing step. */
    method PublishClickEvent(code: string, now: string, fault: Option<BrokerStep>)
      requires Valid()
      modifies this`clicksDurable, this`clicks
      ensures Valid()
      ensures clicksDurable == (old(clicksDurable) || Completed(fault, DeclareQueue))
      ensures clicks == old(clicks) + (if Completed(fault, Publish) then [ClickFor(code, now)] else [])
    {
      if fault == Some(Connect) || fault == Some(OpenChannel) || fault == Some(DeclareQueue) {
        return;
      }
      clicksDurable := true;
      var message := ClickMessage(code, now);
      if fault == Some(Publish) {
        return;
      }
      clicks := clicks + [ClickDelivery("", ClicksQueue, message, PersistentDelivery)];
      // a failing close comes after the broker accepted the message
    }

    /** `get_link_from_api`: one request to the link service, whose answer
        for each URL is `linkService`. */
    method GetLinkFromApi(code: string, linkService: string -> ApiAnswer) returns (r: Option<string>)
      requires Valid()
      modifies this`lookups
      ensures Valid()
      ensures lookups == old(lookups) + [LookupUrl(linkServiceUrl, code)]
      ensures r == LinkFromApi(linkService(LookupUrl(linkServiceUrl, code)))
    {
      var apiUrl := linkServiceUrl + LookupPath + code;
      lookups := lookups + [apiUrl];
      var response := linkService(apiUrl);
      match response
      case Response(status, body) =>
        if status == 200 {
          r := Get(body, "original_url");
        } else if status == 404 {
          r := None;
        } else {
          r := None;
        }
      case RequestException =>
        r := None;
    }

    /** `perform_redirect`. The outcome is `Resolve`'s, which does not depend
        on `publishFault`: a failed publish changes only the broker. */
    method PerformRedirect(code: string, linkService: string -> ApiAnswer, cacheFault: CacheFault,
                           publishFault: Option<BrokerStep>, now: string)
      returns (outcome: RedirectOutcome)
      requires Valid()
      modifies this
      ensures Valid()
      ensures var plan := Resolve(cacheConnected, old(CacheGet(code)), cacheFault,
                                  LinkFromApi(linkService(LookupUrl(linkServiceUrl, code))));
        && outcome == plan.outcome
        && lookups == old(lookups) + (if plan.consultsLinkService then [LookupUrl(linkServiceUrl, code)] else [])
        && cache == (if plan.writesCache then old(cache)[code := outcome.location] else old(cache))
        && expiry == (if plan.writesCache then old(expiry)[code := CacheTtlSeconds] else old(expiry))
        && clicks == old(clicks) + (if plan.publishes && Completed(publishFault, Publish) then [ClickFor(code, now)] else [])
        && clicksDurable == (old(clicksDurable) || (plan.publishes && Completed(publishFault, DeclareQueue)))
    {
      var originalUrl: Option<string> := None;
      if cacheConnected {
        if cacheFault == GetRaises {
          outcome := Failure(InternalServerError);
          return;
        }
        originalUrl := CacheGet(code);
      }
      if Truthy(originalUrl) {
        PublishClickEvent(code, now, publishFault);
        outcome := Redirect307(originalUrl.value);
      } else {
        originalUrl := GetLinkFromApi(code, linkService);
        if Truthy(originalUrl) {
          if cacheConnected {
            if cacheFault == SetRaises {
              outcome := Failure(InternalServerError);
              return;
            }
            cache := cache[code := originalUrl.value];
            expiry := expiry[code := CacheTtlSeconds];
          }
          PublishClickEvent(code, now, publishFault);
          outcome := Redirect307(originalUrl.value);
        } else {
          outcome := Failure(LinkNotFound);
        }
      }
    }
  }
}
