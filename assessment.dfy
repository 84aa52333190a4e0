/** The secured assessment endpoint: a fixed-window rate limiter keyed by
    client address, a validator for the request body, and the handler that
    orders method check, rate limit and validation. Sending the two emails
    is outside the model; whether it throws is a parameter. */
module SendAssessmentSecure {
  import opened Base

  /** Window length in milliseconds: 15 minutes. */
  const RateLimitWindow := 15 * 60 * 1000
  /** Requests admitted per address per window. */
  const RateLimitMaxRequests := 3

  datatype RateEntry = RateEntry(count: int, resetTime: int)

  /** Every stored count lies between 1 and the maximum. */
  predicate WellFormed(entries: map<string, RateEntry>) {
    forall ip :: ip in entries ==> 1 <= entries[ip].count <= RateLimitMaxRequests
  }

  /** What `checkRateLimit` answers and the map it leaves behind. */
  datatype RateDecision = RateDecision(allowed: bool, entries: map<string, RateEntry>)

  /** `checkRateLimit(ip)` at time `now`. */
  function RateLimitStep(entries: map<string, RateEntry>, ip: string, now: int): (d: RateDecision)
    ensures ip in d.entries && d.entries.Keys == entries.Keys + {ip}
    ensures forall k :: k in entries && k != ip ==> d.entries[k] == entries[k]
    ensures ip !in entries || now > entries[ip].resetTime ==>
              d.allowed && d.entries[ip] == RateEntry(1, now + RateLimitWindow)
    ensures ip in entries && now <= entries[ip].resetTime ==>
              d.entries[ip].resetTime == entries[ip].resetTime &&
              (d.allowed <==> entries[ip].count < RateLimitMaxRequests) &&
              (d.allowed ==> d.entries[ip].count == entries[ip].count + 1) &&
              (!d.allowed ==> d.entries == entries)
    ensures WellFormed(entries) ==> WellFormed(d.entries)
  {
    if ip !in entries || now > entries[ip].resetTime then
      RateDecision(true, entries[ip := RateEntry(1, now + RateLimitWindow)])
    else if entries[ip].count >= RateLimitMaxRequests then
      RateDecision(false, entries)
    else
      RateDecision(true, entries[ip := entries[ip].(count := entries[ip].count + 1)])
  }

  /** The module-level map of the edge function. */
  class RateLimiter {
    var entries: map<string, RateEntry>

    constructor ()
      ensures entries == map[]
    {
      entries := map[];
    }

    /** `checkRateLimit`, changing only the caller's entry. */
    method CheckRateLimit(clientIp: string, now: int) returns (allowed: bool)
      modifies this
      ensures RateDecision(allowed, entries) == RateLimitStep(old(entries), clientIp, now)
    {
      var clientData := if clientIp in entries then Some(entries[clientIp]) else None;
      if clientData.None? || now > clientData.value.resetTime {
        entries := entries[clientIp := RateEntry(1, now + RateLimitWindow)];
        return true;
      }
      if clientData.value.count >= RateLimitMaxRequests {
        return false;
      }
      entries := entries[clientIp := clientData.value.(count := clientData.value.count + 1)];
      allowed := true;
    }
  }

  /** A request reaching the limiter: its address and its arrival time. */
  datatype Arrival = Arrival(ip: string, time: int)

  /** How many of `arrivals` from `ip` the limiter admits, run in order from
      `entries`. */
  function Admitted(entries: map<string, RateEntry>, arrivals: seq<Arrival>, ip: string): nat
    decreases |arrivals|
  {
    if arrivals == [] then 0
    else
      var d := RateLimitStep(entries, arrivals[0].ip, arrivals[0].time);
      (if d.allowed && arrivals[0].ip == ip then 1 else 0) + Admitted(d.entries, arrivals[1..], ip)
  }

  /** While an address's window is open, the limiter admits at most the
      requests it has left, whatever other addresses do in between. */
  lemma {:induction false} AdmittedWithinWindow(entries: map<string, RateEntry>, arrivals: seq<Arrival>, ip: string)
    requires ip in entries && entries[ip].count <= RateLimitMaxRequests
    requires forall i :: 0 <= i < |arrivals| && arrivals[i].ip == ip ==> arrivals[i].time <= entries[ip].resetTime
    ensures Admitted(entries, arrivals, ip) <= RateLimitMaxRequests - entries[ip].count
    decreases |arrivals|
  {
    if arrivals != [] {
      var d := RateLimitStep(entries, arrivals[0].ip, arrivals[0].time);
      assert d.entries[ip].resetTime == entries[ip].resetTime;
      forall i | 0 <= i < |arrivals[1..]| && arrivals[1..][i].ip == ip
        ensures arrivals[1..][i].time <= d.entries[ip].resetTime
      {
        assert arrivals[1..][i] == arrivals[i + 1];
      }
      AdmittedWithinWindow(d.entries, arrivals[1..], ip);
    }
  }

  /** A window opened by a request at `start` admits at most three requests
      from that address up to `start + RateLimitWindow`. */
  lemma AtMostThreePerWindow(entries: map<string, RateEntry>, ip: string, start: int, later: seq<Arrival>)
    requires ip !in entries || start > entries[ip].resetTime
    requires forall i :: 0 <= i < |later| && later[i].ip == ip ==> later[i].time <= start + RateLimitWindow
    ensures Admitted(entries, [Arrival(ip, start)] + later, ip) <= RateLimitMaxRequests
  {
    var arrivals := [Arrival(ip, start)] + later;
    var d := RateLimitStep(entries, ip, start);
    assert arrivals[1..] == later;
    AdmittedWithinWindow(d.entries, later, ip);
  }

  // ---------------------------------------------------------------------------
  // Input validation

  /** A parsed JSON body. */
  datatype Json = JNull | JBool(b: bool) | JNumber(n: int) | JString(s: string) | JArray(items: seq<Json>)
                | JObject(fields: map<string, Json>)

  /** `data.name`: only objects have the property; other non-null values
      give `undefined`. */
  function Property(data: Json, name: string): Option<Json> {
    if data.JObject? && name in data.fields then Some(data.fields[name]) else None
  }

  /** `typeof data.name === 'string' && lo <= data.name.length < hi`. */
  predicate StringWithin(data: Json, name: string, lo: int, hi: int) {
    var p := Property(data, name);
    p.Some? && p.value.JString? && lo <= |p.value.s| < hi
  }

  /** `Array.isArray(data.name) && data.name.length > 0`. */
  predicate NonEmptyArray(data: Json, name: string) {
    var p := Property(data, name);
    p.Some? && p.value.JArray? && |p.value.items| > 0
  }

  /** What `validateInput` does with a body: reading a property of `null`
      throws. */
  datatype Verdict = Accept | Reject | ThrowsTypeError

  /** `validateInput` */
  function ValidateInput(data: Json): (v: Verdict)
    ensures v == ThrowsTypeError <==> data.JNull?
    ensures v == Accept ==> data.JObject?
  {
    if data.JNull? then ThrowsTypeError
    else if StringWithin(data, "companyName", 1, 200) &&
            StringWithin(data, "contactEmail", 0, 100) && '@' in Property(data, "contactEmail").value.s &&
            StringWithin(data, "contactName", 1, 100) &&
            StringWithin(data, "industry", 0, 100) &&
            StringWithin(data, "companySize", 0, 50) &&
            NonEmptyArray(data, "challenges") &&
            NonEmptyArray(data, "goals") &&
            StringWithin(data, "timeline", 0, 50) &&
            StringWithin(data, "budget", 0, 50)
    then Accept
    else Reject
  }

  /** The request type the validator guards. */
  datatype AssessmentRequest = AssessmentRequest(
    companyName: string, contactEmail: string, contactName: string, industry: string, companySize: string,
    challenges: seq<Json>, goals: seq<Json>, timeline: string, budget: string)

  /** Every bound `validateInput` checks. */
  predicate MeetsBounds(r: AssessmentRequest) {
    0 < |r.companyName| < 200 && '@' in r.contactEmail && |r.contactEmail| < 100 &&
    0 < |r.contactName| < 100 && |r.industry| < 100 && |r.companySize| < 50 &&
    |r.challenges| > 0 && |r.goals| > 0 && |r.timeline| < 50 && |r.budget| < 50
  }

  /** The body carries the request's nine fields, as strings and arrays;
      other keys may be present too. */
  predicate Carries(data: Json, r: AssessmentRequest) {
    data.JObject? &&
    Property(data, "companyName") == Some(JString(r.companyName)) &&
    Property(data, "contactEmail") == Some(JString(r.contactEmail)) &&
    Property(data, "contactName") == Some(JString(r.contactName)) &&
    Property(data, "industry") == Some(JString(r.industry)) &&
    Property(data, "companySize") == Some(JString(r.companySize)) &&
    Property(data, "challenges") == Some(JArray(r.challenges)) &&
    Property(data, "goals") == Some(JArray(r.goals)) &&
    Property(data, "timeline") == Some(JString(r.timeline)) &&
    Property(data, "budget") == Some(JString(r.budget))
  }

  /** The type guard's promise: an accepted body reads as a request that
      meets every bound and whose nine fields are the body's. */
  function AsRequest(data: Json): (r: AssessmentRequest)
    requires ValidateInput(data) == Accept
    ensures MeetsBounds(r) && Carries(data, r)
  {
    var f := data.fields;
    AssessmentRequest(f["companyName"].s, f["contactEmail"].s, f["contactName"].s, f["industry"].s,
                      f["companySize"].s, f["challenges"].items, f["goals"].items, f["timeline"].s, f["budget"].s)
  }

  /** The converse of the type guard: any body that carries a request's nine
      fields, whatever other keys it has (the optional `additionalInfo`,
      say), is accepted when the request meets every bound, and reads back
      as that request. */
  lemma AcceptsEveryBoundedRequest(r: AssessmentRequest, data: Json)
    requires MeetsBounds(r) && Carries(data, r)
    ensures ValidateInput(data) == Accept && AsRequest(data) == r
  {
    assert Property(data, "contactEmail").value.s == r.contactEmail;
  }

  // ---------------------------------------------------------------------------
  // The handler

  /** An incoming request. `body` is `None` when it does not parse as JSON. */
  datatype HttpRequest = HttpRequest(httpMethod: string, forwardedFor: Option<string>, realIp: Option<string>,
                                     body: Option<Json>)

  datatype ResponseBody = NoBody | ErrorBody(error: string) | SuccessBody(message: string)
  datatype Response = Response(status: int, body: ResponseBody)

  const Preflight := Response(200, NoBody)
  const MethodNotAllowed := Response(405, ErrorBody("Method not allowed"))
  const TooManyRequests := Response(429, ErrorBody("Too many requests. Please try again later."))
  const InvalidInput := Response(400, ErrorBody("Invalid input data"))
  const InternalError := Response(500, ErrorBody("Internal server error. Please try again later."))
  const Submitted := Response(200, SuccessBody("Assessment request submitted successfully"))

  /** `x-forwarded-for || x-real-ip || "unknown"`: empty headers fall through. */
  function ClientIp(req: HttpRequest): (ip: string)
    ensures ip != []
    ensures req.forwardedFor.Some? && req.forwardedFor.value != [] ==> ip == req.forwardedFor.value
    ensures !(req.forwardedFor.Some? && req.forwardedFor.value != []) && req.realIp.Some? && req.realIp.value != [] ==>
              ip == req.realIp.value
    ensures !(req.forwardedFor.Some? && req.forwardedFor.value != []) && !(req.realIp.Some? && req.realIp.value != []) ==>
              ip == "unknown"
  {
    if req.forwardedFor.Some? && req.forwardedFor.value != [] then req.forwardedFor.value
    else if req.realIp.Some? && req.realIp.value != [] then req.realIp.value
    else "unknown"
  }

  /** The handler, with the clock and whether sending the emails throws
      passed in. A POST is counted by the limiter before its body is read,
      so malformed and invalid bodies use up the address's quota too. */
  method Handle(limiter: RateLimiter, req: HttpRequest, now: int, mailThrows: bool) returns (resp: Response)
    modifies limiter
    ensures req.httpMethod == "OPTIONS" ==> resp == Preflight && limiter.entries == old(limiter.entries)
    ensures req.httpMethod != "OPTIONS" && req.httpMethod != "POST" ==>
              resp == MethodNotAllowed && limiter.entries == old(limiter.entries)
    ensures req.httpMethod == "POST" ==>
              var d := RateLimitStep(old(limiter.entries), ClientIp(req), now);
              limiter.entries == d.entries &&
              (!d.allowed ==> resp == TooManyRequests) &&
              (d.allowed && req.body.None? ==> resp == InternalError) &&
              (d.allowed && req.body.Some? ==>
                 var v := ValidateInput(req.body.value);
                 (v == ThrowsTypeError ==> resp == InternalError) &&
                 (v == Reject ==> resp == InvalidInput) &&
                 (v == Accept ==> resp == if mailThrows then InternalError else Submitted))
  {
    if req.httpMethod == "OPTIONS" {
      return Preflight;
    }
    if req.httpMethod != "POST" {
      return MethodNotAllowed;
    }
    var allowed := limiter.CheckRateLimit(ClientIp(req), now);
    if !allowed {
      return TooManyRequests;
    }
    if req.body.None? {
      return InternalError;
    }
    match ValidateInput(req.body.value) {
      case ThrowsTypeError =>
        resp := InternalError;
      case Reject =>
        resp := InvalidInput;
      case Accept =>
        resp := if mailThrows then InternalError else Submitted;
    }
  }
}
