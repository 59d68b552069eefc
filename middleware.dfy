/** The request middleware: the fixed-window rate limiter, which counts requests per
    client address in a dictionary it owns, and the error handler's choice of status
    code and body for a failed request. The clock reading is a parameter. */
module Middleware {

  /** One dictionary entry: requests counted so far, and when the window opened. */
  datatype Entry = Entry(count: int, timestamp: int)

  /** The limiter's answer for one request, with the dictionary after it. */
  datatype Decision = Decision(allowed: bool, log: map<string, Entry>)

  /** Defaults of the limiter's options: a one-minute window, 60 requests per window, and
      the body text of the 429 answer. */
  const DefaultWindowMs := 60 * 1000
  const DefaultMax := 60
  const DefaultMessage := "Слишком много запросов, пожалуйста, повторите позже"

  /** The dictionary after the purge: entries whose window opened before `now - windowMs`
      are gone, every other entry is kept as it was. */
  function Purged(log: map<string, Entry>, now: int, windowMs: int): map<string, Entry> {
    map k | k in log && log[k].timestamp >= now - windowMs :: log[k]
  }

  /** An address without an entry gets an empty count and a window opening at `now`. */
  function Seeded(log: map<string, Entry>, ip: string, now: int): (log': map<string, Entry>)
    ensures ip in log'
  {
    if ip in log then log else log[ip := Entry(0, now)]
  }

  /** One request: purge, seed, then refuse at the limit or count the request. */
  function Decide(log: map<string, Entry>, ip: string, now: int, windowMs: int, max: int): (d: Decision)
    ensures d.log.Keys == Purged(log, now, windowMs).Keys + {ip}
    ensures d.allowed ==> d.log[ip].count <= max
    ensures !d.allowed ==> d.log[ip].count >= max
  {
    var seeded := Seeded(Purged(log, now, windowMs), ip, now);
    var e := seeded[ip];
    if e.count >= max then Decision(false, seeded)
    else Decision(true, seeded[ip := e.(count := e.count + 1)])
  }

  /** After the purge every remaining entry is inside the window, an entry is removed
      exactly when its window opened strictly before `now - windowMs`, and kept entries
      are unchanged. */
  lemma PurgeKeepsFresh(log: map<string, Entry>, now: int, windowMs: int)
    ensures var p := Purged(log, now, windowMs);
      && (forall k :: k in p ==> p[k].timestamp >= now - windowMs && k in log && p[k] == log[k])
      && (forall k :: k in log ==> (k !in p <==> log[k].timestamp < now - windowMs))
  {
  }

  /** An address with no entry left after the purge starts from `{count: 0, timestamp: now}`:
      its first request is admitted with count 1 exactly when `max > 0`. */
  lemma FirstRequestSeeds(log: map<string, Entry>, ip: string, now: int, windowMs: int, max: int)
    requires ip !in Purged(log, now, windowMs)
    ensures var d := Decide(log, ip, now, windowMs, max);
      && d.allowed == (max > 0)
      && d.log[ip] == Entry(if max > 0 then 1 else 0, now)
  {
  }

  /** At the limit the request is refused and the address's entry stays as it was; below
      it the request is admitted, the count rises by exactly one and the window's opening
      time is not refreshed. */
  lemma LimitRule(log: map<string, Entry>, ip: string, now: int, windowMs: int, max: int)
    ensures var e := Seeded(Purged(log, now, windowMs), ip, now)[ip];
      var d := Decide(log, ip, now, windowMs, max);
      && (d.allowed <==> e.count < max)
      && (!d.allowed ==> d.log[ip] == e)
      && (d.allowed ==> d.log[ip] == Entry(e.count + 1, e.timestamp))
      && (ip in log && log[ip].timestamp >= now - windowMs ==> e == log[ip])
  {
  }

  /** A request touches no other address's entry beyond the purge. */
  lemma OthersUntouched(log: map<string, Entry>, ip: string, now: int, windowMs: int, max: int)
    ensures var d := Decide(log, ip, now, windowMs, max);
      && ip in d.log
      && forall k :: k != ip ==>
           (k in d.log <==> k in log && log[k].timestamp >= now - windowMs)
           && (k in d.log ==> d.log[k] == log[k])
  {
  }

  /** No count exceeds the limit: seeded entries hold 0, and a count is raised only
      while it is below `max`. */
  ghost predicate Bounded(log: map<string, Entry>, max: int) {
    forall k :: k in log ==> 0 <= log[k].count && (log[k].count <= max || log[k].count == 0)
  }

  /** Every request keeps the counts bounded; with `max >= 0` no count exceeds `max`. */
  lemma DecideKeepsBounded(log: map<string, Entry>, ip: string, now: int, windowMs: int, max: int)
    requires Bounded(log, max)
    ensures Bounded(Decide(log, ip, now, windowMs, max).log, max)
    ensures max >= 0 ==> forall k :: k in Decide(log, ip, now, windowMs, max).log ==>
      Decide(log, ip, now, windowMs, max).log[k].count <= max
  {
  }

  /** Requests from one address at the given times, starting from `log`: how many are
      admitted, and the dictionary afterwards. */
  function Replay(log: map<string, Entry>, ip: string, times: seq<int>, windowMs: int, max: int): (r: (nat, map<string, Entry>))
    decreases |times|
  {
    if times == [] then (0, log)
    else
      var d := Decide(log, ip, times[0], windowMs, max);
      var rest := Replay(d.log, ip, times[1..], windowMs, max);
      (rest.0 + (if d.allowed then 1 else 0), rest.1)
  }

  /** The fixed window: once an address's window opened at `t0`, the requests it makes
      up to `t0 + windowMs` are admitted at most `max - count` more times, so at most
      `max` within one window in all, and the window does not move. */
  lemma {:induction false} WindowCap(log: map<string, Entry>, ip: string, times: seq<int>, windowMs: int, max: int)
    requires ip in log && 0 <= log[ip].count
    requires forall i :: 0 <= i < |times| ==> times[i] <= log[ip].timestamp + windowMs
    ensures var r := Replay(log, ip, times, windowMs, max);
      && ip in r.1 && r.1[ip].timestamp == log[ip].timestamp
      && r.0 <= (if max > log[ip].count then max - log[ip].count else 0)
      && r.1[ip].count == log[ip].count + r.0
    decreases |times|
  {
    if times != [] {
      var d := Decide(log, ip, times[0], windowMs, max);
      assert log[ip].timestamp >= times[0] - windowMs;
      assert d.log[ip] == (if log[ip].count < max then Entry(log[ip].count + 1, log[ip].timestamp) else log[ip]);
      WindowCap(d.log, ip, times[1..], windowMs, max);
    }
  }

  /** From a fresh first request at `t0`, at most `max` requests are admitted up to
      `t0 + windowMs`. */
  lemma FreshWindowCap(log: map<string, Entry>, ip: string, times: seq<int>, windowMs: int, max: int)
    requires |times| > 0 && ip !in Purged(log, times[0], windowMs) && max >= 0
    requires forall i :: 0 <= i < |times| ==> times[i] <= times[0] + windowMs
    ensures Replay(log, ip, times, windowMs, max).0 <= max
  {
    var d := Decide(log, ip, times[0], windowMs, max);
    FirstRequestSeeds(log, ip, times[0], windowMs, max);
    WindowCap(d.log, ip, times[1..], windowMs, max);
  }

  /** `rateLimiter(options)`: the returned middleware and the dictionary it closes over.
      An option left out takes its default. */
  class RateLimiter {
    const windowMs: int
    const max: int
    /** The text sent with a refusal. */
    const message: string
    var requestLog: map<string, Entry>

    constructor (windowMs: int := DefaultWindowMs, max: int := DefaultMax, message: string := DefaultMessage)
      ensures this.windowMs == windowMs && this.max == max && this.message == message
      ensures requestLog == map[]
    {
      this.windowMs := windowMs;
      this.max := max;
      this.message := message;
      requestLog := map[];
    }

    /** One request from `ip` at time `now`: `true` lets it through, `false` answers 429
        with `message`. */
    method Handle(ip: string, now: int) returns (allowed: bool)
      modifies this
      ensures Decision(allowed, requestLog) == Decide(old(requestLog), ip, now, windowMs, max)
    {
      ghost var log0 := requestLog;
      var pending := requestLog.Keys;
      while pending != {}
        invariant pending <= log0.Keys
        invariant requestLog == map k | k in log0 && (k in pending || log0[k].timestamp >= now - windowMs) :: log0[k]
        decreases |pending|
      {
        var storedIp :| storedIp in pending;
        if requestLog[storedIp].timestamp < now - windowMs {
          requestLog := map k | k in requestLog && k != storedIp :: requestLog[k];
        }
        pending := pending - {storedIp};
      }
      assert requestLog == Purged(log0, now, windowMs);
      if ip !in requestLog {
        requestLog := requestLog[ip := Entry(0, now)];
      }
      if requestLog[ip].count >= max {
        return false;
      }
      requestLog := requestLog[ip := requestLog[ip].(count := requestLog[ip].count + 1)];
      allowed := true;
    }
  }

  // ---------------------------------------------------------------------------
  // The error handler

  /** The JSON body of a failed request (`success` is always false). */
  datatype ErrorReply = ErrorReply(status: int, message: string, error: string)

  const DatabaseFailure := "Ошибка базы данных"
  const AuthorizationFailure := "Ошибка авторизации"
  const ServerFailure := "Внутренняя ошибка сервера"
  const HiddenDetail := "Что-то пошло не так"

  /** `errorHandler`: the status and body for an error of the given `name` and `message`
      while `NODE_ENV` is `nodeEnv`. */
  function Classify(name: string, message: string, nodeEnv: string): (r: ErrorReply)
    ensures || (r.status == 400 && r.message == DatabaseFailure)
            || (r.status == 401 && r.message == AuthorizationFailure)
            || (r.status == 500 && r.message == ServerFailure)
    ensures r.error == message || r.error == HiddenDetail
  {
    if name == "MongoError" || name == "ValidationError" then ErrorReply(400, DatabaseFailure, message)
    else if name == "JsonWebTokenError" || name == "TokenExpiredError" then ErrorReply(401, AuthorizationFailure, message)
    else ErrorReply(500, ServerFailure, if nodeEnv == "production" then HiddenDetail else message)
  }

  /** Database errors answer 400 and authorization errors 401, both with the error's own
      message; every other error answers 500, and its message is withheld exactly in
      production. */
  lemma ClassifyTable(name: string, message: string, nodeEnv: string)
    ensures var r := Classify(name, message, nodeEnv);
      && (r.status == 400 <==> name == "MongoError" || name == "ValidationError")
      && (r.status == 401 <==> name == "JsonWebTokenError" || name == "TokenExpiredError")
      && (r.status == 500 <==> name !in {"MongoError", "ValidationError", "JsonWebTokenError", "TokenExpiredError"})
      && (r.status != 500 ==> r.error == message)
      && (r.status == 500 ==> (r.error == message <==> nodeEnv != "production" || message == HiddenDetail))
  {
  }
}
