/**
 * The per-IP rate limiter that wraps the `/chat` endpoint
 * (src/backend/chatbot.py): `rate_limit_dict` maps each client address to
 * the time of its last accepted request, and a request that comes less
 * than `60 / RATE_LIMIT` seconds after it is answered with 429. The clock
 * (`time.time()`) is a `real` parameter.
 */
module RateLimiting {

  /** `RATE_LIMIT`: requests per minute. */
  const RateLimit: int := 30

  /** The least gap between two accepted requests of one address, in seconds. */
  const MinGap: real := 60.0 / RateLimit as real

  lemma MinGapIsTwoSeconds()
    ensures MinGap == 2.0
  {
  }

  /** The contents of `rate_limit_dict`. */
  type Table = map<string, real>

  /** The wrapper lets the request through: no entry for `ip`, or the entry is at least `MinGap` old. */
  predicate Accepts(table: Table, ip: string, now: real)
    ensures Accepts(table, ip, now) <==> ip !in table || now >= table[ip] + 2.0
  {
    MinGapIsTwoSeconds();
    !(ip in table && now - table[ip] < MinGap)
  }

  /** The table after one request: an accepted request records `now` for its address. */
  function Step(table: Table, ip: string, now: real): (r: Table)
    ensures r.Keys == if Accepts(table, ip, now) then table.Keys + {ip} else table.Keys
    ensures Accepts(table, ip, now) ==> r[ip] == now
    ensures forall other :: other in table && other != ip ==> r[other] == table[other]
    ensures !Accepts(table, ip, now) ==> r == table
  {
    if Accepts(table, ip, now) then table[ip := now] else table
  }

  /** An address with no entry is always accepted. */
  lemma FirstRequestAccepted(table: Table, ip: string, now: real)
    requires ip !in table
    ensures Accepts(table, ip, now) && Step(table, ip, now)[ip] == now
  {
  }

  /** A request is refused exactly when it comes less than two seconds after the last accepted one; exactly two seconds is accepted. */
  lemma RejectsWithinTwoSeconds(table: Table, ip: string, now: real)
    ensures !Accepts(table, ip, now) <==> ip in table && now < table[ip] + 2.0
    ensures ip in table && now == table[ip] + 2.0 ==> Accepts(table, ip, now)
  {
    MinGapIsTwoSeconds();
  }

  /** An accepted request sets its own entry and no other; a refused one changes nothing. */
  lemma StepTouchesOnlyItsAddress(table: Table, ip: string, now: real, other: string)
    requires other != ip
    ensures other in Step(table, ip, now) <==> other in table
    ensures other in table ==> Step(table, ip, now)[other] == table[other]
    ensures Accepts(table, ip, now) ==> Step(table, ip, now) == table[ip := now]
    ensures !Accepts(table, ip, now) ==> Step(table, ip, now) == table
  {
  }

  /** One request reaching the wrapper. */
  datatype Arrival = Arrival(ip: string, time: real)

  /** The accept/refuse answers to a sequence of requests, starting from `table`. */
  function Decisions(table: Table, arrivals: seq<Arrival>): (r: seq<bool>)
    ensures |r| == |arrivals|
    decreases |arrivals|
  {
    if |arrivals| == 0 then []
    else
      var a := arrivals[0];
      [Accepts(table, a.ip, a.time)] + Decisions(Step(table, a.ip, a.time), arrivals[1..])
  }

  /** The table after a sequence of requests. */
  function TableAfter(table: Table, arrivals: seq<Arrival>): Table
    decreases |arrivals|
  {
    if |arrivals| == 0 then table
    else TableAfter(Step(table, arrivals[0].ip, arrivals[0].time), arrivals[1..])
  }

  /**
   * Refused requests do not extend the window: a burst from one address,
   * all within the window of its last accepted request, is refused in full
   * and leaves the table as it was.
   */
  lemma {:induction false} BurstWithinWindowRefused(table: Table, ip: string, arrivals: seq<Arrival>)
    requires ip in table
    requires forall k :: 0 <= k < |arrivals| ==> arrivals[k].ip == ip && arrivals[k].time < table[ip] + MinGap
    ensures TableAfter(table, arrivals) == table
    ensures forall k :: 0 <= k < |arrivals| ==> !Decisions(table, arrivals)[k]
    decreases |arrivals|
  {
    if |arrivals| > 0 {
      assert Step(table, ip, arrivals[0].time) == table;
      BurstWithinWindowRefused(table, ip, arrivals[1..]);
      assert Decisions(table, arrivals) == [false] + Decisions(table, arrivals[1..]);
    }
  }

  /** The recorded time of an address never decreases. */
  lemma StepKeepsEntry(table: Table, a: Arrival, ip: string)
    requires ip in table
    ensures ip in Step(table, a.ip, a.time) && Step(table, a.ip, a.time)[ip] >= table[ip]
  {
  }

  /** Every later accepted request of an address comes at least `MinGap` after the time recorded for it now. */
  lemma {:induction false} AcceptedAfterEntry(table: Table, arrivals: seq<Arrival>, j: nat)
    requires j < |arrivals| && arrivals[j].ip in table
    requires Decisions(table, arrivals)[j]
    ensures arrivals[j].time >= table[arrivals[j].ip] + MinGap
    decreases |arrivals|
  {
    var ip := arrivals[j].ip;
    var next := Step(table, arrivals[0].ip, arrivals[0].time);
    assert Decisions(table, arrivals) == [Accepts(table, arrivals[0].ip, arrivals[0].time)] + Decisions(next, arrivals[1..]);
    if j > 0 {
      StepKeepsEntry(table, arrivals[0], ip);
      assert arrivals[1..][j - 1] == arrivals[j];
      AcceptedAfterEntry(next, arrivals[1..], j - 1);
    }
  }

  /** Any two accepted requests of one address are at least two seconds apart, in arrival order. */
  lemma {:induction false} AcceptedRequestsSpaced(table: Table, arrivals: seq<Arrival>, i: nat, j: nat)
    requires i < j < |arrivals| && arrivals[i].ip == arrivals[j].ip
    requires Decisions(table, arrivals)[i] && Decisions(table, arrivals)[j]
    ensures arrivals[j].time >= arrivals[i].time + 2.0
    decreases |arrivals|
  {
    MinGapIsTwoSeconds();
    var next := Step(table, arrivals[0].ip, arrivals[0].time);
    assert Decisions(table, arrivals) == [Accepts(table, arrivals[0].ip, arrivals[0].time)] + Decisions(next, arrivals[1..]);
    assert arrivals[1..][j - 1] == arrivals[j];
    if i == 0 {
      assert next[arrivals[0].ip] == arrivals[0].time;
      AcceptedAfterEntry(next, arrivals[1..], j - 1);
    } else {
      assert arrivals[1..][i - 1] == arrivals[i];
      AcceptedRequestsSpaced(next, arrivals[1..], i - 1, j - 1);
    }
  }

  /** `rate_limit_dict` with the check the `rate_limiter` wrapper makes before each request. */
  class RateLimiter {
    var lastRequest: Table

    constructor ()
      ensures lastRequest == map[]
    {
      lastRequest := map[];
    }

    /** The wrapper's test for a request from `ip` at time `now`; an accepted request records `now`. */
    method Admit(ip: string, now: real) returns (accepted: bool)
      modifies this
      ensures accepted == Accepts(old(lastRequest), ip, now)
      ensures lastRequest == Step(old(lastRequest), ip, now)
    {
      if ip in lastRequest {
        var last := lastRequest[ip];
        if now - last < 60.0 / RateLimit as real {
          return false;
        }
      }
      lastRequest := lastRequest[ip := now];
      return true;
    }
  }
}
