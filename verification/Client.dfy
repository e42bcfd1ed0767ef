/** The benchmark client's retry loop: resend only where resending cannot duplicate work. */
module RetryingClient {

  const RATE_LIMITED: int := 429

  predicate IsGatewayError(code: int) { code == 502 || code == 503 || code == 504 }

  /** What one send comes back with: a status line, or none at all. */
  datatype Answer = Status(code: int) | NoStatus

  datatype Outcome =
    | Response(status: int, attempts: nat, rateLimited: bool, retried: seq<int>)
    | Raised(attempts: nat)

  /** The answer to the send after this many. */
  function Reply(server: nat -> Answer, sent: nat): Answer { server(sent) }

  /** Whether the answer to the given attempt, counted from one, is followed by another. */
  predicate Retries(answer: Answer, attempt: nat, idempotent: bool, maxRetries: int)
  {
    && answer.Status? && attempt <= maxRetries
    && (answer.code == RATE_LIMITED || (IsGatewayError(answer.code) && idempotent))
  }

  /** Each of the first n sends is followed by another. */
  predicate Resent(server: nat -> Answer, idempotent: bool, maxRetries: int, n: nat)
  {
    n == 0 || (Resent(server, idempotent, maxRetries, n - 1) && Retries(Reply(server, n - 1), n, idempotent, maxRetries))
  }

  /** A call that takes exactly this many sends: all but the last are retried. */
  predicate Exchange(server: nat -> Answer, idempotent: bool, maxRetries: int, attempts: nat)
  {
    && attempts >= 1
    && Resent(server, idempotent, maxRetries, attempts - 1)
    && !Retries(Reply(server, attempts - 1), attempts, idempotent, maxRetries)
  }

  function Codes(server: nat -> Answer, n: nat): (codes: seq<int>)
    ensures |codes| == n
  {
    if n == 0 then [] else Codes(server, n - 1) + [CodeOf(Reply(server, n - 1))]
  }

  function CodeOf(answer: Answer): int { if answer.Status? then answer.code else 0 }

  /** How many of the first n answers were refusals by the rate limiter. */
  function Denials(server: nat -> Answer, n: nat): nat
  {
    if n == 0 then 0
    else Denials(server, n - 1) + (if Reply(server, n - 1) == Status(RATE_LIMITED) then 1 else 0)
  }

  /** What a call that took this many sends comes back with. */
  function Settled(server: nat -> Answer, attempts: nat): Outcome
    requires attempts >= 1
  {
    var retried := Codes(server, attempts - 1);
    match Reply(server, attempts - 1)
    case NoStatus => Raised(attempts)
    case Status(code) => Response(code, attempts, Denials(server, attempts - 1) > 0, retried)
  }

  class Client {
    const maxRetries: int
    var requests: nat
    var denials: nat

    constructor (maxRetries: int)
      ensures this.maxRetries == maxRetries && requests == 0 && denials == 0
    {
      this.maxRetries, requests, denials := maxRetries, 0, 0;
    }

    /** One call. `server` answers the sends in turn. */
    method Request(idempotent: bool, server: nat -> Answer) returns (outcome: Outcome)
      modifies this
      ensures Exchange(server, idempotent, maxRetries, outcome.attempts)
      ensures outcome == Settled(server, outcome.attempts)
      ensures requests == old(requests) + outcome.attempts - (if outcome.Raised? then 1 else 0)
      ensures denials == old(denials) + Denials(server, outcome.attempts - 1)
    {
      var attempt: nat := 0;
      var retried: seq<int> := [];
      var rateLimited := false;
      while true
        invariant Resent(server, idempotent, maxRetries, attempt)
        invariant retried == Codes(server, attempt)
        invariant rateLimited <==> Denials(server, attempt) > 0
        invariant requests == old(requests) + attempt
        invariant denials == old(denials) + Denials(server, attempt)
        decreases maxRetries - attempt + 1
      {
        attempt := attempt + 1;
        var answer := Reply(server, attempt - 1);
        if answer.NoStatus? {
          return Raised(attempt);
        }
        requests := requests + 1;
        if answer.code == RATE_LIMITED && attempt <= maxRetries {
          denials := denials + 1;
          retried := retried + [answer.code];
          rateLimited := true;
          continue;
        }
        if IsGatewayError(answer.code) && idempotent && attempt <= maxRetries {
          retried := retried + [answer.code];
          continue;
        }
        return Response(answer.code, attempt, rateLimited, retried);
      }
    }
  }

  // ----- What that promises -----

  lemma {:induction false} ResentAt(server: nat -> Answer, idempotent: bool, maxRetries: int, n: nat, k: nat)
    requires k < n && Resent(server, idempotent, maxRetries, n)
    ensures Retries(Reply(server, k), k + 1, idempotent, maxRetries)
  {
    if k < n - 1 {
      ResentAt(server, idempotent, maxRetries, n - 1, k);
    }
  }

  /** However the server answers, one number of sends is right and it is within the budget. */
  lemma {:induction false} ExchangeIsBounded(server: nat -> Answer, idempotent: bool, maxRetries: int, m: nat, n: nat)
    requires Exchange(server, idempotent, maxRetries, m) && Exchange(server, idempotent, maxRetries, n)
    ensures m == n && m <= (if maxRetries < 0 then 0 else maxRetries) + 1
  {
    if m < n {
      ResentAt(server, idempotent, maxRetries, n - 1, m - 1);
    } else if n < m {
      ResentAt(server, idempotent, maxRetries, m - 1, n - 1);
    }
  }

  /** Every call ends: some number of sends within the budget completes it. */
  lemma {:induction false} ExchangeExists(server: nat -> Answer, idempotent: bool, maxRetries: int, sent: nat) returns (n: nat)
    requires sent <= (if maxRetries < 0 then 0 else maxRetries)
    requires Resent(server, idempotent, maxRetries, sent)
    ensures Exchange(server, idempotent, maxRetries, n)
    decreases maxRetries - sent
  {
    if Retries(Reply(server, sent), sent + 1, idempotent, maxRetries) {
      n := ExchangeExists(server, idempotent, maxRetries, sent + 1);
    } else {
      n := sent + 1;
    }
  }

  lemma {:induction false} AllDenied(server: nat -> Answer, maxRetries: int, n: nat)
    requires Resent(server, false, maxRetries, n)
    ensures Denials(server, n) == n
  {
    if n > 0 {
      AllDenied(server, maxRetries, n - 1);
    }
  }

  /** A request that may start work is sent again only after the limiter turned it away: of all
      its sends, at most the last met anything but a 429, and the denials counted are exactly
      the sends before it. */
  lemma {:induction false} WorkIsNotDuplicated(server: nat -> Answer, maxRetries: int, attempts: nat)
    requires Exchange(server, false, maxRetries, attempts)
    ensures forall k :: 0 <= k < attempts && Reply(server, k) != Status(RATE_LIMITED) ==> k == attempts - 1
    ensures Denials(server, attempts - 1) == attempts - 1
  {
    forall k | 0 <= k < attempts && Reply(server, k) != Status(RATE_LIMITED) ensures k == attempts - 1 {
      if k < attempts - 1 {
        ResentAt(server, false, maxRetries, attempts - 1, k);
      }
    }
    AllDenied(server, maxRetries, attempts - 1);
  }
}
