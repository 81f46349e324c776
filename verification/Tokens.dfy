/** The one-time tokens of the SSE endpoint: a map with expiry, and a sweeper nobody can notice. */
module Tokens {
  import opened Domain

  type Token = nat

  const SECOND := 1000000000
  const TOKEN_TTL := 30 * SECOND

  datatype Entry = Entry(userId: User, expiresAt: Time)

  type Store = map<Token, Entry>

  // ---------- the specification ----------

  function Issued(m: Store, token: Token, user: User, now: Time): Store {
    m[token := Entry(user, now + TOKEN_TTL)]
  }

  function Answer(m: Store, token: Token, now: Time): Option<User> {
    if token !in m || now > m[token].expiresAt then None else Some(m[token].userId)
  }

  function Swept(m: Store, now: Time): Store {
    map t | t in m && now <= m[t].expiresAt :: m[t]
  }

  datatype Call = Issue(at: Time, token: Token, user: User) | Consume(at: Time, token: Token) | Sweep(at: Time)

  function After(m: Store, call: Call): Store {
    match call
    case Issue(now, token, user) => Issued(m, token, user, now)
    case Consume(now, token) => m - {token}
    case Sweep(now) => Swept(m, now)
  }

  // What the Consume calls of a run answer, in order.
  function Answers(m: Store, calls: seq<Call>): seq<Option<User>>
    decreases |calls|
  {
    if calls == [] then []
    else
      (if calls[0].Consume? then [Answer(m, calls[0].token, calls[0].at)] else [])
      + Answers(After(m, calls[0]), calls[1..])
  }

  function WithoutSweeps(calls: seq<Call>): seq<Call>
    decreases |calls|
  {
    if calls == [] then []
    else (if calls[0].Sweep? then [] else [calls[0]]) + WithoutSweeps(calls[1..])
  }

  // The clock does not run backwards, from `start` on.
  ghost predicate InOrder(start: Time, calls: seq<Call>) {
    && (forall i :: 0 <= i < |calls| ==> start <= calls[i].at)
    && (forall i, j :: 0 <= i < j < |calls| ==> calls[i].at <= calls[j].at)
  }

  // ---------- the sweeper is unobservable ----------

  // `m` is `full` without some entries that have expired before `now`.
  ghost predicate OnlyExpiredMissing(m: Store, full: Store, now: Time) {
    && (forall t :: t in m ==> t in full && full[t] == m[t])
    && (forall t :: t in full && t !in m ==> full[t].expiresAt < now)
  }

  lemma {:induction false} SweepsDoNotMatterFrom(m: Store, full: Store, start: Time, calls: seq<Call>)
    requires InOrder(start, calls) && OnlyExpiredMissing(m, full, start)
    ensures Answers(m, calls) == Answers(full, WithoutSweeps(calls))
    decreases |calls|
  {
    if calls != [] {
      var call, rest := calls[0], calls[1..];
      assert InOrder(call.at, rest);
      if call.Sweep? {
        SweepsDoNotMatterFrom(Swept(m, call.at), full, call.at, rest);
        assert WithoutSweeps(calls) == WithoutSweeps(rest) && Answers(m, calls) == Answers(Swept(m, call.at), rest);
      } else {
        SweepsDoNotMatterFrom(After(m, call), After(full, call), call.at, rest);
        assert WithoutSweeps(calls)[1..] == WithoutSweeps(rest);
      }
    }
  }

  // Whatever the store holds and whenever the sweeper runs, every Consume answers as if it never ran.
  lemma SweepsDoNotMatter(m: Store, start: Time, calls: seq<Call>)
    requires InOrder(start, calls)
    ensures Answers(m, calls) == Answers(m, WithoutSweeps(calls))
  {
    SweepsDoNotMatterFrom(m, m, start, calls);
  }

  // ---------- one use, one user, thirty seconds ----------

  function StoreAfter(calls: seq<Call>): Store
    decreases |calls|
  {
    if calls == [] then map[] else After(StoreAfter(calls[..|calls| - 1]), calls[|calls| - 1])
  }

  // The last issue of the token, unless it has been consumed since.
  function Outstanding(calls: seq<Call>, token: Token): Option<Call>
    decreases |calls|
  {
    if calls == [] then None
    else
      var last := calls[|calls| - 1];
      if last.Issue? && last.token == token then Some(last)
      else if last.Consume? && last.token == token then None
      else Outstanding(calls[..|calls| - 1], token)
  }

  lemma {:induction false} OutstandingIsIssue(calls: seq<Call>, token: Token)
    ensures var o := Outstanding(calls, token); o.Some? ==> o.value.Issue? && o.value.token == token && o.value in calls
    decreases |calls|
  {
    if calls != [] {
      OutstandingIsIssue(calls[..|calls| - 1], token);
    }
  }

  // The store holds the outstanding issue, unless that has expired and been swept.
  lemma {:induction false} StoreHoldsOutstanding(calls: seq<Call>, token: Token, start: Time, now: Time)
    requires InOrder(start, calls) && forall i :: 0 <= i < |calls| ==> calls[i].at <= now
    ensures var m, o := StoreAfter(calls), Outstanding(calls, token);
            && (o.None? ==> token !in m)
            && (o.Some? ==> o.value.Issue? && if token in m then m[token] == Entry(o.value.user, o.value.at + TOKEN_TTL)
                                              else o.value.at + TOKEN_TTL < now)
    decreases |calls|
  {
    OutstandingIsIssue(calls, token);
    if calls != [] {
      var init, last := calls[..|calls| - 1], calls[|calls| - 1];
      StoreHoldsOutstanding(init, token, start, last.at);
    }
  }

  // Exactly when a Consume succeeds, and for whom: the token is outstanding for that user and not older than its TTL.
  lemma ConsumeSucceedsExactly(calls: seq<Call>, start: Time, token: Token, user: User, now: Time)
    requires InOrder(start, calls + [Consume(now, token)])
    ensures var o := Outstanding(calls, token);
            Answer(StoreAfter(calls), token, now) == Some(user)
            <==> o.Some? && o.value.Issue? && o.value.user == user && now - o.value.at <= 30_000_000_000
  {
    var all := calls + [Consume(now, token)];
    assert all[|calls|] == Consume(now, token);
    assert forall i :: 0 <= i < |calls| ==> all[i] == calls[i];
    StoreHoldsOutstanding(calls, token, start, now);
  }

  lemma {:induction false} SpentStaysSpent(calls: seq<Call>, token: Token, j: nat)
    requires j < |calls| && calls[j].Consume? && calls[j].token == token
    requires forall i :: j < i < |calls| ==> !(calls[i].Issue? && calls[i].token == token)
    ensures Outstanding(calls, token).None?
    decreases |calls|
  {
    if j < |calls| - 1 {
      SpentStaysSpent(calls[..|calls| - 1], token, j);
    }
  }

  // Tokens being issued only once, no second Consume of a token succeeds after one that did.
  lemma AtMostOneSuccess(calls: seq<Call>, start: Time, token: Token, j: nat, now: Time)
    requires InOrder(start, calls) && forall i :: 0 <= i < |calls| ==> calls[i].at <= now
    requires IssuedOnce(calls)
    requires j < |calls| && calls[j].Consume? && calls[j].token == token
    requires Answer(StoreAfter(calls[..j]), token, calls[j].at).Some?
    ensures Answer(StoreAfter(calls), token, now).None?
  {
    var i := IssueBehindSuccess(calls[..j], start, token, calls[j].at);
    assert calls[..j][i] == calls[i];
    SpentStaysSpent(calls, token, j);
    StoreHoldsOutstanding(calls, token, start, now);
  }

  ghost predicate IssuedOnce(calls: seq<Call>) {
    forall i, k :: 0 <= i < k < |calls| && calls[i].Issue? && calls[k].Issue? ==> calls[i].token != calls[k].token
  }

  lemma IssueBehindSuccess(calls: seq<Call>, start: Time, token: Token, now: Time) returns (i: nat)
    requires InOrder(start, calls) && forall k :: 0 <= k < |calls| ==> calls[k].at <= now
    requires Answer(StoreAfter(calls), token, now).Some?
    ensures i < |calls| && calls[i].Issue? && calls[i].token == token
  {
    StoreHoldsOutstanding(calls, token, start, now);
    OutstandingIsIssue(calls, token);
    i :| 0 <= i < |calls| && calls[i] == Outstanding(calls, token).value;
  }

  // ---------- the code ----------

  class TokenStore {
    var tokens: Store

    constructor ()
      ensures tokens == map[]
    {
      tokens := map[];
    }

    // uuid.New() supplies the token.
    method IssueToken(user: User, token: Token, now: Time)
      modifies this
      ensures tokens == After(old(tokens), Issue(now, token, user))
      ensures tokens == old(tokens)[token := Entry(user, now + 30_000_000_000)]
    {
      tokens := tokens[token := Entry(user, now + TOKEN_TTL)];
    }

    method ConsumeToken(token: Token, now: Time) returns (user: User, ok: bool)
      modifies this
      ensures tokens == After(old(tokens), Consume(now, token)) == old(tokens) - {token}
      ensures Answer(old(tokens), token, now) == if ok then Some(user) else None
      ensures ok <==> token in old(tokens) && now <= old(tokens)[token].expiresAt
      ensures ok ==> user == old(tokens)[token].userId
    {
      var found := token in tokens;
      var entry := if found then tokens[token] else Entry(0, 0);
      tokens := tokens - {token};
      if !found || now > entry.expiresAt {
        return 0, false;
      }
      return entry.userId, true;
    }

    // One tick of `cleanup`: the range loop deletes while it walks over the map.
    method Cleanup(now: Time)
      modifies this
      ensures tokens == After(old(tokens), Sweep(now))
      ensures forall t :: t in tokens <==> t in old(tokens) && now <= old(tokens)[t].expiresAt
      ensures forall t :: t in tokens ==> tokens[t] == old(tokens)[t]
    {
      var rest := tokens.Keys;
      while rest != {}
        invariant rest <= old(tokens).Keys
        invariant forall t :: t in tokens <==> t in old(tokens) && (t in rest || now <= old(tokens)[t].expiresAt)
        invariant forall t :: t in tokens ==> tokens[t] == old(tokens)[t]
        decreases rest
      {
        var token :| token in rest;
        if now > tokens[token].expiresAt {
          tokens := tokens - {token};
        }
        rest := rest - {token};
      }
    }
  }
}
