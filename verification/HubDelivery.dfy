/**
 Delivery through the hub as a state machine: snapshots and sends of any number of broadcasts interleave with
 subscribing, unsubscribing and receiving. `history` is what was broadcast to a user, in snapshot order.
 */
module HubDelivery {
  import opened Domain
  import opened Hub

  type Conn = nat

  // A subscription: `since` is the length of the user's history when it began; `taken` says which broadcasts,
  // by their place in the history, it has received or buffered, in order of arrival; `dropped` which it lost.
  datatype Sub = Sub(user: User, buffer: seq<Notification>, received: seq<Notification>,
                     since: nat, taken: seq<nat>, dropped: set<nat>, live: bool)

  // A broadcast between its snapshot and its last send; `at` is its place in the history.
  datatype Flight = Flight(user: User, n: Notification, at: nat, pending: seq<Conn>)

  datatype HubState = HubState(subs: map<Conn, Sub>, flights: map<nat, Flight>, history: map<User, seq<Notification>>)

  datatype HubStep =
    | Join(c: Conn, user: User)
    | Leave(c: Conn)
    | Snap(f: nat, user: User, n: Notification, order: seq<Conn>)
    | Send(f: nat)
    | Land(f: nat)
    | Receive(c: Conn)

  function InitHub(): HubState {
    HubState(map[], map[], map[])
  }

  function HistoryOf(s: HubState, user: User): seq<Notification> {
    if user in s.history then s.history[user] else []
  }

  function LiveSubs(s: HubState, user: User): set<Conn> {
    set c | c in s.subs && s.subs[c].live && s.subs[c].user == user
  }

  function Delivered(sub: Sub): seq<Notification> {
    sub.received + sub.buffer
  }

  predicate NoRepeats<T(==)>(xs: seq<T>) {
    forall i, j :: 0 <= i < j < |xs| ==> xs[i] != xs[j]
  }

  predicate HubEnabled(s: HubState, step: HubStep) {
    match step
    case Join(c, user) => c !in s.subs && |LiveSubs(s, user)| < MAX_SUBS_PER_USER
    case Leave(c) => c in s.subs
    case Snap(f, user, n, order) =>
      f !in s.flights && NoRepeats(order) && (set c | c in order) == LiveSubs(s, user)
    case Send(f) => f in s.flights && s.flights[f].pending != [] && s.flights[f].pending[0] in s.subs
    case Land(f) => f in s.flights && s.flights[f].pending == []
    case Receive(c) => c in s.subs && s.subs[c].buffer != []
  }

  // What TrySend does to the channel, with an account of what became of the broadcast.
  function AfterOffer(sub: Sub, n: Notification, at: nat): Sub {
    if |sub.buffer| < CHANNEL_CAPACITY
    then sub.(buffer := Offered(sub.buffer, n), taken := sub.taken + [at])
    else sub.(buffer := Offered(sub.buffer, n), dropped := sub.dropped + {at})
  }

  function HubApply(s: HubState, step: HubStep): HubState
    requires HubEnabled(s, step)
  {
    match step
    case Join(c, user) => s.(subs := s.subs[c := Sub(user, [], [], |HistoryOf(s, user)|, [], {}, true)])
    case Leave(c) => s.(subs := s.subs[c := s.subs[c].(live := false)])
    case Snap(f, user, n, order) =>
      s.(flights := s.flights[f := Flight(user, n, |HistoryOf(s, user)|, order)],
         history := s.history[user := HistoryOf(s, user) + [n]])
    case Send(f) =>
      var flight := s.flights[f];
      var c := flight.pending[0];
      s.(subs := s.subs[c := AfterOffer(s.subs[c], flight.n, flight.at)],
         flights := s.flights[f := flight.(pending := flight.pending[1..])])
    case Land(f) => s.(flights := s.flights - {f})
    case Receive(c) =>
      var sub := s.subs[c];
      s.(subs := s.subs[c := sub.(received := sub.received + [sub.buffer[0]], buffer := sub.buffer[1..])])
  }

  // Any run: broadcasts may overlap in any way.
  ghost predicate HubRuns(s: HubState, steps: seq<HubStep>, s': HubState)
    decreases |steps|
  {
    if steps == [] then s == s'
    else HubEnabled(s, steps[0]) && HubRuns(HubApply(s, steps[0]), steps[1..], s')
  }

  // ---------- what holds however broadcasts overlap ----------

  // The broadcast in flight still has to send to `c`.
  predicate Owes(s: HubState, f: nat, c: Conn) {
    f in s.flights && c in s.flights[f].pending
  }

  ghost predicate Owed(s: HubState, c: Conn, k: nat) {
    exists f :: Owes(s, f, c) && s.flights[f].at == k
  }

  ghost predicate FlightOk(s: HubState, flight: Flight) {
    && NoRepeats(flight.pending)
    && (forall c :: c in flight.pending ==> c in s.subs && s.subs[c].user == flight.user)
    && flight.at < |HistoryOf(s, flight.user)| && HistoryOf(s, flight.user)[flight.at] == flight.n
  }

  ghost predicate FlightsOk(s: HubState) {
    && (forall f :: f in s.flights ==> FlightOk(s, s.flights[f]))
    && (forall f, g :: f in s.flights && g in s.flights && f != g ==> OtherPlace(s.flights[f], s.flights[g]))
  }

  predicate OtherPlace(f: Flight, g: Flight) {
    f.user == g.user ==> f.at != g.at
  }

  // Every notification delivered is a broadcast of the user's since the subscription began, none twice.
  ghost predicate TakenOk(sub: Sub, hist: seq<Notification>) {
    && |sub.buffer| <= CHANNEL_CAPACITY
    && sub.since <= |hist|
    && |sub.taken| == |Delivered(sub)|
    && (forall i :: 0 <= i < |sub.taken| ==>
          sub.since <= sub.taken[i] < |hist| && Delivered(sub)[i] == hist[sub.taken[i]])
    && NoRepeats(sub.taken)
    && (forall k :: k in sub.dropped ==> sub.since <= k < |hist| && k !in sub.taken)
    && (sub.dropped != {} ==> |sub.taken| >= CHANNEL_CAPACITY)
  }

  // What is still owed is not settled yet; for a live subscription every broadcast is settled or owed.
  ghost predicate AccountOk(s: HubState, c: Conn)
    requires c in s.subs
  {
    var sub := s.subs[c];
    && (forall f :: Owes(s, f, c) ==>
          sub.since <= s.flights[f].at && s.flights[f].at !in sub.taken && s.flights[f].at !in sub.dropped)
    && (sub.live ==> forall k :: sub.since <= k < |HistoryOf(s, sub.user)| ==>
          k in sub.taken || k in sub.dropped || Owed(s, c, k))
  }

  ghost predicate SubOk(s: HubState, c: Conn)
    requires c in s.subs
  {
    TakenOk(s.subs[c], HistoryOf(s, s.subs[c].user)) && AccountOk(s, c)
  }

  ghost predicate CapOk(s: HubState) {
    forall u :: |LiveSubs(s, u)| <= MAX_SUBS_PER_USER
  }

  ghost predicate HubInv(s: HubState) {
    FlightsOk(s) && CapOk(s) && forall c :: c in s.subs ==> SubOk(s, c)
  }

  // ---------- one step: flights and the cap ----------

  lemma SnapTargets(s: HubState, user: User, order: seq<Conn>)
    requires (set c | c in order) == LiveSubs(s, user)
    ensures forall c :: c in order <==> c in s.subs && s.subs[c].live && s.subs[c].user == user
  {
    forall c
      ensures c in order <==> c in s.subs && s.subs[c].live && s.subs[c].user == user
    {
      assert c in order <==> c in (set d | d in order);
      assert c in LiveSubs(s, user) <==> c in s.subs && s.subs[c].live && s.subs[c].user == user;
    }
  }

  // A flight stays sound as long as its targets stay subscriptions of its user and the history only grows.
  lemma FlightStays(s: HubState, s': HubState, flight: Flight, flight': Flight)
    requires FlightOk(s, flight)
    requires flight' == flight || (flight.pending != [] && flight' == flight.(pending := flight.pending[1..]))
    requires HistoryOf(s, flight.user) <= HistoryOf(s', flight.user)
    requires forall c :: c in s.subs ==> c in s'.subs && s'.subs[c].user == s.subs[c].user
    ensures FlightOk(s', flight')
  {
  }

  lemma StepKeepsFlights(s: HubState, step: HubStep)
    requires FlightsOk(s) && HubEnabled(s, step)
    ensures FlightsOk(HubApply(s, step))
  {
    var s' := HubApply(s, step);
    forall f | f in s'.flights
      ensures FlightOk(s', s'.flights[f])
    {
      StepKeepsFlight(s, step, f);
    }
    forall f, g | f in s'.flights && g in s'.flights && f != g
      ensures OtherPlace(s'.flights[f], s'.flights[g])
    {
      StepKeepsPlaces(s, step, f, g);
    }
  }

  lemma StepKeepsFlight(s: HubState, step: HubStep, f: nat)
    requires FlightsOk(s) && HubEnabled(s, step) && f in HubApply(s, step).flights
    ensures FlightOk(HubApply(s, step), HubApply(s, step).flights[f])
  {
    if f in s.flights {
      FlightStays(s, HubApply(s, step), s.flights[f], HubApply(s, step).flights[f]);
    } else {
      SnapTargets(s, step.user, step.order);
    }
  }

  lemma StepKeepsPlaces(s: HubState, step: HubStep, f: nat, g: nat)
    requires FlightsOk(s) && HubEnabled(s, step) && f != g
    requires f in HubApply(s, step).flights && g in HubApply(s, step).flights
    ensures OtherPlace(HubApply(s, step).flights[f], HubApply(s, step).flights[g])
  {
    assert f in s.flights ==> FlightOk(s, s.flights[f]);
    assert g in s.flights ==> FlightOk(s, s.flights[g]);
    assert f in s.flights && g in s.flights ==> OtherPlace(s.flights[f], s.flights[g]);
  }

  lemma StepKeepsCap(s: HubState, step: HubStep)
    requires CapOk(s) && HubEnabled(s, step)
    ensures CapOk(HubApply(s, step))
  {
    var s' := HubApply(s, step);
    forall u
      ensures |LiveSubs(s', u)| <= MAX_SUBS_PER_USER
    {
      var newcomer := if step.Join? && step.user == u then {step.c} else {};
      StepKeepsLive(s, step, u, newcomer);
      SmallerSet(LiveSubs(s', u), LiveSubs(s, u) + newcomer);
    }
  }

  lemma StepKeepsLive(s: HubState, step: HubStep, u: User, newcomer: set<Conn>)
    requires HubEnabled(s, step) && newcomer == if step.Join? && step.user == u then {step.c} else {}
    ensures LiveSubs(HubApply(s, step), u) <= LiveSubs(s, u) + newcomer
    ensures newcomer != {} ==> |LiveSubs(s, u) + newcomer| == |LiveSubs(s, u)| + 1 <= MAX_SUBS_PER_USER
  {
    if step.Join? && step.user == u {
      assert step.c !in LiveSubs(s, u);
    }
  }

  lemma SmallerSet<T>(a: set<T>, b: set<T>)
    requires a <= b
    ensures |a| <= |b|
  {
    assert |b - a| == |b| - |a|;
  }

  // ---------- one step: the subscriptions ----------

  // A longer history leaves what was taken from it valid.
  lemma TakenStays(sub: Sub, sub': Sub, hist: seq<Notification>, hist': seq<Notification>)
    requires TakenOk(sub, hist) && hist <= hist'
    requires sub' == sub.(buffer := sub'.buffer, received := sub'.received, live := sub'.live)
    requires Delivered(sub') == Delivered(sub) && |sub'.buffer| <= |sub.buffer|
    ensures TakenOk(sub', hist')
  {
  }

  // The offer settles the place `at`, one way or the other.
  lemma OfferSettles(sub: Sub, hist: seq<Notification>, n: Notification, at: nat)
    requires TakenOk(sub, hist) && sub.since <= at < |hist| && hist[at] == n
    requires at !in sub.taken && at !in sub.dropped
    ensures TakenOk(AfterOffer(sub, n, at), hist)
    ensures at in AfterOffer(sub, n, at).taken || at in AfterOffer(sub, n, at).dropped
  {
    var sub' := AfterOffer(sub, n, at);
    if |sub.buffer| < CHANNEL_CAPACITY {
      assert Delivered(sub') == Delivered(sub) + [n];
      assert sub'.taken[|sub.taken|] == at;
    }
  }

  // The same flights owe `c`, for the same places.
  ghost predicate OwedAlike(s: HubState, s': HubState, c: Conn) {
    forall f :: (Owes(s', f, c) <==> Owes(s, f, c)) && (Owes(s, f, c) ==> s'.flights[f].at == s.flights[f].at)
  }

  lemma AccountStays(s: HubState, s': HubState, c: Conn)
    requires c in s.subs && c in s'.subs && AccountOk(s, c) && OwedAlike(s, s', c)
    requires var sub, sub' := s.subs[c], s'.subs[c];
             && sub'.user == sub.user && sub'.since == sub.since && sub'.taken == sub.taken
             && sub'.dropped == sub.dropped && (sub'.live ==> sub.live)
    requires |HistoryOf(s', s.subs[c].user)| == |HistoryOf(s, s.subs[c].user)|
    ensures AccountOk(s', c)
  {
    var sub := s.subs[c];
    forall k | sub.since <= k < |HistoryOf(s, sub.user)| && Owed(s, c, k)
      ensures Owed(s', c, k)
    {
      var f :| Owes(s, f, c) && s.flights[f].at == k;
      assert Owes(s', f, c);
    }
  }

  lemma JoinKeepsSub(s: HubState, c: Conn, user: User, d: Conn)
    requires FlightsOk(s) && HubEnabled(s, Join(c, user)) && (d == c || (d in s.subs && SubOk(s, d)))
    ensures SubOk(HubApply(s, Join(c, user)), d)
  {
    var s' := HubApply(s, Join(c, user));
    if d == c {
      forall f | f in s.flights
        ensures c !in s.flights[f].pending
      {
        assert FlightOk(s, s.flights[f]);
      }
    } else {
      AccountStays(s, s', d);
    }
  }

  // Steps that change neither the history nor who is owed what.
  lemma QuietKeepsSub(s: HubState, step: HubStep, d: Conn)
    requires HubEnabled(s, step) && (step.Leave? || step.Land? || step.Receive?)
    requires d in s.subs && SubOk(s, d)
    ensures SubOk(HubApply(s, step), d)
  {
    var s' := HubApply(s, step);
    if step.Receive? && d == step.c {
      var sub := s.subs[d];
      assert sub.received + [sub.buffer[0]] + sub.buffer[1..] == sub.received + sub.buffer;
    }
    var hist := HistoryOf(s, s.subs[d].user);
    TakenStays(s.subs[d], s'.subs[d], hist, hist);
    AccountStays(s, s', d);
  }

  // The snapshot owes the notification to exactly the user's live subscriptions, so none misses it unnoticed.
  lemma SnapKeepsSub(s: HubState, f: nat, user: User, n: Notification, order: seq<Conn>, c: Conn)
    requires FlightsOk(s) && HubEnabled(s, Snap(f, user, n, order))
    requires c in s.subs && SubOk(s, c)
    ensures SubOk(HubApply(s, Snap(f, user, n, order)), c)
  {
    var s' := HubApply(s, Snap(f, user, n, order));
    var sub, hist := s.subs[c], HistoryOf(s, s.subs[c].user);
    SnapTargets(s, user, order);
    TakenStays(sub, sub, hist, HistoryOf(s', sub.user));
    if sub.user != user {
      AccountStays(s, s', c);
    } else {
      SnapAccounts(s, f, user, n, order, c);
    }
  }

  lemma SnapAccounts(s: HubState, f: nat, user: User, n: Notification, order: seq<Conn>, c: Conn)
    requires FlightsOk(s) && HubEnabled(s, Snap(f, user, n, order))
    requires c in s.subs && SubOk(s, c) && s.subs[c].user == user && (c in order <==> s.subs[c].live)
    ensures AccountOk(HubApply(s, Snap(f, user, n, order)), c)
  {
    var s' := HubApply(s, Snap(f, user, n, order));
    var sub, hist := s.subs[c], HistoryOf(s, user);
    forall g | Owes(s', g, c)
      ensures sub.since <= s'.flights[g].at && s'.flights[g].at !in sub.taken && s'.flights[g].at !in sub.dropped
    {
      assert g != f ==> Owes(s, g, c);
    }
    forall k | sub.live && sub.since <= k < |hist| + 1
      ensures k in sub.taken || k in sub.dropped || Owed(s', c, k)
    {
      if k == |hist| {
        assert Owes(s', f, c) && s'.flights[f].at == k;
      } else if Owed(s, c, k) {
        var g :| Owes(s, g, c) && s.flights[g].at == k;
        assert Owes(s', g, c) && s'.flights[g].at == k;
      }
    }
  }

  // The send settles what was owed to the one channel; nobody else notices.
  lemma SendKeepsSub(s: HubState, f: nat, c: Conn)
    requires FlightsOk(s) && HubEnabled(s, Send(f)) && c in s.subs && SubOk(s, c)
    ensures SubOk(HubApply(s, Send(f)), c)
  {
    var flight := s.flights[f];
    assert FlightOk(s, flight);
    if c == flight.pending[0] {
      assert Owes(s, f, c);
      OfferSettles(s.subs[c], HistoryOf(s, flight.user), flight.n, flight.at);
      SendAccounts(s, f, c);
    } else {
      AccountStays(s, HubApply(s, Send(f)), c);
    }
  }

  lemma SendAccounts(s: HubState, f: nat, c: Conn)
    requires FlightsOk(s) && HubEnabled(s, Send(f)) && c == s.flights[f].pending[0] && SubOk(s, c)
    requires s.subs[c].user == s.flights[f].user
    ensures AccountOk(HubApply(s, Send(f)), c)
  {
    var s', sub, at := HubApply(s, Send(f)), s.subs[c], s.flights[f].at;
    SendSettlesOne(s, f, c);
    SettledByOffer(sub, s.flights[f].n, at);
    forall k | Owed(s, c, k) && k != at
      ensures Owed(s', c, k)
    {
      OtherDebtsStay(s, f, c, k);
    }
  }

  lemma OtherDebtsStay(s: HubState, f: nat, c: Conn, k: nat)
    requires HubEnabled(s, Send(f)) && Owed(s, c, k) && k != s.flights[f].at
    ensures Owed(HubApply(s, Send(f)), c, k)
  {
    var g :| Owes(s, g, c) && s.flights[g].at == k;
    assert Owes(HubApply(s, Send(f)), g, c);
  }

  // The one flight owes the channel nothing more; what the others owe stays as it was.
  lemma SendSettlesOne(s: HubState, f: nat, c: Conn)
    requires FlightsOk(s) && HubEnabled(s, Send(f)) && c == s.flights[f].pending[0]
    ensures forall g :: Owes(HubApply(s, Send(f)), g, c) ==>
              Owes(s, g, c) && HubApply(s, Send(f)).flights[g].at == s.flights[g].at != s.flights[f].at
  {
    var s' := HubApply(s, Send(f));
    assert FlightOk(s, s.flights[f]) && !Owes(s', f, c);
    forall g | Owes(s', g, c)
      ensures Owes(s, g, c) && s'.flights[g].at == s.flights[g].at != s.flights[f].at
    {
      assert FlightOk(s, s.flights[g]) && OtherPlace(s.flights[f], s.flights[g]);
    }
  }

  lemma SettledByOffer(sub: Sub, n: Notification, at: nat)
    ensures var sub' := AfterOffer(sub, n, at);
            && (at in sub'.taken || at in sub'.dropped) && sub'.since == sub.since && sub'.live == sub.live
            && (forall k :: k in sub'.taken <==> k in sub.taken || (k == at && |sub.buffer| < CHANNEL_CAPACITY))
            && (forall k :: k in sub'.dropped <==> k in sub.dropped || (k == at && |sub.buffer| >= CHANNEL_CAPACITY))
  {
    var sub' := AfterOffer(sub, n, at);
    assert |sub.buffer| < CHANNEL_CAPACITY ==> sub'.taken[|sub.taken|] == at;
  }

  lemma HubStepKeepsInv(s: HubState, step: HubStep)
    requires HubInv(s) && HubEnabled(s, step)
    ensures HubInv(HubApply(s, step))
  {
    StepKeepsFlights(s, step);
    StepKeepsCap(s, step);
    forall c | c in HubApply(s, step).subs
      ensures SubOk(HubApply(s, step), c)
    {
      match step
      case Join(d, user) => JoinKeepsSub(s, d, user, c);
      case Snap(f, user, n, order) => SnapKeepsSub(s, f, user, n, order, c);
      case Send(f) => SendKeepsSub(s, f, c);
      case _ => QuietKeepsSub(s, step, c);
    }
  }

  lemma {:induction false} HubRunsKeepInv(s: HubState, steps: seq<HubStep>, s': HubState)
    requires HubInv(s) && HubRuns(s, steps, s')
    ensures HubInv(s')
    decreases |steps|
  {
    if steps != [] {
      HubStepKeepsInv(s, steps[0]);
      HubRunsKeepInv(HubApply(s, steps[0]), steps[1..], s');
    }
  }

  // ---------- theorems, however broadcasts overlap ----------

  /**
   Over every run: a stream has received or buffered only broadcasts of its own user since it began, none twice;
   its buffer never exceeds 16, its user never has more than ten; and while it lives, every broadcast has been
   delivered, dropped, or is still about to be sent to it.
   */
  lemma HubDelivers(steps: seq<HubStep>, s: HubState, c: Conn)
    requires HubRuns(InitHub(), steps, s) && c in s.subs
    ensures var sub, hist := s.subs[c], HistoryOf(s, s.subs[c].user);
            && |sub.buffer| <= 16 && |LiveSubs(s, sub.user)| <= 10
            && |sub.taken| == |Delivered(sub)| && NoRepeats(sub.taken)
            && (forall i :: 0 <= i < |sub.taken| ==>
                  sub.since <= sub.taken[i] < |hist| && Delivered(sub)[i] == hist[sub.taken[i]])
            && (sub.live ==> forall k :: sub.since <= k < |hist| ==>
                  k in sub.taken || k in sub.dropped || Owed(s, c, k))
            && (forall k :: k in sub.dropped ==> k !in sub.taken && !Owed(s, c, k))
            && (forall k :: k in sub.taken ==> !Owed(s, c, k))
  {
    HubRunsKeepInv(InitHub(), steps, s);
    assert SubOk(s, c) && CapOk(s);
  }

  function DroppedBy(s: HubState, c: Conn): set<nat> {
    if c in s.subs then s.subs[c].dropped else {}
  }

  // Over every run: what a stream lost, it lost in a send that found 16 notifications waiting in its buffer.
  lemma {:induction false} DropsOnlyWhenFull(s: HubState, steps: seq<HubStep>, s': HubState, c: Conn, k: nat)
    returns (i: nat, mid: HubState)
    requires HubRuns(s, steps, s') && k in DroppedBy(s', c) && k !in DroppedBy(s, c)
    ensures i < |steps| && HubRuns(s, steps[..i], mid) && HubEnabled(mid, steps[i]) && steps[i].Send?
    ensures mid.flights[steps[i].f].pending[0] == c && mid.flights[steps[i].f].at == k
    ensures |mid.subs[c].buffer| >= 16
    decreases |steps|
  {
    var next := HubApply(s, steps[0]);
    if k in DroppedBy(next, c) {
      i, mid := 0, s;
    } else {
      i, mid := DropsOnlyWhenFull(next, steps[1..], s', c, k);
      assert steps[..i + 1][1..] == steps[1..][..i];
      i := i + 1;
    }
  }

  lemma DistinctInRange(xs: seq<nat>, lo: nat, hi: nat)
    requires NoRepeats(xs) && forall i :: 0 <= i < |xs| ==> lo <= xs[i] < hi
    ensures |xs| <= if lo <= hi then hi - lo else 0
    decreases hi
  {
    if xs != [] {
      assert xs[0] < hi;
      if hi - 1 in xs {
        var j :| 0 <= j < |xs| && xs[j] == hi - 1;
        var rest := xs[..j] + xs[j + 1..];
        assert forall i :: 0 <= i < |rest| ==> rest[i] == if i < j then xs[i] else xs[i + 1];
        DistinctInRange(rest, lo, hi - 1);
      } else {
        DistinctInRange(xs, lo, hi - 1);
      }
    }
  }

  // So a stream that has seen at most 16 broadcasts has lost none, however slowly it reads.
  lemma NothingLostEarly(steps: seq<HubStep>, s: HubState, c: Conn)
    requires HubRuns(InitHub(), steps, s) && c in s.subs
    requires |HistoryOf(s, s.subs[c].user)| - s.subs[c].since <= 16
    ensures s.subs[c].dropped == {}
  {
    HubRunsKeepInv(InitHub(), steps, s);
    var sub := s.subs[c];
    assert SubOk(s, c);
    if k :| k in sub.dropped {
      var places := sub.taken + [k];
      assert forall i :: 0 <= i < |places| ==> places[i] == if i < |sub.taken| then sub.taken[i] else k;
      DistinctInRange(places, sub.since, |HistoryOf(s, sub.user)|);
    }
  }
}
