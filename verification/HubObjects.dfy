/**
 The hub's objects are the hub's machine: every call on the slices and channels of Hub is a step of HubDelivery, and
 a broadcast is a snapshot, its sends and a landing, with anyone's steps in between.
 */
module HubObjects {
  import opened Domain
  import opened Hub
  import opened HubDelivery
  import opened HubOrder

  ghost predicate ReachableHub(s: HubState) {
    exists steps :: HubRuns(InitHub(), steps, s)
  }

  // The machine has taken these steps.
  lemma RunOn(s: HubState, steps: seq<HubStep>, mid: HubState, step: HubStep)
    requires HubRuns(s, steps, mid) && HubEnabled(mid, step)
    ensures HubRuns(s, steps + [step], HubApply(mid, step))
  {
    assert [step][1..] == [];
    assert HubRuns(mid, [step], HubApply(mid, step));
    RunsCompose(s, steps, mid, [step], HubApply(mid, step));
  }

  lemma HubStepReaches(s: HubState, step: HubStep)
    requires ReachableHub(s) && HubEnabled(s, step)
    ensures ReachableHub(HubApply(s, step))
  {
    var steps :| HubRuns(InitHub(), steps, s);
    RunOn(InitHub(), steps, s, step);
  }

  lemma HubRunReaches(s: HubState, steps: seq<HubStep>, s': HubState)
    requires ReachableHub(s) && HubRuns(s, steps, s')
    ensures ReachableHub(s')
  {
    var before :| HubRuns(InitHub(), before, s);
    RunsCompose(InitHub(), before, s, steps, s');
  }

  // ---------- the steps of one broadcast ----------

  predicate IsOf(step: HubStep, f: nat) {
    (step.Snap? || step.Send? || step.Land?) && step.f == f
  }

  function StepsOf(steps: seq<HubStep>, f: nat): seq<HubStep> {
    if steps == [] then []
    else
      var last := |steps| - 1;
      StepsOf(steps[..last], f) + if IsOf(steps[last], f) then [steps[last]] else []
  }

  lemma {:induction false} StepsOfBoth(steps: seq<HubStep>, more: seq<HubStep>, f: nat)
    ensures StepsOf(steps + more, f) == StepsOf(steps, f) + StepsOf(more, f)
    decreases |more|
  {
    if more == [] {
      assert steps + more == steps;
    } else {
      var last := |more| - 1;
      StepsOfBoth(steps, more[..last], f);
      assert (steps + more)[..|steps| + last] == steps + more[..last];
    }
  }

  lemma StepsOfOne(step: HubStep, f: nat)
    ensures StepsOf([step], f) == if IsOf(step, f) then [step] else []
  {
    assert [step][..0] == [];
  }

  // The others leave a broadcast under way where it is.
  lemma {:induction false} OthersLeaveFlight(s: HubState, steps: seq<HubStep>, s': HubState, f: nat)
    requires HubRuns(s, steps, s') && StepsOf(steps, f) == []
    ensures f in s'.flights <==> f in s.flights
    ensures f in s.flights ==> s'.flights[f] == s.flights[f]
    decreases |steps|
  {
    if steps != [] {
      assert steps == [steps[0]] + steps[1..];
      StepsOfBoth([steps[0]], steps[1..], f);
      StepsOfOne(steps[0], f);
      OthersLeaveFlight(HubApply(s, steps[0]), steps[1..], s', f);
    }
  }

  // A whole broadcast: one snapshot, as many sends as it found channels, one landing.
  function WholeBroadcast(f: nat, user: User, n: Notification, order: seq<Conn>): seq<HubStep> {
    [Snap(f, user, n, order)] + seq(|order|, _ => Send(f)) + [Land(f)]
  }

  // Exactly the streams in `cs` have been offered the notification, once.
  ghost predicate Offers(s: HubState, s': HubState, n: Notification, cs: seq<Conn>) {
    && s'.subs.Keys == s.subs.Keys
    && forall c :: c in s.subs ==>
         s'.subs[c].buffer == if c in cs then Offered(s.subs[c].buffer, n) else s.subs[c].buffer
  }

  lemma OneSendOffers(s: HubState, f: nat)
    requires HubEnabled(s, Send(f))
    ensures Offers(s, HubApply(s, Send(f)), s.flights[f].n, [s.flights[f].pending[0]])
  {
  }

  lemma {:induction false} SendsOffer(s: HubState, f: nat, s': HubState)
    requires FlightsOk(s) && f in s.flights && HubRuns(s, seq(|s.flights[f].pending|, _ => Send(f)), s')
    ensures Offers(s, s', s.flights[f].n, s.flights[f].pending)
    ensures f in s'.flights && s'.flights[f] == s.flights[f].(pending := [])
    decreases |s.flights[f].pending|
  {
    var flight := s.flights[f];
    var pending := flight.pending;
    var sends := seq(|pending|, _ => Send(f));
    if pending != [] {
      assert FlightOk(s, flight);
      assert sends[0] == Send(f) && sends[1..] == seq(|pending| - 1, _ => Send(f));
      var next := HubApply(s, Send(f));
      StepKeepsFlights(s, Send(f));
      OneSendOffers(s, f);
      SendsOffer(next, f, s');
      OneMoreOffer(s, next, s', flight.n, pending);
    }
  }

  lemma OneMoreOffer(s: HubState, mid: HubState, s': HubState, n: Notification, pending: seq<Conn>)
    requires pending != [] && NoRepeats(pending)
    requires Offers(s, mid, n, [pending[0]]) && Offers(mid, s', n, pending[1..])
    ensures Offers(s, s', n, pending)
  {
    assert pending == [pending[0]] + pending[1..] && pending[0] !in pending[1..];
  }

  lemma WholeSplits(s: HubState, f: nat, user: User, n: Notification, order: seq<Conn>, s': HubState)
    returns (mid: HubState)
    requires HubRuns(s, WholeBroadcast(f, user, n, order), s')
    ensures HubEnabled(s, Snap(f, user, n, order))
    ensures HubRuns(HubApply(s, Snap(f, user, n, order)), seq(|order|, _ => Send(f)), mid)
    ensures HubEnabled(mid, Land(f)) && s' == HubApply(mid, Land(f))
  {
    var sends := seq(|order|, _ => Send(f));
    var whole := WholeBroadcast(f, user, n, order);
    assert whole[0] == Snap(f, user, n, order) && whole[1..] == sends + [Land(f)];
    mid := SplitRun(HubApply(s, Snap(f, user, n, order)), sends, [Land(f)], s');
    assert [Land(f)][1..] == [];
  }

  // Undisturbed, it offers the notification once to each of the user's live streams and to nobody else.
  lemma AloneOffersEachOnce(s: HubState, f: nat, user: User, n: Notification, order: seq<Conn>, s': HubState)
    requires FlightsOk(s) && HubRuns(s, WholeBroadcast(f, user, n, order), s')
    ensures Offers(s, s', n, order) && forall c :: c in order <==> c in LiveSubs(s, user)
  {
    var mid := WholeSplits(s, f, user, n, order, s');
    SnapTargets(s, user, order);
    StepKeepsFlights(s, Snap(f, user, n, order));
    SendsOffer(HubApply(s, Snap(f, user, n, order)), f, mid);
  }

  lemma {:induction false} SplitRun(s: HubState, steps: seq<HubStep>, more: seq<HubStep>, s': HubState)
    returns (mid: HubState)
    requires HubRuns(s, steps + more, s')
    ensures HubRuns(s, steps, mid) && HubRuns(mid, more, s')
    decreases |steps|
  {
    if steps == [] {
      assert steps + more == more;
      mid := s;
    } else {
      assert (steps + more)[1..] == steps[1..] + more;
      mid := SplitRun(HubApply(s, steps[0]), steps[1..], more, s');
    }
  }

  // ---------- the objects ----------

  // `conns` says whose each channel is.
  ghost predicate Inverse(chans: map<Conn, Channel>, conns: map<Channel, Conn>) {
    && (forall c :: c in chans ==> chans[c] in conns && conns[chans[c]] == c)
    && (forall ch :: ch in conns ==> conns[ch] in chans && chans[conns[ch]] == ch)
  }

  // The list holds the channels of exactly these subscriptions.
  ghost predicate ListIs(entries: seq<Channel?>, chans: map<Conn, Channel>, conns: map<Channel, Conn>,
                         cs: set<Conn>)
  {
    && null !in entries && (forall ch: Channel :: ch in entries ==> ch in conns && conns[ch] in cs)
    && (forall c :: c in cs ==> c in chans && chans[c] in entries)
  }

  // The list is as long as there are subscriptions.
  lemma {:induction false} ListCount(entries: seq<Channel?>, chans: map<Conn, Channel>, conns: map<Channel, Conn>,
                                     cs: set<Conn>)
    requires Inverse(chans, conns) && Distinct(entries) && ListIs(entries, chans, conns, cs)
    ensures |entries| == |cs|
    decreases |entries|
  {
    if entries == [] {
      assert cs == {};
    } else {
      var last := |entries| - 1;
      var c := conns[entries[last]];
      var rest := cs - {c};
      assert entries == entries[..last] + [entries[last]];
      assert ListIs(entries[..last], chans, conns, rest);
      ListCount(entries[..last], chans, conns, rest);
      assert |rest| == |cs| - 1;
    }
  }

  lemma ListGrows(entries: seq<Channel?>, chans: map<Conn, Channel>, conns: map<Channel, Conn>, cs: set<Conn>,
                  c: Conn, ch: Channel)
    requires ListIs(entries, chans, conns, cs) && c !in chans && ch !in conns
    ensures ListIs(entries, chans[c := ch], conns[ch := c], cs)
    ensures ListIs(entries + [ch], chans[c := ch], conns[ch := c], cs + {c})
  {
  }

  lemma JoinAddsOne(s: HubState, c: Conn, user: User, u: User)
    requires HubEnabled(s, Join(c, user))
    ensures LiveSubs(HubApply(s, Join(c, user)), u) == if u == user then LiveSubs(s, u) + {c} else LiveSubs(s, u)
  {
  }

  function ListOf(lists: map<User, seq<Channel?>>, u: User): seq<Channel?> {
    if u in lists then lists[u] else []
  }

  // Which channels each user's list holds, which subscription owns which channel, and where the machine is. A channel
  // outlives its subscription: an earlier snapshot may still send into it.
  datatype Record = Record(lists: map<User, seq<Channel?>>, chans: map<Conn, Channel>, conns: map<Channel, Conn>,
                           s: HubState)

  // Every user's list holds the channels of the user's live subscriptions.
  ghost predicate RecordOk(r: Record) {
    && ReachableHub(r.s) && r.s.subs.Keys == r.chans.Keys && Inverse(r.chans, r.conns)
    && forall u :: ListIs(ListOf(r.lists, u), r.chans, r.conns, LiveSubs(r.s, u))
  }

  function Joined(r: Record, c: Conn, user: User, ch: Channel): Record
    requires HubEnabled(r.s, Join(c, user))
  {
    Record(r.lists[user := ListOf(r.lists, user) + [ch]], r.chans[c := ch], r.conns[ch := c],
           HubApply(r.s, Join(c, user)))
  }

  lemma JoinedIsOk(r: Record, c: Conn, user: User, ch: Channel)
    requires RecordOk(r) && HubEnabled(r.s, Join(c, user)) && ch !in r.conns
    ensures RecordOk(Joined(r, c, user, ch))
  {
    var r' := Joined(r, c, user, ch);
    HubStepReaches(r.s, Join(c, user));
    forall u
      ensures ListIs(ListOf(r'.lists, u), r'.chans, r'.conns, LiveSubs(r'.s, u))
    {
      JoinAddsOne(r.s, c, user, u);
      ListGrows(ListOf(r.lists, u), r.chans, r.conns, LiveSubs(r.s, u), c, ch);
    }
  }

  function Departed(r: Record, c: Conn, entries: seq<Channel?>): Record
    requires c in r.s.subs
  {
    r.(lists := r.lists[r.s.subs[c].user := entries], s := HubApply(r.s, Leave(c)))
  }

  lemma LeaveTakesOne(s: HubState, c: Conn, u: User)
    requires c in s.subs
    ensures LiveSubs(HubApply(s, Leave(c)), u) == LiveSubs(s, u) - {c}
  {
  }

  lemma DepartedIsOk(r: Record, c: Conn, entries: seq<Channel?>)
    requires RecordOk(r) && c in r.s.subs
    requires forall ch :: ch in entries <==> ch in ListOf(r.lists, r.s.subs[c].user) && ch != r.chans[c]
    ensures RecordOk(Departed(r, c, entries))
  {
    var r' := Departed(r, c, entries);
    HubStepReaches(r.s, Leave(c));
    forall u
      ensures ListIs(ListOf(r'.lists, u), r'.chans, r'.conns, LiveSubs(r'.s, u))
    {
      LeaveTakesOne(r.s, c, u);
      assert ListIs(ListOf(r.lists, u), r.chans, r.conns, LiveSubs(r.s, u));
    }
  }

  // Broadcasts and receives come and go without touching the lists.
  function Stepped(r: Record, step: HubStep): Record
    requires HubEnabled(r.s, step)
  {
    r.(s := HubApply(r.s, step))
  }

  lemma SteppedIsOk(r: Record, step: HubStep)
    requires RecordOk(r) && HubEnabled(r.s, step) && (step.Snap? || step.Send? || step.Land? || step.Receive?)
    ensures RecordOk(Stepped(r, step))
  {
    HubStepReaches(r.s, step);
    forall u
      ensures LiveSubs(HubApply(r.s, step), u) == LiveSubs(r.s, u)
    {
    }
  }

  ghost predicate ChannelsStay(r: Record, r': Record) {
    forall c :: c in r.chans ==> c in r'.chans && r'.chans[c] == r.chans[c]
  }

  // The others' steps, then one of its own.
  lemma OwnStepAfter(s: HubState, steps: seq<HubStep>, s1: HubState, more: seq<HubStep>, s2: HubState, step: HubStep,
                     f: nat)
    requires HubRuns(s, steps, s1) && HubRuns(s1, more, s2) && HubEnabled(s2, step)
    requires StepsOf(more, f) == [] && IsOf(step, f)
    ensures HubRuns(s, steps + more + [step], HubApply(s2, step))
    ensures StepsOf(steps + more + [step], f) == StepsOf(steps, f) + [step]
  {
    RunsCompose(s, steps, s1, more, s2);
    RunOn(s, steps + more, s2, step);
    StepsOfBoth(steps, more, f);
    StepsOfBoth(steps + more, [step], f);
    StepsOfOne(step, f);
  }

  // A broadcast under way: where it began, and the copy its snapshot took.
  datatype Broadcasting = Broadcasting(s0: HubState, f: nat, user: User, n: Notification, order: seq<Conn>,
                                       copy: seq<Channel?>)

  // `i` channels have been offered the notification.
  ghost predicate Midway(b: Broadcasting, r: Record, i: nat, steps: seq<HubStep>) {
    && i <= |b.order| == |b.copy| && b.f in r.s.flights
    && r.s.flights[b.f].n == b.n && r.s.flights[b.f].pending == b.order[i..]
    && (forall k :: 0 <= k < |b.order| ==> b.order[k] in r.chans && b.copy[k] == r.chans[b.order[k]])
    && HubRuns(b.s0, steps, r.s) && steps != [] && steps[0] == Snap(b.f, b.user, b.n, b.order)
    && StepsOf(steps, b.f) == [Snap(b.f, b.user, b.n, b.order)] + seq(i, _ => Send(b.f))
  }

  lemma MidwayStarts(b: Broadcasting, r: Record)
    requires HubEnabled(b.s0, Snap(b.f, b.user, b.n, b.order)) && |b.order| == |b.copy|
    requires r.s == HubApply(b.s0, Snap(b.f, b.user, b.n, b.order))
    requires forall k :: 0 <= k < |b.order| ==> b.order[k] in r.chans && b.copy[k] == r.chans[b.order[k]]
    ensures Midway(b, r, 0, [Snap(b.f, b.user, b.n, b.order)])
  {
    var snap := Snap(b.f, b.user, b.n, b.order);
    assert [snap][1..] == [] && HubRuns(b.s0, [snap], r.s);
    StepsOfOne(snap, b.f);
  }

  lemma MidwayOn(b: Broadcasting, r: Record, i: nat, steps: seq<HubStep>, more: seq<HubStep>, r': Record)
    requires Midway(b, r, i, steps) && i < |b.order| && r'.s.subs.Keys == r'.chans.Keys
    requires HubRuns(r.s, more, r'.s) && StepsOf(more, b.f) == [] && ChannelsStay(r, r')
    requires b.f in r'.s.flights && r'.s.flights[b.f] == r.s.flights[b.f]
    ensures HubEnabled(r'.s, Send(b.f)) && r'.s.flights[b.f].pending[0] in r'.chans
    ensures r'.s.flights[b.f].n == b.n && r'.chans[r'.s.flights[b.f].pending[0]] == b.copy[i]
    ensures Midway(b, Stepped(r', Send(b.f)), i + 1, steps + more + [Send(b.f)])
  {
    OwnStepAfter(b.s0, steps, r.s, more, r'.s, Send(b.f), b.f);
    assert seq(i, _ => Send(b.f)) + [Send(b.f)] == seq(i + 1, _ => Send(b.f));
  }

  // The subscriptions in the order of the list.
  ghost function OrderOf(r: Record, entries: seq<Channel?>): seq<Conn>
    requires forall k :: 0 <= k < |entries| ==> entries[k] != null && entries[k] in r.conns
  {
    seq(|entries|, k requires 0 <= k < |entries| => r.conns[entries[k]])
  }

  lemma ListIsOrdered(r: Record, user: User)
    requires RecordOk(r) && Distinct(ListOf(r.lists, user))
    ensures forall k :: 0 <= k < |ListOf(r.lists, user)| ==>
              ListOf(r.lists, user)[k] != null && ListOf(r.lists, user)[k] in r.conns
    ensures var order := OrderOf(r, ListOf(r.lists, user));
            NoRepeats(order) && (set c | c in order) == LiveSubs(r.s, user)
  {
    var entries := ListOf(r.lists, user);
    assert ListIs(entries, r.chans, r.conns, LiveSubs(r.s, user));
    var order := OrderOf(r, entries);
    forall c | c in LiveSubs(r.s, user)
      ensures c in order
    {
      var k :| 0 <= k < |entries| && entries[k] == r.chans[c];
      assert order[k] == c;
    }
  }

  lemma CountsAgree(r: Record, user: User)
    requires RecordOk(r) && Distinct(ListOf(r.lists, user))
    ensures |ListOf(r.lists, user)| == |LiveSubs(r.s, user)|
  {
    ListCount(ListOf(r.lists, user), r.chans, r.conns, LiveSubs(r.s, user));
  }

  class LiveHub {
    const registry: Registry
    ghost var r: Record
    // the backing arrays and channels there have been
    ghost var repr: set<object>

    // The lists are those of the record, and each channel holds its subscription's buffer.
    ghost predicate Mirrors()
      reads this, registry, repr
    {
      && this !in repr && registry !in repr && registry.Arrays() <= repr && registry.Valid()
      && (forall u :: registry.Entries(u) == ListOf(r.lists, u)) && BuffersAgree()
    }

    ghost predicate BuffersAgree()
      reads this, repr
    {
      forall ch :: ch in r.conns ==>
        ch in repr && r.conns[ch] in r.s.subs && ch.buffer == r.s.subs[r.conns[ch]].buffer
    }

    ghost predicate Valid()
      reads this, registry, repr
    {
      Mirrors() && RecordOk(r)
    }

    constructor ()
      ensures Valid() && r == Record(map[], map[], map[], InitHub()) && fresh(registry) && repr == {}
    {
      registry := new Registry();
      r, repr := Record(map[], map[], map[], InitHub()), {};
      new;
      assert HubRuns(InitHub(), [], r.s);
    }

    lemma ListIsDistinct(user: User)
      requires Mirrors()
      ensures Distinct(ListOf(r.lists, user))
    {
      assert registry.Entries(user) == ListOf(r.lists, user);
      assert user in registry.subs ==> registry.subs[user].Valid();
    }

    // What the lists stand for: each user's live subscriptions.
    lemma MembersAreLive(user: User)
      requires Valid()
      ensures LiveSubs(r.s, user) <= r.chans.Keys
      ensures registry.Members(user) == set c | c in LiveSubs(r.s, user) :: r.chans[c]
    {
      assert registry.Entries(user) == ListOf(r.lists, user);
      assert ListIs(ListOf(r.lists, user), r.chans, r.conns, LiveSubs(r.s, user));
    }

    // Refused exactly when the machine lets nobody join.
    method Subscribe(user: User) returns (ch: Channel?, ghost c: Conn)
      requires Valid()
      modifies this, registry, repr
      ensures Valid() && fresh(repr - old(repr))
      ensures ch != null <==> HubEnabled(old(r).s, Join(c, user))
      ensures ch != null <==> |LiveSubs(old(r).s, user)| < 10
      ensures if ch == null then r == old(r) else fresh(ch) && r == Joined(old(r), c, user, ch)
    {
      c := SomethingIsAbove(r.s.subs.Keys);
      ListIsDistinct(user);
      CountsAgree(r, user);
      ch := AddChannel(user, c);
      if ch != null {
        JoinedIsOk(old(r), c, user, ch);
      }
    }

    method AddChannel(user: User, ghost c: Conn) returns (ch: Channel?)
      requires Mirrors() && c !in r.s.subs && |ListOf(r.lists, user)| == |LiveSubs(r.s, user)|
      modifies this, registry, repr
      ensures Mirrors() && fresh(repr - old(repr))
      ensures ch != null <==> HubEnabled(old(r).s, Join(c, user))
      ensures if ch == null then r == old(r) else fresh(ch) && r == Joined(old(r), c, user, ch)
      ensures ch != null ==> ch !in old(r).conns
    {
      ch := NewChannel(user);
      if ch != null {
        Enrol(c, user, ch);
      }
    }

    method NewChannel(user: User) returns (ch: Channel?)
      requires Mirrors()
      modifies this`repr, registry, repr
      ensures this !in repr && registry !in repr && registry.Arrays() <= repr && fresh(repr - old(repr))
      ensures registry.Valid() && BuffersAgree()
      ensures ch == null <==> |ListOf(r.lists, user)| >= MAX_SUBS_PER_USER
      ensures ch != null ==> ch in repr && fresh(ch) && ch.buffer == []
      ensures forall u :: registry.Entries(u) == ListOf(r.lists, u) + if u == user && ch != null then [ch] else []
    {
      assert registry.Entries(user) == ListOf(r.lists, user);
      ch := registry.Subscribe(user);
      repr := repr + registry.Arrays() + if ch == null then {} else {ch};
    }

    ghost method Enrol(c: Conn, user: User, ch: Channel)
      requires this !in repr && registry !in repr && registry.Arrays() <= repr && registry.Valid()
      requires BuffersAgree() && ch in repr && ch.buffer == [] && HubEnabled(r.s, Join(c, user))
      requires forall u :: registry.Entries(u) == ListOf(Joined(r, c, user, ch).lists, u)
      modifies this`r
      ensures Mirrors() && r == Joined(old(r), c, user, ch)
    {
      r := Joined(r, c, user, ch);
    }

    // What Subscribe returned for `ch` is called, for the first time or again.
    method Unsubscribe(user: User, ch: Channel)
      requires Valid() && ch in r.conns && r.s.subs[r.conns[ch]].user == user
      modifies this`r, registry, repr
      ensures Valid()
      ensures r.s == HubApply(old(r).s, Leave(old(r).conns[ch])) && r.chans == old(r).chans && r.conns == old(r).conns
    {
      ghost var c := r.conns[ch];
      TakeOut(user, ch);
      DepartedIsOk(old(r), c, ListOf(r.lists, user));
    }

    method TakeOut(user: User, ch: Channel)
      requires Mirrors() && ch in r.conns && r.s.subs[r.conns[ch]].user == user
      modifies this`r, registry, repr
      ensures Mirrors()
      ensures r == Departed(old(r), old(r).conns[ch], ListOf(r.lists, user))
      ensures forall x :: x in ListOf(r.lists, user) <==> x in ListOf(old(r).lists, user) && x != ch
    {
      RemoveFromList(user, ch);
      Depart(user, r.conns[ch]);
    }

    method RemoveFromList(user: User, ch: Channel)
      requires Mirrors()
      modifies registry, repr
      ensures registry.Arrays() <= repr && registry.Valid() && BuffersAgree()
      ensures forall x :: x in registry.Entries(user) <==> x in ListOf(r.lists, user) && x != ch
      ensures forall u :: u != user ==> registry.Entries(u) == ListOf(r.lists, u)
    {
      assert registry.Entries(user) == ListOf(r.lists, user);
      registry.Unsubscribe(user, ch);
      assert forall x :: x in registry.Entries(user) <==> x in registry.Members(user);
    }

    ghost method Depart(user: User, c: Conn)
      requires this !in repr && registry !in repr && registry.Arrays() <= repr && registry.Valid() && BuffersAgree()
      requires forall u :: u != user ==> registry.Entries(u) == ListOf(r.lists, u)
      requires c in r.s.subs && r.s.subs[c].user == user
      modifies this`r
      ensures Mirrors() && r == Departed(old(r), c, registry.Entries(user))
    {
      r := Departed(r, c, registry.Entries(user));
    }

    // The copy a broadcast takes under the lock.
    method Snapshot(ghost f: nat, user: User, n: Notification) returns (chans: array<Channel?>, ghost order: seq<Conn>)
      requires Valid() && f !in r.s.flights
      modifies this`r
      ensures Valid() && fresh(chans) && HubEnabled(old(r).s, Snap(f, user, n, order))
      ensures r == Stepped(old(r), Snap(f, user, n, order)) && |order| == chans.Length
      ensures forall k :: 0 <= k < |order| ==> order[k] in r.chans && chans[k] == r.chans[order[k]]
    {
      chans := CopyList(user);
      ListIsDistinct(user);
      ListIsOrdered(r, user);
      order := OrderOf(r, ListOf(r.lists, user));
      Step(Snap(f, user, n, order));
    }

    method CopyList(user: User) returns (chans: array<Channel?>)
      requires Mirrors()
      ensures fresh(chans) && chans[..] == ListOf(r.lists, user)
    {
      chans := registry.Snapshot(user);
    }

    // A snapshot or a landing changes nothing but the record.
    ghost method Step(step: HubStep)
      requires Valid() && HubEnabled(r.s, step) && (step.Snap? || step.Land?)
      modifies this`r
      ensures Valid() && r == Stepped(old(r), step)
    {
      SteppedIsOk(r, step);
      r := Stepped(r, step);
    }

    method TrySend(ghost f: nat, ch: Channel, n: Notification)
      requires Valid() && HubEnabled(r.s, Send(f)) && r.s.flights[f].n == n
      requires r.s.flights[f].pending[0] in r.chans && r.chans[r.s.flights[f].pending[0]] == ch
      modifies this`r, ch
      ensures Valid() && r == Stepped(old(r), Send(f))
      ensures ch.buffer == if |old(ch.buffer)| < 16 then old(ch.buffer) + [n] else old(ch.buffer)
    {
      SteppedIsOk(r, Send(f));
      ch.TrySend(n);
      Used(ch, r.s.flights[f].pending[0], Send(f));
    }

    method Receive(ch: Channel) returns (n: Notification)
      requires Valid() && ch in r.conns && ch.buffer != []
      modifies this`r, ch
      ensures HubEnabled(old(r).s, HubStep.Receive(old(r).conns[ch]))
      ensures Valid() && r == Stepped(old(r), HubStep.Receive(old(r).conns[ch]))
      ensures n == old(r).s.subs[old(r).conns[ch]].buffer[0]
    {
      SteppedIsOk(r, HubStep.Receive(r.conns[ch]));
      n := ch.Receive();
      Used(ch, r.conns[ch], HubStep.Receive(r.conns[ch]));
    }

    // The channel has already changed as its subscription is about to.
    ghost method Used(ch: Channel, c: Conn, step: HubStep)
      requires this !in repr && registry !in repr && registry.Arrays() <= repr && registry.Valid()
      requires forall u :: registry.Entries(u) == ListOf(r.lists, u)
      requires Inverse(r.chans, r.conns) && c in r.chans && r.chans[c] == ch && HubEnabled(r.s, step)
      requires forall d :: d in r.conns ==>
                 && d in repr && r.conns[d] in r.s.subs
                 && d.buffer == (if d == ch then HubApply(r.s, step) else r.s).subs[r.conns[d]].buffer
      requires forall d :: d in r.s.subs && d != c ==> HubApply(r.s, step).subs[d] == r.s.subs[d]
      modifies this`r
      ensures Mirrors() && r == Stepped(old(r), step)
    {
      assert forall d :: d in r.conns && d != ch ==> r.conns[d] != c;
      r := Stepped(r, step);
    }

    method Havoc(ghost f: nat) returns (ghost steps: seq<HubStep>)
      requires Valid()
      modifies this, registry, repr
      ensures Valid() && fresh(repr - old(repr))
      ensures HubRuns(old(r).s, steps, r.s) && StepsOf(steps, f) == [] && ChannelsStay(old(r), r)
    {
      steps := [];
    }

    // Anything the others can do while broadcast `f` pauses.
    method Others(ghost f: nat) returns (ghost steps: seq<HubStep>)
      requires Valid()
      modifies this, registry, repr
      ensures Valid() && fresh(repr - old(repr))
      ensures HubRuns(old(r).s, steps, r.s) && StepsOf(steps, f) == [] && ChannelsStay(old(r), r)
      ensures f in r.s.flights <==> f in old(r).s.flights
      ensures f in r.s.flights ==> r.s.flights[f] == old(r).s.flights[f]
    {
      steps := Havoc(f);
      OthersLeaveFlight(old(r).s, steps, r.s, f);
    }

    // The others move, then the next channel of the copy is offered the notification.
    method SendNext(ghost b: Broadcasting, ghost i: nat, ghost steps: seq<HubStep>, ch: Channel, n: Notification)
      returns (ghost steps': seq<HubStep>)
      requires Valid() && Midway(b, r, i, steps) && i < |b.order| && b.copy[i] == ch && b.n == n
      modifies this, registry, repr
      ensures Valid() && fresh(repr - old(repr))
      ensures Midway(b, r, i + 1, steps')
    {
      assert ch in r.conns;
      ghost var more := Others(b.f);
      MidwayOn(b, old(r), i, steps, more, r);
      TrySend(b.f, ch, n);
      steps' := steps + more + [Send(b.f)];
    }

    /**
     Snapshot under the lock, sends outside it, anyone's steps in between: the broadcast's own steps are one snapshot,
     one send to each channel it found, one landing.
     */
    method Broadcast(user: User, n: Notification)
      returns (ghost f: nat, ghost order: seq<Conn>, ghost steps: seq<HubStep>)
      requires Valid()
      modifies this, registry, repr
      ensures Valid() && HubRuns(old(r).s, steps, r.s) && f !in old(r).s.flights
      ensures steps != [] && steps[0] == Snap(f, user, n, order)
      ensures StepsOf(steps, f) == WholeBroadcast(f, user, n, order)
    {
      var copy; ghost var b;
      copy, b := StartBroadcast(user, n);
      f, order, steps := b.f, b.order, [Snap(b.f, user, n, b.order)];
      steps := SendAll(b, steps, copy, n);
      steps := LandLast(b, steps);
    }

    method StartBroadcast(user: User, n: Notification) returns (copy: seq<Channel?>, ghost b: Broadcasting)
      requires Valid()
      modifies this`r
      ensures Valid() && r.conns == old(r).conns && b.s0 == old(r).s && b.f !in old(r).s.flights
      ensures b.user == user && b.n == n && Midway(b, r, 0, [Snap(b.f, user, n, b.order)])
      ensures copy == b.copy
    {
      ghost var f := SomethingIsAbove(r.s.flights.Keys);
      ghost var s0 := r.s;
      var chans; ghost var order;
      chans, order := Snapshot(f, user, n);
      copy := chans[..];
      b := Broadcasting(s0, f, user, n, order, copy);
      MidwayStarts(b, r);
    }

    method SendAll(ghost b: Broadcasting, ghost before: seq<HubStep>, copy: seq<Channel?>, n: Notification)
      returns (ghost steps: seq<HubStep>)
      requires Valid() && Midway(b, r, 0, before) && copy == b.copy && b.n == n
      modifies this, registry, repr
      ensures Valid() && fresh(repr - old(repr))
      ensures Midway(b, r, |b.order|, steps)
    {
      steps := before;
      for i := 0 to |copy|
        invariant Valid() && Midway(b, r, i, steps)
        invariant fresh(repr - old(repr))
      {
        assert copy[i] == r.chans[b.order[i]];
        steps := SendNext(b, i, steps, copy[i], n);
      }
    }

    method LandLast(ghost b: Broadcasting, ghost steps: seq<HubStep>) returns (ghost steps': seq<HubStep>)
      requires Valid() && Midway(b, r, |b.order|, steps)
      modifies this, registry, repr
      ensures Valid() && HubRuns(b.s0, steps', r.s) && steps' != [] && steps'[0] == Snap(b.f, b.user, b.n, b.order)
      ensures StepsOf(steps', b.f) == WholeBroadcast(b.f, b.user, b.n, b.order)
    {
      ghost var more := Others(b.f);
      OwnStepAfter(b.s0, steps, old(r).s, more, r.s, Land(b.f), b.f);
      Step(Land(b.f));
      steps' := steps + more + [Land(b.f)];
    }
  }
}
