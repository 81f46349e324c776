/** When the hub delivers in order: exactly when no broadcast starts while a stream is still owed an earlier one. */
module HubOrder {
  import opened Domain
  import opened Hub
  import opened HubDelivery

  // What the stream has received and buffered, it got in the order of the broadcasts.
  ghost predicate InOrder(s: HubState) {
    forall c :: c in s.subs ==> Ascending(s.subs[c].taken)
  }

  // The guard at the snapshot: no live subscription of the user is owed anything.
  predicate SafeSnap(s: HubState, user: User) {
    forall f :: f in s.flights ==> forall c :: c in s.flights[f].pending ==> c !in LiveSubs(s, user)
  }

  // Runs in which every broadcast starts under the guard.
  ghost predicate SafeRuns(s: HubState, steps: seq<HubStep>, s': HubState)
    decreases |steps|
  {
    if steps == [] then s == s'
    else
      && HubEnabled(s, steps[0]) && (steps[0].Snap? ==> SafeSnap(s, steps[0].user))
      && SafeRuns(HubApply(s, steps[0]), steps[1..], s')
  }

  lemma {:induction false} SafeRunsAreRuns(s: HubState, steps: seq<HubStep>, s': HubState)
    requires SafeRuns(s, steps, s')
    ensures HubRuns(s, steps, s')
    decreases |steps|
  {
    if steps != [] {
      SafeRunsAreRuns(HubApply(s, steps[0]), steps[1..], s');
    }
  }

  // ---------- safe broadcasts keep the order ----------

  // The stream is in order so far, and is owed at most one broadcast, later than all it has got.
  ghost predicate StreamOk(s: HubState, c: Conn)
    requires c in s.subs
  {
    && Ascending(s.subs[c].taken)
    && (forall f, g :: Owes(s, f, c) && Owes(s, g, c) ==> f == g)
    && (forall f, i :: Owes(s, f, c) && 0 <= i < |s.subs[c].taken| ==> s.subs[c].taken[i] < s.flights[f].at)
  }

  ghost predicate OrderInv(s: HubState) {
    forall c :: c in s.subs ==> StreamOk(s, c)
  }

  // Nothing new arrives and nothing new is owed.
  lemma StreamStays(s: HubState, s': HubState, c: Conn)
    requires c in s.subs && c in s'.subs && StreamOk(s, c) && s'.subs[c].taken == s.subs[c].taken
    requires forall f :: Owes(s', f, c) ==> Owes(s, f, c) && s'.flights[f].at == s.flights[f].at
    ensures StreamOk(s', c)
  {
  }

  lemma StepKeepsStream(s: HubState, step: HubStep, c: Conn)
    requires HubInv(s) && HubEnabled(s, step) && (step.Snap? ==> SafeSnap(s, step.user))
    requires c in HubApply(s, step).subs && (c in s.subs ==> StreamOk(s, c))
    ensures StreamOk(HubApply(s, step), c)
  {
    var s' := HubApply(s, step);
    match step
    case Snap(f, user, n, order) => SnapKeepsStream(s, f, user, n, order, c);
    case Send(f) => SendKeepsStream(s, f, c);
    case Join(d, user) =>
      if c == d {
        NewcomerIsOwedNothing(s, d);
      } else {
        StreamStays(s, s', c);
      }
    case _ => StreamStays(s, s', c);
  }

  lemma NewcomerIsOwedNothing(s: HubState, c: Conn)
    requires FlightsOk(s) && c !in s.subs
    ensures forall f :: !Owes(s, f, c)
  {
    forall f | f in s.flights
      ensures c !in s.flights[f].pending
    {
      assert FlightOk(s, s.flights[f]);
    }
  }

  lemma SnapKeepsStream(s: HubState, f: nat, user: User, n: Notification, order: seq<Conn>, c: Conn)
    requires HubInv(s) && HubEnabled(s, Snap(f, user, n, order)) && SafeSnap(s, user)
    requires c in s.subs && StreamOk(s, c)
    ensures StreamOk(HubApply(s, Snap(f, user, n, order)), c)
  {
    var s' := HubApply(s, Snap(f, user, n, order));
    SnapTargets(s, user, order);
    assert SubOk(s, c);
    if c in order {
      assert forall g :: !Owes(s, g, c);
      assert forall g :: Owes(s', g, c) ==> g == f;
    } else {
      StreamStays(s, s', c);
    }
  }

  lemma SendKeepsStream(s: HubState, f: nat, c: Conn)
    requires HubInv(s) && HubEnabled(s, Send(f)) && c in s.subs && StreamOk(s, c)
    ensures StreamOk(HubApply(s, Send(f)), c)
  {
    var s' := HubApply(s, Send(f));
    assert FlightOk(s, s.flights[f]);
    if c == s.flights[f].pending[0] {
      assert Owes(s, f, c) && !Owes(s', f, c);
      forall g
        ensures !Owes(s', g, c)
      {
        if Owes(s', g, c) {
          assert Owes(s, g, c);
        }
      }
    } else {
      StreamStays(s, s', c);
    }
  }

  lemma StepKeepsOrder(s: HubState, step: HubStep)
    requires HubInv(s) && OrderInv(s) && HubEnabled(s, step) && (step.Snap? ==> SafeSnap(s, step.user))
    ensures HubInv(HubApply(s, step)) && OrderInv(HubApply(s, step))
  {
    HubStepKeepsInv(s, step);
    forall c | c in HubApply(s, step).subs
      ensures StreamOk(HubApply(s, step), c)
    {
      StepKeepsStream(s, step, c);
    }
  }

  lemma {:induction false} SafeRunsKeepOrder(s: HubState, steps: seq<HubStep>, s': HubState)
    requires HubInv(s) && OrderInv(s) && SafeRuns(s, steps, s')
    ensures HubInv(s') && OrderInv(s')
    decreases |steps|
  {
    if steps != [] {
      StepKeepsOrder(s, steps[0]);
      SafeRunsKeepOrder(HubApply(s, steps[0]), steps[1..], s');
    }
  }

  // ---------- what order means to the reader ----------

  ghost predicate IsSubsequence(xs: seq<Notification>, ys: seq<Notification>)
    decreases |ys|
  {
    if xs == [] then true
    else if ys == [] then false
    else
      || (xs[|xs| - 1] == ys[|ys| - 1] && IsSubsequence(xs[..|xs| - 1], ys[..|ys| - 1]))
      || IsSubsequence(xs, ys[..|ys| - 1])
  }

  // Notifications from ascending places form a subsequence.
  lemma {:induction false} AscendingIsSubsequence(xs: seq<Notification>, places: seq<nat>, ys: seq<Notification>)
    requires |xs| == |places| && Ascending(places)
    requires forall i :: 0 <= i < |xs| ==> places[i] < |ys| && xs[i] == ys[places[i]]
    ensures IsSubsequence(xs, ys)
    decreases |ys|
  {
    if xs != [] {
      var n := |xs| - 1;
      if places[n] == |ys| - 1 {
        AscendingIsSubsequence(xs[..n], places[..n], ys[..|ys| - 1]);
      } else {
        assert forall i :: 0 <= i < n ==> places[i] < places[n];
        AscendingIsSubsequence(xs, places, ys[..|ys| - 1]);
      }
    }
  }

  // And when no notification is broadcast twice, only those do.
  lemma {:induction false} SubsequenceIsAscending(xs: seq<Notification>, places: seq<nat>, ys: seq<Notification>)
    requires |xs| == |places| && NoRepeats(ys) && IsSubsequence(xs, ys)
    requires forall i :: 0 <= i < |xs| ==> places[i] < |ys| && xs[i] == ys[places[i]]
    ensures Ascending(places)
    decreases |ys|
  {
    if xs != [] {
      var n, m := |xs| - 1, |ys| - 1;
      if IsSubsequence(xs, ys[..m]) {
        SubsequenceStays(xs, ys[..m], places, ys);
        SubsequenceIsAscending(xs, places, ys[..m]);
      } else {
        SubsequenceStays(xs[..n], ys[..m], places[..n], ys);
        SubsequenceIsAscending(xs[..n], places[..n], ys[..m]);
        assert places[n] == m;
        assert forall i :: 0 <= i < n ==> places[..n][i] == places[i];
      }
    }
  }

  // Elements of a subsequence of a prefix sit in that prefix.
  lemma {:induction false} SubsequenceStays(xs: seq<Notification>, prefix: seq<Notification>, places: seq<nat>,
                                            ys: seq<Notification>)
    requires IsSubsequence(xs, prefix) && prefix <= ys && NoRepeats(ys) && |xs| == |places|
    requires forall i :: 0 <= i < |xs| ==> places[i] < |ys| && xs[i] == ys[places[i]]
    ensures forall i :: 0 <= i < |xs| ==> places[i] < |prefix|
  {
    forall i | 0 <= i < |xs|
      ensures places[i] < |prefix|
    {
      var j := SubsequenceMember(xs, prefix, i);
      assert ys[j] == ys[places[i]];
    }
  }

  lemma {:induction false} SubsequenceMember(xs: seq<Notification>, ys: seq<Notification>, i: nat) returns (j: nat)
    requires IsSubsequence(xs, ys) && i < |xs|
    ensures j < |ys| && ys[j] == xs[i]
    decreases |ys|
  {
    var m := |ys| - 1;
    if IsSubsequence(xs, ys[..m]) {
      j := SubsequenceMember(xs, ys[..m], i);
    } else if i == |xs| - 1 {
      j := m;
    } else {
      j := SubsequenceMember(xs[..|xs| - 1], ys[..m], i);
    }
  }

  // A stream is in order exactly when what it got is a subsequence of its user's broadcasts.
  lemma OrderIsSubsequence(s: HubState, c: Conn)
    requires HubInv(s) && c in s.subs
    ensures Ascending(s.subs[c].taken) ==> IsSubsequence(Delivered(s.subs[c]), HistoryOf(s, s.subs[c].user))
    ensures NoRepeats(HistoryOf(s, s.subs[c].user)) ==>
              (Ascending(s.subs[c].taken) <== IsSubsequence(Delivered(s.subs[c]), HistoryOf(s, s.subs[c].user)))
  {
    var sub, hist := s.subs[c], HistoryOf(s, s.subs[c].user);
    assert SubOk(s, c);
    if Ascending(sub.taken) {
      AscendingIsSubsequence(Delivered(sub), sub.taken, hist);
    }
    if NoRepeats(hist) && IsSubsequence(Delivered(sub), hist) {
      SubsequenceIsAscending(Delivered(sub), sub.taken, hist);
    }
  }

  // ---------- unsafe broadcasts break it ----------

  // Only sends and receives: nothing new is broadcast and nobody comes or goes.
  predicate Quiet(steps: seq<HubStep>) {
    forall i :: 0 <= i < |steps| ==> steps[i].Send? || steps[i].Receive?
  }

  lemma {:induction false} RunsCompose(s: HubState, steps: seq<HubStep>, mid: HubState,
                                       more: seq<HubStep>, s': HubState)
    requires HubRuns(s, steps, mid) && HubRuns(mid, more, s')
    ensures HubRuns(s, steps + more, s')
    decreases |steps|
  {
    if steps == [] {
      assert steps + more == more;
    } else {
      RunsCompose(HubApply(s, steps[0]), steps[1..], mid, more, s');
      assert (steps + more)[1..] == steps[1..] + more;
    }
  }

  // The reader of `c` catches up.
  lemma {:induction false} CatchUp(s: HubState, c: Conn) returns (steps: seq<HubStep>, s': HubState)
    requires c in s.subs
    ensures Quiet(steps) && HubRuns(s, steps, s')
    ensures s'.flights == s.flights && s'.subs.Keys == s.subs.Keys
    ensures s'.subs[c].buffer == [] && s'.subs[c].taken == s.subs[c].taken
    decreases |s.subs[c].buffer|
  {
    if s.subs[c].buffer == [] {
      return [], s;
    }
    var rest;
    rest, s' := CatchUp(HubApply(s, Receive(c)), c);
    steps := [Receive(c)] + rest;
    assert steps[1..] == rest;
  }

  // The broadcast `f` goes on until it has sent to `c`.
  lemma {:induction false} SendUpTo(s: HubState, f: nat, c: Conn) returns (steps: seq<HubStep>, s': HubState)
    requires Owes(s, f, c) && forall d :: d in s.flights[f].pending ==> d in s.subs
    requires |s.subs[c].buffer| < CHANNEL_CAPACITY
    ensures Quiet(steps) && HubRuns(s, steps, s') && s'.subs.Keys == s.subs.Keys
    ensures s'.flights.Keys == s.flights.Keys && forall g :: g in s.flights && g != f ==> s'.flights[g] == s.flights[g]
    ensures s'.subs[c].taken == s.subs[c].taken + [s.flights[f].at]
    ensures |s'.subs[c].buffer| == |s.subs[c].buffer| + 1
    decreases |s.flights[f].pending|
  {
    var pending, next := s.flights[f].pending, HubApply(s, Send(f));
    assert pending[0] in pending;
    if pending[0] == c {
      steps, s' := [Send(f)], next;
      assert [Send(f)][1..] == [];
    } else {
      assert forall d :: d in pending[1..] ==> d in pending;
      assert c in pending[1..];
      var rest;
      rest, s' := SendUpTo(next, f, c);
      steps := [Send(f)] + rest;
      assert steps[1..] == rest;
    }
  }

  // Two broadcasts that both owe `c`: the later one is sent first.
  lemma LaterFirst(s: HubState, f: nat, g: nat, c: Conn) returns (steps: seq<HubStep>, s': HubState)
    requires FlightsOk(s) && Owes(s, f, c) && Owes(s, g, c) && s.flights[g].at < s.flights[f].at
    ensures Quiet(steps) && HubRuns(s, steps, s')
    ensures c in s'.subs && !Ascending(s'.subs[c].taken)
  {
    assert FlightOk(s, s.flights[g]) && FlightOk(s, s.flights[f]);
    var steps1, s1 := CatchUp(s, c);
    var steps2;
    steps2, s' := SendBoth(s1, f, g, c);
    var t := s'.subs[c].taken;
    assert t[|t| - 2] == s.flights[f].at && t[|t| - 1] == s.flights[g].at;
    RunsCompose(s, steps1, s1, steps2, s');
    steps := steps1 + steps2;
  }

  lemma SendBoth(s: HubState, f: nat, g: nat, c: Conn) returns (steps: seq<HubStep>, s': HubState)
    requires Owes(s, f, c) && Owes(s, g, c) && f != g && c in s.subs && s.subs[c].buffer == []
    requires forall d :: d in s.flights[f].pending || d in s.flights[g].pending ==> d in s.subs
    ensures Quiet(steps) && HubRuns(s, steps, s') && c in s'.subs
    ensures s'.subs[c].taken == s.subs[c].taken + [s.flights[f].at] + [s.flights[g].at]
  {
    var steps1, s1 := SendUpTo(s, f, c);
    var steps2;
    steps2, s' := SendUpTo(s1, g, c);
    RunsCompose(s, steps1, s1, steps2, s');
    steps := steps1 + steps2;
  }

  lemma EitherFirst(s: HubState, f: nat, g: nat, c: Conn) returns (steps: seq<HubStep>, s': HubState)
    requires FlightsOk(s) && Owes(s, f, c) && Owes(s, g, c) && s.flights[g].at != s.flights[f].at
    ensures Quiet(steps) && HubRuns(s, steps, s') && !InOrder(s')
  {
    if s.flights[g].at < s.flights[f].at {
      steps, s' := LaterFirst(s, f, g, c);
    } else {
      steps, s' := LaterFirst(s, g, f, c);
    }
  }

  // From every state, a broadcast that starts while a live stream of its user is still owed an earlier one can
  // reach that stream first.
  lemma UnsafeSnapMisorders(s: HubState, f: nat, user: User, n: Notification, order: seq<Conn>, g: nat, c: Conn)
    returns (steps: seq<HubStep>, s': HubState)
    requires HubInv(s) && HubEnabled(s, Snap(f, user, n, order)) && Owes(s, g, c) && c in LiveSubs(s, user)
    ensures Quiet(steps) && HubRuns(HubApply(s, Snap(f, user, n, order)), steps, s')
    ensures c in s'.subs && !Ascending(s'.subs[c].taken)
  {
    SnapTargets(s, user, order);
    assert FlightOk(s, s.flights[g]);
    StepKeepsFlights(s, Snap(f, user, n, order));
    steps, s' := LaterFirst(HubApply(s, Snap(f, user, n, order)), f, g, c);
  }

  // ---------- the exact condition ----------

  lemma {:induction false} QuietRunsAreSafe(s: HubState, steps: seq<HubStep>, s': HubState)
    requires Quiet(steps) && HubRuns(s, steps, s')
    ensures SafeRuns(s, steps, s')
    decreases |steps|
  {
    if steps != [] {
      assert forall i :: 0 <= i < |steps[1..]| ==> steps[1..][i] == steps[i + 1];
      QuietRunsAreSafe(HubApply(s, steps[0]), steps[1..], s');
    }
  }

  // Every way of finishing the broadcasts under way leaves all streams in order.
  ghost predicate CannotMisorder(s: HubState) {
    forall steps, s' :: Quiet(steps) && HubRuns(s, steps, s') ==> InOrder(s')
  }

  lemma OrderlyCannotMisorder(s: HubState)
    requires HubInv(s) && OrderInv(s)
    ensures CannotMisorder(s)
  {
    forall steps, s' | Quiet(steps) && HubRuns(s, steps, s')
      ensures InOrder(s')
    {
      QuietRunsAreSafe(s, steps, s');
      SafeRunsKeepOrder(s, steps, s');
      assert forall c :: c in s'.subs ==> StreamOk(s', c);
    }
  }

  // An owed broadcast earlier than one that has arrived will come too late.
  lemma LatecomerMisorders(s: HubState, f: nat, c: Conn, i: nat) returns (steps: seq<HubStep>, s': HubState)
    requires HubInv(s) && Owes(s, f, c) && c in s.subs
    requires i < |s.subs[c].taken| && s.flights[f].at <= s.subs[c].taken[i]
    ensures Quiet(steps) && HubRuns(s, steps, s') && !InOrder(s')
  {
    assert FlightOk(s, s.flights[f]) && SubOk(s, c);
    var steps1, s1 := CatchUp(s, c);
    var steps2;
    steps2, s' := SendUpTo(s1, f, c);
    RunsCompose(s, steps1, s1, steps2, s');
    steps := steps1 + steps2;
    OutOfOrder(s', c, i);
  }

  lemma OutOfOrder(s: HubState, c: Conn, i: nat)
    requires c in s.subs && i < |s.subs[c].taken| - 1
    requires s.subs[c].taken[|s.subs[c].taken| - 1] <= s.subs[c].taken[i]
    ensures !InOrder(s)
  {
  }

  lemma StreamCannotMisorder(s: HubState, c: Conn)
    requires HubInv(s) && CannotMisorder(s) && c in s.subs
    ensures StreamOk(s, c)
  {
    assert Quiet([]) && HubRuns(s, [], s);
    forall f, g | Owes(s, f, c) && Owes(s, g, c)
      ensures f == g
    {
      assert FlightOk(s, s.flights[f]) && FlightOk(s, s.flights[g]);
      if f != g {
        assert OtherPlace(s.flights[f], s.flights[g]);
        var steps, s' := EitherFirst(s, f, g, c);
      }
    }
    forall f, i | Owes(s, f, c) && 0 <= i < |s.subs[c].taken|
      ensures s.subs[c].taken[i] < s.flights[f].at
    {
      if s.subs[c].taken[i] >= s.flights[f].at {
        var steps, s' := LatecomerMisorders(s, f, c, i);
      }
    }
  }

  /**
   As long as nothing under way can misorder a stream, a broadcast may start without harm exactly when its user's
   live streams are owed nothing.
   */
  lemma SnapIsHarmlessExactlyWhenSafe(s: HubState, f: nat, user: User, n: Notification, order: seq<Conn>)
    requires HubInv(s) && CannotMisorder(s) && HubEnabled(s, Snap(f, user, n, order))
    ensures CannotMisorder(HubApply(s, Snap(f, user, n, order))) <==> SafeSnap(s, user)
  {
    if SafeSnap(s, user) {
      forall c | c in s.subs
        ensures StreamOk(s, c)
      {
        StreamCannotMisorder(s, c);
      }
      StepKeepsOrder(s, Snap(f, user, n, order));
      OrderlyCannotMisorder(HubApply(s, Snap(f, user, n, order)));
    } else {
      var g, c :| g in s.flights && c in s.flights[g].pending && c in LiveSubs(s, user);
      var steps, s' := UnsafeSnapMisorders(s, f, user, n, order, g, c);
      assert !InOrder(s');
    }
  }

  // Nothing in the hub itself keeps its callers from it.
  lemma UnsafeSnapIsReachable(n: Notification, m: Notification) returns (steps: seq<HubStep>, s: HubState)
    ensures HubRuns(InitHub(), steps, s) && HubEnabled(s, Snap(1, 0, m, [0])) && !SafeSnap(s, 0)
  {
    var joined := HubApply(InitHub(), Join(0, 0));
    assert LiveSubs(joined, 0) == {0};
    s := HubApply(joined, Snap(0, 0, n, [0]));
    assert LiveSubs(s, 0) == {0} && s.flights[0].pending[0] == 0;
    steps := [Join(0, 0), Snap(0, 0, n, [0])];
    assert steps[1..] == [Snap(0, 0, n, [0])] && steps[1..][1..] == [];
    assert HubRuns(joined, steps[1..], s);
  }

  /** Over every run whose broadcasts start under the guard, each stream is an in-order subsequence. */
  lemma SafeRunsDeliverInOrder(steps: seq<HubStep>, s: HubState, c: Conn)
    requires SafeRuns(InitHub(), steps, s) && c in s.subs
    ensures Ascending(s.subs[c].taken)
    ensures IsSubsequence(Delivered(s.subs[c]), HistoryOf(s, s.subs[c].user))
  {
    SafeRunsKeepOrder(InitHub(), steps, s);
    assert StreamOk(s, c);
    OrderIsSubsequence(s, c);
  }
}
