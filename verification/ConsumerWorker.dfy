/**
 `Consumer.Run`, `CreateFromEvent` and the repository below it. Between any two of their calls the logs may grow,
 users may mark notifications read and the group may hand the partitions out again; each pass of the loop is a
 fixed sequence of steps of Delivery.
 */
module ConsumerWorker {
  import opened Domain
  import opened RelayLog
  import opened RelayLogProofs
  import opened Delivery
  import opened DeliveryProofs

  // What the world does to one pass of the loop: whether the broker hands out a message and from which
  // partition, how the insert and the commit end, the notification's id and time.
  datatype Turn = Turn(fetchOk: bool, p: nat, reply: Reply, id: Uuid, now: Time, commit: Reply)

  // ---------- the specification ----------

  // uuid.New() never repeats an id: those of the turns from the `n`-th on are still to come.
  ghost predicate FreshTurns(notifs: map<Key, Notification>, turns: seq<Turn>, n: nat) {
    && (forall i :: n <= i < |turns| ==> IdUnused(notifs, turns[i].id))
    && (forall i, j :: n <= i < j < |turns| ==> turns[i].id != turns[j].id)
  }

  // The reader has a message for this turn; otherwise FetchMessage waits until the context is cancelled.
  predicate HasMessage(logs: seq<seq<Message>>, s: Sink, turn: Turn) {
    turn.p < |logs| && turn.p < |s.position| && s.position[turn.p] < |logs[turn.p]|
  }

  function CommitStep(commit: Reply): SinkStep {
    if commit.TakesEffect() then CommitOffset else CommitFails
  }

  // The steps of one whole pass: a stored row is broadcast, and the offset is committed, or not.
  function TurnSteps(turn: Turn, stored: bool): seq<SinkStep> {
    BeforeCommit(turn, stored) + [CommitStep(turn.commit)]
  }

  function BeforeCommit(turn: Turn, stored: bool): seq<SinkStep> {
    [Fetch(turn.p)] + Processing(turn, stored)
  }

  function Processing(turn: Turn, stored: bool): seq<SinkStep> {
    [Process(turn.reply, turn.id, turn.now)] + if stored then [Broadcast] else []
  }

  lemma StepsInTurn(own: seq<SinkStep>, turn: Turn, stored: bool)
    ensures own + [Fetch(turn.p)] + Processing(turn, stored) == own + BeforeCommit(turn, stored)
    ensures own + BeforeCommit(turn, stored) + [CommitStep(turn.commit)] == own + TurnSteps(turn, stored)
  {
  }

  // The steps of the first `n` passes, one after the other.
  function StepsOf(turns: seq<Turn>, stored: seq<bool>, n: nat): seq<SinkStep>
    requires n <= |turns| && n <= |stored|
  {
    if n == 0 then [] else StepsOf(turns, stored, n - 1) + TurnSteps(turns[n - 1], stored[n - 1])
  }

  lemma {:induction false} LaterTurnsDoNotMatter(turns: seq<Turn>, stored: seq<bool>, flag: bool, n: nat)
    requires n <= |turns| && n <= |stored|
    ensures StepsOf(turns, stored + [flag], n) == StepsOf(turns, stored, n)
  {
    if n > 0 {
      LaterTurnsDoNotMatter(turns, stored, flag, n - 1);
    }
  }

  lemma OneMoreTurn(own: seq<SinkStep>, turns: seq<Turn>, stored: seq<bool>, flag: bool)
    requires |stored| < |turns|
    ensures own + StepsOf(turns, stored, |stored|) + TurnSteps(turns[|stored|], flag)
            == own + StepsOf(turns, stored + [flag], |stored| + 1)
  {
    LaterTurnsDoNotMatter(turns, stored, flag, |stored|);
  }

  // The same notifications, some of them marked read.
  ghost predicate OnlyMarked(notifs: map<Key, Notification>, notifs': map<Key, Notification>) {
    notifs'.Keys == notifs.Keys && NotifsEvolve(notifs, notifs')
  }

  // Every notification was there before, under its id, or has this one.
  ghost predicate OnlyNewId(notifs: map<Key, Notification>, notifs': map<Key, Notification>, id: Uuid) {
    forall k :: k in notifs' ==> (k in notifs && notifs'[k].id == notifs[k].id) || notifs'[k].id == id
  }

  lemma NewIdThrough(a: map<Key, Notification>, b: map<Key, Notification>, c: map<Key, Notification>,
                     d: map<Key, Notification>, id: Uuid)
    requires OnlyMarked(a, b) && OnlyNewId(b, c, id) && OnlyMarked(c, d)
    ensures OnlyNewId(a, d, id)
  {
    forall k | k in d
      ensures (k in a && d[k].id == a[k].id) || d[k].id == id
    {
      assert k in c && RowKept(c[k], d[k]);
      assert k in a ==> RowKept(a[k], b[k]);
    }
  }

  lemma OtherIdsStayUnused(notifs: map<Key, Notification>, notifs': map<Key, Notification>, turns: seq<Turn>, n: nat)
    requires n < |turns| && FreshTurns(notifs, turns, n) && OnlyNewId(notifs, notifs', turns[n].id)
    ensures FreshTurns(notifs', turns, n + 1)
  {
  }

  lemma MarkedStayFresh(notifs: map<Key, Notification>, notifs': map<Key, Notification>, turns: seq<Turn>, n: nat)
    requires FreshTurns(notifs, turns, n) && OnlyMarked(notifs, notifs')
    ensures FreshTurns(notifs', turns, n)
  {
  }

  // A step of the consumer, or what relays, readers and the group's coordinator did in between.
  datatype Move =
    | Own(step: SinkStep)
    | Outside(logs: seq<seq<Message>>, notifs: map<Key, Notification>, position: seq<nat>)

  ghost predicate CanMove(logs: seq<seq<Message>>, s: Sink, move: Move) {
    match move
    case Own(step) => SinkEnabled(logs, s, step)
    case Outside(logs', notifs', position') =>
      && LogsGrow(logs, logs') && OnlyMarked(s.notifs, notifs')
      && (position' == s.position || position' == s.committed)
  }

  function Moved(logs: seq<seq<Message>>, s: Sink, move: Move): Sink
    requires move.Own? ==> SinkEnabled(logs, s, move.step)
  {
    if move.Own? then SinkApply(logs, s, move.step) else s.(notifs := move.notifs, position := move.position)
  }

  function LogsAfter(logs: seq<seq<Message>>, move: Move): seq<seq<Message>> {
    if move.Own? then logs else move.logs
  }

  ghost predicate Moves(logs: seq<seq<Message>>, s: Sink, moves: seq<Move>, logs': seq<seq<Message>>, s': Sink)
    decreases |moves|
  {
    if moves == [] then logs == logs' && s == s'
    else
      && CanMove(logs, s, moves[0])
      && Moves(LogsAfter(logs, moves[0]), Moved(logs, s, moves[0]), moves[1..], logs', s')
  }

  function OwnSteps(moves: seq<Move>): seq<SinkStep>
    decreases |moves|
  {
    if moves == [] then []
    else (if moves[0].Own? then [moves[0].step] else []) + OwnSteps(moves[1..])
  }

  lemma {:induction false} MovesExtend(logs: seq<seq<Message>>, s: Sink, moves: seq<Move>,
                                       logs1: seq<seq<Message>>, mid: Sink, move: Move)
    requires Moves(logs, s, moves, logs1, mid) && CanMove(logs1, mid, move)
    ensures Moves(logs, s, moves + [move], LogsAfter(logs1, move), Moved(logs1, mid, move))
    ensures OwnSteps(moves + [move]) == OwnSteps(moves) + if move.Own? then [move.step] else []
    decreases |moves|
  {
    if moves == [] {
      assert ([] + [move])[1..] == [];
    } else {
      MovesExtend(LogsAfter(logs, moves[0]), Moved(logs, s, moves[0]), moves[1..], logs1, mid, move);
      assert (moves + [move])[1..] == moves[1..] + [move];
    }
  }

  // A new consumer on `startLogs` has come here by just these steps of its own, whatever happened in between.
  ghost predicate ConsumerRan(startLogs: seq<seq<Message>>, own: seq<SinkStep>, logs: seq<seq<Message>>, s: Sink) {
    exists moves :: Moves(startLogs, InitSink(|startLogs|), moves, logs, s) && OwnSteps(moves) == own
  }

  lemma RanOn(startLogs: seq<seq<Message>>, own: seq<SinkStep>, logs: seq<seq<Message>>, s: Sink, move: Move)
    requires ConsumerRan(startLogs, own, logs, s) && CanMove(logs, s, move)
    ensures ConsumerRan(startLogs, own + if move.Own? then [move.step] else [],
                        LogsAfter(logs, move), Moved(logs, s, move))
  {
    var moves :| Moves(startLogs, InitSink(|startLogs|), moves, logs, s) && OwnSteps(moves) == own;
    MovesExtend(startLogs, InitSink(|startLogs|), moves, logs, s, move);
  }

  lemma MarkingKeepsSink(logs: seq<seq<Message>>, s: Sink, notifs': map<Key, Notification>)
    requires SinkInv(logs, s) && OnlyMarked(s.notifs, notifs')
    ensures SinkInv(logs, s.(notifs := notifs'))
  {
    var s' := s.(notifs := notifs');
    forall n | IsRowOf(s, n)
      ensures IsRowOf(s', n)
    {
      IsRowStays(s, s', n);
    }
    HandledStay(s, s');
  }

  // Each invariant of the machine therefore holds at every point of the loop.
  lemma {:induction false} MovesKeepSink(logs: seq<seq<Message>>, s: Sink, moves: seq<Move>,
                                         logs': seq<seq<Message>>, s': Sink)
    requires SinkInv(logs, s) && Moves(logs, s, moves, logs', s')
    ensures SinkInv(logs', s')
    decreases |moves|
  {
    if moves != [] {
      var logs1, mid := LogsAfter(logs, moves[0]), Moved(logs, s, moves[0]);
      match moves[0] {
        case Own(step) => StepKeepsSink(logs, s, step);
        case Outside(_, notifs', position') =>
          MarkingKeepsSink(logs, s, notifs');
          var marked := s.(notifs := notifs');
          StepKeepsSink(logs, marked, Rebalance);
          GrowthKeepsSink(logs, logs1, mid);
      }
      MovesKeepSink(logs1, mid, moves[1..], logs', s');
    }
  }

  lemma ReadOnlyMarks(notifs: map<Key, Notification>, id: Option<Uuid>, user: Uuid)
    ensures OnlyMarked(notifs, Read(notifs, id, user))
  {
  }

  lemma RanKeepsSink(startLogs: seq<seq<Message>>, own: seq<SinkStep>, logs: seq<seq<Message>>, s: Sink)
    requires ConsumerRan(startLogs, own, logs, s)
    ensures SinkInv(logs, s)
  {
    var moves :| Moves(startLogs, InitSink(|startLogs|), moves, logs, s) && OwnSteps(moves) == own;
    MovesKeepSink(startLogs, InitSink(|startLogs|), moves, logs, s);
  }

  // ---------- the code ----------

  // How the loop ended after `k` messages: with an error on a failing fetch or commit, without one when there
  // was nothing more to fetch or to do. Until then every fetch was answered and every commit.
  ghost predicate Ended(logs: seq<seq<Message>>, s: Sink, turns: seq<Turn>, k: nat, err: bool) {
    && k <= |turns|
    && (forall i :: 0 <= i < k ==> turns[i].fetchOk && (i < k - 1 ==> turns[i].commit.Answered?))
    && (err ==> (k < |turns| && !turns[k].fetchOk) || (k > 0 && !turns[k - 1].commit.Answered?))
    && (!err ==> (k > 0 ==> turns[k - 1].commit.Answered?)
                 && (k < |turns| ==> turns[k].fetchOk && !HasMessage(logs, s, turns[k])))
  }

  ghost predicate WentWell(turns: seq<Turn>, n: nat) {
    n <= |turns| && forall k :: 0 <= k < n ==> turns[k].fetchOk && turns[k].commit.Answered?
  }

  lemma StopsHere(logs: seq<seq<Message>>, s: Sink, turns: seq<Turn>, i: nat, handled: bool, err: bool)
    requires i < |turns| && WentWell(turns, i)
    requires if handled then turns[i].fetchOk && !turns[i].commit.Answered? && err
             else (err <==> !turns[i].fetchOk) && (!err ==> !HasMessage(logs, s, turns[i]))
    ensures Ended(logs, s, turns, if handled then i + 1 else i, err)
  {
  }

  // What a message that leads to no broadcast makes of the loop's own state.
  function Done(s: Sink, event: Event, err: bool): Sink
    requires !s.worker.Idle?
  {
    var kind := KindOf(event.eventType);
    var done := s.(worker := Finished(s.worker.p, s.worker.off));
    if err && kind.Some? then done.(errors := s.errors + 1, skipped := s.skipped + {KeyOf(event, kind.value)})
    else done.(consumed := s.consumed + 1)
  }

  lemma DroppedIsDone(logs: seq<seq<Message>>, s: Sink, event: Event, turn: Turn)
    requires SinkEnabled(logs, s, Process(turn.reply, turn.id, turn.now))
    requires logs[s.worker.p][s.worker.off].value == Json(event) && KindOf(event.eventType).None?
    ensures SinkApply(logs, s, Process(turn.reply, turn.id, turn.now)) == Done(s, event, false)
  {
  }

  lemma AnsweredIsDone(logs: seq<seq<Message>>, s: Sink, event: Event, kind: NotifType, turn: Turn)
    requires SinkEnabled(logs, s, Process(turn.reply, turn.id, turn.now))
    requires logs[s.worker.p][s.worker.off].value == Json(event) && KindOf(event.eventType) == Some(kind)
    ensures var n := NotificationOf(event, kind, turn.id, turn.now);
            var outcome := InsertOutcome(s.notifs, turn.reply, n);
            SinkApply(logs, s, Process(turn.reply, turn.id, turn.now))
            == if outcome.Inserted?
               then s.(worker := Stored(s.worker.p, s.worker.off, n), notifs := TableAfter(s.notifs, turn.reply, n))
               else Done(s.(notifs := TableAfter(s.notifs, turn.reply, n)), event, !outcome.Conflict?)
  {
  }

  lemma SentIsDone(startLogs: seq<seq<Message>>, own: seq<SinkStep>, logs: seq<seq<Message>>, s: Sink, event: Event)
    requires ConsumerRan(startLogs, own, logs, s) && s.worker.Stored?
    ensures ConsumerRan(startLogs, own + [Broadcast], logs,
                        Done(s.(broadcasts := s.broadcasts + [s.worker.n]), event, false))
  {
    RanOn(startLogs, own, logs, s, Own(Broadcast));
  }

  class Consumer {
    // the broker's logs and the Kafka reader
    var logs: seq<seq<Message>>
    var committed: seq<nat>
    var position: seq<nat>
    // the notifications table
    var notifs: map<Key, Notification>
    // the metrics
    var taken: nat
    var consumed: nat
    var errors: nat
    // where the loop is, and histories
    ghost var worker: Worker
    ghost var skipped: set<Key>
    ghost var broadcasts: seq<Notification>
    // its own steps since the group was new, when the logs were `startLogs`
    ghost var startLogs: seq<seq<Message>>
    ghost var own: seq<SinkStep>

    ghost function View(): Sink
      reads this
    {
      Sink(committed, position, worker, notifs, skipped, broadcasts, taken, consumed, errors)
    }

    ghost predicate Valid()
      reads this
    {
      ConsumerRan(startLogs, own, logs, View())
    }

    constructor (logs: seq<seq<Message>>)
      ensures Valid() && own == [] && this.logs == logs
      ensures View() == InitSink(|logs|)
    {
      this.logs := logs;
      committed, position := seq(|logs|, _ => 0), seq(|logs|, _ => 0);
      notifs, taken, consumed, errors := map[], 0, 0, 0;
      worker, skipped, broadcasts, own := Idle, {}, [], [];
      startLogs := logs;
      new;
      assert Moves(startLogs, InitSink(|startLogs|), [], logs, View());
    }

    // The fields have just made `step`, from `before`.
    ghost method Record(before: Sink, step: SinkStep)
      requires ConsumerRan(startLogs, own, logs, before)
      requires SinkEnabled(logs, before, step) && View() == SinkApply(logs, before, step)
      modifies this`own
      ensures Valid() && own == old(own) + [step]
    {
      RanOn(startLogs, own, logs, before, Own(step));
      own := own + [step];
    }

    // The process ends, whatever the loop was doing, and main starts a new one: the reader resumes at the committed
    // offsets, the metrics at zero.
    method Restart()
      requires Valid()
      modifies this`position, this`taken, this`consumed, this`errors, this`worker, this`own
      ensures Valid() && worker.Idle? && position == committed && taken == consumed == errors == 0
      ensures own == old(own) + [Crash]
    {
      ghost var before := View();
      position, taken, consumed, errors, worker := committed, 0, 0, 0, Idle;
      Record(before, Crash);
    }

    method Havoc()
      modifies this`logs, this`notifs, this`position
      ensures LogsGrow(old(logs), logs) && OnlyMarked(old(notifs), notifs)
      ensures position == old(position) || position == committed
    {
    }

    // Relays append to the logs, users mark notifications read, the reader is sent back to the committed offsets.
    method Meanwhile()
      requires Valid()
      modifies this`logs, this`notifs, this`position
      ensures Valid()
      ensures LogsGrow(old(logs), logs) && OnlyMarked(old(notifs), notifs)
      ensures position == old(position) || position == committed
    {
      ghost var before, logs0 := View(), logs;
      Havoc();
      RanOn(startLogs, own, logs0, before, Outside(logs, notifs, position));
      assert own + [] == own;
    }

    // Repo.Create: INSERT ... ON CONFLICT DO NOTHING; `inserted` is whether a row was affected.
    method Create(n: Notification, reply: Reply) returns (inserted: bool, err: bool)
      modifies this`notifs
      ensures var outcome := InsertOutcome(old(notifs), reply, n);
              (inserted <==> outcome.Inserted?) && (err <==> outcome.Refused? || outcome.InsertedUnheard?)
      ensures notifs == TableAfter(old(notifs), reply, n)
      ensures var stores := !reply.Failed? && n.slotStart < n.slotEnd && (n.bookingId, n.kind) !in old(notifs);
              && notifs == (if stores then old(notifs)[(n.bookingId, n.kind) := n] else old(notifs))
              && (inserted <==> stores && reply.Answered?) && (err <==> !reply.Answered? || n.slotEnd <= n.slotStart)
    {
      if reply.Failed? || n.slotEnd <= n.slotStart {
        return false, true;
      }
      if (n.bookingId, n.kind) in notifs {
        return false, !reply.Answered?;
      }
      notifs := notifs[(n.bookingId, n.kind) := n];
      return reply.Answered?, !reply.Answered?;
    }

    // Service.CreateFromEvent: unknown types are dropped, a fresh row is broadcast. Once the loop has counted the
    // message, with or without an error, these steps have been made.
    method CreateFromEvent(event: Event, turn: Turn) returns (err: bool, ghost inserted: bool)
      requires Valid() && SinkEnabled(logs, View(), Process(turn.reply, turn.id, turn.now))
      requires logs[worker.p][worker.off].value == Json(event)
      modifies this`logs, this`notifs, this`position, this`own, this`worker, this`broadcasts
      ensures event.eventType.OtherEvent? ==>
                !err && !inserted && notifs == old(notifs) && broadcasts == old(broadcasts)
      ensures !event.eventType.OtherEvent? ==>
                var n := Notification(turn.id, event.userId,
                                      if event.eventType.BookingCreated? then NotifCreated else NotifCancelled,
                                      event.bookingId, event.roomName, event.slotStart, event.slotEnd, false, turn.now);
                var outcome := InsertOutcome(old(notifs), turn.reply, n);
                && (inserted <==> outcome.Inserted?) && (err <==> outcome.Refused? || outcome.InsertedUnheard?)
                && OnlyMarked(TableAfter(old(notifs), turn.reply, n), notifs)
                && broadcasts == old(broadcasts) + if inserted then [n] else []
      ensures !worker.Idle? && worker.p == old(worker).p && worker.off == old(worker).off
      ensures own == old(own) + Processing(turn, inserted)
      ensures ConsumerRan(startLogs, own, logs, Done(View(), event, err))
      ensures LogsGrow(old(logs), logs) && OnlyNewId(old(notifs), notifs, turn.id)
    {
      inserted := false;
      ghost var before := View();
      var notifType: NotifType;
      match event.eventType {
        case BookingCreated => notifType := NotifCreated;
        case BookingCancelled => notifType := NotifCancelled;
        case OtherEvent(_) => {
          DroppedIsDone(logs, before, event, turn);
          RecordDone(before, event, turn, false);
          return false, false;
        }
      }
      var n := Notification(turn.id, event.userId, notifType, event.bookingId, event.roomName,
                            event.slotStart, event.slotEnd, false, turn.now);
      AnsweredIsDone(logs, before, event, notifType, turn);
      var affected;
      affected, err := Create(n, turn.reply);
      if affected {
        BroadcastStored(n, event, turn, before);
        inserted := true;
      } else {
        RecordDone(before, event, turn, err);
      }
    }

    ghost method RecordDone(before: Sink, event: Event, turn: Turn, err: bool)
      requires ConsumerRan(startLogs, own, logs, before)
      requires SinkEnabled(logs, before, Process(turn.reply, turn.id, turn.now)) && !worker.Idle?
      requires Done(View(), event, err) == SinkApply(logs, before, Process(turn.reply, turn.id, turn.now))
      modifies this`own
      ensures own == old(own) + Processing(turn, false)
      ensures ConsumerRan(startLogs, own, logs, Done(View(), event, err))
    {
      RanOn(startLogs, own, logs, before, Own(Process(turn.reply, turn.id, turn.now)));
      own := own + Processing(turn, false);
    }

    // The row is in; with anything in between it goes to the hub.
    method BroadcastStored(n: Notification, event: Event, turn: Turn, ghost before: Sink)
      requires ConsumerRan(startLogs, own, logs, before)
      requires SinkEnabled(logs, before, Process(turn.reply, turn.id, turn.now))
      requires View() == before.(notifs := notifs)
      requires View().(worker := Stored(worker.p, worker.off, n))
               == SinkApply(logs, before, Process(turn.reply, turn.id, turn.now))
      modifies this`logs, this`notifs, this`position, this`own, this`worker, this`broadcasts
      ensures LogsGrow(old(logs), logs) && OnlyMarked(old(notifs), notifs)
      ensures worker == Stored(old(worker).p, old(worker).off, n) && broadcasts == old(broadcasts) + [n]
      ensures own == old(own) + Processing(turn, true)
      ensures ConsumerRan(startLogs, own, logs, Done(View(), event, false))
    {
      ghost var own0 := own;
      worker := Stored(worker.p, worker.off, n);
      Record(before, Process(turn.reply, turn.id, turn.now));
      Meanwhile();
      assert own + [Broadcast] == own0 + Processing(turn, true);
      SentIsDone(startLogs, own, logs, View(), event);
      broadcasts := broadcasts + [n];
      own := own0 + Processing(turn, true);
    }

    // The branches of the loop body up to the commit.
    method Digest(value: Payload, turn: Turn) returns (ghost stored: bool)
      requires Valid() && SinkEnabled(logs, View(), Process(turn.reply, turn.id, turn.now))
      requires logs[worker.p][worker.off].value == value
      modifies this`logs, this`notifs, this`position, this`own, this`worker, this`broadcasts
      modifies this`skipped, this`consumed, this`errors
      ensures Valid() && worker == Finished(old(worker).p, old(worker).off)
      ensures own == old(own) + Processing(turn, stored)
      ensures LogsGrow(old(logs), logs) && OnlyNewId(old(notifs), notifs, turn.id)
    {
      ghost var before, process := View(), Process(turn.reply, turn.id, turn.now);
      stored := false;
      if value.Malformed? {
        errors := errors + 1;
        worker := Finished(worker.p, worker.off);
        Record(before, process);
        return;
      }
      stored := DigestEvent(value.event, turn);
    }

    method DigestEvent(event: Event, turn: Turn) returns (ghost stored: bool)
      requires Valid() && SinkEnabled(logs, View(), Process(turn.reply, turn.id, turn.now))
      requires logs[worker.p][worker.off].value == Json(event)
      modifies this`logs, this`notifs, this`position, this`own, this`worker, this`broadcasts
      modifies this`skipped, this`consumed, this`errors
      ensures Valid() && worker == Finished(old(worker).p, old(worker).off)
      ensures own == old(own) + Processing(turn, stored)
      ensures LogsGrow(old(logs), logs) && OnlyNewId(old(notifs), notifs, turn.id)
    {
      var failed;
      failed, stored := CreateFromEvent(event, turn);
      if failed {
        errors := errors + 1;
        skipped := skipped + {KeyOf(event, KindOf(event.eventType).value)};
      } else {
        consumed := consumed + 1;
      }
      worker := Finished(worker.p, worker.off);
    }

    // `CommitMessages` reports an error whether or not the offset has reached the broker.
    method CommitMessages(p: nat, off: nat, commit: Reply) returns (err: bool)
      requires Valid() && worker == Finished(p, off) && p < |committed|
      modifies this`committed, this`worker, this`own
      ensures Valid() && worker.Idle? && err == !commit.Answered?
      ensures committed == if commit.TakesEffect() then old(committed)[p := off + 1] else old(committed)
      ensures own == old(own) + [CommitStep(commit)]
    {
      ghost var before := View();
      if commit.TakesEffect() {
        committed := committed[p := off + 1];
      }
      worker := Idle;
      Record(before, CommitStep(commit));
      return !commit.Answered?;
    }

    method FetchMessage(p: nat) returns (msg: Message, off: nat)
      requires Valid() && worker.Idle? && p < |logs| && p < |position| && position[p] < |logs[p]|
      modifies this`position, this`taken, this`worker, this`own
      ensures Valid() && off == old(position)[p] && worker == Fetched(p, off)
      ensures off < |logs[p]| && msg == logs[p][off]
      ensures position == old(position)[p := off + 1] && taken == old(taken) + 1
      ensures own == old(own) + [Fetch(p)]
    {
      ghost var before := View();
      off := position[p];
      msg := logs[p][off];
      position := position[p := off + 1];
      taken := taken + 1;
      worker := Fetched(p, off);
      Record(before, Fetch(p));
    }

    lemma InRange()
      requires Valid()
      ensures SinkInv(logs, View())
    {
      RanKeepsSink(startLogs, own, logs, View());
    }

    lemma SizesAgree()
      requires Valid()
      ensures |position| == |committed| == |logs| && (!worker.Idle? ==> worker.p < |logs|)
    {
      InRange();
    }

    // The first half of a pass: the message at the reader's position is fetched and dealt with.
    method FetchAndDigest(turn: Turn) returns (off: nat, ghost stored: bool)
      requires Valid() && worker.Idle? && HasMessage(logs, View(), turn) && IdUnused(notifs, turn.id)
      modifies this`logs, this`position, this`notifs, this`taken, this`consumed, this`errors
      modifies this`worker, this`skipped, this`broadcasts, this`own
      ensures Valid() && worker == Finished(turn.p, off)
      ensures own == old(own) + BeforeCommit(turn, stored) && taken == old(taken) + 1
      ensures OnlyNewId(old(notifs), notifs, turn.id)
    {
      ghost var own0 := own;
      var msg;
      msg, off := FetchMessage(turn.p);
      ghost var n0 := notifs;
      Meanwhile();
      ghost var n1 := notifs;
      assert logs[turn.p][off] == msg;
      stored := Digest(msg.value, turn);
      NewIdThrough(n0, n1, notifs, notifs, turn.id);
      StepsInTurn(own0, turn, stored);
    }

    // One pass of the loop: these steps, in this order, whatever happens in between.
    method HandleNext(turn: Turn) returns (err: bool, ghost stored: bool)
      requires Valid() && worker.Idle? && HasMessage(logs, View(), turn) && IdUnused(notifs, turn.id)
      modifies this`logs, this`position, this`committed, this`notifs, this`taken, this`consumed, this`errors
      modifies this`worker, this`skipped, this`broadcasts, this`own
      ensures Valid() && worker.Idle? && err == !turn.commit.Answered?
      ensures own == old(own) + TurnSteps(turn, stored)
      ensures taken == old(taken) + 1
      ensures |position| == |committed| == |logs|
      ensures OnlyNewId(old(notifs), notifs, turn.id)
    {
      var off;
      ghost var n0 := notifs;
      off, stored := FetchAndDigest(turn);
      ghost var n1 := notifs;
      Meanwhile();
      NewIdThrough(n0, n0, n1, notifs, turn.id);
      SizesAgree();
      StepsInTurn(old(own), turn, stored);
      err := CommitMessages(turn.p, off, turn.commit);
    }

    // The two UPDATEs of the HTTP side, each one statement; `found` is whether a row was affected.
    method MarkAsRead(id: Uuid, user: Uuid) returns (found: bool)
      requires Valid()
      modifies this`notifs, this`own
      ensures Valid() && View() == SinkApply(logs, old(View()), SinkStep.MarkAsRead(id, user))
      ensures found <==> exists k :: k in old(notifs) && old(notifs)[k].id == id && old(notifs)[k].userId == user
      ensures notifs.Keys == old(notifs).Keys
      ensures forall k :: k in notifs ==>
                notifs[k] == if old(notifs)[k].id == id && old(notifs)[k].userId == user
                             then old(notifs)[k].(isRead := true)
                             else old(notifs)[k]
    {
      ghost var before := View();
      found := exists k :: k in notifs && Matches(notifs[k], Some(id), user);
      notifs := Read(notifs, Some(id), user);
      Record(before, SinkStep.MarkAsRead(id, user));
    }

    method MarkAllAsRead(user: Uuid)
      requires Valid()
      modifies this`notifs, this`own
      ensures Valid() && View() == SinkApply(logs, old(View()), SinkStep.MarkAllAsRead(user))
      ensures notifs.Keys == old(notifs).Keys
      ensures forall k :: k in notifs ==>
                notifs[k] == if old(notifs)[k].userId == user then old(notifs)[k].(isRead := true) else old(notifs)[k]
    {
      ghost var before := View();
      notifs := Read(notifs, None, user);
      Record(before, SinkStep.MarkAllAsRead(user));
    }

    /**
     The loop: one pass after the other. It ends with an error on the first failing fetch or the first commit that
     reports one, and without an error when the context is cancelled: while waiting for a message, or after the last
     turn. `stored` says in which passes a row was stored and broadcast.
     */
    method Run(turns: seq<Turn>) returns (err: bool, ghost stored: seq<bool>)
      requires Valid() && worker.Idle? && FreshTurns(notifs, turns, 0)
      modifies this
      ensures Valid() && worker.Idle? && SinkInv(logs, View())
      ensures taken - old(taken) == (consumed - old(consumed)) + (errors - old(errors))
      ensures |stored| <= |turns| && taken == old(taken) + |stored| && Ended(logs, View(), turns, |stored|, err)
      ensures own == old(own) + StepsOf(turns, stored, |stored|)
    {
      InRange();
      err, stored := Loop(turns);
      InRange();
    }

    method Loop(turns: seq<Turn>) returns (err: bool, ghost stored: seq<bool>)
      requires Valid() && worker.Idle? && FreshTurns(notifs, turns, 0) && |position| == |committed| == |logs|
      modifies this
      ensures Valid() && worker.Idle?
      ensures |stored| <= |turns| && taken == old(taken) + |stored| && Ended(logs, View(), turns, |stored|, err)
      ensures own == old(own) + StepsOf(turns, stored, |stored|)
    {
      err, stored := false, [];
      var more := true;
      ghost var first, own0 := taken, own;
      assert own0 == own0 + StepsOf(turns, [], 0);
      for i := 0 to |turns|
        invariant Valid() && worker.Idle? && |position| == |committed| == |logs|
        invariant more && !err && |stored| == i && taken == first + i && WentWell(turns, i)
        invariant own == own0 + StepsOf(turns, stored, i) && FreshTurns(notifs, turns, i)
      {
        more, err, stored := Iterate(turns, i, own0, stored);
        if !more {
          return;
        }
      }
    }

    method Iterate(turns: seq<Turn>, i: nat, ghost own0: seq<SinkStep>, ghost before: seq<bool>)
      returns (more: bool, err: bool, ghost stored: seq<bool>)
      requires Valid() && worker.Idle? && |position| == |committed| == |logs|
      requires i < |turns| && WentWell(turns, i) && FreshTurns(notifs, turns, i)
      requires |before| == i && own == own0 + StepsOf(turns, before, i)
      modifies this`logs, this`position, this`committed, this`notifs, this`taken, this`consumed, this`errors
      modifies this`worker, this`skipped, this`broadcasts, this`own
      ensures Valid() && worker.Idle? && |position| == |committed| == |logs|
      ensures i <= |stored| <= i + 1 && taken == old(taken) + |stored| - i
      ensures own == own0 + StepsOf(turns, stored, |stored|)
      ensures more ==> !err && |stored| == i + 1 && WentWell(turns, i + 1) && FreshTurns(notifs, turns, i + 1)
      ensures !more ==> Ended(logs, View(), turns, |stored|, err)
    {
      ghost var handled, flag;
      more, err, handled, flag := NextTurn(turns, i);
      stored := if handled then before + [flag] else before;
      if handled {
        OneMoreTurn(own0, turns, before, flag);
      }
      if !more {
        StopsHere(logs, View(), turns, i, handled, err);
      }
    }

    method NextTurn(turns: seq<Turn>, i: nat)
      returns (more: bool, err: bool, ghost handled: bool, ghost stored: bool)
      requires Valid() && worker.Idle? && |position| == |committed| == |logs|
      requires i < |turns| && FreshTurns(notifs, turns, i)
      modifies this`logs, this`position, this`committed, this`notifs, this`taken, this`consumed, this`errors
      modifies this`worker, this`skipped, this`broadcasts, this`own
      ensures Valid() && worker.Idle? && |position| == |committed| == |logs|
      ensures own == if handled then old(own) + TurnSteps(turns[i], stored) else old(own)
      ensures taken == old(taken) + if handled then 1 else 0
      ensures handled ==> turns[i].fetchOk && (more <==> turns[i].commit.Answered?) && err == !more
      ensures !handled ==> !more && (err <==> !turns[i].fetchOk)
      ensures !handled && !err ==> !HasMessage(logs, View(), turns[i])
      ensures more ==> FreshTurns(notifs, turns, i + 1)
    {
      handled, stored := false, false;
      ghost var before := notifs;
      Meanwhile();
      MarkedStayFresh(before, notifs, turns, i);
      var turn := turns[i];
      if !turn.fetchOk {
        return false, true, false, false;
      }
      if turn.p >= |logs| || position[turn.p] >= |logs[turn.p]| {
        return false, false, false, false;
      }
      before, handled := notifs, true;
      err, stored := HandleNext(turn);
      OtherIdsStayUnused(before, notifs, turns, i);
      more := !err;
    }
  }
}
