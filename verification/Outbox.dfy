/** E-mail about finished deployments (apps/backend/src/deploy/deploy-notifications.service.ts and the
  * notification rows of apps/backend/src/onboarding/users.repository.ts).
  *
  * Times are milliseconds. Every answer from outside, including the clock, is a parameter, and the process
  * may stop after any statement that touches the database.
  */
module Outbox {
  import opened Common

  type User = nat

  datatype Text = Text(text: string)
  datatype Key = Key(number: nat)
  datatype Payload = Payload(to: Text, login: Text, repo: Text, liveUrl: Text, digest: Text)
  datatype Slot = Slot(user: User, repo: Text, digest: Text)

  datatype Status = Pending | Sent | Expired
  datatype Row = Row(key: Key, payload: Payload, status: Status, first: Option<int>, next: int)

  /** One start of sending: what was about to be sent, and when. */
  datatype Attempt = Attempt(slot: Slot, key: Key, payload: Payload, at: int)

  const MINUTE := 60_000
  const HOUR := 60 * MINUTE
  const SPACING := 5 * MINUTE
  const WINDOW := 23 * HOUR
  const RETENTION := 24 * HOUR

  // ----- What the log and the table say about each other -----

  /** Two attempts for one slot: the same message, at least five minutes and less than 23 hours apart. */
  predicate Paired(a: Attempt, b: Attempt) {
    && (a.slot == b.slot ==> a.key == b.key && a.payload == b.payload && a.at + SPACING <= b.at < a.at + WINDOW)
    && (a.key == b.key ==> a.slot == b.slot)
  }

  /** The row knows of the attempt. */
  predicate Covers(slot: Slot, row: Row, a: Attempt) {
    && (a.slot == slot ==> a.key == row.key && a.payload == row.payload && row.first.Some? &&
                           row.first.value <= a.at < row.first.value + WINDOW && a.at + SPACING <= row.next)
    && (a.key == row.key ==> a.slot == slot)
  }

  ghost predicate PairedLog(log: seq<Attempt>) { forall i, j | 0 <= i < j < |log| :: Paired(log[i], log[j]) }

  ghost predicate RowsCover(rows: map<Slot, Row>, log: seq<Attempt>) {
    forall slot, i | slot in rows && 0 <= i < |log| :: Covers(slot, rows[slot], log[i])
  }

  ghost predicate TimesOrdered(rows: map<Slot, Row>) {
    forall slot | slot in rows && rows[slot].first.Some? :: rows[slot].first.value + SPACING <= rows[slot].next
  }

  ghost predicate KeysApart(rows: map<Slot, Row>) {
    forall s, t | s in rows && t in rows && s != t :: rows[s].key != rows[t].key
  }

  ghost predicate KeysIssued(rows: map<Slot, Row>, log: seq<Attempt>, issued: set<Key>) {
    && (forall slot | slot in rows :: rows[slot].key in issued)
    && (forall i | 0 <= i < |log| :: log[i].key in issued)
  }

  /** Only users who are gone have attempts without a row. */
  ghost predicate RowsStay(rows: map<Slot, Row>, log: seq<Attempt>, present: set<User>) {
    forall i | 0 <= i < |log| && log[i].slot.user in present :: log[i].slot in rows
  }

  ghost predicate Issued(rows: map<Slot, Row>, log: seq<Attempt>, present: set<User>, users: nat) {
    && (forall u | u in present :: u < users)
    && (forall i | 0 <= i < |log| :: log[i].slot.user < users)
  }

  /** What one visit of the notifier meets: whether the account was listed with an address and allowed,
    * the message if the deployment is found ready, the accounts deleted up to that moment, the clock, a new
    * key, where the process stops, if anywhere, whether the provider accepts, and the accounts deleted
    * while sending. */
  datatype Stop = Nowhere | AfterQueue | AfterStart
  datatype Visit = Visit(user: User, listed: bool, ready: Option<Payload>, deleted: set<User>, now: int, key: Key,
                         stop: Stop, accepted: bool, deletedLater: set<User>)

  /** The tables, and the attempts made so far. */
  datatype Tables = Tables(users: map<User, bool>, rows: map<Slot, Row>, lastNotified: map<User, Text>,
                           log: seq<Attempt>)

  function Forgotten(t: Tables, gone: set<User>): Tables {
    t.(users := t.users - gone, rows := t.rows - set slot | slot in t.rows && slot.user in gone)
  }

  /** The slot's row, made from the visit if there is none. */
  function RowFor(t: Tables, v: Visit): Row
    requires v.ready.Some?
  {
    if SlotOf(v) in t.rows then t.rows[SlotOf(v)] else Row(v.key, v.ready.value, Pending, None, 0)
  }

  function Attempted(row: Row, now: int): Row {
    row.(first := Some(if row.first.Some? then row.first.value else now), next := now + SPACING)
  }

  function Started(t: Tables, slot: Slot, row: Row, now: int): Tables {
    t.(rows := t.rows[slot := Attempted(row, now)], log := t.log + [Attempt(slot, row.key, row.payload, now)])
  }

  function Finished(t: Tables, slot: Slot, status: Status): Tables {
    t.(rows := if slot in t.rows then t.rows[slot := t.rows[slot].(status := status)] else t.rows,
       lastNotified := if status == Sent then t.lastNotified[slot.user := slot.digest] else t.lastNotified)
  }

  predicate TooLate(row: Row, now: int) { row.first.Some? && now - row.first.value >= WINDOW }

  /** The tables after what follows the queueing of a message. */
  function Sending(q: Tables, v: Visit, slot: Slot, row: Row): Tables {
    if v.stop == AfterQueue || row.status != Pending then q
    else if TooLate(row, v.now) then Finished(q, slot, Expired)
    else if row.next > v.now then q
    else if v.stop == AfterStart then Started(q, slot, row, v.now)
    else
      var a := Forgotten(Started(q, slot, row, v.now), v.deletedLater);
      if v.accepted && v.user in a.users then Finished(a, slot, Sent) else a
  }

  /** The tables after a visit. */
  function Visited(t: Tables, v: Visit): Tables {
    if !v.listed || v.ready.None? || (v.user in t.lastNotified && t.lastNotified[v.user] == v.ready.value.digest) then t
    else
      var s := Forgotten(t, v.deleted);
      if v.user !in s.users || !s.users[v.user] then s
      else
        var row := RowFor(s, v);
        Sending(s.(rows := s.rows[SlotOf(v) := row]), v, SlotOf(v), row)
  }

  /** Whether the process stops during the visit, after this much. */
  predicate Stops(t: Tables, v: Visit) {
    && v.listed && v.ready.Some? && !(v.user in t.lastNotified && t.lastNotified[v.user] == v.ready.value.digest)
    && var s := Forgotten(t, v.deleted);
       && v.user in s.users && s.users[v.user]
       && (v.stop == AfterQueue || (v.stop == AfterStart && RowDue(RowFor(s, v), v.now)))
  }

  function VisitedAll(t: Tables, visits: seq<Visit>): Tables
    decreases |visits|
  {
    if visits == [] then t
    else if Stops(t, visits[0]) then Visited(t, visits[0])
    else VisitedAll(Visited(t, visits[0]), visits[1..])
  }

  class Outbox {
    /** Accounts that are not deleted, and whether they are allowed; how many there ever were. */
    var users: map<User, bool>
    var rows: map<Slot, Row>
    var lastNotified: map<User, Text>
    var running: bool
    ghost var log: seq<Attempt>
    ghost var issued: set<Key>
    var accounts: nat

    ghost predicate Valid()
      reads this
    {
      && PairedLog(log) && RowsCover(rows, log) && TimesOrdered(rows)
      && KeysApart(rows) && KeysIssued(rows, log, issued)
      && RowsStay(rows, log, users.Keys) && Issued(rows, log, users.Keys, accounts)
    }

    ghost function View(): Tables
      reads this
    {
      Tables(users, rows, lastNotified, log)
    }

    constructor ()
      ensures Valid() && View() == Tables(map[], map[], map[], []) && !running && issued == {}
    {
      users, rows, lastNotified, running := map[], map[], map[], false;
      log, issued, accounts := [], {}, 0;
    }

    /** Numbers of accounts are never given twice. */
    method AddUser(allowed: bool) returns (user: User)
      requires Valid()
      modifies this
      ensures Valid() && log == old(log) && issued == old(issued) && rows == old(rows) && running == old(running)
      ensures lastNotified == old(lastNotified)
      ensures user !in old(users) && users == old(users)[user := allowed]
    {
      user := accounts;
      users := users[accounts := allowed];
      accounts := accounts + 1;
    }
  
    /** Deletion takes the notification rows along. */
    method SoftDelete(gone: set<User>)
      requires Valid()
      modifies this`users, this`rows
      ensures Valid()
      ensures View() == Forgotten(old(View()), gone)
    {
      users := users - gone;
      rows := rows - set slot | slot in rows && slot.user in gone;
    }

    /** The row of the slot, made on the first call and unchanged by later ones. */
    method Queue(slot: Slot, payload: Payload, key: Key) returns (row: Row)
      requires Valid() && key !in issued && slot.user in users
      modifies this`rows, this`issued
      ensures Valid()
      ensures slot in old(rows) ==> row == old(rows)[slot]
      ensures slot !in old(rows) ==> row == Row(key, payload, Pending, None, 0)
      ensures rows == old(rows)[slot := row] && issued == old(issued) + {key}
    {
      issued := issued + {key};
      if slot !in rows {
        rows := rows[slot := Row(key, payload, Pending, None, 0)];
      }
      row := rows[slot];
      assert rows == old(rows)[slot := row];
    }

    /** Marks an attempt before it is made. */
    method StartAttempt(slot: Slot, now: int)
      requires Valid() && slot in rows && slot.user in users && RowDue(rows[slot], now)
      modifies this`rows, this`log
      ensures Valid()
      ensures View() == Started(old(View()), slot, old(rows)[slot], now)
    {
      var row := rows[slot];
      rows := rows[slot := Attempted(row, now)];
      log := log + [Attempt(slot, row.key, row.payload, now)];
    }

    method Finish(slot: Slot, status: Status)
      requires Valid()
      modifies this`rows, this`lastNotified
      ensures Valid()
      ensures View() == Finished(old(View()), slot, status)
    {
      if slot in rows {
        rows := rows[slot := rows[slot].(status := status)];
      }
      if status == Sent {
        lastNotified := lastNotified[slot.user := slot.digest];
      }
    }
  
    /** One account's turn. */
    method Process(v: Visit) returns (stopped: bool)
      requires Valid() && v.key !in issued
      modifies this
      ensures Valid() && running == old(running)
      ensures issued <= old(issued) + {v.key}
      ensures View() == Visited(old(View()), v) && stopped == Stops(old(View()), v)
    {
      if !v.listed || v.ready.None? {
        return false;
      }
      var payload := v.ready.value;
      if v.user in lastNotified && lastNotified[v.user] == payload.digest {
        return false;
      }
      hide PairedLog, RowsCover, TimesOrdered, KeysApart, KeysIssued, RowsStay, Issued, Sending, RowDue;
      SoftDelete(v.deleted);
      if v.user !in users || !users[v.user] {
        return false;
      }
      var slot := Slot(v.user, payload.repo, payload.digest);
      var row := Queue(slot, payload, v.key);
      stopped := Send(v, slot, row);
    }

    /** What follows the queueing. */
    method Send(v: Visit, slot: Slot, row: Row) returns (stopped: bool)
      requires Valid() && slot in rows && rows[slot] == row && slot.user == v.user && v.user in users
      modifies this`users, this`rows, this`lastNotified, this`log
      ensures Valid()
      ensures View() == Sending(old(View()), v, slot, row)
      ensures stopped <==> v.stop == AfterQueue || (v.stop == AfterStart && RowDue(row, v.now))
    {
      hide PairedLog, RowsCover, TimesOrdered, KeysApart, KeysIssued, RowsStay, Issued, Finished, Attempted;
      if v.stop == AfterQueue {
        return true;
      }
      if row.status != Pending {
        return false;
      }
      if row.first.Some? && v.now - row.first.value >= WINDOW {
        Finish(slot, Expired);
        return false;
      }
      if row.next > v.now {
        return false;
      }
      StartAttempt(slot, v.now);
      if v.stop == AfterStart {
        return true;
      }
      SoftDelete(v.deletedLater);
      if v.accepted && v.user in users {
        Finish(slot, Sent);
      }
      return false;
    }

    /** A tick begins unless mail is off or another one has not ended. */
    method BeginTick(enabled: bool) returns (began: bool)
      requires Valid()
      modifies this`running
      ensures Valid() && View() == old(View()) && issued == old(issued)
      ensures began <==> enabled && !old(running)
      ensures running <==> old(running) || began
    {
      if running || !enabled {
        return false;
      }
      running := true;
      return true;
    }

    /** One tick: nothing while another one runs or mail is off; otherwise the accounts in turn, and no other tick
      * begins meanwhile. A process that stops starts again with the same tables. */
    method NotifyReadyDeployments(enabled: bool, visits: seq<Visit>)
      requires Valid() && FreshKeys(visits, issued)
      modifies this
      ensures Valid() && running == old(running) && PairedLog(log)
      ensures View() == if enabled && !running then VisitedAll(old(View()), visits) else old(View())
    {
      var began := BeginTick(enabled);
      if !began {
        return;
      }
      var i := 0;
      while i < |visits|
        invariant 0 <= i <= |visits|
        invariant running && Valid() && FreshKeys(visits[i..], issued)
        invariant VisitedAll(View(), visits[i..]) == VisitedAll(old(View()), visits)
      {
        assert visits[i..][0] == visits[i] && visits[i + 1..] == visits[i..][1..];
        var stopped := Process(visits[i]);
        i := i + 1;
        if stopped {
          break;
        }
      }
      running := false;
    }
  }

  predicate RowDue(row: Row, now: int) {
    row.status == Pending && row.next <= now && (row.first.Some? ==> now - row.first.value < WINDOW)
  }

  function SlotOf(v: Visit): Slot
    requires v.ready.Some?
  {
    Slot(v.user, v.ready.value.repo, v.ready.value.digest)
  }

  ghost predicate FreshKeys(visits: seq<Visit>, issued: set<Key>) {
    && (forall i | 0 <= i < |visits| :: visits[i].key !in issued)
    && (forall i, j | 0 <= i < j < |visits| :: visits[i].key != visits[j].key)
  }

  // ----- When a visit sends -----

  /** The account is still there and allowed, the message is not the last one announced, and its row, if
    * there is one, is pending, due and not too old. */
  predicate Due(t: Tables, v: Visit) {
    && v.listed && v.ready.Some? && v.stop != AfterQueue
    && !(v.user in t.lastNotified && t.lastNotified[v.user] == v.ready.value.digest)
    && v.user in t.users && v.user !in v.deleted && t.users[v.user]
    && RowDue(RowFor(t, v), v.now)
  }

  /** A visit makes an attempt exactly when it is due, and always with the slot's key and message. */
  lemma VisitSends(t: Tables, v: Visit)
    ensures Visited(t, v).log ==
      if Due(t, v) then t.log + [Attempt(SlotOf(v), RowFor(t, v).key, RowFor(t, v).payload, v.now)] else t.log
  {
    if v.ready.Some? && v.user !in v.deleted {
      assert RowFor(Forgotten(t, v.deleted), v) == RowFor(t, v);
    }
  }

  /** An accepted message is noted as sent, and is not sent again; one that is too old is given up. */
  lemma VisitSettles(t: Tables, v: Visit)
    ensures Due(t, v) && v.stop == Nowhere && v.accepted && v.user !in v.deletedLater ==>
      && SlotOf(v) in Visited(t, v).rows && Visited(t, v).rows[SlotOf(v)].status == Sent
      && v.user in Visited(t, v).lastNotified && Visited(t, v).lastNotified[v.user] == v.ready.value.digest
    ensures v.ready.Some? && SlotOf(v) in t.rows && SlotOf(v) in Visited(t, v).rows ==>
      t.rows[SlotOf(v)].status != Pending ==> Visited(t, v).rows[SlotOf(v)] == t.rows[SlotOf(v)]
    ensures Due(t, v) && !(v.stop == Nowhere && v.accepted) && SlotOf(v) in Visited(t, v).rows ==>
      Visited(t, v).rows[SlotOf(v)] == Attempted(RowFor(t, v), v.now)
  {
    if v.ready.Some? && v.user !in v.deleted {
      assert RowFor(Forgotten(t, v.deleted), v) == RowFor(t, v);
    }
  }

  /** From 23 hours after the first attempt on, a pending message is given up, and nothing is sent. */
  lemma VisitExpires(t: Tables, v: Visit)
    requires v.listed && v.ready.Some? && v.stop != AfterQueue
    requires v.user in t.users && t.users[v.user] && v.user !in v.deleted
    requires v.user in t.lastNotified ==> t.lastNotified[v.user] != v.ready.value.digest
    requires SlotOf(v) in t.rows && t.rows[SlotOf(v)].status == Pending && t.rows[SlotOf(v)].first.Some?
    requires v.now >= t.rows[SlotOf(v)].first.value + 23 * 60 * 60 * 1000
    ensures var was, now := t.rows[SlotOf(v)], Visited(t, v);
      && SlotOf(v) in now.rows && now.rows[SlotOf(v)] == was.(status := Expired)
      && now.log == t.log && now.lastNotified == t.lastNotified && now.users == t.users - v.deleted
  {
    assert RowFor(Forgotten(t, v.deleted), v) == RowFor(t, v);
  }

  // ----- How many attempts -----

  function AttemptsOf(log: seq<Attempt>, slot: Slot): seq<Attempt> {
    if log == [] then []
    else
      var last := log[|log| - 1];
      AttemptsOf(log[..|log| - 1], slot) + if last.slot == slot then [last] else []
  }

  lemma {:induction false} AttemptsPaired(log: seq<Attempt>, slot: Slot)
    requires PairedLog(log)
    ensures PairedLog(AttemptsOf(log, slot))
    ensures forall a :: a in AttemptsOf(log, slot) <==> a in log && a.slot == slot
  {
    if log != [] {
      var front, last := log[..|log| - 1], log[|log| - 1];
      AttemptsPaired(front, slot);
      assert log == front + [last];
      var r := AttemptsOf(front, slot);
      forall i | 0 <= i < |r| ensures Paired(r[i], last) {
        assert r[i] in front;
        var k :| 0 <= k < |front| && front[k] == r[i];
        assert Paired(log[k], log[|log| - 1]);
      }
    }
  }

  lemma {:induction false} Spaced(a: seq<Attempt>, slot: Slot)
    requires PairedLog(a) && a != [] && forall x | x in a :: x.slot == slot
    ensures a[|a| - 1].at >= a[0].at + SPACING * (|a| - 1)
  {
    if |a| > 1 {
      Spaced(a[..|a| - 1], slot);
      assert Paired(a[|a| - 2], a[|a| - 1]) && a[|a| - 2] in a && a[|a| - 1] in a;
    }
  }

  /** All attempts for one user, repository and image use one key and one message; any two are at least five minutes
    * and less than 23 hours apart, so that there are at most 276 of them. */
  lemma AttemptsBounded(log: seq<Attempt>, slot: Slot)
    requires PairedLog(log)
    ensures |AttemptsOf(log, slot)| <= 276
    ensures var r := AttemptsOf(log, slot);
      forall i, j | 0 <= i < j < |r| :: r[i].at + 5 * 60_000 <= r[j].at < r[i].at + 23 * 60 * 60_000
    ensures forall a, b | a in AttemptsOf(log, slot) && b in AttemptsOf(log, slot) ::
      a.key == b.key && a.payload == b.payload
  {
    var r := AttemptsOf(log, slot);
    AttemptsPaired(log, slot);
    forall a, b | a in r && b in r ensures a.key == b.key && a.payload == b.payload {
      assert a in log && b in log;
      SameMessage(a, b, log);
      hide *;
    }
    forall i, j | 0 <= i < j < |r| ensures r[i].at + SPACING <= r[j].at < r[i].at + WINDOW {
      assert r[i] in r && r[j] in r && Paired(r[i], r[j]);
      hide PairedLog;
    }
    if r != [] {
      Spaced(r, slot);
      assert |r| > 1 ==> r[0] in r && r[|r| - 1] in r && Paired(r[0], r[|r| - 1]);
    }
  }

  // ----- What the provider delivers -----

  datatype Arrival = Arrival(attempt: Attempt, at: int)

  /** The provider sends a message unless it has seen its key less than 24 hours ago. `kept` holds when each
    * key was last acted on. */
  function Deliver(arrivals: seq<Arrival>): (r: (map<Key, int>, seq<Arrival>)) {
    if arrivals == [] then (map[], [])
    else
      var last := arrivals[|arrivals| - 1];
      var (kept, sent) := Deliver(arrivals[..|arrivals| - 1]);
      if last.attempt.key in kept && last.at < kept[last.attempt.key] + RETENTION then (kept, sent)
      else (kept[last.attempt.key := last.at], sent + [last])
  }

  /** Requests in the order of their arrival, each at most `latency` after its attempt was noted. A request
    * may be lost, or arrive more than once. */
  ghost predicate Arrive(arrivals: seq<Arrival>, log: seq<Attempt>, latency: int) {
    && (forall i | 0 <= i < |arrivals| ::
      arrivals[i].attempt in log && arrivals[i].attempt.at <= arrivals[i].at <= arrivals[i].attempt.at + latency)
    && (forall i, j | 0 <= i < j < |arrivals| :: arrivals[i].at <= arrivals[j].at)
  }

  lemma {:induction false} KeptAre(arrivals: seq<Arrival>)
    ensures var (kept, sent) := Deliver(arrivals);
      && (forall k | k in kept ::
            exists i | 0 <= i < |arrivals| :: arrivals[i].attempt.key == k && arrivals[i].at == kept[k])
      && (forall x | x in sent :: x in arrivals && x.attempt.key in kept)
  {
    if arrivals != [] {
      var front := arrivals[..|arrivals| - 1];
      KeptAre(front);
      assert arrivals == front + [arrivals[|arrivals| - 1]];
    }
  }

  lemma Near(a: Attempt, b: Attempt, log: seq<Attempt>)
    requires PairedLog(log) && a in log && b in log && a.key == b.key
    ensures a.slot == b.slot && b.at < a.at + WINDOW
  {
    var i :| 0 <= i < |log| && log[i] == a;
    var j :| 0 <= j < |log| && log[j] == b;
    assert i < j ==> Paired(log[i], log[j]);
    assert j < i ==> Paired(log[j], log[i]);
  }

  /** If no request takes more than an hour to arrive, each message is delivered at most once, whatever was
    * lost, repeated or retried. */
  lemma {:induction false} DeliveredOnce(arrivals: seq<Arrival>, log: seq<Attempt>)
    requires PairedLog(log) && Arrive(arrivals, log, HOUR)
    ensures var sent := Deliver(arrivals).1;
      forall i, j | 0 <= i < j < |sent| :: sent[i].attempt.slot != sent[j].attempt.slot
  {
    if arrivals != [] {
      var front, last := arrivals[..|arrivals| - 1], arrivals[|arrivals| - 1];
      var (kept, sent) := Deliver(front);
      DeliveredOnce(front, log);
      KeptAre(front);
      if x :| x in sent && x.attempt.slot == last.attempt.slot {
        SameMessage(x.attempt, last.attempt, log);
        var k := last.attempt.key;
        var i :| 0 <= i < |front| && front[i].attempt.key == k && front[i].at == kept[k];
        Near(front[i].attempt, last.attempt, log);
        assert arrivals[i] == front[i];
        assert last.at < kept[k] + RETENTION;
      }
    }
  }

  lemma SameMessage(a: Attempt, b: Attempt, log: seq<Attempt>)
    requires PairedLog(log) && a in log && b in log && a.slot == b.slot
    ensures a.key == b.key && a.payload == b.payload
  {
    var i :| 0 <= i < |log| && log[i] == a;
    var j :| 0 <= j < |log| && log[j] == b;
    assert i < j ==> Paired(log[i], log[j]);
    assert j < i ==> Paired(log[j], log[i]);
  }

  /** The hour is exact: with one more millisecond on the way a second copy can be delivered. */
  lemma LateRequestDeliversTwice(slot: Slot, key: Key, payload: Payload)
    ensures var a, b := Attempt(slot, key, payload, 0), Attempt(slot, key, payload, WINDOW - 1);
      var arrivals := [Arrival(a, 0), Arrival(b, RETENTION)];
      PairedLog([a, b]) && Arrive(arrivals, [a, b], HOUR + 1) && Deliver(arrivals).1 == arrivals
  {
    var a, b := Attempt(slot, key, payload, 0), Attempt(slot, key, payload, WINDOW - 1);
    var log, first, second := [a, b], Arrival(a, 0), Arrival(b, RETENTION);
    var arrivals := [first, second];
    assert a in log && b in log;
    assert arrivals[0] == first && arrivals[1] == second;
    assert Arrive(arrivals, log, HOUR + 1);
    assert PairedLog(log);
    assert arrivals[..1] == [first] && [first][..0] == [];
    var none: seq<Arrival> := [];
    assert Deliver([first][..0]) == (map[], none);
    assert Deliver([first]) == (map[][key := 0], none + [first]);
    assert Deliver(arrivals).1 == [first, second];
  }

  /** An account's turn whose answer is lost. */
  function Unanswered(user: User, payload: Payload, now: int, key: Key): Visit {
    Visit(user, true, Some(payload), {}, now, key, Nowhere, false, {})
  }

  lemma TwoVisits(user: User, payload: Payload, key: Key, other: Key)
    ensures var t := Tables(map[user := true], map[], map[], []);
      var slot := Slot(user, payload.repo, payload.digest);
      Visited(Visited(t, Unanswered(user, payload, 0, key)), Unanswered(user, payload, WINDOW - 1, other)).log
      == [Attempt(slot, key, payload, 0), Attempt(slot, key, payload, WINDOW - 1)]
  {
    var slot := Slot(user, payload.repo, payload.digest);
    var t1 := Visited(Tables(map[user := true], map[], map[], []), Unanswered(user, payload, 0, key));
    assert t1.users == map[user := true] && t1.lastNotified == map[];
    assert t1.rows == map[slot := Row(key, payload, Pending, Some(0), SPACING)];
    assert t1.log == [Attempt(slot, key, payload, 0)];
  }

  /** Two turns make such a log: the first one's answer is lost, and the second one comes just before the
    * message is given up. */
  method DeliversTwice(payload: Payload, key: Key, other: Key) returns (outbox: Outbox, arrivals: seq<Arrival>)
    requires key != other
    ensures fresh(outbox) && outbox.Valid() && Arrive(arrivals, outbox.log, HOUR + 1)
    ensures Deliver(arrivals).1 == arrivals && |arrivals| == 2 && arrivals[0].attempt.slot == arrivals[1].attempt.slot
  {
    outbox := new Outbox();
    var user := outbox.AddUser(true);
    TwoVisits(user, payload, key, other);
    var slot := Slot(user, payload.repo, payload.digest);
    LateRequestDeliversTwice(slot, key, payload);
    hide Visited, Stops, Deliver, Arrive, PairedLog, RowsCover, TimesOrdered, KeysApart, KeysIssued, RowsStay, Issued;
    assert outbox.View() == Tables(map[user := true], map[], map[], []);
    var stopped := outbox.Process(Unanswered(user, payload, 0, key));
    stopped := outbox.Process(Unanswered(user, payload, WINDOW - 1, other));
    var first, second := Attempt(slot, key, payload, 0), Attempt(slot, key, payload, WINDOW - 1);
    arrivals := [Arrival(first, 0), Arrival(second, RETENTION)];
  }
}
