/** What becomes of one message over any sequence of drains. */
module OutboxRuns {
  import Grouping
  import opened Outbox

  /** The drain's due messages are part of the event; Possible says they are what its
      query finds. */
  datatype Event = Queue(id: int, userID: int, sendAfter: int) | Drain(limit: nat, due: seq<Due>, w: World)

  ghost predicate Possible(rows: Rows, e: Event) {
    match e
    case Queue(id, _, _) => id !in rows
    case Drain(limit, due, w) =>
      IsPending(rows, w.now, limit, due)
      && forall i :: 0 <= i < |due| ==> w.now <= w.sendAt(due[i].userID) <= w.markAt(due[i].id)
  }

  function After(rows: Rows, e: Event): Rows {
    match e
    case Queue(id, userID, sendAfter) => rows[id := Note(userID, sendAfter, 0, No, "")]
    case Drain(_, due, w) => Drained(rows, Ids(due), w)
  }

  function RowsAt(es: seq<Event>, k: nat): Rows
    requires k <= |es|
  {
    if k == 0 then map[] else After(RowsAt(es, k - 1), es[k - 1])
  }

  ghost predicate Run(es: seq<Event>) {
    forall k :: 0 <= k < |es| ==> Possible(RowsAt(es, k), es[k])
  }

  /** One send that carried the message. */
  datatype Attempt = Attempt(at: int, reply: Reply)

  function AttemptOf(rows: Rows, e: Event, id: int): seq<Attempt> {
    if e.Drain? && id in Ids(e.due) && id in rows
    then [Attempt(e.w.sendAt(rows[id].userID), e.w.reply(rows[id].userID))] else []
  }

  /** The sends that carried the message in the first k events. */
  function Attempts(es: seq<Event>, id: int, k: nat): seq<Attempt>
    requires k <= |es|
  {
    if k == 0 then [] else Attempts(es, id, k - 1) + AttemptOf(RowsAt(es, k - 1), es[k - 1], id)
  }

  /** How the row and the sends so far fit together. */
  ghost predicate Story(n: Note, tries: seq<Attempt>) {
    && |tries| == n.attempts + (if n.sentAt.No? then 0 else 1) && |tries| <= MAX_ATTEMPTS
    && (forall i :: 0 <= i < |tries| - 1 ==> tries[i].reply.Failed?)
    && (forall i :: 0 <= i < |tries| - 1 ==> tries[i].at + Backoff(i) <= tries[i + 1].at)
    && (n.sentAt.No? && tries != [] ==>
         Last(tries).reply.Failed? && Last(tries).at + Backoff(|tries| - 1) <= n.sendAfter)
    && (n.sentAt.No? ==> |tries| < MAX_ATTEMPTS)
    && (n.sentAt.At? && Last(tries).reply.Failed? ==> |tries| == MAX_ATTEMPTS)
    && n.lastError == LastReason(tries)
  }

  /** What the last send that did not deliver said. */
  function LastReason(tries: seq<Attempt>): string {
    if tries == [] then ""
    else
      match Last(tries).reply
      case Delivered => LastReason(tries[..|tries| - 1])
      case Undeliverable(why) => why
      case Failed(why) => why
  }

  function Last(tries: seq<Attempt>): Attempt
    requires tries != []
  {
    tries[|tries| - 1]
  }

  lemma OneDrain(rows: Rows, e: Event, id: int, tries: seq<Attempt>)
    requires Possible(rows, e) && e.Drain? && id in rows && Story(rows[id], tries)
    ensures id in After(rows, e) && Story(After(rows, e)[id], tries + AttemptOf(rows, e, id))
    ensures rows[id].sentAt.At? ==> AttemptOf(rows, e, id) == []
  {
    hide Backoff;
    var n, w := rows[id], e.w;
    if id in Ids(e.due) {
      var d :| d in e.due && d.id == id;
      var i :| 0 <= i < |e.due| && e.due[i] == d;
      assert IsDue(n, w.now);
      var try := Attempt(w.sendAt(n.userID), w.reply(n.userID));
      assert tries + AttemptOf(rows, e, id) == tries + [try];
      OneMoreTry(n, tries, try, w.now, w.markAt(id));
    } else {
      assert tries + [] == tries;
    }
  }

  lemma OneMoreTry(n: Note, tries: seq<Attempt>, try: Attempt, now: int, marked: int)
    requires Story(n, tries) && IsDue(n, now) && now <= try.at <= marked
    ensures Story(Settle(n, n.attempts, try.reply, marked), tries + [try])
  {
    hide Backoff;
    assert (tries + [try])[..|tries|] == tries;
  }

  lemma {:induction false} EveryRowHasItsStory(es: seq<Event>, id: int, k: nat)
    requires k <= |es| && Run(es)
    ensures id !in RowsAt(es, k) ==> Attempts(es, id, k) == []
    ensures id in RowsAt(es, k) ==> Story(RowsAt(es, k)[id], Attempts(es, id, k))
  {
    hide Story, Possible, After, AttemptOf;
    if k > 0 {
      EveryRowHasItsStory(es, id, k - 1);
      assert Possible(RowsAt(es, k - 1), es[k - 1]);
      OneEvent(RowsAt(es, k - 1), es[k - 1], id, Attempts(es, id, k - 1));
    }
  }

  lemma OneEvent(rows: Rows, e: Event, id: int, tries: seq<Attempt>)
    requires Possible(rows, e)
    requires if id in rows then Story(rows[id], tries) else tries == []
    ensures var tries1 := tries + AttemptOf(rows, e, id);
            if id in After(rows, e) then Story(After(rows, e)[id], tries1) else tries1 == []
  {
    hide Backoff;
    if e.Drain? && id in rows {
      OneDrain(rows, e, id, tries);
    } else {
      assert tries + [] == tries;
    }
  }

  /** Failures among the sends. */
  function Failures(tries: seq<Attempt>): nat {
    if tries == [] then 0 else Failures(tries[..|tries| - 1]) + if Last(tries).reply.Failed? then 1 else 0
  }

  lemma {:induction false} AllFailed(tries: seq<Attempt>)
    requires forall i :: 0 <= i < |tries| ==> tries[i].reply.Failed?
    ensures Failures(tries) == |tries|
  {
    if tries != [] {
      AllFailed(tries[..|tries| - 1]);
    }
  }

  /** Waits add up: the last of n failed tries is at least 60 * (2^n' - 1) seconds
      after the first, n' counting the waits. */
  lemma {:induction false} WaitsAddUp(tries: seq<Attempt>, n: nat)
    requires n < |tries| <= MAX_ATTEMPTS
    requires forall i :: 0 <= i < |tries| - 1 ==> tries[i].at + Backoff(i) <= tries[i + 1].at
    ensures tries[0].at + 60 * (Power2(n) - 1) <= tries[n].at
  {
    if n > 0 {
      WaitsAddUp(tries, n - 1);
      assert tries[n - 1].at + Backoff(n - 1) <= tries[n].at;
    }
  }

  /** Whatever drains do, a message is delivered at most once and then never tried
      again; it is tried at most eight times; its counter is its failures, but for the
      last of a message given up on; it is closed exactly when delivered, refused or
      failed eight times, and in that last case no sooner than 127 minutes after its
      first try. */
  lemma FateOfAMessage(es: seq<Event>, id: int, k: nat)
    requires k <= |es| && Run(es) && id in RowsAt(es, k)
    ensures var n, tries := RowsAt(es, k)[id], Attempts(es, id, k);
            && |tries| <= MAX_ATTEMPTS
            && (forall i :: 0 <= i < |tries| - 1 ==> tries[i].reply.Failed?)
            && n.attempts == Failures(tries) - (if |tries| == MAX_ATTEMPTS && Last(tries).reply.Failed? then 1 else 0)
            && (n.sentAt.At? <==> tries != [] && (!Last(tries).reply.Failed? || |tries| == MAX_ATTEMPTS))
            && (n.sentAt.At? && Last(tries).reply.Failed? ==> tries[0].at + 127 * 60 <= Last(tries).at)
            && n.lastError == LastReason(tries)
  {
    hide Backoff;
    EveryRowHasItsStory(es, id, k);
    var n, tries := RowsAt(es, k)[id], Attempts(es, id, k);
    if tries != [] {
      AllFailed(tries[..|tries| - 1]);
      if |tries| == MAX_ATTEMPTS {
        WaitsAddUp(tries, 7);
        assert Power2(7) == 128;
      }
    }
  }

  /** A closed message stays as it is and is never sent again. */
  lemma {:induction false} ClosedForGood(es: seq<Event>, id: int, k: nat, later: nat)
    requires k <= later <= |es| && Run(es) && id in RowsAt(es, k) && RowsAt(es, k)[id].sentAt.At?
    ensures id in RowsAt(es, later) && RowsAt(es, later)[id] == RowsAt(es, k)[id]
    ensures Attempts(es, id, later) == Attempts(es, id, k)
  {
    hide Possible, After, AttemptOf;
    if k < later {
      ClosedForGood(es, id, k, later - 1);
      assert Possible(RowsAt(es, later - 1), es[later - 1]);
      ClosedStays(RowsAt(es, later - 1), es[later - 1], id);
    }
  }

  lemma ClosedStays(rows: Rows, e: Event, id: int)
    requires Possible(rows, e) && id in rows && rows[id].sentAt.At?
    ensures id in After(rows, e) && After(rows, e)[id] == rows[id] && AttemptOf(rows, e, id) == []
  {
    hide IsPending, Settle;
    if e.Drain? {
      ClosedIsNotDue(rows, e.w.now, e.limit, e.due, id);
    }
  }

  lemma ClosedIsNotDue(rows: Rows, now: int, limit: nat, due: seq<Due>, id: int)
    requires IsPending(rows, now, limit, due) && id in rows && rows[id].sentAt.At?
    ensures id !in Ids(due)
  {
  }

  /** A drain passes over a due message only when its limit went to earlier ones. */
  lemma DueIsTried(rows: Rows, e: Event, id: int)
    requires e.Drain? && Possible(rows, e) && id in rows && rows[id].sentAt.No? && rows[id].sendAfter <= e.w.now
    ensures AttemptOf(rows, e, id) != [] <==> HasDue(e.due, id)
    ensures AttemptOf(rows, e, id) == [] ==> |e.due| == e.limit && forall d :: d in e.due ==> d.id < id
  {
    if HasDue(e.due, id) {
      var i :| 0 <= i < |e.due| && e.due[i].id == id;
      assert e.due[i] in e.due;
    }
  }

  // --------------------------------------------------------- what one drain reports --

  /** Due messages whose user's send delivered. */
  function DeliveredIn(due: seq<Due>, w: World): nat {
    if due == [] then 0
    else DeliveredIn(due[..|due| - 1], w) + if w.reply(due[|due| - 1].userID).Delivered? then 1 else 0
  }

  /** The same, user by user. */
  function DeliveredTo(due: seq<Due>, users: seq<int>, w: World): nat {
    if users == [] then 0
    else
      var u := users[|users| - 1];
      DeliveredTo(due, users[..|users| - 1], w)
      + if w.reply(u).Delivered? then |Grouping.Pick(Keyed(due), u)| else 0
  }

  lemma {:induction false} SumIsByUser(due: seq<Due>, w: World, n: nat)
    requires n <= |Grouping.Keys(Keyed(due))|
    ensures Sum(SendsOf(due, n), w, n) == DeliveredTo(due, Grouping.Keys(Keyed(due))[..n], w)
  {
    hide Grouping.Keys, Grouping.Pick, Keyed, Sum;
    if n > 0 {
      SumIsByUser(due, w, n - 1);
      NextSend(due, n - 1, w, map[]);
      var users := Grouping.Keys(Keyed(due));
      assert users[..n][..n - 1] == users[..n - 1];
    } else {
      NoneSent(due, w, map[]);
    }
  }

  /** One more message counts for its own user alone. */
  lemma {:induction false} OneMoreFor(due: seq<Due>, d: Due, users: seq<int>, w: World)
    requires forall i, j :: 0 <= i < j < |users| ==> users[i] != users[j]
    ensures DeliveredTo(due + [d], users, w)
         == DeliveredTo(due, users, w) + if d.userID in users && w.reply(d.userID).Delivered? then 1 else 0
  {
    hide Grouping.Pick, Keyed;
    if users != [] {
      var init, u := users[..|users| - 1], users[|users| - 1];
      OneMoreFor(due, d, init, w);
      KeyedAppend(due, d);
      Grouping.Append(Keyed(due), (d.userID, d));
      assert users == init + [u];
      assert u !in init;
    }
  }

  lemma KeyedAppend(due: seq<Due>, d: Due)
    ensures Keyed(due + [d]) == Keyed(due) + [(d.userID, d)]
  {
  }

  lemma {:induction false} EachCountedOnce(due: seq<Due>, w: World)
    ensures DeliveredTo(due, Grouping.Keys(Keyed(due)), w) == DeliveredIn(due, w)
  {
    hide Grouping.Pick, Grouping.Keys, Keyed;
    if due == [] {
      NobodyDue(w);
    } else {
      var init, d := due[..|due| - 1], due[|due| - 1];
      EachCountedOnce(init, w);
      assert due == init + [d];
      KeyedAppend(init, d);
      Grouping.Append(Keyed(init), (d.userID, d));
      var users := Grouping.Keys(Keyed(init));
      Grouping.KeysAreDistinct(Keyed(init));
      OneMoreFor(init, d, users, w);
      if d.userID !in users {
        Grouping.KeysAreTheItemsKeys(Keyed(init), d.userID);
        Grouping.Append(Keyed(init), (d.userID, d));
        assert (users + [d.userID])[..|users|] == users;
      }
    }
  }

  lemma NobodyDue(w: World)
    ensures DeliveredTo([], Grouping.Keys(Keyed([])), w) == 0
  {
  }

  /** A drain reports as sent exactly the due messages whose user's send delivered. */
  lemma SentIsDelivered(due: seq<Due>, w: World)
    ensures var sends := SendsOf(due, |Grouping.Keys(Keyed(due))|); Sum(sends, w, |sends|) == DeliveredIn(due, w)
  {
    hide Grouping.Keys, Keyed, Sum, DeliveredTo, DeliveredIn;
    var users := Grouping.Keys(Keyed(due));
    assert users[..|users|] == users;
    SumIsByUser(due, w, |users|);
    EachCountedOnce(due, w);
  }

  /** A user is known reachable after a drain that delivered to them, and unreachable after
      one that could not; a failure, or no send, says nothing new of them. */
  lemma ReachableExactlyWhen(due: seq<Due>, w: World, before: map<int, bool>, u: int)
    ensures var sends := SendsOf(due, |Grouping.Keys(Keyed(due))|);
            var after := Reached(before, sends, w, |sends|);
            var tried := exists i :: 0 <= i < |due| && due[i].userID == u;
            if tried && !w.reply(u).Failed? then u in after && after[u] == w.reply(u).Delivered?
            else (u in after <==> u in before) && (u in after ==> after[u] == before[u])
  {
    hide Grouping.Keys, Grouping.Pick, Keyed, Reached;
    var users := Grouping.Keys(Keyed(due));
    ReachedUsers(due, w, before, |users|, u);
    assert users[..|users|] == users;
    Grouping.KeysAreTheItemsKeys(Keyed(due), u);
    UserIsTried(due, u);
  }

  lemma UserIsTried(due: seq<Due>, u: int)
    ensures Grouping.HasKey(Keyed(due), u) <==> exists i :: 0 <= i < |due| && due[i].userID == u
  {
    if i :| 0 <= i < |due| && due[i].userID == u {
      assert Keyed(due)[i].0 == u;
    }
  }

  lemma {:induction false} ReachedUsers(due: seq<Due>, w: World, before: map<int, bool>, n: nat, u: int)
    requires n <= |Grouping.Keys(Keyed(due))|
    ensures var after := Reached(before, SendsOf(due, n), w, n);
            if u in Grouping.Keys(Keyed(due))[..n] && !w.reply(u).Failed?
              then u in after && after[u] == w.reply(u).Delivered?
            else (u in after <==> u in before) && (u in after ==> after[u] == before[u])
  {
    hide Grouping.Keys, Grouping.Pick, Keyed, Reached;
    if n > 0 {
      ReachedUsers(due, w, before, n - 1, u);
      NextSend(due, n - 1, w, before);
      var users := Grouping.Keys(Keyed(due));
      assert users[..n] == users[..n - 1] + [users[n - 1]];
    } else {
      NoneSent(due, w, before);
    }
  }
}
