/** The outbox and its drainer (internal/notify/notify.go, internal/store/queries.go):
    due messages go out grouped by user, and one that fails is tried again later or
    given up. Times are whole seconds. */
module Outbox {
  import Grouping
  import Sets

  const MAX_ATTEMPTS := 8

  datatype Closed = No | At(time: int)

  /** A message is open until it has been sent or dropped. */
  datatype Note = Note(userID: int, sendAfter: int, attempts: nat, sentAt: Closed, lastError: string)
  type Rows = map<int, Note>

  /** A due message as the drain's query read it. */
  datatype Due = Due(id: int, userID: int, attempts: nat)

  predicate IsDue(n: Note, now: int) {
    n.sentAt.No? && n.sendAfter <= now
  }

  function DueOf(rows: Rows, id: int): Due
    requires id in rows
  {
    Due(id, rows[id].userID, rows[id].attempts)
  }

  ghost predicate HasDue(due: seq<Due>, id: int) {
    exists i :: 0 <= i < |due| && due[i].id == id
  }

  ghost predicate Ascending(due: seq<Due>) {
    forall i, j :: 0 <= i < j < |due| ==> due[i].id < due[j].id
  }

  /** The first `limit` due messages by id. */
  ghost predicate IsPending(rows: Rows, now: int, limit: nat, due: seq<Due>) {
    && Ascending(due) && |due| <= limit
    && (forall i :: 0 <= i < |due| ==>
         due[i].id in rows && due[i] == DueOf(rows, due[i].id) && IsDue(rows[due[i].id], now))
    && (forall id :: id in rows && IsDue(rows[id], now) && !HasDue(due, id) ==>
          |due| == limit && (limit > 0 ==> due[limit - 1].id < id))
  }

  /** Minutes a failure waits, by the failures before it. */
  function Backoff(attempts: nat): nat {
    60 * Power2(if attempts < 6 then attempts else 6)
  }

  function Power2(n: nat): nat {
    if n == 0 then 1 else 2 * Power2(n - 1)
  }

  class Store {
    var rows: Rows
    var reachable: map<int, bool>

    constructor ()
      ensures rows == map[] && reachable == map[]
    {
      rows, reachable := map[], map[];
    }

    /** SELECT … WHERE sent_at IS NULL AND send_after <= now ORDER BY id LIMIT limit. */
    method PendingNotifications(now: int, limit: nat) returns (due: seq<Due>)
      ensures IsPending(rows, now, limit, due)
    {
      due := [];
      var left := set id | id in rows && IsDue(rows[id], now);
      while left != {} && |due| < limit
        invariant |due| <= limit && Ascending(due)
        invariant forall id :: id in left ==> id in rows && IsDue(rows[id], now)
        invariant forall i :: 0 <= i < |due| ==>
          due[i].id in rows && due[i] == DueOf(rows, due[i].id) && IsDue(rows[due[i].id], now)
        invariant forall i, id :: 0 <= i < |due| && id in left ==> due[i].id < id
        invariant forall id :: id in rows && IsDue(rows[id], now) ==> id in left || HasDue(due, id)
        decreases left
      {
        var id := Least(left);
        ghost var was := due;
        due := due + [DueOf(rows, id)];
        left := left - {id};
        assert due[|was|].id == id;
        forall q | HasDue(was, q) ensures HasDue(due, q) {
          var i :| 0 <= i < |was| && was[i].id == q;
          assert due[i].id == q;
        }
      }
    }

    method MarkNotificationSent(id: int, now: int)
      modifies this`rows
      ensures rows == if id in old(rows) then old(rows)[id := old(rows)[id].(sentAt := At(now))] else old(rows)
    {
      if id in rows {
        rows := rows[id := rows[id].(sentAt := At(now))];
      }
    }

    method MarkNotificationFailed(id: int, attempts: nat, reason: string, now: int)
      modifies this`rows
      ensures rows == if id in old(rows) then old(rows)[id := Retried(old(rows)[id], attempts, reason, now)]
        else old(rows)
    {
      var backoff := Backoff(attempts);
      if id in rows {
        var n := rows[id];
        rows := rows[id := n.(attempts := n.attempts + 1, lastError := reason, sendAfter := now + backoff)];
      }
    }

    method DropNotification(id: int, reason: string, now: int)
      modifies this`rows
      ensures rows == if id in old(rows) then old(rows)[id := old(rows)[id].(sentAt := At(now), lastError := reason)]
        else old(rows)
    {
      if id in rows {
        rows := rows[id := rows[id].(sentAt := At(now), lastError := reason)];
      }
    }

    method SetDMStatus(userID: int, ok: bool)
      modifies this`reachable
      ensures reachable == old(reachable)[userID := ok]
    {
      reachable := reachable[userID := ok];
    }
  }

  method Least(s: set<int>) returns (m: int)
    requires s != {}
    ensures m in s && forall x :: x in s ==> m <= x
  {
    m := Sets.Choose(s);
    var left := s - {m};
    while left != {}
      invariant m in s && left <= s
      invariant forall x :: x in s && x !in left ==> m <= x
    {
      var x := Sets.Choose(left);
      if x < m {
        m := x;
      }
      left := left - {x};
    }
  }

  function Retried(n: Note, attempts: nat, reason: string, now: int): Note {
    n.(attempts := n.attempts + 1, lastError := reason, sendAfter := now + Backoff(attempts))
  }

  // ------------------------------------------------------------------ one drain --

  datatype Reply = Delivered | Undeliverable(reason: string) | Failed(reason: string)

  /** What a drain meets: the time its query runs, and for each user what sending to
      them comes to and when, and for each message when its row is marked. */
  datatype World = World(now: int, reply: int -> Reply, sendAt: int -> int, markAt: int -> int)

  /** Where one message's row goes when its user's send comes to this. */
  function Settle(n: Note, read: nat, reply: Reply, now: int): Note {
    match reply
    case Delivered => n.(sentAt := At(now))
    case Undeliverable(why) => n.(sentAt := At(now), lastError := why)
    case Failed(why) =>
      if read + 1 >= MAX_ATTEMPTS then n.(sentAt := At(now), lastError := why) else Retried(n, read, why, now)
  }

  /** The rows with those of the given ids settled by their user's reply. */
  function Drained(rows: Rows, ids: set<int>, w: World): Rows {
    map id | id in rows ::
      if id in ids then Settle(rows[id], rows[id].attempts, w.reply(rows[id].userID), w.markAt(id)) else rows[id]
  }

  function Ids(due: seq<Due>): set<int> {
    set d | d in due :: d.id
  }

  /** Due messages keyed by their user. */
  function Keyed(due: seq<Due>): seq<(int, Due)> {
    seq(|due|, i requires 0 <= i < |due| => (due[i].userID, due[i]))
  }

  /** One message sent to a user, and the notifications it carried. */
  datatype Send = Send(userID: int, group: seq<Due>)

  /** The sends of one drain: one to each user with something due, in order of first
      appearance, carrying all of theirs in order. */
  function SendsOf(due: seq<Due>, n: nat): (sends: seq<Send>)
    requires n <= |Grouping.Keys(Keyed(due))|
    ensures |sends| == n
    ensures forall i :: 0 <= i < n ==>
      sends[i] == Send(Grouping.Keys(Keyed(due))[i], Grouping.Pick(Keyed(due), Grouping.Keys(Keyed(due))[i]))
  {
    if n == 0 then []
    else
      var user := Grouping.Keys(Keyed(due))[n - 1];
      SendsOf(due, n - 1) + [Send(user, Grouping.Pick(Keyed(due), user))]
  }

  predicate Carries(s: Send, d: Due) {
    s.userID == d.userID && d in s.group
  }

  ghost predicate CarriedOnce(sends: seq<Send>, d: Due) {
    && (exists n :: 0 <= n < |sends| && Carries(sends[n], d))
    && (forall n :: 0 <= n < |sends| && d in sends[n].group ==> sends[n].userID == d.userID)
    && (forall n, m :: 0 <= n < m < |sends| ==> sends[n].userID != sends[m].userID)
  }

  /** Each due message goes into exactly one send, to its own user, and no send carries
      anything else; no user is sent to twice. */
  lemma OneSendForEach(due: seq<Due>, i: nat)
    requires i < |due|
    ensures CarriedOnce(SendsOf(due, |Grouping.Keys(Keyed(due))|), due[i])
  {
    hide Keyed, Grouping.Pick, Grouping.Keys;
    var users := Grouping.Keys(Keyed(due));
    var sends := SendsOf(due, |users|);
    UserIsAKey(due, i);
    Grouping.KeysAreDistinct(Keyed(due));
    var n :| 0 <= n < |users| && users[n] == due[i].userID;
    PickedAre(due, users[n], due[i]);
    assert Carries(sends[n], due[i]);
    forall m | 0 <= m < |sends| && due[i] in sends[m].group ensures sends[m].userID == due[i].userID {
      PickedAre(due, users[m], due[i]);
    }
  }

  lemma UserIsAKey(due: seq<Due>, i: nat)
    requires i < |due|
    ensures due[i].userID in Grouping.Keys(Keyed(due))
  {
    assert Keyed(due)[i].0 == due[i].userID;
    Grouping.KeysAreTheItemsKeys(Keyed(due), due[i].userID);
  }

  class Notifier {
    const store: Store

    constructor (store: Store)
      ensures this.store == store
    {
      this.store := store;
    }

    /** How many notifications went out, and the sends that were made for which due
        messages. */
    method DrainOnce(limit: nat, w: World) returns (sent: nat, sends: seq<Send>, due: seq<Due>)
      modifies store
      ensures IsPending(old(store.rows), w.now, limit, due)
      ensures sends == SendsOf(due, |Grouping.Keys(Keyed(due))|)
      ensures store.rows == Drained(old(store.rows), Ids(due), w)
      ensures sent == Sum(sends, w, |sends|)
      ensures store.reachable == Reached(old(store.reachable), sends, w, |sends|)
    {
      hide IsPending, Drained, Settle, Grouping.Keys, Grouping.Pick, Keyed, IdsOfUsers, SendsOf, Sum, Reached;
      sent, sends := 0, [];
      due := store.PendingNotifications(w.now, limit);
      PendingFacts(store.rows, w.now, limit, due);
      ghost var rows := store.rows;
      var byUser, order := GroupByUser(due);
      Grouping.KeysAreDistinct(Keyed(due));
      NoneDrained(rows, due, w);
      NoneSent(due, w, store.reachable);
      for n := 0 to |order|
        invariant sends == SendsOf(due, n)
        invariant sent == Sum(sends, w, n) && store.reachable == Reached(old(store.reachable), sends, w, n)
        invariant store.rows == Drained(rows, IdsOfUsers(due, order[..n]), w)
      {
        var userID := order[n];
        var group := byUser[userID];
        var reply := w.reply(userID);
        NextSend(due, n, w, old(store.reachable));
        sends := sends + [Send(userID, group)];
        SettleGroup(group, reply, w, rows, due, order, n);
        sent := if reply.Delivered? then sent + |group| else sent;
        if !reply.Failed? {
          store.SetDMStatus(userID, reply.Delivered?);
        }
      }
      assert order[..|order|] == order;
      AllUsersDone(due);
    }

    method GroupByUser(due: seq<Due>) returns (byUser: map<int, seq<Due>>, order: seq<int>)
      ensures byUser == Grouping.Groups(Keyed(due)) && order == Grouping.Keys(Keyed(due))
    {
      byUser, order := map[], [];
      for n := 0 to |due|
        invariant byUser == Grouping.Groups(Keyed(due[..n])) && order == Grouping.Keys(Keyed(due[..n]))
      {
        byUser, order := Grouping.Put(byUser, order, due[n].userID, due[n], Keyed(due[..n]));
        assert Keyed(due[..n + 1]) == Keyed(due[..n]) + [(due[n].userID, due[n])];
      }
      assert due[..|due|] == due;
    }

    /** One user's messages marked after the send to them. */
    method SettleGroup(
      group: seq<Due>, reply: Reply, w: World, ghost rows: Rows, ghost due: seq<Due>, ghost order: seq<int>,
      ghost n: nat)
      requires order == Grouping.Keys(Keyed(due)) && n < |order|
      requires group == Grouping.Pick(Keyed(due), order[n]) && reply == w.reply(order[n])
      requires Ascending(due) && forall d :: d in due ==> d.id in rows && d == DueOf(rows, d.id)
      requires store.rows == Drained(rows, IdsOfUsers(due, order[..n]), w)
      modifies store`rows
      ensures store.rows == Drained(rows, IdsOfUsers(due, order[..n + 1]), w)
    {
      hide Drained, Grouping.Keys, Grouping.Pick, Keyed, IdsOfUsers, Ascending;
      ghost var done := IdsOfUsers(due, order[..n]);
      assert done + Ids(group[..0]) == done;
      for j := 0 to |group|
        invariant store.rows == Drained(rows, done + Ids(group[..j]), w)
      {
        var m := group[j];
        OneMoreSettled(rows, due, order, n, j, w);
        match reply
        case Delivered => store.MarkNotificationSent(m.id, w.markAt(m.id));
        case Undeliverable(why) => store.DropNotification(m.id, why, w.markAt(m.id));
        case Failed(why) =>
          if m.attempts + 1 >= MAX_ATTEMPTS {
            store.DropNotification(m.id, why, w.markAt(m.id));
          } else {
            store.MarkNotificationFailed(m.id, m.attempts, why, w.markAt(m.id));
          }
      }
      assert group[..|group|] == group;
      GroupIsItsUsersIds(due, order, n);
    }
  }

  /** The ids of due messages to any of these users. */
  function IdsOfUsers(due: seq<Due>, users: seq<int>): set<int> {
    set d | d in due && d.userID in users :: d.id
  }

  lemma PendingFacts(rows: Rows, now: int, limit: nat, due: seq<Due>)
    requires IsPending(rows, now, limit, due)
    ensures Ascending(due) && forall d :: d in due ==> d.id in rows && d == DueOf(rows, d.id)
  {
  }

  lemma NoneSent(due: seq<Due>, w: World, before: map<int, bool>)
    ensures SendsOf(due, 0) == [] && Sum([], w, 0) == 0 && Reached(before, [], w, 0) == before
  {
  }

  lemma NoneDrained(rows: Rows, due: seq<Due>, w: World)
    ensures rows == Drained(rows, IdsOfUsers(due, []), w)
  {
    assert IdsOfUsers(due, []) == {};
  }

  lemma PickedAre(due: seq<Due>, user: int, d: Due)
    ensures d in Grouping.Pick(Keyed(due), user) <==> d in due && d.userID == user
    decreases due
  {
    if due != [] {
      var init, last := due[..|due| - 1], due[|due| - 1];
      PickedAre(init, user, d);
      assert Keyed(due) == Keyed(init) + [(last.userID, last)];
      Grouping.Append(Keyed(init), (last.userID, last));
      assert due == init + [last];
    }
  }

  lemma PickedAscend(due: seq<Due>, user: int)
    requires Ascending(due)
    ensures Ascending(Grouping.Pick(Keyed(due), user))
    decreases due
  {
    if due != [] {
      var init, last := due[..|due| - 1], due[|due| - 1];
      PickedAscend(init, user);
      var picked := Grouping.Pick(Keyed(init), user);
      assert Keyed(due) == Keyed(init) + [(last.userID, last)];
      Grouping.Append(Keyed(init), (last.userID, last));
      forall i | 0 <= i < |picked| ensures picked[i].id < last.id {
        PickedAre(init, user, picked[i]);
      }
    }
  }

  lemma SameIdSameMessage(due: seq<Due>, d: Due, e: Due)
    requires Ascending(due) && d in due && e in due && d.id == e.id
    ensures d == e
  {
  }

  lemma OneMoreSettled(rows: Rows, due: seq<Due>, order: seq<int>, n: nat, j: nat, w: World)
    requires order == Grouping.Keys(Keyed(due)) && n < |order| && j < |Grouping.Pick(Keyed(due), order[n])|
    requires Ascending(due) && forall d :: d in due ==> d.id in rows && d == DueOf(rows, d.id)
    ensures var group := Grouping.Pick(Keyed(due), order[n]);
            var m, ids := group[j], IdsOfUsers(due, order[..n]) + Ids(group[..j]);
            && m.id in rows && m.id !in ids && m.id in Drained(rows, ids, w)
            && Drained(rows, ids, w)[m.id] == rows[m.id]
            && rows[m.id].userID == order[n] && rows[m.id].attempts == m.attempts
            && Drained(rows, IdsOfUsers(due, order[..n]) + Ids(group[..j + 1]), w)
               == Drained(rows, ids, w)[m.id := Settle(rows[m.id], m.attempts, w.reply(order[n]), w.markAt(m.id))]
  {
    hide Grouping.Keys, Grouping.Pick, Keyed, Settle;
    var group := Grouping.Pick(Keyed(due), order[n]);
    var m, ids := group[j], IdsOfUsers(due, order[..n]) + Ids(group[..j]);
    PickedAre(due, order[n], m);
    PickedAscend(due, order[n]);
    Grouping.KeysAreDistinct(Keyed(due));
    forall d | d in due && d.userID in order[..n] ensures d.id != m.id {
      if d.id == m.id {
        SameIdSameMessage(due, d, m);
      }
    }
    assert group[..j + 1] == group[..j] + [m];
    assert IdsOfUsers(due, order[..n]) + Ids(group[..j + 1]) == ids + {m.id};
  }

  lemma GroupIsItsUsersIds(due: seq<Due>, order: seq<int>, n: nat)
    requires n < |order|
    ensures IdsOfUsers(due, order[..n]) + Ids(Grouping.Pick(Keyed(due), order[n])) == IdsOfUsers(due, order[..n + 1])
  {
    hide Grouping.Pick, Keyed;
    forall d ensures d in Grouping.Pick(Keyed(due), order[n]) <==> d in due && d.userID == order[n] {
      PickedAre(due, order[n], d);
    }
    assert order[..n + 1] == order[..n] + [order[n]];
  }

  lemma AllUsersDone(due: seq<Due>)
    ensures IdsOfUsers(due, Grouping.Keys(Keyed(due))) == Ids(due)
  {
    forall d | d in due ensures d.userID in Grouping.Keys(Keyed(due)) {
      var i :| 0 <= i < |due| && due[i] == d;
      UserIsAKey(due, i);
    }
  }

  /** Notifications delivered by the first n sends. */
  function Sum(sends: seq<Send>, w: World, n: nat): nat
    requires n <= |sends|
  {
    if n == 0 then 0
    else Sum(sends, w, n - 1) + if w.reply(sends[n - 1].userID).Delivered? then |sends[n - 1].group| else 0
  }

  /** Who is known to be reachable after the first n sends; a failure says nothing. */
  function Reached(before: map<int, bool>, sends: seq<Send>, w: World, n: nat): map<int, bool>
    requires n <= |sends|
  {
    if n == 0 then before
    else
      var r, user := Reached(before, sends, w, n - 1), sends[n - 1].userID;
      if w.reply(user).Failed? then r else r[user := w.reply(user).Delivered?]
  }

  lemma NextSend(due: seq<Due>, n: nat, w: World, before: map<int, bool>)
    requires n < |Grouping.Keys(Keyed(due))|
    ensures var user := Grouping.Keys(Keyed(due))[n];
            var group := Grouping.Pick(Keyed(due), user);
            var was, sends, reply := SendsOf(due, n), SendsOf(due, n + 1), w.reply(user);
            && sends == was + [Send(user, group)]
            && Sum(sends, w, n + 1) == Sum(was, w, n) + (if reply.Delivered? then |group| else 0)
            && Reached(before, sends, w, n + 1)
               == if reply.Failed? then Reached(before, was, w, n)
                 else Reached(before, was, w, n)[user := reply.Delivered?]
  {
    PrefixAgrees(SendsOf(due, n), SendsOf(due, n + 1), w, before, n);
  }

  lemma {:induction false} PrefixAgrees(a: seq<Send>, b: seq<Send>, w: World, before: map<int, bool>, n: nat)
    requires n <= |a| && a <= b
    ensures Sum(b, w, n) == Sum(a, w, n) && Reached(before, b, w, n) == Reached(before, a, w, n)
  {
    if n > 0 {
      PrefixAgrees(a, b, w, before, n - 1);
    }
  }
}
