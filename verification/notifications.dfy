/**
 * In-app notifications: the stored record the approval workflow appends, and
 * the bell panel that filters them by role, counts the unread ones, marks
 * them read and orders them for display.
 */
module Notifications {
  import opened Common

  datatype Priority = High | Normal
  datatype Kind = Approval | Info | Warning

  /** A stored notification; `timestamp` is in milliseconds. */
  datatype Notification = Notification(
    id: string,
    title: string,
    message: string,
    targetRole: Option<string>,
    timestamp: int,
    read: bool,
    priority: Option<Priority>,
    kind: Option<Kind>)

  /** `sendNotification`: appends one unread record to the stored list, an
      absent or unparseable list counting as empty. Approvals are high priority. */
  function Send(stored: Stored<Notification>, id: string, title: string, message: string,
                targetRole: Option<string>, kind: Kind, now: int): (r: seq<Notification>)
    ensures |r| == |OrEmpty(stored)| + 1 && r[..|r| - 1] == OrEmpty(stored)
    ensures var n := r[|r| - 1];
            n.id == id && n.title == title && n.message == message && n.targetRole == targetRole
            && n.timestamp == now && !n.read && n.kind == Some(kind)
            && (n.priority == Some(High) <==> kind == Approval)
  {
    OrEmpty(stored) + [Notification(id, title, message, targetRole, now, false,
                                    Some(if kind == Approval then High else Normal), Some(kind))]
  }

  /** Whether the signed-in user's role (if any) sees the notification:
      untargeted, targeted at "all", or at exactly that role. */
  predicate Visible(n: Notification, userRole: Option<string>)
  {
    !Present(n.targetRole) || n.targetRole.value == "all" || (userRole.Some? && n.targetRole.value == userRole.value)
  }

  /** High priority or an approval request. */
  predicate Urgent(n: Notification)
  {
    n.priority == Some(High) || n.kind == Some(Approval)
  }

  function VisibleOnly(ns: seq<Notification>, userRole: Option<string>): (r: seq<Notification>)
    ensures forall n :: n in r <==> n in ns && Visible(n, userRole)
    ensures |r| <= |ns|
  {
    if ns == [] then []
    else if Visible(ns[0], userRole) then [ns[0]] + VisibleOnly(ns[1..], userRole)
    else VisibleOnly(ns[1..], userRole)
  }

  /** Number of unread notifications in a list. */
  function UnreadCount(ns: seq<Notification>): (c: nat)
    ensures c <= |ns|
    ensures c == 0 <==> forall n :: n in ns ==> n.read
  {
    if ns == [] then 0 else (if ns[0].read then 0 else 1) + UnreadCount(ns[1..])
  }

  /** Whether some notification the user sees is unread and urgent. */
  predicate HasUrgentUnread(ns: seq<Notification>, userRole: Option<string>)
  {
    exists n :: n in ns && Visible(n, userRole) && !n.read && Urgent(n)
  }

  /** What the bell shows. */
  datatype Panel = Panel(items: seq<Notification>, unreadCount: int, hasHighPriority: bool)

  /** The periodic load: with a parseable stored list, the panel holds the
      visible ones, their unread count and the urgency flag; otherwise it is kept. */
  function Load(stored: Stored<Notification>, userRole: Option<string>, panel: Panel): (r: Panel)
    ensures !stored.Parsed? ==> r == panel
    ensures stored.Parsed? ==>
              (forall n :: n in r.items <==> n in stored.items && Visible(n, userRole))
              && r.items == VisibleOnly(stored.items, userRole)
              && r.unreadCount == UnreadCount(r.items)
              && (r.hasHighPriority <==> HasUrgentUnread(stored.items, userRole))
  {
    match stored
    case Parsed(ns) =>
      var vis := VisibleOnly(ns, userRole);
      Panel(vis, UnreadCount(vis), exists n :: n in vis && !n.read && Urgent(n))
    case _ => panel
  }

  function MarkRead(ns: seq<Notification>, id: string): (r: seq<Notification>)
    ensures |r| == |ns|
    ensures forall k :: 0 <= k < |ns| ==> r[k] == if ns[k].id == id then ns[k].(read := true) else ns[k]
  {
    seq(|ns|, k requires 0 <= k < |ns| => if ns[k].id == id then ns[k].(read := true) else ns[k])
  }

  function MarkAll(ns: seq<Notification>): (r: seq<Notification>)
    ensures |r| == |ns|
    ensures forall k :: 0 <= k < |ns| ==> r[k] == ns[k].(read := true)
  {
    seq(|ns|, k requires 0 <= k < |ns| => ns[k].(read := true))
  }

  /** `markAsRead`: with a parseable stored list, the id is marked read both
      there and in the panel, the count drops by one but not below zero, and
      the urgency flag is recomputed over the stored list. */
  function MarkAsRead(stored: Stored<Notification>, id: string, userRole: Option<string>, panel: Panel): (r: (Stored<Notification>, Panel))
    ensures !stored.Parsed? ==> r == (stored, panel)
    ensures stored.Parsed? ==>
              r.0 == Parsed(MarkRead(stored.items, id))
              && r.1.items == MarkRead(panel.items, id)
              && r.1.unreadCount == (if panel.unreadCount - 1 > 0 then panel.unreadCount - 1 else 0)
              && (r.1.hasHighPriority <==> HasUrgentUnread(MarkRead(stored.items, id), userRole))
  {
    match stored
    case Parsed(ns) =>
      var updated := MarkRead(ns, id);
      (Parsed(updated),
       Panel(MarkRead(panel.items, id), if panel.unreadCount - 1 > 0 then panel.unreadCount - 1 else 0,
             HasUrgentUnread(updated, userRole)))
    case _ => (stored, panel)
  }

  /** `markAllAsRead`. */
  function MarkAllAsRead(stored: Stored<Notification>, panel: Panel): (r: (Stored<Notification>, Panel))
    ensures !stored.Parsed? ==> r == (stored, panel)
    ensures stored.Parsed? ==>
              r.0 == Parsed(MarkAll(stored.items)) && r.1.items == MarkAll(panel.items)
              && (forall n :: n in r.0.items ==> n.read)
              && (forall n :: n in r.1.items ==> n.read) && r.1.unreadCount == 0 && !r.1.hasHighPriority
  {
    match stored
    case Parsed(ns) => (Parsed(MarkAll(ns)), Panel(MarkAll(panel.items), 0, false))
    case _ => (stored, panel)
  }

  /** The display comparator: unread first, then urgent, then newest. */
  function Compare(a: Notification, b: Notification): int
  {
    if !a.read && b.read then -1
    else if a.read && !b.read then 1
    else if Urgent(a) && !Urgent(b) then -1
    else if !Urgent(a) && Urgent(b) then 1
    else b.timestamp - a.timestamp
  }

  /** `a` may come before `b` on display. */
  predicate Before(a: Notification, b: Notification)
  {
    Compare(a, b) <= 0
  }

  predicate SortedForDisplay(ns: seq<Notification>)
  {
    forall i, j :: 0 <= i < j < |ns| ==> Before(ns[i], ns[j])
  }

  /** Places `x` after every element that may precede it. */
  function Insert(x: Notification, s: seq<Notification>): (r: seq<Notification>)
    ensures multiset(r) == multiset(s) + multiset{x}
  {
    if s == [] then [x]
    else if Compare(x, s[0]) < 0 then [x] + s
    else
      assert s == [s[0]] + s[1..];
      [s[0]] + Insert(x, s[1..])
  }

  /** The panel's display order. */
  function SortForDisplay(ns: seq<Notification>): (r: seq<Notification>)
    ensures SortedForDisplay(r)
    ensures multiset(r) == multiset(ns)
  {
    if ns == [] then []
    else
      var sorted := SortForDisplay(ns[..|ns| - 1]);
      assert ns == ns[..|ns| - 1] + [ns[|ns| - 1]];
      InsertKeepsSorted(ns[|ns| - 1], sorted);
      Insert(ns[|ns| - 1], sorted)
  }

  lemma CompareAntisymmetric(a: Notification, b: Notification)
    ensures Compare(a, b) == -Compare(b, a)
  {
  }

  lemma BeforeTransitive(a: Notification, b: Notification, c: Notification)
    requires Before(a, b) && Before(b, c)
    ensures Before(a, c)
  {
  }

  lemma {:induction false} InsertKeepsSorted(x: Notification, s: seq<Notification>)
    requires SortedForDisplay(s)
    ensures SortedForDisplay(Insert(x, s))
    decreases |s|
  {
    if s == [] {
    } else if Compare(x, s[0]) < 0 {
      forall k | 0 <= k < |s|
        ensures Before(x, s[k])
      {
        if k > 0 {
          BeforeTransitive(x, s[0], s[k]);
        }
      }
    } else {
      var rest := Insert(x, s[1..]);
      InsertKeepsSorted(x, s[1..]);
      CompareAntisymmetric(x, s[0]);
      forall j | 0 <= j < |rest|
        ensures Before(s[0], rest[j])
      {
        assert rest[j] in multiset(rest);
        if rest[j] != x {
          assert rest[j] in multiset(s[1..]);
          var k :| 0 <= k < |s[1..]| && s[1..][k] == rest[j];
          assert s[k + 1] == rest[j];
        }
      }
      var r := [s[0]] + rest;
      assert Insert(x, s) == r;
      forall i, j | 0 <= i < j < |r|
        ensures Before(r[i], r[j])
      {
        if i > 0 {
          assert r[i] == rest[i - 1] && r[j] == rest[j - 1];
        }
      }
    }
  }

  // ---------------------------------------------------------------- lemmas

  /** An untargeted or "all" notification is seen by everyone, signed in or
      not; one targeted at another role only by a user of that role. */
  lemma VisibleByRole(n: Notification, userRole: Option<string>)
    ensures !Present(n.targetRole) || n.targetRole.value == "all" ==> Visible(n, userRole)
    ensures Present(n.targetRole) && n.targetRole.value != "all" ==> (Visible(n, userRole) <==> userRole == n.targetRole)
  {
  }

  /** The role filter works piecewise over a concatenation; with
      `VisibleOnlySingle`, the shown notifications keep their stored order
      and multiplicity. */
  lemma {:induction false} VisibleOnlyAppend(a: seq<Notification>, b: seq<Notification>, userRole: Option<string>)
    ensures VisibleOnly(a + b, userRole) == VisibleOnly(a, userRole) + VisibleOnly(b, userRole)
    decreases |a|
  {
    if a == [] {
      assert a + b == b;
    } else {
      assert (a + b)[0] == a[0] && (a + b)[1..] == a[1..] + b;
      VisibleOnlyAppend(a[1..], b, userRole);
    }
  }

  /** A single notification is shown exactly when the role sees it. */
  lemma VisibleOnlySingle(n: Notification, userRole: Option<string>)
    ensures VisibleOnly([n], userRole) == if Visible(n, userRole) then [n] else []
  {
    assert [n][1..] == [];
  }

  /** The unread count adds up over a concatenation, and a single
      notification counts one exactly when it is unread: the count is the
      number of unread entries. */
  lemma {:induction false} UnreadCountAppend(a: seq<Notification>, b: seq<Notification>)
    ensures UnreadCount(a + b) == UnreadCount(a) + UnreadCount(b)
    decreases |a|
  {
    if a == [] {
      assert a + b == b;
    } else {
      assert (a + b)[0] == a[0] && (a + b)[1..] == a[1..] + b;
      UnreadCountAppend(a[1..], b);
    }
  }

  lemma UnreadCountSingle(n: Notification)
    ensures UnreadCount([n]) == if n.read then 0 else 1
  {
    assert [n][1..] == [];
  }

  /** Sending a notification and reloading the bell: the panel shows what it
      showed before plus, last, the new one exactly when the user's role sees
      it, which then raises the unread count by one; a visible approval
      request makes the bell urgent. */
  lemma SendThenLoad(stored: Stored<Notification>, id: string, title: string, message: string,
                     targetRole: Option<string>, kind: Kind, now: int, userRole: Option<string>, panel: Panel)
    ensures var sent := Send(stored, id, title, message, targetRole, kind, now);
            var n := sent[|sent| - 1];
            var before := VisibleOnly(OrEmpty(stored), userRole);
            var p := Load(Parsed(sent), userRole, panel);
            p.items == before + (if Visible(n, userRole) then [n] else [])
            && p.unreadCount == UnreadCount(before) + (if Visible(n, userRole) then 1 else 0)
            && (Visible(n, userRole) && kind == Approval ==> p.hasHighPriority)
  {
    var sent := Send(stored, id, title, message, targetRole, kind, now);
    var n := sent[|sent| - 1];
    assert sent == OrEmpty(stored) + [n];
    VisibleOnlyAppend(OrEmpty(stored), [n], userRole);
    VisibleOnlySingle(n, userRole);
    var before := VisibleOnly(OrEmpty(stored), userRole);
    UnreadCountAppend(before, if Visible(n, userRole) then [n] else []);
    UnreadCountSingle(n);
    if Visible(n, userRole) {
      assert VisibleOnly(sent, userRole)[|before|] == n;
    } else {
      assert before + [] == before;
    }
  }

  /** The comparator orders by unread, then urgency, then recency. */
  lemma BeforeMeansOrder(a: Notification, b: Notification)
    ensures Before(a, b) <==>
              (!a.read && b.read)
              || (a.read == b.read && Urgent(a) && !Urgent(b))
              || (a.read == b.read && Urgent(a) == Urgent(b) && a.timestamp >= b.timestamp)
  {
  }

  /** Marking all as read twice is the same as once. */
  lemma MarkAllIdempotent(stored: Stored<Notification>, panel: Panel)
    ensures var once := MarkAllAsRead(stored, panel);
            MarkAllAsRead(once.0, once.1) == once
  {
    if stored.Parsed? {
      assert MarkAll(MarkAll(stored.items)) == MarkAll(stored.items);
      assert MarkAll(MarkAll(panel.items)) == MarkAll(panel.items);
    }
  }

  /** After marking all read, a reload shows nothing unread and nothing urgent. */
  lemma ReloadAfterMarkAll(stored: Stored<Notification>, userRole: Option<string>, panel: Panel)
    requires stored.Parsed?
    ensures var r := Load(MarkAllAsRead(stored, panel).0, userRole, panel);
            r.unreadCount == 0 && !r.hasHighPriority
  {
  }

  /** Marking one id read never raises the unread count a reload would show. */
  lemma MarkAsReadLowersUnread(ns: seq<Notification>, id: string)
    ensures UnreadCount(MarkRead(ns, id)) <= UnreadCount(ns)
  {
    if ns != [] {
      assert MarkRead(ns, id)[1..] == MarkRead(ns[1..], id);
      MarkAsReadLowersUnread(ns[1..], id);
    }
  }
}
