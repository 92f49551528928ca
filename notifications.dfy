/**
 * The notifications page: the list loaded for the logged-in user, each entry
 * with a local read flag, and the count of unread entries.
 */
module Notifications {
  import opened Options

  datatype Notification = Notification(id: int, time: string, title: string, message: string, token: string, read: bool)

  /**
   * How `GET /api/notifications` followed by `resp.json()` ends: a status and
   * the entries when the body is an array (None when it is not, and `data.map`
   * throws), or a thrown error (network failure, a body that is not JSON).
   */
  datatype ListReply = Answered(status: int, items: Option<seq<Notification>>) | Failed

  const LogInToView: string := "Please log in to view notifications."
  const LoadFailed: string := "Failed to load notifications. Please try again later."

  /** `data.map(n => ({ ...n, read: false }))` */
  function Initialized(data: seq<Notification>): (r: seq<Notification>)
    ensures |r| == |data|
    ensures forall i :: 0 <= i < |r| ==> r[i] == data[i].(read := false)
  {
    seq(|data|, i requires 0 <= i < |data| => data[i].(read := false))
  }

  /** `prev.map(n => n.id === id ? { ...n, read: true } : n)` */
  function MarkAsRead(ns: seq<Notification>, id: int): (r: seq<Notification>)
    ensures |r| == |ns|
    ensures forall i :: 0 <= i < |r| ==> r[i] == if ns[i].id == id then ns[i].(read := true) else ns[i]
  {
    seq(|ns|, i requires 0 <= i < |ns| => if ns[i].id == id then ns[i].(read := true) else ns[i])
  }

  /** `prev.map(n => ({ ...n, read: true }))` */
  function MarkAllAsRead(ns: seq<Notification>): (r: seq<Notification>)
    ensures |r| == |ns|
    ensures forall i :: 0 <= i < |r| ==> r[i] == ns[i].(read := true)
  {
    seq(|ns|, i requires 0 <= i < |ns| => ns[i].(read := true))
  }

  /** `notifications.filter(n => !n.read).length` */
  function UnreadCount(ns: seq<Notification>): (c: nat)
    ensures c <= |ns|
  {
    if ns == [] then 0 else (if ns[0].read then 0 else 1) + UnreadCount(ns[1..])
  }

  /** A single entry counts 1 when unread and 0 when read. */
  lemma UnreadCountOfOne(n: Notification)
    ensures UnreadCount([n]) == if n.read then 0 else 1
  {
    assert [n][1..] == [];
  }

  /** The count of a concatenation is the sum of the counts; with the single-entry case it fixes every count. */
  lemma {:induction false} UnreadCountAppend(a: seq<Notification>, b: seq<Notification>)
    ensures UnreadCount(a + b) == UnreadCount(a) + UnreadCount(b)
    decreases |a|
  {
    if a == [] {
      assert a + b == b;
    } else {
      assert (a + b)[0] == a[0] && (a + b)[1..] == a[1..] + b;
      UnreadCountAppend(a[1..], b);
    }
  }

  /**
   * The count only depends on the flags: a list whose entries are unread only
   * where another list of the same length has unread entries counts no more.
   */
  lemma {:induction false} UnreadCountMonotone(a: seq<Notification>, b: seq<Notification>)
    requires |a| == |b|
    requires forall i :: 0 <= i < |b| ==> !b[i].read ==> !a[i].read
    ensures UnreadCount(b) <= UnreadCount(a)
    decreases |a|
  {
    if a != [] {
      UnreadCountMonotone(a[1..], b[1..]);
    }
  }

  lemma {:induction false} UnreadCountAllRead(ns: seq<Notification>)
    requires forall i :: 0 <= i < |ns| ==> ns[i].read
    ensures UnreadCount(ns) == 0
    decreases |ns|
  {
    if ns != [] {
      UnreadCountAllRead(ns[1..]);
    }
  }

  lemma {:induction false} UnreadCountNoneRead(ns: seq<Notification>)
    requires forall i :: 0 <= i < |ns| ==> !ns[i].read
    ensures UnreadCount(ns) == |ns|
    decreases |ns|
  {
    if ns != [] {
      UnreadCountNoneRead(ns[1..]);
    }
  }

  /** Right after loading, every entry is unread. */
  lemma LoadedAllUnread(data: seq<Notification>)
    ensures UnreadCount(Initialized(data)) == |data|
  {
    UnreadCountNoneRead(Initialized(data));
  }

  /** After marking all as read, nothing is unread. */
  lemma MarkAllLeavesNoneUnread(ns: seq<Notification>)
    ensures UnreadCount(MarkAllAsRead(ns)) == 0
  {
    UnreadCountAllRead(MarkAllAsRead(ns));
  }

  /** Marking one entry never raises the unread count. */
  lemma MarkAsReadNeverRaisesUnread(ns: seq<Notification>, id: int)
    ensures UnreadCount(MarkAsRead(ns, id)) <= UnreadCount(ns)
  {
    UnreadCountMonotone(ns, MarkAsRead(ns, id));
  }

  /** Marking all never raises the unread count. */
  lemma MarkAllNeverRaisesUnread(ns: seq<Notification>)
    ensures UnreadCount(MarkAllAsRead(ns)) <= UnreadCount(ns)
  {
    MarkAllLeavesNoneUnread(ns);
  }

  /** Marking with an id no entry has changes nothing. */
  lemma MarkAsReadUnknownId(ns: seq<Notification>, id: int)
    requires forall i :: 0 <= i < |ns| ==> ns[i].id != id
    ensures MarkAsRead(ns, id) == ns
  {
  }

  /** Both operations are idempotent. */
  lemma MarkingIsIdempotent(ns: seq<Notification>, id: int)
    ensures MarkAsRead(MarkAsRead(ns, id), id) == MarkAsRead(ns, id)
    ensures MarkAllAsRead(MarkAllAsRead(ns)) == MarkAllAsRead(ns)
  {
  }

  /** The notifications component's state. */
  class NotificationsList {
    var notifications: seq<Notification>
    var isLoading: bool
    var error: string
    var token: string

    /** `unreadCount` */
    function Unread(): (c: nat)
      reads this
      ensures c <= |notifications|
      ensures c == UnreadCount(notifications)
    {
      UnreadCount(notifications)
    }

    /** The state before the mount effect runs. */
    constructor ()
      ensures notifications == [] && isLoading && error == "" && token == ""
    {
      notifications := [];
      isLoading := true;
      error := "";
      token := "";
    }

    /**
     * The mount effect with the stored token `jwt` ('' when none); `reply`
     * is how the request for the list ends when it is made.
     */
    method Load(jwt: string, reply: ListReply)
      modifies this`notifications, this`isLoading, this`error, this`token
      ensures token == jwt && !isLoading
      ensures jwt == "" ==> error == LogInToView && notifications == old(notifications)
      ensures jwt != "" && reply.Answered? && 200 <= reply.status <= 299 && reply.items.Some? ==>
        error == "" && notifications == Initialized(reply.items.value) && Unread() == |notifications|
      ensures jwt != "" && !(reply.Answered? && 200 <= reply.status <= 299 && reply.items.Some?) ==>
        error == LoadFailed && notifications == old(notifications)
    {
      token := jwt;
      if jwt == "" {
        error := LogInToView;
        isLoading := false;
        return;
      }
      isLoading := true;
      error := "";
      if reply.Answered? && 200 <= reply.status <= 299 && reply.items.Some? {
        notifications := Initialized(reply.items.value);
        LoadedAllUnread(reply.items.value);
      } else {
        error := LoadFailed;
      }
      isLoading := false;
    }

    /** `markAsRead(id)` */
    method MarkOneRead(id: int)
      modifies this`notifications
      ensures notifications == MarkAsRead(old(notifications), id)
      ensures Unread() <= old(Unread())
    {
      MarkAsReadNeverRaisesUnread(notifications, id);
      notifications := MarkAsRead(notifications, id);
    }

    /** `markAllAsRead()` */
    method MarkAllRead()
      modifies this`notifications
      ensures notifications == MarkAllAsRead(old(notifications))
      ensures Unread() == 0
    {
      MarkAllLeavesNoneUnread(notifications);
      notifications := MarkAllAsRead(notifications);
    }
  }
}
