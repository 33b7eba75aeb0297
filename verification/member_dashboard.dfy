/** The member dashboard: notifications with their read status, marking a
    notification read, the unread badge, the bill-status and priority
    colours, and the receipt number taken from a bill id. */
module MemberDashboard {
  import opened Values
  import opened Text
  import opened Seqs

  /** A `notification_reads` row joined to a notification. */
  datatype ReadRow = ReadRow(readAt: Option<string>)

  /** A `notifications` row with its joined reads (which may be absent). */
  datatype NotificationRow = NotificationRow(
    id: string, title: string, message: string, priority: string, createdAt: string,
    readRows: Option<seq<ReadRow>>)

  /** A notification as the page keeps it. */
  datatype Notification = Notification(
    id: string, title: string, message: string, priority: string, createdAt: string,
    readAt: Option<string>)

  /** `notification_reads?.[0]?.read_at || null`. */
  function FirstReadAt(rows: Option<seq<ReadRow>>): (r: Option<string>)
    ensures r.Some? <==> rows.Some? && |rows.value| > 0 && Truthy(rows.value[0].readAt)
    ensures r.Some? ==> r == rows.value[0].readAt
  {
    if rows.Some? && |rows.value| > 0 && Truthy(rows.value[0].readAt) then rows.value[0].readAt
    else None
  }

  /** A row as the page keeps it: every column kept, the joined reads
      reduced to the first one's `read_at`. */
  function Format(n: NotificationRow): (m: Notification)
    ensures m.id == n.id && m.priority == n.priority
    ensures m.title == n.title && m.message == n.message && m.createdAt == n.createdAt
    ensures m.readAt == FirstReadAt(n.readRows)
  {
    Notification(n.id, n.title, n.message, n.priority, n.createdAt, FirstReadAt(n.readRows))
  }

  /** `notificationsData?.map(...) || []`. */
  function FormatAll(data: Option<seq<NotificationRow>>): (ns: seq<Notification>)
    ensures data.None? ==> ns == []
    ensures data.Some? ==> |ns| == |data.value|
    ensures data.Some? ==> forall i :: 0 <= i < |ns| ==> ns[i] == Format(data.value[i])
  {
    match data
    case None => []
    case Some(rows) => seq(|rows|, i requires 0 <= i < |rows| => Format(rows[i]))
  }

  predicate IsUnread(n: Notification) {
    !Truthy(n.readAt)
  }

  /** The badge: how many notifications have a falsy `read_at`. It is zero
      exactly when every one has been read. */
  function UnreadCount(ns: seq<Notification>): (n: nat)
    ensures n <= |ns|
    ensures n == 0 <==> forall i :: 0 <= i < |ns| ==> Truthy(ns[i].readAt)
    ensures (forall i :: 0 <= i < |ns| ==> !Truthy(ns[i].readAt)) ==> n == |ns|
  {
    CountExtremes(ns, IsUnread);
    Count(ns, IsUnread)
  }

  /** A row no read of which carries a truthy `read_at`, as far as the page
      looks (the first joined read only). */
  predicate RowUnread(n: NotificationRow) {
    FirstReadAt(n.readRows).None?
  }

  /** The badge after loading counts the rows whose first joined read has no
      `read_at`. */
  lemma LoadedUnreadCount(rows: seq<NotificationRow>)
    ensures UnreadCount(FormatAll(Some(rows))) == Count(rows, RowUnread)
  {
    CountFormatted(rows);
  }

  /** The induction behind `LoadedUnreadCount`, on the plain count. */
  lemma {:induction false} CountFormatted(rows: seq<NotificationRow>)
    ensures Count(FormatAll(Some(rows)), IsUnread) == Count(rows, RowUnread)
    decreases |rows|
  {
    if rows != [] {
      CountFormatted(rows[1..]);
      var ns := FormatAll(Some(rows));
      FormatAllCons(rows);
      assert ns[0] == Format(rows[0]) && ns[1..] == FormatAll(Some(rows[1..]));
      assert IsUnread(ns[0]) == RowUnread(rows[0]);
      CountHead(ns, IsUnread);
      CountHead(rows, RowUnread);
    }
  }

  /** Formatting a non-empty list formats its head, then the rest. */
  lemma FormatAllCons(rows: seq<NotificationRow>)
    requires rows != []
    ensures FormatAll(Some(rows)) == [Format(rows[0])] + FormatAll(Some(rows[1..]))
  {
  }

  /** The local update after a successful upsert: `read_at` set on the
      notifications with that id. */
  function LocalMark(ns: seq<Notification>, id: string, now: string): (r: seq<Notification>)
    ensures |r| == |ns|
    ensures forall i :: 0 <= i < |ns| && ns[i].id != id ==> r[i] == ns[i]
    ensures forall i :: 0 <= i < |ns| && ns[i].id == id ==> r[i] == ns[i].(readAt := Some(now))
  {
    seq(|ns|, i requires 0 <= i < |ns| => if ns[i].id == id then ns[i].(readAt := Some(now)) else ns[i])
  }

  /** The outcome of `markNotificationAsRead`: the list and whether the
      upsert was sent. */
  datatype MarkResult = MarkResult(notifications: seq<Notification>, upsertSent: bool)

  /** `markNotificationAsRead`: nothing without a member id; the list is
      updated only when the upsert succeeds. */
  function MarkAsRead(ns: seq<Notification>, memberId: Option<string>, id: string,
                      upsertOk: bool, now: string): (r: MarkResult)
    ensures r.upsertSent <==> Truthy(memberId)
    ensures !Truthy(memberId) || !upsertOk ==> r.notifications == ns
    ensures Truthy(memberId) && upsertOk ==> r.notifications == LocalMark(ns, id, now)
  {
    if !Truthy(memberId) then MarkResult(ns, false)
    else if !upsertOk then MarkResult(ns, true)
    else MarkResult(LocalMark(ns, id, now), true)
  }

  /** Unread notifications that carry `id`. */
  predicate UnreadWithId(n: Notification, id: string) {
    n.id == id && IsUnread(n)
  }

  /** Marking lowers the badge by exactly the number of unread notifications
      carrying that id. */
  lemma MarkLowersUnreadCount(ns: seq<Notification>, id: string, now: string)
    requires now != ""
    ensures UnreadCount(LocalMark(ns, id, now)) ==
              UnreadCount(ns) - Count(ns, (n: Notification) => UnreadWithId(n, id))
  {
    MarkLowersCount(ns, id, now);
  }

  /** The induction behind `MarkLowersUnreadCount`, on the plain count. */
  lemma {:induction false} MarkLowersCount(ns: seq<Notification>, id: string, now: string)
    requires now != ""
    ensures Count(LocalMark(ns, id, now), IsUnread) ==
              Count(ns, IsUnread) - Count(ns, (n: Notification) => UnreadWithId(n, id))
    decreases |ns|
  {
    if ns != [] {
      var withId := (n: Notification) => UnreadWithId(n, id);
      var marked, rest := LocalMark(ns, id, now), LocalMark(ns[1..], id, now);
      MarkLowersCount(ns[1..], id, now);
      assert Count(marked, IsUnread) == (if IsUnread(marked[0]) then 1 else 0) + Count(rest, IsUnread) by {
        assert marked == [marked[0]] + rest;
        CountCons(marked[0], rest, IsUnread);
      }
      assert Count(ns, IsUnread) == (if IsUnread(ns[0]) then 1 else 0) + Count(ns[1..], IsUnread) by {
        assert ns == [ns[0]] + ns[1..];
        CountCons(ns[0], ns[1..], IsUnread);
      }
      assert Count(ns, withId) == (if withId(ns[0]) then 1 else 0) + Count(ns[1..], withId) by {
        assert ns == [ns[0]] + ns[1..];
        CountCons(ns[0], ns[1..], withId);
      }
    }
  }

  /** A second mark changes no read status. */
  lemma MarkTwiceKeepsReadStatus(ns: seq<Notification>, id: string, now1: string, now2: string)
    requires now1 != "" && now2 != ""
    ensures var once := LocalMark(ns, id, now1);
      var twice := LocalMark(once, id, now2);
      forall i :: 0 <= i < |ns| ==> IsUnread(twice[i]) == IsUnread(once[i])
  {
  }

  const Green := "bg-green-100 text-green-800"
  const Yellow := "bg-yellow-100 text-yellow-800"
  const Red := "bg-red-100 text-red-800"
  const Blue := "bg-blue-100 text-blue-800"
  const Gray := "bg-gray-100 text-gray-800"

  /** `getStatusColor`. */
  function StatusColor(status: string): (c: string)
    ensures c == Green <==> status == "paid"
    ensures c == Yellow <==> status == "pending"
    ensures c == Red <==> status == "overdue"
    ensures c == Gray <==> status != "paid" && status != "pending" && status != "overdue"
  {
    if status == "paid" then Green
    else if status == "pending" then Yellow
    else if status == "overdue" then Red
    else Gray
  }

  /** `getPriorityColor`: `low` shares the default's gray. */
  function PriorityColor(priority: string): (c: string)
    ensures c == Red <==> priority == "high"
    ensures c == Blue <==> priority == "normal"
    ensures c == Gray <==> priority != "high" && priority != "normal"
  {
    if priority == "high" then Red
    else if priority == "normal" then Blue
    else if priority == "low" then Gray
    else Gray
  }

  /** A colour names the bill status it was chosen for, among the three
      known ones. */
  lemma StatusColorDeterminesStatus(a: string, b: string)
    requires a in {"paid", "pending", "overdue"}
    ensures StatusColor(a) == StatusColor(b) <==> a == b
  {
  }

  /** `bill.id.slice(0, 8)`. */
  function ShortId(billId: string): (r: string)
    ensures r <= billId
    ensures |billId| >= 8 ==> |r| == 8
    ensures |billId| < 8 ==> r == billId
  {
    Take(billId, 8)
  }

  /** The receipt's heading line. */
  function ReceiptNumber(billId: string): (r: string)
    ensures |r| == 9 + |ShortId(billId)| && r[..9] == "Receipt #" && |r| <= 17
    ensures r[9..] == ShortId(billId)
  {
    "Receipt #" + ShortId(billId)
  }

  /** The downloaded receipt's file name. */
  function ReceiptFileName(billId: string): (r: string)
    ensures |r| == 12 + |ShortId(billId)| && r[..8] == "receipt-" && r[|r| - 4..] == ".txt" && |r| <= 20
    ensures r[8..|r| - 4] == ShortId(billId)
  {
    "receipt-" + ShortId(billId) + ".txt"
  }

  /** The heading and the file name of a receipt name the same short id, and
      bills with different short ids get different ones. */
  lemma ReceiptNamesAgree(a: string, b: string)
    ensures ReceiptNumber(a)[9..] == ReceiptFileName(a)[8..|ReceiptFileName(a)| - 4]
    ensures ShortId(a) != ShortId(b) ==> ReceiptNumber(a) != ReceiptNumber(b)
    ensures ShortId(a) != ShortId(b) ==> ReceiptFileName(a) != ReceiptFileName(b)
  {
  }

  /** Two bills whose ids share their first 8 characters get the same
      receipt number and file name. */
  lemma ReceiptsCollideOnSharedPrefix(a: string, b: string)
    requires |a| >= 8 && |b| >= 8 && a[..8] == b[..8]
    ensures ReceiptNumber(a) == ReceiptNumber(b)
    ensures ReceiptFileName(a) == ReceiptFileName(b)
  {
  }
}
