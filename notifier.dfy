/** The notification list: new notifications are appended, identified by the
    millisecond they were added at, and removed by identifier. */
module Notifier {
  import opened Wrappers

  datatype Kind = Success | Error

  datatype Notification = Notification(id: int, title: string, message: string, kind: Kind)

  /** The toast closes itself after this many milliseconds. */
  const AutoDismissMs := 5000

  /** `list.filter(n => n.id !== id)`. */
  function Without(list: seq<Notification>, id: int): (r: seq<Notification>)
    ensures |r| <= |list|
    ensures forall k :: 0 <= k < |r| ==> r[k].id != id
    decreases |list|
  {
    if list == [] then []
    else
      var last := list[|list| - 1];
      Without(list[..|list| - 1], id) + (if last.id == id then [] else [last])
  }

  /** Filtering distributes over concatenation, so the survivors keep their
      order. */
  lemma {:induction false} WithoutAppend(a: seq<Notification>, b: seq<Notification>, id: int)
    ensures Without(a + b, id) == Without(a, id) + Without(b, id)
    decreases |b|
  {
    if b == [] {
      assert a + b == a;
    } else {
      var last := b[|b| - 1];
      assert (a + b)[..|a + b| - 1] == a + b[..|b| - 1];
      assert (a + b)[|a + b| - 1] == last;
      WithoutAppend(a, b[..|b| - 1], id);
    }
  }

  /** Exactly the notifications with another id survive. */
  lemma {:induction false} WithoutKeepsOthers(list: seq<Notification>, id: int, n: Notification)
    ensures n in Without(list, id) <==> n in list && n.id != id
    decreases |list|
  {
    if list != [] {
      var init := list[..|list| - 1];
      WithoutKeepsOthers(init, id, n);
      assert list == init + [list[|list| - 1]];
    }
  }

  /** Removing an id nobody has changes nothing. */
  lemma {:induction false} WithoutAbsent(list: seq<Notification>, id: int)
    requires forall k :: 0 <= k < |list| ==> list[k].id != id
    ensures Without(list, id) == list
    decreases |list|
  {
    if list != [] {
      WithoutAbsent(list[..|list| - 1], id);
    }
  }

  /** Removing twice is removing once. */
  lemma WithoutIdempotent(list: seq<Notification>, id: int)
    ensures Without(Without(list, id), id) == Without(list, id)
  {
    WithoutAbsent(Without(list, id), id);
  }

  class NotificationList {
    var notifications: seq<Notification>

    constructor ()
      ensures notifications == []
    {
      notifications := [];
    }

    /** `addNotification`: one notification at the end, stamped with the
        current time in milliseconds; the kind defaults to success. */
    method Add(title: string, message: string, kind: Option<Kind>, now: int)
      modifies this
      ensures notifications == old(notifications) + [Notification(now, title, message, kind.GetOr(Success))]
    {
      notifications := notifications + [Notification(now, title, message, kind.GetOr(Success))];
    }

    /** `removeNotification`: every notification with the id goes. The
        toast calls it itself `AutoDismissMs` after it is shown, or when it
        is closed; that firing is the call to this method. */
    method Remove(id: int)
      modifies this
      ensures notifications == Without(old(notifications), id)
    {
      notifications := Without(notifications, id);
    }
  }

  /** Two notifications added in the same millisecond share their id, and
      one removal drops both. */
  method SameMillisecond(list: seq<Notification>, now: int) returns (after: seq<Notification>)
    requires forall k :: 0 <= k < |list| ==> list[k].id != now
    ensures after == list
  {
    var l := new NotificationList();
    l.notifications := list;
    l.Add("Payment Received", "first", None, now);
    l.Add("Payment Received", "second", Some(Error), now);
    l.Remove(now);
    WithoutAppend(list, [Notification(now, "Payment Received", "first", Success)], now);
    WithoutAppend(list + [Notification(now, "Payment Received", "first", Success)],
                  [Notification(now, "Payment Received", "second", Error)], now);
    WithoutAbsent(list, now);
    after := l.notifications;
  }
}
