/**
 * `NotificationService`: the list of toasts on screen. Every `show*` call
 * appends one notification with a fresh identifier; a notification is
 * removed by identifier, or all of them at once.
 */
module Notifications {
  import opened Wrappers
  import opened Text
  import opened Lists

  datatype Kind = Success | Error | Warning | Info

  datatype Notification = Notification(id: string, kind: Kind, title: Option<string>, message: string, duration: int)

  /** The identifier handed out for the `k`-th notification. */
  function IdFor(k: nat): (r: string)
    ensures |r| > 13 && r[..13] == "notification-"
  {
    "notification-" + NatToString(k)
  }

  /** Distinct counters give distinct identifiers. */
  lemma IdForInjective(a: nat, b: nat)
    requires IdFor(a) == IdFor(b)
    ensures a == b
  {
    assert IdFor(a)[13..] == NatToString(a);
    assert IdFor(b)[13..] == NatToString(b);
    NatToStringInjective(a, b);
  }

  /** No two notifications in the list share an identifier. */
  predicate UniqueIds(ns: seq<Notification>) {
    forall i, j :: 0 <= i < j < |ns| ==> ns[i].id != ns[j].id
  }

  /** `current.filter(n => n.id !== id)`. */
  function Without(ns: seq<Notification>, id: string): (r: seq<Notification>)
    ensures |r| <= |ns|
    ensures forall i :: 0 <= i < |r| ==> r[i].id != id
  {
    Filter(ns, (n: Notification) => n.id != id)
  }

  /** Exactly the entries with another identifier stay. */
  lemma WithoutMembers(ns: seq<Notification>, id: string)
    ensures forall n :: n in Without(ns, id) <==> n in ns && n.id != id
  {
    FilterMembers(ns, (n: Notification) => n.id != id);
  }

  /** Removing twice is removing once. */
  lemma WithoutIdempotent(ns: seq<Notification>, id: string)
    ensures Without(Without(ns, id), id) == Without(ns, id)
  {
    FilterIdempotent(ns, (n: Notification) => n.id != id);
  }

  /** An identifier no entry has leaves the list as it is. */
  lemma WithoutUnknown(ns: seq<Notification>, id: string)
    requires forall i :: 0 <= i < |ns| ==> ns[i].id != id
    ensures Without(ns, id) == ns
  {
    FilterAllKept(ns, (n: Notification) => n.id != id);
  }

  /** Filtering keeps identifiers unique. */
  lemma {:induction false} WithoutUnique(ns: seq<Notification>, id: string)
    requires UniqueIds(ns)
    ensures UniqueIds(Without(ns, id))
  {
    if ns != [] {
      var init := ns[..|ns| - 1];
      var last := ns[|ns| - 1];
      WithoutUnique(init, id);
      WithoutMembers(init, id);
      if last.id != id {
        var r := Without(ns, id);
        forall i, j | 0 <= i < j < |r| ensures r[i].id != r[j].id {
          if j == |r| - 1 {
            assert r[i] in Without(init, id);
            var k :| 0 <= k < |init| && init[k] == r[i];
            assert ns[k] == r[i];
          }
        }
      }
    }
  }

  /** With unique identifiers, removing one that is present takes away exactly one entry. */
  lemma {:induction false} WithoutPresentUnique(ns: seq<Notification>, id: string, i: nat)
    requires UniqueIds(ns) && i < |ns| && ns[i].id == id
    ensures |Without(ns, id)| == |ns| - 1
  {
    var init := ns[..|ns| - 1];
    if i == |ns| - 1 {
      WithoutUnknown(init, id);
    } else {
      WithoutPresentUnique(init, id, i);
    }
  }

  /** Every identifier in the list was issued before the counter's current value. */
  ghost predicate IssuedBefore(ns: seq<Notification>, nextId: nat) {
    forall n, k :: n in ns && k >= nextId ==> n.id != IdFor(k)
  }

  class NotificationService {
    var notifications: seq<Notification>
    var nextId: nat

    /** Identifiers are unique and none of them is one still to be issued. */
    ghost predicate Valid()
      reads this
    {
      UniqueIds(notifications) && IssuedBefore(notifications, nextId)
    }

    constructor ()
      ensures Valid() && notifications == [] && nextId == 0
    {
      notifications := [];
      nextId := 0;
    }

    /** `addNotification`: one entry with a fresh identifier at the end; the earlier entries unchanged. */
    method AddNotification(kind: Kind, message: string, title: Option<string>, duration: int)
      requires Valid()
      modifies this
      ensures Valid()
      ensures notifications == old(notifications) + [Notification(IdFor(old(nextId)), kind, title, message, duration)]
      ensures nextId == old(nextId) + 1
    {
      var added := Notification(IdFor(nextId), kind, title, message, duration);
      forall k: nat | k >= nextId + 1 ensures added.id != IdFor(k) {
        if added.id == IdFor(k) {
          IdForInjective(nextId, k);
        }
      }
      notifications := notifications + [added];
      nextId := nextId + 1;
    }

    /** `showSuccess`: a success entry, shown for 3000 ms unless told otherwise. */
    method ShowSuccess(message: string, title: Option<string>, duration: Option<int>)
      requires Valid()
      modifies this
      ensures Valid() && nextId == old(nextId) + 1
      ensures notifications == old(notifications) + [Notification(IdFor(old(nextId)), Success, title, message, duration.GetOr(3000))]
    {
      AddNotification(Success, message, title, duration.GetOr(3000));
    }

    /** `showError`: an error entry, shown for 5000 ms unless told otherwise. */
    method ShowError(message: string, title: Option<string>, duration: Option<int>)
      requires Valid()
      modifies this
      ensures Valid() && nextId == old(nextId) + 1
      ensures notifications == old(notifications) + [Notification(IdFor(old(nextId)), Error, title, message, duration.GetOr(5000))]
    {
      AddNotification(Error, message, title, duration.GetOr(5000));
    }

    /** `showWarning`: a warning entry, shown for 4000 ms unless told otherwise. */
    method ShowWarning(message: string, title: Option<string>, duration: Option<int>)
      requires Valid()
      modifies this
      ensures Valid() && nextId == old(nextId) + 1
      ensures notifications == old(notifications) + [Notification(IdFor(old(nextId)), Warning, title, message, duration.GetOr(4000))]
    {
      AddNotification(Warning, message, title, duration.GetOr(4000));
    }

    /** `showInfo`: an info entry, shown for 3000 ms unless told otherwise. */
    method ShowInfo(message: string, title: Option<string>, duration: Option<int>)
      requires Valid()
      modifies this
      ensures Valid() && nextId == old(nextId) + 1
      ensures notifications == old(notifications) + [Notification(IdFor(old(nextId)), Info, title, message, duration.GetOr(3000))]
    {
      AddNotification(Info, message, title, duration.GetOr(3000));
    }

    /** `removeNotification`: every entry with the identifier goes, the rest stay in order. */
    method RemoveNotification(id: string)
      requires Valid()
      modifies this
      ensures Valid() && nextId == old(nextId)
      ensures notifications == Without(old(notifications), id)
    {
      WithoutUnique(notifications, id);
      WithoutMembers(notifications, id);
      notifications := Without(notifications, id);
    }

    /** `clearAll`: nothing left on screen. */
    method ClearAll()
      requires Valid()
      modifies this
      ensures Valid() && nextId == old(nextId)
      ensures notifications == []
    {
      notifications := [];
    }
  }

  /** A notification just shown can be dismissed, and dismissing it removes exactly that one entry. */
  lemma ShownThenRemoved(ns: seq<Notification>, nextId: nat, shown: Notification)
    requires UniqueIds(ns) && IssuedBefore(ns, nextId) && shown.id == IdFor(nextId)
    ensures Without(ns + [shown], shown.id) == ns
  {
    FilterAppend(ns, [shown], (n: Notification) => n.id != shown.id);
    assert [shown][..0] == [];
    WithoutUnknown(ns, shown.id);
  }
}
