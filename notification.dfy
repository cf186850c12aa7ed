/**
 * The notification store (src/stores/notification.ts): the live list of
 * messages shown to the user. Every notification gets the next value of a
 * counter as its id; one with a positive timeout schedules its own removal.
 */
module Notifications {
  import opened Sequences

  datatype NotificationType =
    | Add | Edit | Complete | Reopen | Delete | Name | Locale | ThemeLight | ThemeDark | City | Error

  datatype Notification = Notification(id: int, message: string, kind: NotificationType, timeout: int)

  /** The timeout `add` uses when the caller gives none. */
  const DefaultTimeout: int := 3500

  /** The timeout of the `error` emitter. */
  const ErrorTimeout: int := 5000

  /** `notifications.filter(n => n.id !== id)`. */
  function Dismissed(ns: seq<Notification>, id: int): seq<Notification> {
    Filter(ns, (n: Notification) => n.id != id)
  }

  /** Ids strictly increase along the list. */
  ghost predicate Ascending(ns: seq<Notification>) {
    forall i, j :: 0 <= i < j < |ns| ==> ns[i].id < ns[j].id
  }

  /** Dismissing keeps exactly the notifications with another id. */
  lemma DismissedMembers(ns: seq<Notification>, id: int)
    ensures forall n :: n in Dismissed(ns, id) <==> n in ns && n.id != id
  {
  }

  /** Dismissing twice is dismissing once. */
  lemma DismissedIdempotent(ns: seq<Notification>, id: int)
    ensures Dismissed(Dismissed(ns, id), id) == Dismissed(ns, id)
  {
    FilterIdempotent(ns, (n: Notification) => n.id != id);
  }

  /** Dismissing an id no notification carries, say after its timer fired, changes nothing. */
  lemma DismissedAbsent(ns: seq<Notification>, id: int)
    requires forall i :: 0 <= i < |ns| ==> ns[i].id != id
    ensures Dismissed(ns, id) == ns
  {
    FilterKeepsAll(ns, (n: Notification) => n.id != id);
  }

  /** Dismissing keeps the list in ascending id order. */
  lemma {:induction false} DismissedAscending(ns: seq<Notification>, id: int)
    requires Ascending(ns)
    ensures Ascending(Dismissed(ns, id))
  {
    if ns != [] {
      var rest := Dismissed(ns[1..], id);
      assert Ascending(ns[1..]);
      DismissedAscending(ns[1..], id);
      if ns[0].id != id {
        var r := [ns[0]] + rest;
        assert forall n :: n in rest ==> n in ns[1..];
        forall i, j | 0 <= i < j < |r| ensures r[i].id < r[j].id {
          if i == 0 {
            assert r[j] in ns[1..];
          }
        }
      }
    }
  }

  class NotificationStore {
    var notifications: seq<Notification>
    var idCounter: int
    /** Ids whose removal timer is scheduled and has not fired yet. */
    var timers: set<int>

    ghost predicate Valid()
      reads this
    {
      && 0 <= idCounter
      && Ascending(notifications)
      && (forall n :: n in notifications ==> 1 <= n.id <= idCounter)
      && (forall id :: id in timers ==> 1 <= id <= idCounter)
      && (forall n :: n in notifications && n.timeout > 0 ==> n.id in timers)
    }

    constructor ()
      ensures Valid()
      ensures notifications == [] && idCounter == 0 && timers == {}
    {
      notifications, idCounter, timers := [], 0, {};
    }

    /**
     * `add(message, type, timeout)`: the counter moves up by one and its new
     * value, larger than every id handed out before, is the id of the entry
     * appended at the end; a positive timeout schedules that id's removal.
     */
    method Add(message: string, kind: NotificationType, timeout: int := DefaultTimeout)
      requires Valid()
      modifies this
      ensures Valid()
      ensures idCounter == old(idCounter) + 1
      ensures notifications == old(notifications) + [Notification(idCounter, message, kind, timeout)]
      ensures timers == if timeout > 0 then old(timers) + {idCounter} else old(timers)
      ensures forall n :: n in old(notifications) ==> n.id < idCounter
      ensures idCounter !in old(timers)
    {
      idCounter := idCounter + 1;
      var id := idCounter;
      notifications := notifications + [Notification(id, message, kind, timeout)];
      if timeout > 0 {
        timers := timers + {id};
      }
    }

    /** `remove(id)`: drops the entries with that id and keeps the rest in order; the counter and timers stay. */
    method Remove(id: int)
      requires Valid()
      modifies this
      ensures Valid()
      ensures notifications == Dismissed(old(notifications), id)
      ensures idCounter == old(idCounter) && timers == old(timers)
    {
      DismissedAscending(notifications, id);
      DismissedMembers(notifications, id);
      notifications := Dismissed(notifications, id);
    }

    /** The scheduled callback `() => remove(id)` runs: its timer is spent and `remove(id)` happens. */
    method Expire(id: int)
      requires Valid()
      requires id in timers
      modifies this
      ensures Valid()
      ensures notifications == Dismissed(old(notifications), id)
      ensures idCounter == old(idCounter) && timers == old(timers) - {id}
    {
      Remove(id);
      DismissedMembers(old(notifications), id);
      timers := timers - {id};
    }

    method AddTodo(msg: string)
      requires Valid()
      modifies this
      ensures Valid() && idCounter == old(idCounter) + 1
      ensures notifications == old(notifications) + [Notification(idCounter, msg, NotificationType.Add, DefaultTimeout)]
      ensures timers == old(timers) + {idCounter}
    {
      Add(msg, NotificationType.Add);
    }

    method EditTodo(msg: string)
      requires Valid()
      modifies this
      ensures Valid() && idCounter == old(idCounter) + 1
      ensures notifications == old(notifications) + [Notification(idCounter, msg, NotificationType.Edit, DefaultTimeout)]
      ensures timers == old(timers) + {idCounter}
    {
      Add(msg, NotificationType.Edit);
    }

    method CompleteTodo(msg: string)
      requires Valid()
      modifies this
      ensures Valid() && idCounter == old(idCounter) + 1
      ensures notifications == old(notifications) + [Notification(idCounter, msg, NotificationType.Complete, DefaultTimeout)]
      ensures timers == old(timers) + {idCounter}
    {
      Add(msg, NotificationType.Complete);
    }

    method ReopenTodo(msg: string)
      requires Valid()
      modifies this
      ensures Valid() && idCounter == old(idCounter) + 1
      ensures notifications == old(notifications) + [Notification(idCounter, msg, NotificationType.Reopen, DefaultTimeout)]
      ensures timers == old(timers) + {idCounter}
    {
      Add(msg, NotificationType.Reopen);
    }

    method DeleteTodo(msg: string)
      requires Valid()
      modifies this
      ensures Valid() && idCounter == old(idCounter) + 1
      ensures notifications == old(notifications) + [Notification(idCounter, msg, NotificationType.Delete, DefaultTimeout)]
      ensures timers == old(timers) + {idCounter}
    {
      Add(msg, NotificationType.Delete);
    }

    method UpdateName(msg: string)
      requires Valid()
      modifies this
      ensures Valid() && idCounter == old(idCounter) + 1
      ensures notifications == old(notifications) + [Notification(idCounter, msg, NotificationType.Name, DefaultTimeout)]
      ensures timers == old(timers) + {idCounter}
    {
      Add(msg, NotificationType.Name);
    }

    method ChangeLocale(msg: string)
      requires Valid()
      modifies this
      ensures Valid() && idCounter == old(idCounter) + 1
      ensures notifications == old(notifications) + [Notification(idCounter, msg, NotificationType.Locale, DefaultTimeout)]
      ensures timers == old(timers) + {idCounter}
    {
      Add(msg, NotificationType.Locale);
    }

    /** `changeTheme(light, msg)`: type 'theme_light' for light, 'theme_dark' otherwise. */
    method ChangeTheme(light: bool, msg: string)
      requires Valid()
      modifies this
      ensures Valid() && idCounter == old(idCounter) + 1
      ensures notifications == old(notifications) +
        [Notification(idCounter, msg, if light then NotificationType.ThemeLight else NotificationType.ThemeDark, DefaultTimeout)]
      ensures timers == old(timers) + {idCounter}
    {
      Add(msg, if light then NotificationType.ThemeLight else NotificationType.ThemeDark);
    }

    method SaveCity(msg: string)
      requires Valid()
      modifies this
      ensures Valid() && idCounter == old(idCounter) + 1
      ensures notifications == old(notifications) + [Notification(idCounter, msg, NotificationType.City, DefaultTimeout)]
      ensures timers == old(timers) + {idCounter}
    {
      Add(msg, NotificationType.City);
    }

    /** `error(msg)`: the one emitter with a timeout of its own, 5000. */
    method Error(msg: string)
      requires Valid()
      modifies this
      ensures Valid() && idCounter == old(idCounter) + 1
      ensures notifications == old(notifications) + [Notification(idCounter, msg, NotificationType.Error, ErrorTimeout)]
      ensures timers == old(timers) + {idCounter}
    {
      Add(msg, NotificationType.Error, ErrorTimeout);
    }
  }
}
