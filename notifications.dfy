/** The toast notifications (src/lib/hooks/useNotifications.ts): a list that
    grows by appending, shrinks by id, and schedules an automatic removal for
    each notification whose duration is not 0. The random id is an input;
    a scheduled removal is kept as a pending timer until it fires. */
module Notifications {
  import opened Common
  import opened StoreRows

  datatype Kind = Success | Error | Warning | Info

  datatype Notification = Notification(id: string, kind: Kind, message: string, duration: Option<int>)

  function IdOf(n: Notification): string
  {
    n.id
  }

  /** A removal scheduled with `setTimeout`. */
  datatype Timer = Timer(id: string, delay: int)

  const DefaultDelay: int := 5000

  /** The removal `addNotification` schedules: none for a duration of 0,
      otherwise after the duration (`duration || 5000`). */
  function Scheduled(id: string, duration: Option<int>): (t: Option<Timer>)
  {
    if duration == Some(0) then None
    else Some(Timer(id, if duration.Some? then duration.value else DefaultDelay))
  }

  /** A removal is scheduled exactly when the duration is not 0, for the
      new notification, after the given duration or else after 5 seconds. */
  lemma ScheduledProperties(id: string, duration: Option<int>)
    ensures Scheduled(id, duration).Some? <==> duration != Some(0)
    ensures Scheduled(id, duration).Some? ==> Scheduled(id, duration).value.id == id
    ensures duration.None? ==> Scheduled(id, duration) == Some(Timer(id, 5000))
    ensures duration.Some? && duration.value != 0 ==> Scheduled(id, duration) == Some(Timer(id, duration.value))
  {
  }

  /** Removing a freshly added notification by its id gives back the list
      as it was before the addition. */
  lemma AddThenRemove(ns: seq<Notification>, n: Notification)
    requires forall m :: m in ns ==> m.id != n.id
    ensures RemoveById(ns + [n], IdOf, n.id) == ns
  {
    RemoveByIdAppend(ns, [n], IdOf, n.id);
    RemoveByIdProperties(ns, IdOf, n.id);
    assert RemoveById([n], IdOf, n.id) == [];
  }

  class Center {
    var notifications: seq<Notification>
    /** The removals scheduled and not yet fired, in scheduling order. */
    var timers: seq<Timer>

    constructor()
      ensures notifications == [] && timers == []
    {
      notifications, timers := [], [];
    }

    /** `addNotification`: the notification, with its new id, goes after
        the existing ones, and its removal is scheduled (see `Scheduled`). */
    method AddNotification(kind: Kind, message: string, duration: Option<int>, id: string)
      modifies this
      ensures notifications == old(notifications) + [Notification(id, kind, message, duration)]
      ensures duration == Some(0) ==> timers == old(timers)
      ensures duration != Some(0) ==> timers == old(timers) + [Scheduled(id, duration).value]
    {
      notifications := notifications + [Notification(id, kind, message, duration)];
      var t := Scheduled(id, duration);
      if t.Some? {
        timers := timers + [t.value];
      }
    }

    /** `removeNotification`: the notifications with the id leave the list. */
    method RemoveNotification(id: string)
      modifies this
      ensures notifications == RemoveById(old(notifications), IdOf, id)
      ensures timers == old(timers)
    {
      notifications := RemoveById(notifications, IdOf, id);
    }

    /** `clearNotifications`: the list is emptied; scheduled removals stay
        pending and find nothing to remove. */
    method ClearNotifications()
      modifies this
      ensures notifications == [] && timers == old(timers)
    {
      notifications := [];
    }

    /** A pending timer fires: it filters out its notification's id, exactly
        as `removeNotification` does, and is no longer pending. */
    method TimerFires(i: nat)
      requires i < |timers|
      modifies this
      ensures notifications == RemoveById(old(notifications), IdOf, old(timers)[i].id)
      ensures timers == old(timers)[..i] + old(timers)[i + 1..]
    {
      notifications := RemoveById(notifications, IdOf, timers[i].id);
      timers := timers[..i] + timers[i + 1..];
    }

    /** `notify.success`, `notify.error`, `notify.warning`, `notify.info`:
        an `addNotification` of that kind. */
    method Notify(kind: Kind, message: string, duration: Option<int>, id: string)
      modifies this
      ensures notifications == old(notifications) + [Notification(id, kind, message, duration)]
      ensures duration == Some(0) ==> timers == old(timers)
      ensures duration != Some(0) ==> timers == old(timers) + [Scheduled(id, duration).value]
    {
      AddNotification(kind, message, duration, id);
    }
  }
}
