/** Expiry warnings: at most one per user and type in any twenty hours. */
module AutoRenewWarnings {

  const RECENT_MS: int := 20 * 60 * 60 * 1000

  datatype Event = Event(user: string, kind: string, at: int)

  predicate Spaced(events: seq<Event>) {
    forall i, k :: 0 <= i < k < |events| && events[i].user == events[k].user && events[i].kind == events[k].kind
      ==> events[i].at + RECENT_MS <= events[k].at
  }

  predicate Notified(events: seq<Event>, user: string, kind: string, now: int) {
    exists i :: 0 <= i < |events| && events[i].user == user && events[i].kind == kind && events[i].at > now - RECENT_MS
  }

  class NotificationTable {
    var events: seq<Event>

    /** Serial use: all earlier events were written before this cycle's `now`. */
    predicate Valid(now: int)
      reads this
    {
      Spaced(events) && forall i :: 0 <= i < |events| ==> events[i].at <= now
    }

    /** `users` are the owners of the rows that expire soon, in query order; `at` is when the new rows are stamped. */
    method CreateExpiryWarnings(users: seq<string>, kind: string, now: int, at: int) returns (created: nat)
      requires Valid(now) && now <= at
      modifies this
      ensures Valid(at)
      ensures old(events) <= events && created == |events| - |old(events)|
      ensures forall i :: |old(events)| <= i < |events| ==> events[i].kind == kind && events[i].at == at
      ensures forall u ::
        Event(u, kind, at) in events[|old(events)|..] <==> u in users && !Notified(old(events), u, kind, now)
    {
      ghost var n := |events|;
      var notified := set i |
        0 <= i < |events| && events[i].kind == kind && events[i].at > now - RECENT_MS :: events[i].user;
      created := 0;
      for i := 0 to |users|
        invariant old(events) <= events && created == |events| - n
        invariant forall k :: n <= k < |events| ==>
          events[k].kind == kind && events[k].at == at && events[k].user in users[..i]
        invariant forall u :: u in notified <==> Notified(old(events), u, kind, now) || (u in users[..i])
        invariant forall k :: n <= k < |events| ==> !Notified(old(events), events[k].user, kind, now)
        invariant forall u ::
          u in users[..i] && !Notified(old(events), u, kind, now) ==> Event(u, kind, at) in events[n..]
        invariant Spaced(events)
      {
        var u := users[i];
        assert users[..i + 1] == users[..i] + [u];
        if u !in notified {
          ghost var before := events;
          notified := notified + {u};
          events := events + [Event(u, kind, at)];
          created := created + 1;
          assert events[n..] == before[n..] + [Event(u, kind, at)];
        }
      }
      assert users[..|users|] == users;
    }
  }
}
