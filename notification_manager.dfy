/**
 * The notification queue behind the toasts: at most three entries, no two
 * with the same message and type, refreshed rather than repeated, swept by
 * age. The clock, the id drawn from it and the sweep's tick are parameters.
 */
module NotificationManager {
  import W = Wrappers
  import opened Sums

  /** The most notifications shown at once. */
  const MaxNotifications: nat := 3

  /** The lifetime, in ms, of an entry whose duration is absent or 0. */
  const FallbackDuration: int := 3000

  /** The extra time, in ms, an entry stays for its closing animation. */
  const AnimationMs: int := 1000

  datatype NotificationType = Success | Error | Info

  datatype NotificationItem = NotificationItem(
    id: int, kind: NotificationType, message: string, duration: W.Option<int>, createdAt: int)

  /** `duration || fallback`: an absent or zero duration is falsy. */
  function DurationOr(duration: W.Option<int>, fallback: int): (r: int)
    ensures duration.Some? && duration.value != 0 ==> r == duration.value
    ensures duration.None? || duration.value == 0 ==> r == fallback
  {
    if duration.Some? && duration.value != 0 then duration.value else fallback
  }

  /** The sweep's test: an entry survives while younger than its duration plus the animation time. */
  function Alive(now: int): NotificationItem -> bool {
    (n: NotificationItem) => now - n.createdAt < DurationOr(n.duration, FallbackDuration) + AnimationMs
  }

  /** The duplicate test of `addNotification`: same message and same type. */
  function SameAs(kind: NotificationType, message: string): NotificationItem -> bool {
    (n: NotificationItem) => n.message == message && n.kind == kind
  }

  /** No two entries carry the same message and type. */
  predicate DistinctKeys(q: seq<NotificationItem>) {
    forall i, j :: 0 <= i < j < |q| ==> !SameAs(q[i].kind, q[i].message)(q[j])
  }

  /** `prev.map(n => n.id === id ? { ...n, createdAt: now } : n)`. */
  function Refreshed(q: seq<NotificationItem>, id: int, now: int): (r: seq<NotificationItem>)
    ensures |r| == |q|
    ensures forall i :: 0 <= i < |q| ==> r[i] == if q[i].id == id then q[i].(createdAt := now) else q[i]
  {
    seq(|q|, i requires 0 <= i < |q| => if q[i].id == id then q[i].(createdAt := now) else q[i])
  }

  /** The last `MaxNotifications` entries: `slice(-MaxNotifications)` once the queue has overflowed. */
  function Newest(q: seq<NotificationItem>): (r: seq<NotificationItem>)
    ensures |r| <= MaxNotifications
    ensures |q| <= MaxNotifications ==> r == q
    ensures |q| > MaxNotifications ==> r == q[|q| - MaxNotifications..]
  {
    if |q| > MaxNotifications then q[|q| - MaxNotifications..] else q
  }

  /** The queue after `addNotification(kind, message, duration)` at time `now`, drawing `id`. */
  function Added(q: seq<NotificationItem>, kind: NotificationType, message: string, duration: W.Option<int>,
                 id: int, now: int): seq<NotificationItem>
  {
    match FindFirst(q, SameAs(kind, message))
    case Some(k) => Refreshed(q, q[k].id, now)
    case None => Newest(q + [NotificationItem(id, kind, message, duration, now)])
  }

  /** Appending a pair not yet queued keeps the pairs distinct. */
  lemma AppendValid(q: seq<NotificationItem>, x: NotificationItem)
    requires DistinctKeys(q) && forall i :: 0 <= i < |q| ==> !SameAs(x.kind, x.message)(q[i])
    ensures DistinctKeys(q + [x])
  {
    var grown := q + [x];
    forall i, j | 0 <= i < j < |grown| ensures !SameAs(grown[i].kind, grown[i].message)(grown[j]) {
      if j == |q| {
        assert !SameAs(x.kind, x.message)(q[i]);
      }
    }
  }

  /** Dropping the oldest entries keeps the pairs distinct. */
  lemma SuffixValid(q: seq<NotificationItem>, k: nat)
    requires DistinctKeys(q) && k <= |q|
    ensures DistinctKeys(q[k..])
  {
    forall i, j | 0 <= i < j < |q| - k ensures !SameAs(q[k..][i].kind, q[k..][i].message)(q[k..][j]) {
      assert q[k..][i] == q[k + i] && q[k..][j] == q[k + j];
    }
  }

  /** Adding keeps the queue within three entries and free of repeated (message, type) pairs. */
  lemma AddedValid(q: seq<NotificationItem>, kind: NotificationType, message: string, duration: W.Option<int>,
                   id: int, now: int)
    requires |q| <= MaxNotifications && DistinctKeys(q)
    ensures |Added(q, kind, message, duration, id, now)| <= MaxNotifications
    ensures DistinctKeys(Added(q, kind, message, duration, id, now))
  {
    match FindFirst(q, SameAs(kind, message))
    case Some(k) =>
      var r := Refreshed(q, q[k].id, now);
      assert forall i :: 0 <= i < |q| ==> r[i].kind == q[i].kind && r[i].message == q[i].message;
    case None =>
      var grown := q + [NotificationItem(id, kind, message, duration, now)];
      AppendValid(q, NotificationItem(id, kind, message, duration, now));
      if |grown| > MaxNotifications {
        SuffixValid(grown, |grown| - MaxNotifications);
      }
  }

  /**
   * A (message, type) pair already queued does not grow the queue: the
   * entry keeps its place, id, text, type and duration, and only its
   * creation time moves to now.
   */
  lemma AddDuplicateRefreshes(q: seq<NotificationItem>, kind: NotificationType, message: string,
                              duration: W.Option<int>, id: int, now: int, k: nat)
    requires DistinctKeys(q) && k < |q| && SameAs(kind, message)(q[k])
    ensures var r := Added(q, kind, message, duration, id, now);
      && |r| == |q|
      && r[k] == q[k].(createdAt := now)
      && forall i :: 0 <= i < |q| ==> r[i] == q[i] || r[i] == q[i].(createdAt := now)
  {
    assert FindFirst(q, SameAs(kind, message)) == W.Some(k);
  }

  /**
   * A new pair is appended at the end; when that overflows the queue the
   * oldest entries are dropped, so the result is the newest three.
   */
  lemma AddNewAppends(q: seq<NotificationItem>, kind: NotificationType, message: string, duration: W.Option<int>,
                      id: int, now: int)
    requires forall i :: 0 <= i < |q| ==> !SameAs(kind, message)(q[i])
    ensures var r := Added(q, kind, message, duration, id, now);
      && |r| == (if |q| < MaxNotifications then |q| + 1 else MaxNotifications)
      && r[|r| - 1] == NotificationItem(id, kind, message, duration, now)
      && r[..|r| - 1] == q[|q| + 1 - |r|..]
  {
    var x := NotificationItem(id, kind, message, duration, now);
    var grown := q + [x];
    assert FindFirst(q, SameAs(kind, message)).None?;
    var r := Newest(grown);
    assert Added(q, kind, message, duration, id, now) == r;
    var d := |grown| - |r|;
    assert r == grown[d..];
    assert r[..|r| - 1] == q[d..];
  }

  /** The queue state of the provider. */
  class NotificationCenter {
    var notifications: seq<NotificationItem>

    predicate Valid()
      reads this
    {
      |notifications| <= MaxNotifications && DistinctKeys(notifications)
    }

    constructor ()
      ensures Valid() && notifications == []
    {
      notifications := [];
    }

    /**
     * `addNotification`: refreshes the entry with the same message and type
     * if there is one, otherwise appends a new one and keeps the newest
     * three. Returns the drawn id in both cases.
     */
    method AddNotification(kind: NotificationType, message: string, duration: W.Option<int>, id: int, now: int)
      returns (r: int)
      requires Valid()
      modifies this
      ensures Valid()
      ensures r == id
      ensures notifications == Added(old(notifications), kind, message, duration, id, now)
    {
      AddedValid(notifications, kind, message, duration, id, now);
      var existing := FindFirst(notifications, SameAs(kind, message));
      if existing.Some? {
        notifications := Refreshed(notifications, notifications[existing.value].id, now);
      } else {
        var newNotifications := notifications + [NotificationItem(id, kind, message, duration, now)];
        if |newNotifications| > MaxNotifications {
          newNotifications := newNotifications[|newNotifications| - MaxNotifications..];
        }
        notifications := newNotifications;
      }
      r := id;
    }

    /** `removeNotification`: drops every entry with that id and keeps the rest in order. */
    method RemoveNotification(id: int)
      requires Valid()
      modifies this
      ensures Valid()
      ensures notifications == Filter(old(notifications), (n: NotificationItem) => n.id != id)
    {
      var before := notifications;
      notifications := Filter(notifications, (n: NotificationItem) => n.id != id);
      FilteredValid(before, (n: NotificationItem) => n.id != id);
    }

    /** The periodic sweep: keeps exactly the entries still alive at `now`. */
    method Sweep(now: int)
      requires Valid()
      modifies this
      ensures Valid()
      ensures notifications == Filter(old(notifications), Alive(now))
    {
      var before := notifications;
      notifications := Filter(notifications, Alive(now));
      FilteredValid(before, Alive(now));
    }

    /** `success(message, duration)`: a success notification lasting 3000 ms unless told otherwise. */
    method NotifySuccess(message: string, duration: W.Option<int>, id: int, now: int) returns (r: int)
      requires Valid()
      modifies this
      ensures Valid() && r == id
      ensures notifications == Added(old(notifications), Success, message, W.Some(DurationOr(duration, 3000)), id, now)
    {
      r := AddNotification(Success, message, W.Some(DurationOr(duration, 3000)), id, now);
    }

    /** `error(message, duration)`: an error notification lasting 5000 ms unless told otherwise. */
    method NotifyError(message: string, duration: W.Option<int>, id: int, now: int) returns (r: int)
      requires Valid()
      modifies this
      ensures Valid() && r == id
      ensures notifications == Added(old(notifications), Error, message, W.Some(DurationOr(duration, 5000)), id, now)
    {
      r := AddNotification(Error, message, W.Some(DurationOr(duration, 5000)), id, now);
    }

    /** `info(message, duration)`: an info notification lasting 4000 ms unless told otherwise. */
    method NotifyInfo(message: string, duration: W.Option<int>, id: int, now: int) returns (r: int)
      requires Valid()
      modifies this
      ensures Valid() && r == id
      ensures notifications == Added(old(notifications), Info, message, W.Some(DurationOr(duration, 4000)), id, now)
    {
      r := AddNotification(Info, message, W.Some(DurationOr(duration, 4000)), id, now);
    }
  }

  /** Filtering keeps a valid queue valid: it only deletes entries. */
  lemma {:induction false} FilteredValid(q: seq<NotificationItem>, p: NotificationItem -> bool)
    requires DistinctKeys(q)
    ensures DistinctKeys(Filter(q, p))
  {
    if q != [] {
      var n := |q| - 1;
      assert DistinctKeys(q[..n]);
      FilteredValid(q[..n], p);
      FilterMembers(q[..n], p);
      var init := Filter(q[..n], p);
      if p(q[n]) {
        var r := init + [q[n]];
        forall i, j | 0 <= i < j < |r| ensures !SameAs(r[i].kind, r[i].message)(r[j]) {
          if j == |init| {
            assert r[i] in q[..n];
          }
        }
      }
    }
  }

  /**
   * Removing by id deletes exactly the entries with that id and keeps the
   * order of the others.
   */
  lemma RemoveExactly(q: seq<NotificationItem>, id: int)
    ensures var r := Filter(q, (n: NotificationItem) => n.id != id);
      && IsSubsequence(r, q)
      && forall n :: n in r <==> n in q && n.id != id
  {
    FilterIsSubsequence(q, (n: NotificationItem) => n.id != id);
    FilterMembers(q, (n: NotificationItem) => n.id != id);
  }

  /** The sweep keeps an entry iff it is younger than its duration (3000 ms when unset or 0) plus one second. */
  lemma SweepKeeps(q: seq<NotificationItem>, now: int)
    ensures var r := Filter(q, Alive(now));
      && IsSubsequence(r, q)
      && forall n :: n in r <==> n in q && now - n.createdAt < DurationOr(n.duration, 3000) + 1000
  {
    FilterIsSubsequence(q, Alive(now));
    FilterMembers(q, Alive(now));
  }

  /** An entry created with a 3000 ms lifetime survives a sweep 3999 ms later and is gone at 4000 ms. */
  lemma SweepBoundary(n: NotificationItem)
    requires n.duration == W.Some(3000) || n.duration == W.None
    ensures Alive(n.createdAt + 3999)(n)
    ensures !Alive(n.createdAt + 4000)(n)
  {
  }
}
