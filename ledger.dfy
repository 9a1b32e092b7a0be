/**
 The usage ledger: the `users` table (user id to PRO flag) and the
 `usage_logs` table (user id and calendar day to seconds used), each a map,
 so the uniqueness of (user_id, date) holds by construction. The pure
 functions below say what each table looks like after an operation; the
 class `Ledger` performs the operations step by step, as the SQL does.
 */
module Ledger {
  import Quota

  /** A calendar day (the code keys records by today's ISO date; any injective naming of days will do). */
  type Day = nat

  /** The key of a `usage_logs` record. */
  type Key = (int, Day)

  /** The users table after making sure `u` has an account: new accounts start on the standard tier. */
  function EnsureUser(users: map<int, bool>, u: int): (r: map<int, bool>)
    ensures r.Keys == users.Keys + {u}
    ensures r[u] == (u in users && users[u])
    ensures forall v :: v in users ==> r[v] == users[v]
  {
    if u in users then users else users[u := false]
  }

  /** Seconds `u` used on `day`; a missing record reads as zero. */
  function Daily(usage: map<Key, int>, u: int, day: Day): int
  {
    if (u, day) in usage then usage[(u, day)] else 0
  }

  /** The usage table after charging `seconds` to `u` on `day`: the record is incremented, or inserted with `seconds`. */
  function Credit(usage: map<Key, int>, u: int, day: Day, seconds: int): (r: map<Key, int>)
    ensures r.Keys == usage.Keys + {(u, day)}
    ensures (u, day) in usage ==> r[(u, day)] == usage[(u, day)] + seconds
    ensures (u, day) !in usage ==> r[(u, day)] == seconds
    ensures forall k :: k in usage && k != (u, day) ==> r[k] == usage[k]
  {
    usage[(u, day) := Daily(usage, u, day) + seconds]
  }

  /** What record `k` adds to user `u`'s total. */
  function Share(k: Key, seconds: int, u: int): int
  {
    if k.0 == u then seconds else 0
  }

  /** The sum of `seconds_used` over all of `u`'s records, zero when there are none. */
  ghost function Total(usage: map<Key, int>, u: int): (t: int)
    // a user with no records has a total of zero
    ensures (forall k :: k in usage ==> k.0 != u) ==> t == 0
    // with no negative records the total is never negative
    ensures (forall k :: k in usage ==> usage[k] >= 0) ==> t >= 0
    decreases |usage|
  {
    if usage == map[] then 0
    else
      var k :| k in usage;
      Share(k, usage[k], u) + Total(usage - {k}, u)
  }

  lemma MapRemoveSize(usage: map<Key, int>, k: Key)
    requires k in usage
    ensures |usage - {k}| == |usage| - 1
  {
    assert (usage - {k}).Keys == usage.Keys - {k};
  }

  /** The total may be taken apart at any record, not only the one Total happens to pick. */
  lemma {:induction false} TotalRemove(usage: map<Key, int>, k: Key, u: int)
    requires k in usage
    ensures Total(usage, u) == Share(k, usage[k], u) + Total(usage - {k}, u)
    decreases |usage|
  {
    var j :| j in usage && Total(usage, u) == Share(j, usage[j], u) + Total(usage - {j}, u);
    if j != k {
      MapRemoveSize(usage, j);
      MapRemoveSize(usage, k);
      TotalRemove(usage - {j}, k, u);
      TotalRemove(usage - {k}, j, u);
      assert usage - {j} - {k} == usage - {k} - {j};
    }
  }

  /** Two charges on the same day add up: the second is an increment, not a replacement. */
  lemma CreditAccumulates(usage: map<Key, int>, u: int, day: Day, s1: int, s2: int)
    ensures Credit(Credit(usage, u, day, s1), u, day, s2) == Credit(usage, u, day, s1 + s2)
    ensures Daily(Credit(Credit(usage, u, day, s1), u, day, s2), u, day) == Daily(usage, u, day) + s1 + s2
  {
  }

  /** A charge touches only its own (user, day) record. */
  lemma CreditElsewhere(usage: map<Key, int>, u: int, day: Day, seconds: int, v: int, d: Day)
    requires (v, d) != (u, day)
    ensures Daily(Credit(usage, u, day, seconds), v, d) == Daily(usage, v, d)
  {
  }

  /** A charge raises the charged user's total by exactly `seconds` and leaves every other user's total alone. */
  lemma CreditTotal(usage: map<Key, int>, u: int, day: Day, seconds: int, v: int)
    ensures Total(Credit(usage, u, day, seconds), v) == Total(usage, v) + Share((u, day), seconds, v)
  {
    var k := (u, day);
    var after := Credit(usage, u, day, seconds);
    TotalRemove(after, k, v);
    assert after - {k} == usage - {k};
    if k in usage {
      TotalRemove(usage, k, v);
    } else {
      assert usage - {k} == usage;
    }
  }

  /** With no negative records, one day's usage never exceeds the total. */
  lemma {:induction false} DailyWithinTotal(usage: map<Key, int>, u: int, day: Day)
    requires forall k :: k in usage ==> usage[k] >= 0
    ensures 0 <= Daily(usage, u, day) <= Total(usage, u)
  {
    if (u, day) in usage {
      TotalRemove(usage, (u, day), u);
      assert forall k :: k in usage - {(u, day)} ==> (usage - {(u, day)})[k] >= 0;
    }
  }

  /** After a user is set to a tier, looking the account up again returns that tier. */
  lemma TierSticks(users: map<int, bool>, u: int, b: bool)
    ensures EnsureUser(EnsureUser(users, u)[u := b], u)[u] == b
  {
  }

  /** Looking an account up twice is the same as looking it up once. */
  lemma EnsureUserIdempotent(users: map<int, bool>, u: int)
    ensures EnsureUser(EnsureUser(users, u), u) == EnsureUser(users, u)
  {
  }

  class Ledger {
    var users: map<int, bool>
    var usage: map<Key, int>

    /** An empty database, as `init_database` leaves it on first start. */
    constructor ()
      ensures users == map[] && usage == map[]
    {
      users := map[];
      usage := map[];
    }

    /** Returns the PRO flag of `u`, creating a standard account first when `u` is unknown. */
    method GetOrCreateUser(u: int) returns (isPro: bool)
      modifies this
      ensures users == EnsureUser(old(users), u)
      ensures isPro == (u in old(users) && old(users)[u])
      ensures usage == old(usage)
    {
      if u in users {
        isPro := users[u];
      } else {
        users := users[u := false];
        isPro := false;
      }
    }

    /** Seconds `u` used on `today`, zero when there is no record. */
    method GetDailyUsage(u: int, today: Day) returns (seconds: int)
      ensures seconds == Daily(usage, u, today)
    {
      seconds := if (u, today) in usage then usage[(u, today)] else 0;
    }

    /** Adds `seconds` to `u`'s record for `today`: an UPDATE, then an INSERT when no row was updated. */
    method AddUsage(u: int, today: Day, seconds: int)
      modifies this
      ensures usage == Credit(old(usage), u, today, seconds)
      ensures users == old(users)
    {
      var rowcount := 0;
      if (u, today) in usage {
        usage := usage[(u, today) := usage[(u, today)] + seconds];
        rowcount := 1;
      }
      if rowcount == 0 {
        usage := usage[(u, today) := seconds];
      }
    }

    /** Creates `u` if needed, then stores the PRO flag `isPro`. */
    method SetProStatus(u: int, isPro: bool) returns (ok: bool)
      modifies this
      ensures users == old(users)[u := isPro]
      ensures usage == old(usage)
      ensures ok
    {
      var _ := GetOrCreateUser(u);
      if u in users {
        users := users[u := isPro];
      }
      ok := true;
    }

    /** The sum of `u`'s `seconds_used` over every day, zero when there are no records. */
    method SumUsage(u: int) returns (total: int)
      ensures total == Total(usage, u)
    {
      var rest := usage;
      total := 0;
      while rest != map[]
        invariant total + Total(rest, u) == Total(usage, u)
        decreases |rest|
      {
        var k :| k in rest;
        TotalRemove(rest, k, u);
        MapRemoveSize(rest, k);
        if k.0 == u {
          total := total + rest[k];
        }
        rest := rest - {k};
      }
    }

    /** The tier, today's usage and the total usage of `u`, creating the account when it is missing. */
    method GetUserStats(u: int, today: Day) returns (isPro: bool, daily: int, total: int)
      modifies this
      ensures users == EnsureUser(old(users), u)
      ensures usage == old(usage)
      ensures isPro == users[u]
      ensures daily == Daily(usage, u, today)
      ensures total == Total(usage, u)
    {
      isPro := GetOrCreateUser(u);
      daily := GetDailyUsage(u, today);
      total := SumUsage(u);
    }

    /**
     Decides whether `u` may submit a recording of `duration` seconds on `today`
     and returns the text shown to the user. Creates the account as a side effect.
     */
    method CanProcessVoice(u: int, duration: int, today: Day) returns (allowed: bool, reason: string)
      modifies this
      ensures users == EnsureUser(old(users), u)
      ensures usage == old(usage)
      ensures allowed == Quota.Decide(users[u], Daily(usage, u, today), duration).admitted
      ensures reason == Quota.Render(Quota.Decide(users[u], Daily(usage, u, today), duration).reason)
    {
      var isPro, daily, _ := GetUserStats(u, today);
      var d := Quota.Decide(isPro, daily, duration);
      allowed := d.admitted;
      reason := Quota.Render(d.reason);
    }
  }
}
