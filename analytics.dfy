/** The shared analytics record stored under the `mugen-qr-stats` key of the
    browser's local storage, and the organizer flag under
    `mugen-organizer-auth`. Every writer in the program does the same thing:
    parse the stored record (absent means `{}`), default the counter to 0, add
    one, stamp a time field, and write the whole record back. */
module Analytics {
  import opened Wrappers

  // Counter fields.
  const TotalScans := "totalScans"
  const TotalMints := "totalMints"
  const TotalRefreshes := "totalRefreshes"
  const OrganizerLogins := "organizerLogins"
  const ActiveUsers := "activeUsers"
  // Timestamp fields (ISO-8601 text supplied by the clock).
  const LastActivity := "lastActivity"
  const LastRefresh := "lastRefresh"
  const LastOrganizerLogin := "lastOrganizerLogin"

  /** The parsed record: numeric counters and timestamp strings. */
  datatype Stats = Stats(counters: map<string, int>, stamps: map<string, string>)

  const Empty := Stats(map[], map[])

  /** `stats[key] || 0`. */
  function Count(s: Stats, key: string): int {
    if key in s.counters then s.counters[key] else 0
  }

  /** The record after one increment of `key` stamped with `stamp` in `stampKey`:
      that counter is one more than before (0 when it was missing), the stamp
      is set, and every other counter and stamp is as it was. */
  function Bump(s: Stats, key: string, stampKey: string, stamp: string): (r: Stats)
    ensures Count(r, key) == Count(s, key) + 1
    ensures forall k :: k != key ==> Count(r, k) == Count(s, k)
    ensures r.counters.Keys == s.counters.Keys + {key}
    ensures stampKey in r.stamps && r.stamps[stampKey] == stamp
    ensures forall k :: k != stampKey ==> (k in r.stamps <==> k in s.stamps)
    ensures forall k :: k != stampKey && k in s.stamps ==> r.stamps[k] == s.stamps[k]
  {
    Stats(s.counters[key := Count(s, key) + 1], s.stamps[stampKey := stamp])
  }

  /** Increments never lower a counter: every counter is monotone between clears. */
  lemma BumpMonotone(s: Stats, key: string, stampKey: string, stamp: string, k: string)
    ensures Count(s, k) <= Count(Bump(s, key, stampKey, stamp), k)
  {
  }

  /** Two increments of the same key raise it by two and leave the rest alone:
      no increment is lost when writers run one after the other. */
  lemma BumpTwice(s: Stats, key: string, stampKey: string, t1: string, t2: string)
    ensures var r := Bump(Bump(s, key, stampKey, t1), key, stampKey, t2);
      Count(r, key) == Count(s, key) + 2 &&
      (forall k :: k != key ==> Count(r, k) == Count(s, k)) &&
      r.stamps[stampKey] == t2
  {
  }

  /** The browser's local storage, shared by every page and component. */
  class Store {
    /** The `mugen-qr-stats` entry; `None` when absent. */
    var stats: Option<Stats>
    /** The `mugen-organizer-auth` entry; `None` when absent. */
    var organizerAuth: Option<string>

    constructor(stats: Option<Stats>, organizerAuth: Option<string>)
      ensures this.stats == stats && this.organizerAuth == organizerAuth
    {
      this.stats := stats;
      this.organizerAuth := organizerAuth;
    }

    /** `JSON.parse(localStorage.getItem('mugen-qr-stats') || '{}')`, the
        record as every reader parses it: an absent entry reads as `{}`, in
        which every counter defaults to 0; a stored record reads as itself. */
    function Read(): (s: Stats)
      reads this
      ensures stats.None? ==> s == Empty && forall key :: Count(s, key) == 0
      ensures stats.Some? ==> s == stats.value
    {
      match stats
      case None => Empty
      case Some(stored) => stored
    }

    /** Read, default to 0, add 1, stamp, write back. */
    method Increment(key: string, stampKey: string, stamp: string)
      modifies this
      ensures stats == Some(Bump(old(Read()), key, stampKey, stamp))
      ensures organizerAuth == old(organizerAuth)
    {
      var current := Read();
      var counters := current.counters[key := Count(current, key) + 1];
      var stamps := current.stamps[stampKey := stamp];
      stats := Some(Stats(counters, stamps));
    }

    /** `localStorage.removeItem('mugen-qr-stats')`. */
    method ClearStats()
      modifies this
      ensures stats == None && organizerAuth == old(organizerAuth)
      ensures forall key :: Count(Read(), key) == 0
    {
      stats := None;
    }

    /** `localStorage.setItem('mugen-organizer-auth', value)` or `removeItem` for `None`. */
    method SetOrganizerAuth(value: Option<string>)
      modifies this
      ensures organizerAuth == value && stats == old(stats)
    {
      organizerAuth := value;
    }
  }
}
