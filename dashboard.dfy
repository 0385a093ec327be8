/** The organizer dashboard: a password gate persisted in local storage, the
    event configuration handed to the QR generator, and a view of the shared
    analytics record that is re-read every five seconds. */
module Dashboard {
  import opened Wrappers
  import Decimal
  import Analytics

  const DefaultEventId := "mugen-la-2025"
  const DefaultBaseUrl := "https://mugen-poap-mint.vercel.app"
  const DefaultRefreshInterval := 30000
  const DefaultPassword := "mugen2025"
  /** The value of the `mugen-organizer-auth` entry once logged in. */
  const AuthFlag := "true"

  /** The configuration handed to the QR generator. */
  datatype EventConfig = EventConfig(eventId: string, baseUrl: string, refreshInterval: int)

  /** One `updateEventConfig(key, value)` call from the three inputs. */
  datatype ConfigUpdate =
    | SetEventId(eventId: string)
    | SetBaseUrl(baseUrl: string)
    | SetRefreshInterval(ms: int)

  /** The message under the login form. */
  datatype LoginError = NoError | InvalidPassword

  /** The error paragraph renders only for a non-empty message. */
  function ErrorMessage(e: LoginError): (text: string)
    ensures text == "" <==> e == NoError
  {
    match e
    case NoError => ""
    case InvalidPassword => "Invalid password. Please try again."
  }

  /** The figures the statistics card shows. */
  datatype DisplayStats = DisplayStats(
    totalScans: int,
    totalMints: int,
    totalRefreshes: int,
    lastActivity: Option<string>,
    activeUsers: int)

  const ZeroDisplay := DisplayStats(0, 0, 0, None, 0)

  /** `process.env.X || fallback`: an unset or empty variable yields the fallback. */
  function EnvOr(env: string, fallback: string): string {
    if env != "" then env else fallback
  }

  /** The configuration a freshly mounted dashboard starts from. */
  function InitialConfig(envEventId: string): EventConfig {
    EventConfig(EnvOr(envEventId, DefaultEventId), DefaultBaseUrl, DefaultRefreshInterval)
  }

  /** `setEventConfig(prev => ({...prev, [key]: value}))`: the named field takes
      the new value and the other two are kept. */
  function UpdateConfig(c: EventConfig, u: ConfigUpdate): (r: EventConfig)
    ensures u.SetEventId? ==> r.eventId == u.eventId && r.baseUrl == c.baseUrl && r.refreshInterval == c.refreshInterval
    ensures u.SetBaseUrl? ==> r.baseUrl == u.baseUrl && r.eventId == c.eventId && r.refreshInterval == c.refreshInterval
    ensures u.SetRefreshInterval? ==> r.refreshInterval == u.ms && r.eventId == c.eventId && r.baseUrl == c.baseUrl
  {
    match u
    case SetEventId(e) => c.(eventId := e)
    case SetBaseUrl(b) => c.(baseUrl := b)
    case SetRefreshInterval(ms) => c.(refreshInterval := ms)
  }

  /** Setting a field twice keeps only the second value. */
  lemma UpdateConfigLastWins(c: EventConfig, u: ConfigUpdate, v: ConfigUpdate)
    requires (u.SetEventId? && v.SetEventId?) || (u.SetBaseUrl? && v.SetBaseUrl?) ||
             (u.SetRefreshInterval? && v.SetRefreshInterval?)
    ensures UpdateConfig(UpdateConfig(c, u), v) == UpdateConfig(c, v)
  {
  }

  /** `setEventConfig` on fields other than the one named commutes: the order in
      which two different inputs are edited does not matter. */
  lemma UpdateConfigCommutes(c: EventConfig, u: ConfigUpdate, v: ConfigUpdate)
    requires u.SetEventId? ==> !v.SetEventId?
    requires u.SetBaseUrl? ==> !v.SetBaseUrl?
    requires u.SetRefreshInterval? ==> !v.SetRefreshInterval?
    ensures UpdateConfig(UpdateConfig(c, u), v) == UpdateConfig(UpdateConfig(c, v), u)
  {
  }

  /** The stored flag authenticates a mount only when it is exactly `"true"`. */
  predicate Restores(auth: Option<string>) {
    auth == Some(AuthFlag)
  }

  /** `loadStats`: each counter defaults to 0 and an absent or empty
      `lastActivity` shows as none (`|| null`). */
  function ShowStats(s: Analytics.Stats): (d: DisplayStats)
    ensures d.totalScans == Analytics.Count(s, Analytics.TotalScans)
    ensures d.totalMints == Analytics.Count(s, Analytics.TotalMints)
    ensures d.totalRefreshes == Analytics.Count(s, Analytics.TotalRefreshes)
    ensures d.activeUsers == Analytics.Count(s, Analytics.ActiveUsers)
    ensures d.lastActivity.Some? <==> Analytics.LastActivity in s.stamps && s.stamps[Analytics.LastActivity] != ""
    ensures d.lastActivity.Some? ==> d.lastActivity.value == s.stamps[Analytics.LastActivity]
  {
    DisplayStats(
      Analytics.Count(s, Analytics.TotalScans),
      Analytics.Count(s, Analytics.TotalMints),
      Analytics.Count(s, Analytics.TotalRefreshes),
      if Analytics.LastActivity in s.stamps && s.stamps[Analytics.LastActivity] != ""
      then Some(s.stamps[Analytics.LastActivity]) else None,
      Analytics.Count(s, Analytics.ActiveUsers))
  }

  /** The `{}` an absent entry reads as shows exactly what a cleared dashboard shows. */
  lemma ShowEmpty()
    ensures ShowStats(Analytics.Empty) == ZeroDisplay
  {
  }

  /** How one increment by any writer of the program shows on the dashboard:
      the figure for the incremented counter rises by one and the others stay;
      the last-activity line changes only when the writer stamps
      `lastActivity`. So a scan or a mint moves it, a QR refresh does not, an
      organizer login is invisible, and no writer changes the active-user
      figure. */
  lemma {:induction false} ShowAfterBump(s: Analytics.Stats, key: string, stampKey: string, stamp: string)
    requires key != Analytics.ActiveUsers
    ensures var before, after := ShowStats(s), ShowStats(Analytics.Bump(s, key, stampKey, stamp));
      && after.totalScans == before.totalScans + (if key == Analytics.TotalScans then 1 else 0)
      && after.totalMints == before.totalMints + (if key == Analytics.TotalMints then 1 else 0)
      && after.totalRefreshes == before.totalRefreshes + (if key == Analytics.TotalRefreshes then 1 else 0)
      && after.activeUsers == before.activeUsers
      && (stampKey == Analytics.LastActivity ==> after.lastActivity == if stamp == "" then None else Some(stamp))
      && (stampKey != Analytics.LastActivity ==> after.lastActivity == before.lastActivity)
  {
    var r := Analytics.Bump(s, key, stampKey, stamp);
    if stampKey != Analytics.LastActivity {
      assert Analytics.LastActivity in r.stamps <==> Analytics.LastActivity in s.stamps;
    }
  }

  /** An organizer login leaves the whole statistics card as it was. */
  lemma LoginInvisible(s: Analytics.Stats, stamp: string)
    ensures ShowStats(Analytics.Bump(s, Analytics.OrganizerLogins, Analytics.LastOrganizerLogin, stamp)) == ShowStats(s)
  {
    ShowAfterBump(s, Analytics.OrganizerLogins, Analytics.LastOrganizerLogin, stamp);
  }

  /** The download name of an export: `mugen-stats-<now in ms>.json`. The
      digits between prefix and extension read back as the time and have no
      leading zero, so they are the only decimal text of it. */
  function ExportFileName(nowMs: nat): (name: string)
    ensures |name| > 17 && name[..12] == "mugen-stats-" && name[|name| - 5..] == ".json"
    ensures Decimal.AllDigits(name[12..|name| - 5]) && Decimal.Value(name[12..|name| - 5]) == nowMs
    ensures |name| > 18 ==> name[12] != '0'
  {
    var digits := Decimal.Render(nowMs);
    var name := "mugen-stats-" + digits + ".json";
    assert name[12..|name| - 5] == digits;
    name
  }

  /** Exports taken at different milliseconds get different file names. */
  lemma ExportFileNamesDistinct(t1: nat, t2: nat)
    requires t1 != t2
    ensures ExportFileName(t1) != ExportFileName(t2)
  {
  }

  /** The mounted dashboard. Local storage is the shared `store`; environment
      variables arrive as strings, empty when unset. */
  class OrganizerDashboard {
    const store: Analytics.Store
    var isAuthenticated: bool
    var password: string
    var error: LoginError
    var config: EventConfig
    var display: DisplayStats
    var fullscreenQR: bool

    /** Mounting: the config from the environment, authenticated exactly when
        the stored flag is `"true"`, and the statistics read once. */
    constructor(store: Analytics.Store, envEventId: string)
      ensures this.store == store
      ensures isAuthenticated <==> Restores(store.organizerAuth)
      ensures password == "" && error == NoError && !fullscreenQR
      ensures config.eventId == (if envEventId == "" then DefaultEventId else envEventId)
      ensures config.baseUrl == DefaultBaseUrl && config.refreshInterval == DefaultRefreshInterval
      ensures display == ShowStats(store.Read())
    {
      this.store := store;
      isAuthenticated := store.organizerAuth == Some(AuthFlag);
      password := "";
      error := NoError;
      config := InitialConfig(envEventId);
      fullscreenQR := false;
      display := ShowStats(store.Read());
    }

    /** The password input's `onChange`. */
    method TypePassword(text: string)
      modifies this`password
      ensures password == text
    {
      password := text;
    }

    /** `loadStats`, run every five seconds and whenever the authentication
        flag changes. */
    method Poll()
      modifies this`display
      ensures display == ShowStats(store.Read())
    {
      display := ShowStats(store.Read());
    }

    /** `handleLogin`: the expected password is the environment's, or
        `"mugen2025"` when unset. A match authenticates, clears the error,
        persists the flag and counts the login with a stamp; the statistics are
        then re-read because the flag changed. A mismatch shows the error and
        empties the input; nothing is stored. */
    method HandleLogin(envPassword: string, stamp: string) returns (success: bool)
      modifies this, store
      ensures success <==> old(password) == EnvOr(envPassword, DefaultPassword)
      ensures success ==> isAuthenticated && error == NoError && password == old(password)
      ensures success ==> Restores(store.organizerAuth)
      ensures success ==>
        store.stats == Some(Analytics.Bump(old(store.Read()), Analytics.OrganizerLogins, Analytics.LastOrganizerLogin, stamp))
      ensures success && !old(isAuthenticated) ==> display == ShowStats(store.Read())
      ensures success && old(isAuthenticated) ==> display == old(display)
      ensures !success ==> isAuthenticated == old(isAuthenticated) && error == InvalidPassword && password == ""
      ensures !success ==> store.stats == old(store.stats) && store.organizerAuth == old(store.organizerAuth)
      ensures !success ==> display == old(display)
      ensures config == old(config) && fullscreenQR == old(fullscreenQR)
    {
      var was := isAuthenticated;
      success := password == EnvOr(envPassword, DefaultPassword);
      if success {
        isAuthenticated := true;
        error := NoError;
        store.SetOrganizerAuth(Some(AuthFlag));
        store.Increment(Analytics.OrganizerLogins, Analytics.LastOrganizerLogin, stamp);
        if !was {
          Poll();
        }
      } else {
        error := InvalidPassword;
        password := "";
      }
    }

    /** `handleLogout`: drop the flag, empty the input and remove the stored
        flag, so the next mount asks for the password again; the statistics
        are re-read when the flag changed. */
    method HandleLogout()
      modifies this, store
      ensures !isAuthenticated && password == ""
      ensures store.organizerAuth == None && !Restores(store.organizerAuth)
      ensures store.stats == old(store.stats)
      ensures old(isAuthenticated) ==> display == ShowStats(store.Read())
      ensures !old(isAuthenticated) ==> display == old(display)
      ensures error == old(error) && config == old(config) && fullscreenQR == old(fullscreenQR)
    {
      var was := isAuthenticated;
      isAuthenticated := false;
      password := "";
      store.SetOrganizerAuth(None);
      if was {
        Poll();
      }
    }

    /** `updateEventConfig`, wired to the three configuration inputs. */
    method UpdateEventConfig(u: ConfigUpdate)
      modifies this`config
      ensures config == UpdateConfig(old(config), u)
    {
      config := UpdateConfig(config, u);
    }

    /** `clearStats`: only after the confirmation dialog is accepted, remove
        the record and show zeros. */
    method ClearStats(confirmed: bool)
      modifies this`display, store
      ensures confirmed ==> store.stats == None && display == ZeroDisplay
      ensures confirmed ==> display == ShowStats(store.Read())
      ensures !confirmed ==> store.stats == old(store.stats) && display == old(display)
      ensures store.organizerAuth == old(store.organizerAuth)
    {
      if confirmed {
        store.ClearStats();
        display := ZeroDisplay;
        ShowEmpty();
      }
    }

    /** `exportStats`: the stored record as parsed (`{}` when absent) under a
        time-stamped file name; nothing changes. */
    method ExportStats(nowMs: nat) returns (fileName: string, document: Analytics.Stats)
      ensures fileName == ExportFileName(nowMs)
      ensures document == store.Read()
      ensures store.stats.None? ==> forall key :: Analytics.Count(document, key) == 0
    {
      fileName := ExportFileName(nowMs);
      document := store.Read();
    }

    /** The `onScan` callback handed to the embedded generator: one scan,
        stamped as activity. */
    method OnScan(stamp: string)
      modifies store
      ensures store.stats == Some(Analytics.Bump(old(store.Read()), Analytics.TotalScans, Analytics.LastActivity, stamp))
      ensures store.organizerAuth == old(store.organizerAuth)
    {
      store.Increment(Analytics.TotalScans, Analytics.LastActivity, stamp);
    }

    /** The "Fullscreen QR" button and the generator's exit callback. */
    method SetFullscreen(on: bool)
      modifies this`fullscreenQR
      ensures fullscreenQR == on
    {
      fullscreenQR := on;
    }
  }
}
