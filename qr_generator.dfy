/** The rotating QR code: a time-stamped URL, a render of it, a one-second
    countdown that triggers a refresh at the bottom, and the refresh counter
    in the shared analytics record. */
module QrGenerator {
  import opened Wrappers
  import Decimal
  import Analytics

  const SourceTag := "qr-generator"

  /** The URL a refresh encodes, with the time in whole seconds. What a
      scanning page reads back from it is stated in `QrHandoff`. */
  function QrUrl(baseUrl: string, eventId: string, nowMs: nat): string {
    baseUrl + "/?eventId=" + eventId + "&qr=mobile&t=" + Decimal.Render(nowMs / 1000) + "&source=" + SourceTag
  }

  /** The countdown length in ticks: `refreshInterval / 1000`. */
  function Period(intervalMs: int): int {
    intervalMs / 1000
  }

  /** Whether a tick at countdown value `prev` triggers a refresh. */
  predicate Fires(prev: int) {
    prev <= 1
  }

  /** The countdown updater: at 1 or below it restarts from the period,
      otherwise it counts down by one. */
  function Countdown(prev: int, period: int): (next: int)
    requires period >= 1
    ensures 1 <= prev <= period ==> 1 <= next <= period
    ensures Fires(prev) ==> next == period
    ensures !Fires(prev) ==> next == prev - 1
  {
    if Fires(prev) then period else prev - 1
  }

  /** The countdown value and the number of refreshes after `n` ticks from `start`. */
  function RunTicks(start: int, n: nat, period: int): (int, nat)
    requires period >= 1
  {
    if n == 0 then (start, 0)
    else
      var (c, fired) := RunTicks(start, n - 1, period);
      (Countdown(c, period), fired + if Fires(c) then 1 else 0)
  }

  /** Started inside [1, period], the countdown never leaves it: it is never 0
      or negative. */
  lemma {:induction false} RunTicksInRange(start: int, n: nat, period: int)
    requires period >= 1 && 1 <= start <= period
    ensures 1 <= RunTicks(start, n, period).0 <= period
  {
    if n > 0 {
      RunTicksInRange(start, n - 1, period);
    }
  }

  /** After `q` whole periods and `r` more ticks from a reset, `q` refreshes
      have fired and the countdown shows `period - r`. */
  lemma {:induction false} RunTicksClosedForm(q: nat, r: nat, period: int)
    requires period >= 1 && r < period
    ensures RunTicks(period, q * period + r, period) == (period - r, q)
    decreases q, r
  {
    if r > 0 {
      RunTicksClosedForm(q, r - 1, period);
    } else if q > 0 {
      assert q * period - 1 == (q - 1) * period + (period - 1);
      RunTicksClosedForm(q - 1, period - 1, period);
    }
  }

  /** From a reset, `n` ticks fire exactly `n / period` refreshes and leave
      `period - n % period` on the countdown. In particular `period` ticks fire
      exactly one refresh and show the full period again. */
  lemma RunTicksFromReset(n: nat, period: int)
    requires period >= 1
    ensures RunTicks(period, n, period) == (period - n % period, n / period)
  {
    var q, r := n / period, n % period;
    assert q * period + r == n;
    RunTicksClosedForm(q, r, period);
  }

  /** One full period from a reset: exactly one refresh, countdown back at the period. */
  lemma OnePeriodOneRefresh(period: int)
    requires period >= 1
    ensures RunTicks(period, period, period) == (period, 1)
    ensures forall k: nat :: k < period ==> RunTicks(period, k, period).1 == 0
  {
    RunTicksFromReset(period, period);
    forall k: nat | k < period ensures RunTicks(period, k, period).1 == 0 {
      RunTicksFromReset(k, period);
    }
  }

  /** `secs.toString().padStart(2, '0')` for `secs < 60`. */
  function Pad2(secs: nat): (s: string)
    requires secs < 60
    ensures |s| == 2 && Decimal.AllDigits(s) && Decimal.Value(s) == secs
  {
    if secs < 10 then
      var s := ['0'] + Decimal.Render(secs);
      Decimal.ValueOfTwo(s[0], s[1]);
      s
    else
      var s := Decimal.Render(secs);
      assert |s| == 2 by {
        if |s| >= 3 { ValueLowerBound(s); }
      }
      s
  }

  /** A digit string of length >= 3 with a non-zero first digit denotes at least 100. */
  lemma {:induction false} ValueLowerBound(s: string)
    requires Decimal.AllDigits(s) && |s| >= 3 && s[0] != '0'
    ensures Decimal.Value(s) >= 100
    decreases |s|
  {
    var init := s[..|s| - 1];
    if |s| == 3 {
      assert init[..1] == s[..1];
      assert Decimal.Value(s[..1]) >= 1 by {
        assert s[..1][..0] == [];
      }
      assert init[..|init| - 1] == s[..1];
    } else {
      assert init[0] == s[0];
      ValueLowerBound(init);
    }
  }

  /** `formatTime(seconds)`: minutes, a colon, and the seconds zero-padded to
      two digits. Reading both parts back gives `seconds / 60` and `seconds % 60`,
      hence `60 * minutes + secs == seconds`. The minutes carry no leading
      zero, so the text is the only one of this shape for `seconds`. */
  function FormatTime(seconds: nat): (r: string)
    ensures |r| >= 4 && r[|r| - 3] == ':'
    ensures |r| > 4 ==> r[0] != '0'
    ensures Decimal.AllDigits(r[..|r| - 3]) && Decimal.AllDigits(r[|r| - 2..])
    ensures Decimal.Value(r[..|r| - 3]) == seconds / 60
    ensures Decimal.Value(r[|r| - 2..]) == seconds % 60
    ensures 60 * Decimal.Value(r[..|r| - 3]) + Decimal.Value(r[|r| - 2..]) == seconds
  {
    var mins := Decimal.Render(seconds / 60);
    var secs := Pad2(seconds % 60);
    var r := mins + ":" + secs;
    assert r[..|r| - 3] == mins;
    assert r[|r| - 2..] == secs;
    r
  }

  /** One mounted QR generator. `eventId`, `baseUrl` and `intervalMs` are its props. */
  class Generator {
    const eventId: string
    const baseUrl: string
    const intervalMs: int
    const store: Analytics.Store

    var qrCodeDataURL: string
    var currentUrl: string
    var timeUntilRefresh: int
    var scanCount: int
    var isGenerating: bool

    ghost predicate Valid()
      reads this
    {
      && intervalMs >= 1000 && intervalMs % 1000 == 0
      && 1 <= timeUntilRefresh <= Period(intervalMs)
    }

    /** Mounting: state starts empty with the countdown at the period, then the
        initial-generation effect performs one refresh (starting a render and
        counting it), and the scan total is read from the record. */
    constructor(store: Analytics.Store, eventId: string, baseUrl: string, intervalMs: int, nowMs: nat, stamp: string)
      requires intervalMs >= 1000 && intervalMs % 1000 == 0
      modifies store
      ensures Valid()
      ensures this.store == store && this.eventId == eventId && this.baseUrl == baseUrl && this.intervalMs == intervalMs
      ensures qrCodeDataURL == "" && currentUrl == "" && isGenerating
      ensures timeUntilRefresh == Period(intervalMs)
      ensures store.stats == Some(Analytics.Bump(old(store.Read()), Analytics.TotalRefreshes, Analytics.LastRefresh, stamp))
      ensures store.organizerAuth == old(store.organizerAuth)
      ensures scanCount == Analytics.Count(store.Read(), Analytics.TotalScans)
    {
      this.store := store;
      this.eventId := eventId;
      this.baseUrl := baseUrl;
      this.intervalMs := intervalMs;
      qrCodeDataURL := "";
      currentUrl := "";
      timeUntilRefresh := intervalMs / 1000;
      scanCount := 0;
      isGenerating := false;
      new;
      var _ := Refresh(nowMs, stamp);
      scanCount := Analytics.Count(store.Read(), Analytics.TotalScans);
    }

    /** `refreshQRCode`: build a new URL, start rendering it, reset the countdown
        and count the refresh with a `lastRefresh` stamp. The image and the URL
        on screen stay as they are until the render completes. */
    method Refresh(nowMs: nat, stamp: string) returns (url: string)
      requires intervalMs >= 1000 && intervalMs % 1000 == 0
      modifies this, store
      ensures url == QrUrl(baseUrl, eventId, nowMs)
      ensures Valid() && timeUntilRefresh == Period(intervalMs)
      ensures isGenerating && !RefreshNowEnabled()
      ensures qrCodeDataURL == old(qrCodeDataURL) && currentUrl == old(currentUrl) && scanCount == old(scanCount)
      ensures store.stats == Some(Analytics.Bump(old(store.Read()), Analytics.TotalRefreshes, Analytics.LastRefresh, stamp))
      ensures store.organizerAuth == old(store.organizerAuth)
    {
      url := QrUrl(baseUrl, eventId, nowMs);
      isGenerating := true;
      timeUntilRefresh := intervalMs / 1000;
      store.Increment(Analytics.TotalRefreshes, Analytics.LastRefresh, stamp);
    }

    /** The end of `generateQRCode(url)`: a rendered image replaces the image
        and the URL together; a failed render keeps both. Either way the
        generating flag drops. */
    method CompleteRender(url: string, rendered: Option<string>)
      modifies this
      ensures rendered.Some? ==> qrCodeDataURL == rendered.value && currentUrl == url
      ensures rendered.None? ==> qrCodeDataURL == old(qrCodeDataURL) && currentUrl == old(currentUrl)
      ensures !isGenerating && RefreshNowEnabled()
      ensures timeUntilRefresh == old(timeUntilRefresh) && scanCount == old(scanCount)
    {
      if rendered.Some? {
        qrCodeDataURL := rendered.value;
        currentUrl := url;
      }
      isGenerating := false;
    }

    /** One one-second interval tick: at 1 or below the refresh runs and the
        countdown restarts from the period; otherwise it counts down. The
        timer has no guard on an outstanding render. */
    method Tick(nowMs: nat, stamp: string) returns (refreshed: Option<string>)
      requires Valid()
      modifies this, store
      ensures Valid()
      ensures timeUntilRefresh == Countdown(old(timeUntilRefresh), Period(intervalMs))
      ensures refreshed.Some? <==> Fires(old(timeUntilRefresh))
      ensures refreshed.Some? ==> refreshed.value == QrUrl(baseUrl, eventId, nowMs) && isGenerating
      ensures refreshed.Some? ==>
        store.stats == Some(Analytics.Bump(old(store.Read()), Analytics.TotalRefreshes, Analytics.LastRefresh, stamp))
      ensures refreshed.None? ==> store.stats == old(store.stats) && isGenerating == old(isGenerating)
      ensures store.organizerAuth == old(store.organizerAuth)
      ensures qrCodeDataURL == old(qrCodeDataURL) && currentUrl == old(currentUrl) && scanCount == old(scanCount)
    {
      if timeUntilRefresh <= 1 {
        var url := Refresh(nowMs, stamp);
        timeUntilRefresh := intervalMs / 1000;
        refreshed := Some(url);
      } else {
        timeUntilRefresh := timeUntilRefresh - 1;
        refreshed := None;
      }
    }

    /** The "Refresh Now" button is enabled only while no render is in flight. */
    function RefreshNowEnabled(): bool
      reads this
    {
      !isGenerating
    }
  }
}
