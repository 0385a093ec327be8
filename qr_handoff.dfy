/** The hand-off between the two halves of the program: the URL the QR
    generator encodes is the URL the mint page is opened with, and the mint
    page's arrival check reads back exactly what the generator put in. */
module QrHandoff {
  import opened Wrappers
  import opened Strings
  import opened UrlQuery
  import Decimal
  import QrGenerator
  import MintPage

  /** The query of a generated URL, without its `?`. */
  function QueryBody(eventId: string, digits: string): string {
    ("eventId=" + eventId) + ['&'] + ("qr=mobile" + ['&'] + (("t=" + digits) + ['&'] + ("source=" + QrGenerator.SourceTag)))
  }

  lemma DigitsUnreserved(s: string)
    requires Decimal.AllDigits(s)
    ensures AllUnreserved(s)
  {
  }

  /** `location.search` of a URL whose first `?` follows `pre` and which holds
      no `#` is everything from that `?` on. */
  lemma SearchAfterMark(pre: string, rest: string)
    requires '?' !in pre && '#' !in pre && '#' !in rest && |rest| >= 1
    ensures SearchOf(pre + ['?'] + rest) == ['?'] + rest
  {
    var url := pre + ['?'] + rest;
    assert '#' !in url;
    IndexOfAbsentChar(url, '#');
    IndexOfFirstChar(pre, '?', rest);
    assert url[|pre|..] == ['?'] + rest;
  }

  /** In a list of four pairs whose first three names differ, `get` of each of
      those names finds its own value. */
  lemma GetOfFour(n1: string, v1: string, n2: string, v2: string, n3: string, v3: string, n4: string, v4: string)
    requires n1 != n2 && n1 != n3 && n2 != n3
    ensures var ps := [(n1, v1), (n2, v2), (n3, v3), (n4, v4)];
      Get(ps, n1) == Some(v1) && Get(ps, n2) == Some(v2) && Get(ps, n3) == Some(v3)
  {
    var ps := [(n1, v1), (n2, v2), (n3, v3), (n4, v4)];
    assert ps[1..] == [(n2, v2), (n3, v3), (n4, v4)];
    assert ps[1..][1..] == [(n3, v3), (n4, v4)];
    assert FindName(ps[1..][1..], n3) == Some(0);
    assert FindName(ps[1..], n2) == Some(0);
  }

  lemma UnreservedLacks(s: string)
    requires AllUnreserved(s)
    ensures '#' !in s && '&' !in s && '?' !in s
  {
  }

  /** Regrouping the seven parts of a generated URL around its `?`. */
  lemma RegroupUrl(base: string, slash: string, n1: string, id: string, amp: string, n2: string, n3: string,
                   digits: string, n4: string, tag: string)
    ensures base + (slash + ['?'] + n1) + id + (amp + n2 + amp + n3) + digits + (amp + n4) + tag ==
      (base + slash) + ['?'] + ((n1 + id) + amp + (n2 + amp + ((n3 + digits) + amp + (n4 + tag))))
  {
  }

  /** The generated URL is the base, `/?`, and the query. */
  lemma QrUrlShape(baseUrl: string, eventId: string, nowMs: nat)
    ensures QrGenerator.QrUrl(baseUrl, eventId, nowMs) ==
      (baseUrl + "/") + ['?'] + QueryBody(eventId, Decimal.Render(nowMs / 1000))
  {
    assert "/?eventId=" == "/" + ['?'] + "eventId=";
    assert "&qr=mobile&t=" == ['&'] + "qr=mobile" + ['&'] + "t=";
    assert "&source=" == ['&'] + "source=";
    RegroupUrl(baseUrl, "/", "eventId=", eventId, ['&'], "qr=mobile", "t=",
               Decimal.Render(nowMs / 1000), "source=", QrGenerator.SourceTag);
  }

  /** `location.search` of a generated URL is `?` and the query, since nothing
      in it is a `#`. */
  lemma SearchOfQrUrl(baseUrl: string, eventId: string, nowMs: nat)
    requires '?' !in baseUrl && '#' !in baseUrl
    requires AllUnreserved(eventId)
    ensures SearchOf(QrGenerator.QrUrl(baseUrl, eventId, nowMs)) ==
      ['?'] + QueryBody(eventId, Decimal.Render(nowMs / 1000))
  {
    var digits := Decimal.Render(nowMs / 1000);
    QrUrlShape(baseUrl, eventId, nowMs);
    UnreservedLacks(eventId);
    DigitsUnreserved(digits);
    UnreservedLacks(digits);
    NoHashInQuery(eventId, digits);
    assert '?' !in baseUrl + "/";
    SearchAfterMark(baseUrl + "/", QueryBody(eventId, digits));
  }

  lemma NoHashInQuery(eventId: string, digits: string)
    requires '#' !in eventId && '#' !in digits
    ensures '#' !in QueryBody(eventId, digits)
  {
  }

  /** The fixed names and values of a generated query are plain text. */
  lemma LiteralsUnreserved()
    ensures AllUnreserved("eventId") && AllUnreserved("qr") && AllUnreserved("mobile")
    ensures AllUnreserved("t") && AllUnreserved("source") && AllUnreserved(QrGenerator.SourceTag)
  {
  }

  /** The query text of four pairs. */
  lemma QueryOfFour(n1: string, v1: string, n2: string, v2: string,
                    n3: string, v3: string, n4: string, v4: string)
    ensures Query([(n1, v1), (n2, v2), (n3, v3), (n4, v4)]) ==
      (n1 + "=" + v1) + ['&'] + ((n2 + "=" + v2) + ['&'] + ((n3 + "=" + v3) + ['&'] + (n4 + "=" + v4)))
  {
    var ps := [(n1, v1), (n2, v2), (n3, v3), (n4, v4)];
    assert ps[1..] == [(n2, v2), (n3, v3), (n4, v4)];
    assert ps[1..][1..] == [(n3, v3), (n4, v4)];
    assert ps[1..][1..][1..] == [(n4, v4)];
    assert Query(ps[1..][1..][1..]) == n4 + "=" + v4;
    assert Query(ps[1..][1..]) == (n3 + "=" + v3) + ['&'] + (n4 + "=" + v4);
    assert Query(ps[1..]) == (n2 + "=" + v2) + ['&'] + ((n3 + "=" + v3) + ['&'] + (n4 + "=" + v4));
  }

  /** Four `name=value` pieces of unreserved text, joined by `&` behind a `?`,
      parse to those four pairs in order. */
  lemma ParamsOfNamedFour(n1: string, v1: string, n2: string, v2: string,
                          n3: string, v3: string, n4: string, v4: string)
    requires AllUnreserved(n1) && AllUnreserved(v1) && AllUnreserved(n2) && AllUnreserved(v2)
    requires AllUnreserved(n3) && AllUnreserved(v3) && AllUnreserved(n4) && AllUnreserved(v4)
    ensures Params(['?'] + ((n1 + "=" + v1) + ['&'] + ((n2 + "=" + v2) + ['&'] + ((n3 + "=" + v3) + ['&'] + (n4 + "=" + v4))))) ==
      [(n1, v1), (n2, v2), (n3, v3), (n4, v4)]
  {
    var ps := [(n1, v1), (n2, v2), (n3, v3), (n4, v4)];
    assert PlainPairs(ps) by {
      forall i | 0 <= i < 4 ensures AllUnreserved(ps[i].0) && AllUnreserved(ps[i].1) {
        if i == 0 { assert ps[i] == (n1, v1); }
        else if i == 1 { assert ps[i] == (n2, v2); }
        else if i == 2 { assert ps[i] == (n3, v3); }
        else { assert ps[i] == (n4, v4); }
      }
    }
    QueryOfFour(n1, v1, n2, v2, n3, v3, n4, v4);
    ParamsRoundTrip(ps);
  }

  /** `URLSearchParams` of the generated query: the four pairs, in order. */
  lemma ParamsOfQuery(eventId: string, digits: string)
    requires AllUnreserved(eventId) && AllUnreserved(digits)
    ensures Params(['?'] + QueryBody(eventId, digits)) ==
      [("eventId", eventId), ("qr", "mobile"), ("t", digits), ("source", QrGenerator.SourceTag)]
  {
    LiteralsUnreserved();
    assert "qr=mobile" == "qr" + "=" + "mobile";
    assert "eventId=" + eventId == "eventId" + "=" + eventId;
    assert "t=" + digits == "t" + "=" + digits;
    assert "source=" + QrGenerator.SourceTag == "source" + "=" + QrGenerator.SourceTag;
    ParamsOfNamedFour("eventId", eventId, "qr", "mobile", "t", digits, "source", QrGenerator.SourceTag);
  }

  /** A scan of a generated code opens the mint page in QR mode exactly when
      the event id is non-empty, carrying that event id; the `t` parameter
      reads back as the generation time in whole seconds. */
  lemma QrUrlArrival(baseUrl: string, eventId: string, nowMs: nat)
    requires '?' !in baseUrl && '#' !in baseUrl
    requires AllUnreserved(eventId)
    ensures var search := SearchOf(QrGenerator.QrUrl(baseUrl, eventId, nowMs));
      MintPage.DetectArrival(search) == MintPage.Arrival(eventId != "", if eventId != "" then eventId else "")
    ensures var t := Get(Params(SearchOf(QrGenerator.QrUrl(baseUrl, eventId, nowMs))), "t");
      t.Some? && Decimal.AllDigits(t.value) && Decimal.Value(t.value) == nowMs / 1000
  {
    var digits := Decimal.Render(nowMs / 1000);
    SearchOfQrUrl(baseUrl, eventId, nowMs);
    DigitsUnreserved(digits);
    ParamsOfQuery(eventId, digits);
    assert "eventId" != "qr" && "eventId" != "t" && "qr" != "t";
    GetOfFour("eventId", eventId, "qr", "mobile", "t", digits, "source", QrGenerator.SourceTag);
  }
}
