/**
 * The three probes of internal/handlers/perform-checks.go. Each rewrites
 * the host's URL, asks the network, and classifies the answer as a
 * message and a status. The network is an input: what `http.Get` and the
 * certificate scan return for a given URL or host name.
 */
module Probes {
  import opened Text
  import opened Models

  /** Service ids of the `services` table. */
  const HTTP := 1
  const HTTPS := 2
  const SSLCertificate := 3

  /** What `http.Get` returned: an error, or a response with code and status line. */
  datatype HttpOutcome = ConnError | Response(code: int, statusLine: string)

  /** What the certificate scan delivered on its channel, with the expiry already checked. */
  datatype CertOutcome = ScanError | Cert(hostname: string, days: int, expiringSoon: bool)

  datatype Network = Network(get: string -> HttpOutcome, scan: string -> CertOutcome)

  /** A probe's answer: message first, status second, as the probe functions return them. */
  datatype Probe = Probe(msg: string, status: string)

  /** testHTTPForHost's URL: one trailing `/` dropped, every `https://` made `http://`. */
  function HttpUrl(url: string): string
  {
    ReplaceAll(TrimSuffix(url, "/"), "https://", "http://")
  }

  /** testHTTPSForHost's URL: one trailing `/` dropped, every `http://` made `https://`. */
  function HttpsUrl(url: string): string
  {
    ReplaceAll(TrimSuffix(url, "/"), "http://", "https://")
  }

  /** The shared classification of an HTTP answer. */
  function ClassifyHttp(url: string, outcome: HttpOutcome): (p: Probe)
    ensures p.status == Healthy <==> outcome.Response? && outcome.code == 200
    ensures p.status == Problem <==> !(outcome.Response? && outcome.code == 200)
    ensures outcome.ConnError? ==> p.msg == url + " - error connecting"
    ensures outcome.Response? ==> p.msg == url + " - " + outcome.statusLine
  {
    match outcome
    case ConnError => Probe(url + " - error connecting", Problem)
    case Response(code, line) => Probe(url + " - " + line, if code != 200 then Problem else Healthy)
  }

  function TestHTTP(url: string, net: Network): Probe
  {
    ClassifyHttp(HttpUrl(url), net.get(HttpUrl(url)))
  }

  function TestHTTPS(url: string, net: Network): Probe
  {
    ClassifyHttp(HttpsUrl(url), net.get(HttpsUrl(url)))
  }

  /** testSSLForHost's host: a leading scheme triggers removing every occurrence of it. */
  function SslHost(url: string): string
  {
    var a := if HasPrefix(url, "https://") then ReplaceAll(url, "https://", "") else url;
    if HasPrefix(a, "http://") then ReplaceAll(a, "http://", "") else a
  }

  /** The certificate policy; a failed scan leaves message and status empty. */
  function ClassifyCert(outcome: CertOutcome): (p: Probe)
    ensures outcome.ScanError? <==> p == Probe("", "")
    ensures outcome.Cert? ==>
      && p.msg == outcome.hostname + " expiring in " + IntToString(outcome.days) + " days"
      && (p.status == Problem <==> outcome.expiringSoon && outcome.days < 7)
      && (p.status == Warning <==> outcome.expiringSoon && outcome.days >= 7)
      && (p.status == Healthy <==> !outcome.expiringSoon)
  {
    match outcome
    case ScanError => Probe("", "")
    case Cert(host, days, soon) =>
      var msg := host + " expiring in " + IntToString(days) + " days";
      assert msg != "";
      Probe(msg, if soon then (if days < 7 then Problem else Warning) else Healthy)
  }

  function TestSSL(url: string, net: Network): Probe
  {
    ClassifyCert(net.scan(SslHost(url)))
  }

  /** testServiceForHost's switch: an unknown service id probes nothing. */
  function TestService(serviceID: int, url: string, net: Network): (p: Probe)
    ensures serviceID == HTTP ==> p == TestHTTP(url, net)
    ensures serviceID == HTTPS ==> p == TestHTTPS(url, net)
    ensures serviceID == SSLCertificate ==> p == TestSSL(url, net)
    ensures serviceID !in {HTTP, HTTPS, SSLCertificate} ==> p == Probe("", "")
  {
    if serviceID == HTTP then TestHTTP(url, net)
    else if serviceID == HTTPS then TestHTTPS(url, net)
    else if serviceID == SSLCertificate then TestSSL(url, net)
    else Probe("", "")
  }

  // ---------------------------------------------------------------------
  // The URL rewrites
  // ---------------------------------------------------------------------

  lemma ContainsInPrefix(s: string, k: nat, w: string)
    requires k <= |s| && Contains(s[..k], w)
    ensures Contains(s, w)
  {
    var i :| 0 <= i <= |s[..k]| && OccursAt(s[..k], w, i);
    assert s[..k][i..i + |w|] == s[i..i + |w|];
    assert OccursAt(s, w, i);
  }

  /** The HTTP probe never asks for an `https://` URL. */
  lemma HttpUrlHasNoHttps(url: string)
    ensures !Contains(HttpUrl(url), "https://")
  {
    assert SafeRewrite("https://", "http://") by {
      assert "https://"[4] != "http://"[4];
    }
    ReplaceAllRemoves(TrimSuffix(url, "/"), "https://", "http://");
  }

  /** The HTTPS probe never asks for an `http://` URL. */
  lemma HttpsUrlHasNoHttp(url: string)
    ensures !Contains(HttpsUrl(url), "http://")
  {
    assert SafeRewrite("http://", "https://") by {
      assert "http://"[4] != "https://"[4];
    }
    ReplaceAllRemoves(TrimSuffix(url, "/"), "http://", "https://");
  }

  /** A URL without the scheme to rewrite loses exactly its one trailing `/`. */
  lemma HttpUrlOnlyTrims(url: string)
    requires !Contains(url, "https://")
    ensures HasSuffix(url, "/") ==> HttpUrl(url) + "/" == url
    ensures !HasSuffix(url, "/") ==> HttpUrl(url) == url
  {
    var t := TrimSuffix(url, "/");
    if HasSuffix(url, "/") {
      assert url[..|url| - 1] == t;
      if Contains(t, "https://") {
        ContainsInPrefix(url, |url| - 1, "https://");
      }
    }
    ReplaceAllAbsent(t, "https://", "http://");
  }

  lemma HttpsUrlOnlyTrims(url: string)
    requires !Contains(url, "http://")
    ensures HasSuffix(url, "/") ==> HttpsUrl(url) + "/" == url
    ensures !HasSuffix(url, "/") ==> HttpsUrl(url) == url
  {
    var t := TrimSuffix(url, "/");
    if HasSuffix(url, "/") {
      assert url[..|url| - 1] == t;
      if Contains(t, "http://") {
        ContainsInPrefix(url, |url| - 1, "http://");
      }
    }
    ReplaceAllAbsent(t, "http://", "https://");
  }

  /** The scan is asked for the bare host, whichever scheme the URL had. */
  lemma SslHostOfPlainHost(h: string)
    requires !Contains(h, "https://") && !Contains(h, "http://")
    ensures SslHost("https://" + h) == h
    ensures SslHost("http://" + h) == h
    ensures SslHost(h) == h
  {
    ReplaceAllAbsent(h, "https://", "");
    ReplaceAllAbsent(h, "http://", "");
    var s := "https://" + h;
    assert s[..8] == "https://" && s[8..] == h;
    assert ReplaceAll(s, "https://", "") == "" + ReplaceAll(h, "https://", "");
    var s' := "http://" + h;
    assert s'[..7] == "http://" && s'[7..] == h;
    assert !HasPrefix(s', "https://") by {
      assert |s'| >= 8 ==> s'[..8][4] == ':';
    }
    assert ReplaceAll(s', "http://", "") == "" + ReplaceAll(h, "http://", "");
    assert !OccursAt(h, "http://", 0) && !OccursAt(h, "https://", 0);
  }
}
