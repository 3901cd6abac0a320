/**
 * The IHuan executor. It scrapes a web form in up to three steps: a
 * statistics page whose `Set-Cookie` header becomes the session cookie, a
 * key page whose body holds a 32-character key, and a form POST whose
 * response body is searched for `a.b.c.d:port` addresses. The cookie and
 * the key are fetched once and then kept across calls; each is looked up
 * again only while it is still empty.
 */
module IHuanProvider {
  import opened Wrappers
  import opened Text
  import opened Records
  import opened Settings
  import opened Transport
  import opened Patterns
  import opened ListExecutors

  const IHUAN_HTTP_URL: string := "https://ip.ihuan.me/tqdl.html"
  const IHUAN_STATISTICS_URL: string := "https://ip.ihuan.me/ti.html"
  const IHUAN_KEY_URL: string := "https://ip.ihuan.me/mouse.do"

  /** The browser identity every IHuan request claims. */
  const USER_AGENT: string := "Mozilla/5.0 (Windows NT 10.0; WOW64) AppleWebKit/537.36 (KHTML, like Gecko) Chrome/45.0.2454.85 Safari/537.36"

  // ---------------------------------------------------------------------
  // Requests
  // ---------------------------------------------------------------------

  /** `generateStatistics`' GET of the statistics page. */
  function StatisticsRequest(statisticsUrl: string, timeout: int, dialer: Dialer): (r: Request)
  {
    Request("GET", statisticsUrl, map["User-Agent" := USER_AGENT, "Accept-Encoding" := "br"], "", timeout, dialer)
  }

  /** `generateKey`'s GET of the key page, presenting the statistics cookie. */
  function KeyRequest(keyUrl: string, statisticsUrl: string, cookie: string, timeout: int, dialer: Dialer): (r: Request)
  {
    Request("GET", keyUrl,
      map["User-Agent" := USER_AGENT, "Accept-Encoding" := "br", "Referer" := statisticsUrl, "Cookie" := cookie],
      "", timeout, dialer)
  }

  /** `Fetch`'s form POST; the Referer is the fixed statistics page, whatever is configured. */
  function DataRequest(httpUrl: string, form: string, timeout: int, dialer: Dialer): (r: Request)
  {
    Request("POST", httpUrl,
      map["Accept-Encoding" := "br", "Content-Type" := "application/x-www-form-urlencoded",
          "User-Agent" := USER_AGENT, "Referer" := IHUAN_STATISTICS_URL],
      form, timeout, dialer)
  }

  // ---------------------------------------------------------------------
  // The form body
  // ---------------------------------------------------------------------

  /**
   * The `Sprintf` of the POST body: its ten fields in order, joined by the
   * nine '&' of the format string; zone and key are inserted without
   * escaping.
   */
  function PostBody(num: int, zone: string, key: string): (r: string)
  {
    Form("num=" + IntToDecimal(num), "port=", "kill_port=", "address=" + zone, "kill_address=",
         "anonymity=", "type=", "post=", "sort=1", "key=" + key)
  }

  /** Ten fields separated by '&'. */
  function Form(f0: string, f1: string, f2: string, f3: string, f4: string,
                f5: string, f6: string, f7: string, f8: string, f9: string): (r: string)
  {
    f0 + "&" + f1 + "&" + f2 + "&" + f3 + "&" + f4 + "&" + f5 + "&" + f6 + "&" + f7 + "&" + f8 + "&" + f9
  }

  /** The ten `name=value` fields the form is meant to carry. */
  function PostFields(num: int, zone: string, key: string): (r: seq<string>)
  {
    ["num=" + IntToDecimal(num), "port=", "kill_port=", "address=" + zone,
     "kill_address=", "anonymity=", "type=", "post=", "sort=1", "key=" + key]
  }

  /** Splitting `x & f1 & f2 & f3 & f4` splits each part on its own. */
  lemma SplitFour(x: string, f1: string, f2: string, f3: string, f4: string)
    ensures Split(x + "&" + f1 + "&" + f2 + "&" + f3 + "&" + f4, '&')
         == Split(x, '&') + Split(f1, '&') + Split(f2, '&') + Split(f3, '&') + Split(f4, '&')
  {
    SplitSeparated(x + "&" + f1 + "&" + f2 + "&" + f3, f4, '&');
    SplitSeparated(x + "&" + f1 + "&" + f2, f3, '&');
    SplitSeparated(x + "&" + f1, f2, '&');
    SplitSeparated(x, f1, '&');
  }

  /** Splitting `x & f1 & f2 & f3 & f4 & f5` splits each part on its own. */
  lemma SplitFive(x: string, f1: string, f2: string, f3: string, f4: string, f5: string)
    ensures Split(x + "&" + f1 + "&" + f2 + "&" + f3 + "&" + f4 + "&" + f5, '&')
         == Split(x, '&') + Split(f1, '&') + Split(f2, '&') + Split(f3, '&') + Split(f4, '&') + Split(f5, '&')
  {
    SplitSeparated(x + "&" + f1 + "&" + f2 + "&" + f3 + "&" + f4, f5, '&');
    SplitFour(x, f1, f2, f3, f4);
  }

  /** Splitting a form splits each field on its own. */
  lemma SplitForm(f0: string, f1: string, f2: string, f3: string, f4: string,
                  f5: string, f6: string, f7: string, f8: string, f9: string)
    ensures Split(Form(f0, f1, f2, f3, f4, f5, f6, f7, f8, f9), '&')
         == Split(f0, '&') + Split(f1, '&') + Split(f2, '&') + Split(f3, '&') + Split(f4, '&')
            + Split(f5, '&') + Split(f6, '&') + Split(f7, '&') + Split(f8, '&') + Split(f9, '&')
  {
    SplitFive(f0 + "&" + f1 + "&" + f2 + "&" + f3 + "&" + f4, f5, f6, f7, f8, f9);
    SplitFour(f0, f1, f2, f3, f4);
  }

  /** A form of '&'-free fields splits back into its fields. */
  lemma SplitFormWhole(f0: string, f1: string, f2: string, f3: string, f4: string,
                       f5: string, f6: string, f7: string, f8: string, f9: string)
    requires '&' !in f0 && '&' !in f1 && '&' !in f2 && '&' !in f3 && '&' !in f4
    requires '&' !in f5 && '&' !in f6 && '&' !in f7 && '&' !in f8 && '&' !in f9
    ensures Split(Form(f0, f1, f2, f3, f4, f5, f6, f7, f8, f9), '&') == [f0, f1, f2, f3, f4, f5, f6, f7, f8, f9]
  {
    SplitForm(f0, f1, f2, f3, f4, f5, f6, f7, f8, f9);
    SplitWhole(f0, '&');
    SplitWhole(f1, '&');
    SplitWhole(f2, '&');
    SplitWhole(f3, '&');
    SplitWhole(f4, '&');
    SplitWhole(f5, '&');
    SplitWhole(f6, '&');
    SplitWhole(f7, '&');
    SplitWhole(f8, '&');
    SplitWhole(f9, '&');
  }

  /** A form whose fourth field is `x & y` splits into eleven fields, `x` and `y` as the fourth and fifth. */
  lemma SplitFormInjected(f0: string, f1: string, f2: string, x: string, y: string, f4: string,
                          f5: string, f6: string, f7: string, f8: string, f9: string)
    requires '&' !in f0 && '&' !in f1 && '&' !in f2 && '&' !in x && '&' !in y && '&' !in f4
    requires '&' !in f5 && '&' !in f6 && '&' !in f7 && '&' !in f8 && '&' !in f9
    ensures var r := Split(Form(f0, f1, f2, x + "&" + y, f4, f5, f6, f7, f8, f9), '&');
      |r| == 11 && r[3] == x && r[4] == y
  {
    SplitForm(f0, f1, f2, x + "&" + y, f4, f5, f6, f7, f8, f9);
    SplitSeparated(x, y, '&');
    SplitWhole(x, '&');
    SplitWhole(y, '&');
    SplitWhole(f0, '&');
    SplitWhole(f1, '&');
    SplitWhole(f2, '&');
    var p3 := Split(f0, '&') + Split(f1, '&') + Split(f2, '&') + Split(x + "&" + y, '&');
    assert |p3| == 5 && p3[3] == x && p3[4] == y;
    SplitWhole(f4, '&');
    SplitWhole(f5, '&');
    SplitWhole(f6, '&');
    SplitWhole(f7, '&');
    SplitWhole(f8, '&');
    SplitWhole(f9, '&');
  }

  /** A decimal rendering never contains '&'. */
  lemma DecimalHasNoAmpersand(n: int)
    ensures '&' !in IntToDecimal(n)
  {
    if n < 0 {
      NatToDecimalRoundTrip(-n);
      assert IntToDecimal(n) == "-" + NatToDecimal(-n);
    } else {
      NatToDecimalRoundTrip(n);
    }
  }

  /**
   * When zone and key hold no '&', the server sees exactly the ten
   * intended fields, in order, with the count, zone and key as values.
   */
  lemma PostBodyFieldsRoundTrip(num: int, zone: string, key: string)
    requires '&' !in zone && '&' !in key
    ensures Split(PostBody(num, zone, key), '&') == PostFields(num, zone, key)
  {
    DecimalHasNoAmpersand(num);
    SplitFormWhole("num=" + IntToDecimal(num), "port=", "kill_port=", "address=" + zone, "kill_address=",
                   "anonymity=", "type=", "post=", "sort=1", "key=" + key);
  }

  /**
   * The zone is not escaped: a zone `a&b` splits the form into eleven
   * fields, and the text after its '&' arrives as a field of its own.
   */
  lemma PostBodyZoneInjects(num: int, a: string, b: string, key: string)
    requires '&' !in a && '&' !in b && '&' !in key
    ensures var fields := Split(PostBody(num, a + "&" + b, key), '&');
      |fields| == 11 && fields[3] == "address=" + a && fields[4] == b
  {
    DecimalHasNoAmpersand(num);
    assert "address=" + (a + "&" + b) == ("address=" + a) + "&" + b;
    SplitFormInjected("num=" + IntToDecimal(num), "port=", "kill_port=", "address=" + a, b, "kill_address=",
                      "anonymity=", "type=", "post=", "sort=1", "key=" + key);
  }

  // ---------------------------------------------------------------------
  // The three exchanges
  // ---------------------------------------------------------------------

  /**
   * `generateStatistics`' effect on the cookie: a transport error or a
   * response without `Set-Cookie` leaves it as it was; otherwise it
   * becomes that header's value.
   */
  function CookieStep(ex: Exchange, statistics: string): (r: string)
    ensures ex.TransportError? ==> r == statistics
    ensures ex.Response? && "Set-Cookie" !in ex.header ==> r == statistics
    ensures ex.Response? && "Set-Cookie" in ex.header ==> r == ex.header["Set-Cookie"]
  {
    match ex
    case TransportError => statistics
    case Response(header, _) => if "Set-Cookie" in header then header["Set-Cookie"] else statistics
  }

  /** A key as `keyPattern` produces it, or none yet. */
  predicate KeyShaped(key: string)
  {
    key == [] || (|key| == 32 && forall k :: 0 <= k < 32 ==> KeyChar(key[k]))
  }

  /**
   * `generateKey`'s effect on the key: on a transport error, a decode
   * error or a body without a match it is left as it was; otherwise it
   * becomes the leftmost `[a-z0-9]{32}` run of the decoded body.
   */
  function KeyStep(ex: Exchange, codecs: Codecs, key: string): (r: string)
    ensures ex.TransportError? ==> r == key
    ensures ex.Response? && ReadBody(ex.header, ex.body, codecs).None? ==> r == key
    ensures ex.Response? && ReadBody(ex.header, ex.body, codecs).Some? ==>
      var body := ReadBody(ex.header, ex.body, codecs).value;
      && ((forall j: nat :: !KeyAt(body, j)) ==> r == key)
      && (FindKey(body).Some? ==> r == FindKey(body).value)
  {
    match ex
    case TransportError => key
    case Response(header, raw) =>
      match ReadBody(header, raw, codecs)
      case None => key
      case Some(body) =>
        match FindKey(body)
        case None => key
        case Some(found) => found
  }

  /** The key step keeps the key well-shaped: it is either the old key or 32 class characters. */
  lemma KeyStepShaped(ex: Exchange, codecs: Codecs, key: string)
    requires KeyShaped(key)
    ensures KeyShaped(KeyStep(ex, codecs, key))
    ensures KeyStep(ex, codecs, key) == key || |KeyStep(ex, codecs, key)| == 32
  {
    if ex.Response? && ReadBody(ex.header, ex.body, codecs).Some? && FindKey(ReadBody(ex.header, ex.body, codecs).value).Some? {
      FindKeyShape(ReadBody(ex.header, ex.body, codecs).value);
    }
  }

  /**
   * What `Fetch` makes of a decoded body: nil when `ipPattern` finds
   * nothing, otherwise one HTTP record tagged IHUAN per match, in order.
   */
  function IpBatch(body: string, now: int): (r: Batch)
  {
    if |FindAllIps(body)| == 0 then Nil else Slice(ToRecords(FindAllIps(body), IHUAN, Http, now))
  }

  /** The result of the data POST: nil on a transport or decode error, else `IpBatch` of the decoded body. */
  function IHuanOutcome(ex: Exchange, codecs: Codecs, now: int): (r: Batch)
  {
    match ex
    case TransportError => Nil
    case Response(header, raw) =>
      match ReadBody(header, raw, codecs)
      case None => Nil
      case Some(body) => IpBatch(body, now)
  }

  /** Nil exactly when no substring of the body matches `ipPattern`; a slice is never empty. */
  lemma IpBatchNil(body: string, now: int)
    ensures IpBatch(body, now).Nil? <==> forall p: nat, j: nat :: !MatchesAt(IpPattern, body, p, j)
    ensures IpBatch(body, now).Slice? ==> |IpBatch(body, now).items| >= 1
  {
    FindAllIpsEmpty(body);
  }

  /**
   * Every record's address is a match of `ipPattern` in the body, the
   * matches come in order of appearance without overlap, and each record
   * is a fresh, error-free HTTP record tagged IHUAN.
   */
  lemma IpBatchRecords(body: string, now: int)
    ensures |IpBatch(body, now).Items()| == |IpSpans(body)|
    ensures var b := IpBatch(body, now);
      forall k :: 0 <= k < |b.Items()| ==>
        var sp := IpSpans(body)[k];
        && b.Items()[k] == NewRecord(body[sp.0..sp.1], IHUAN, Http, now)
        && MatchesAt(IpPattern, body, sp.0, sp.1)
        && (k + 1 < |b.Items()| ==> sp.1 <= IpSpans(body)[k + 1].0)
  {
    var b := IpBatch(body, now);
    var spans := IpSpans(body);
    FindAllIpsSound(body);
    if b.Slice? {
      forall k | 0 <= k < |b.items|
        ensures b.items[k] == NewRecord(body[spans[k].0..spans[k].1], IHUAN, Http, now)
      {
        assert FindAllIps(body)[k] == body[spans[k].0..spans[k].1];
      }
    }
  }

  /**
   * The data POST yields nil exactly when the exchange or the decoding
   * failed or the decoded body holds no `ipPattern` match.
   */
  lemma IHuanOutcomeNil(ex: Exchange, codecs: Codecs, now: int)
    ensures IHuanOutcome(ex, codecs, now).Nil? <==>
      || ex.TransportError?
      || ReadBody(ex.header, ex.body, codecs).None?
      || forall p: nat, j: nat :: !MatchesAt(IpPattern, ReadBody(ex.header, ex.body, codecs).value, p, j)
  {
    if ex.Response? && ReadBody(ex.header, ex.body, codecs).Some? {
      IpBatchNil(ReadBody(ex.header, ex.body, codecs).value, now);
    }
  }

  /** The record loop of `Fetch`: one HTTP record tagged IHUAN per extracted address. */
  method BuildRecords(ips: seq<string>, now: int) returns (proxies: seq<Proxy>)
    ensures proxies == ToRecords(ips, IHUAN, Http, now)
  {
    proxies := [];
    var i := 0;
    while i < |ips|
      invariant 0 <= i <= |ips|
      invariant proxies == ToRecords(ips[..i], IHUAN, Http, now)
    {
      ToRecordsSnoc(ips[..i], ips[i], IHUAN, Http, now);
      assert ips[..i + 1] == ips[..i] + [ips[i]];
      proxies := proxies + [NewRecord(ips[i], IHUAN, Http, now)];
      i := i + 1;
    }
    assert ips[..i] == ips;
  }

  // ---------------------------------------------------------------------
  // Configuration
  // ---------------------------------------------------------------------

  /** The executor's fixed settings. */
  datatype IHuanSource = IHuanSource(
    httpUrl: string,
    statisticsUrl: string,
    keyUrl: string,
    zone: string,
    eachFetchNum: int,
    timeout: int,
    dialer: Dialer)

  /**
   * `newIHuanExecutor`: missing URLs fall back to the ihuan.me pages, a
   * zero timeout to 15 s, a zero batch size to 100; the zone is taken as
   * configured, even when empty.
   */
  function NewIHuanSource(cfg: Config): (s: IHuanSource)
    ensures cfg.GetString("executor.ihuan.http_url") == [] ==> s.httpUrl == IHUAN_HTTP_URL
    ensures cfg.GetString("executor.ihuan.http_url") != [] ==> s.httpUrl == cfg.GetString("executor.ihuan.http_url")
    ensures cfg.GetString("executor.ihuan.statistics_url") == [] ==> s.statisticsUrl == IHUAN_STATISTICS_URL
    ensures cfg.GetString("executor.ihuan.statistics_url") != [] ==> s.statisticsUrl == cfg.GetString("executor.ihuan.statistics_url")
    ensures cfg.GetString("executor.ihuan.key_url") == [] ==> s.keyUrl == IHUAN_KEY_URL
    ensures cfg.GetString("executor.ihuan.key_url") != [] ==> s.keyUrl == cfg.GetString("executor.ihuan.key_url")
    ensures cfg.GetInt("executor.ihuan.timeout") == 0 ==> s.timeout == 15
    ensures cfg.GetInt("executor.ihuan.timeout") != 0 ==> s.timeout == cfg.GetInt("executor.ihuan.timeout")
    ensures cfg.GetInt("executor.ihuan.each_fetch_num") == 0 ==> s.eachFetchNum == 100
    ensures cfg.GetInt("executor.ihuan.each_fetch_num") != 0 ==> s.eachFetchNum == cfg.GetInt("executor.ihuan.each_fetch_num")
    ensures s.zone == cfg.GetString("executor.ihuan.zone")
    ensures s.dialer == DialerFor(cfg.GetString("executor.ihuan.proxy"))
  {
    IHuanSource(
      OrDefault(cfg.GetString("executor.ihuan.http_url"), IHUAN_HTTP_URL),
      OrDefault(cfg.GetString("executor.ihuan.statistics_url"), IHUAN_STATISTICS_URL),
      OrDefault(cfg.GetString("executor.ihuan.key_url"), IHUAN_KEY_URL),
      cfg.GetString("executor.ihuan.zone"),
      OrDefaultInt(cfg.GetInt("executor.ihuan.each_fetch_num"), 100),
      OrDefaultInt(cfg.GetInt("executor.ihuan.timeout"), 15),
      DialerFor(cfg.GetString("executor.ihuan.proxy")))
  }

  // ---------------------------------------------------------------------
  // The executor object
  // ---------------------------------------------------------------------

  /**
   * `ihuanExecutor`: fixed settings plus the session cookie and form key,
   * which persist between calls to `Fetch`. `sent` records, for the proofs,
   * every request the executor has issued.
   */
  class IHuanExecutor {
    const src: IHuanSource
    var statistics: string
    var key: string
    ghost var sent: seq<Request>

    /** The executor's statistics-page request. */
    function StatisticsReq(): (r: Request)
    {
      StatisticsRequest(src.statisticsUrl, src.timeout, src.dialer)
    }

    /** The executor's key-page request presenting `cookie`. */
    function KeyReq(cookie: string): (r: Request)
    {
      KeyRequest(src.keyUrl, src.statisticsUrl, cookie, src.timeout, src.dialer)
    }

    /** The executor's data POST carrying form key `k`. */
    function DataReq(k: string): (r: Request)
    {
      DataRequest(src.httpUrl, PostBody(src.eachFetchNum, src.zone, k), src.timeout, src.dialer)
    }

    /** A new executor: settings from the configuration, no cookie, no key, nothing sent. */
    constructor (cfg: Config)
      ensures src == NewIHuanSource(cfg)
      ensures statistics == [] && key == [] && sent == []
    {
      src := NewIHuanSource(cfg);
      statistics := [];
      key := [];
      sent := [];
    }

    /** `generateStatistics`: one GET; the cookie is replaced only when the response sets one. */
    method GenerateStatistics(env: Env)
      modifies this`statistics, this`sent
      ensures sent == old(sent) + [StatisticsReq()]
      ensures statistics == CookieStep(env.transport(StatisticsReq()), old(statistics))
    {
      sent := sent + [StatisticsReq()];
      var ex := env.transport(StatisticsReq());
      if ex.TransportError? {
        return;
      }
      if "Set-Cookie" !in ex.header {
        return;
      }
      statistics := ex.header["Set-Cookie"];
    }

    /** `generateKey`: one GET with the current cookie; the key is replaced only when one is found. */
    method GenerateKey(env: Env)
      modifies this`key, this`sent
      ensures sent == old(sent) + [KeyReq(statistics)]
      ensures key == KeyStep(env.transport(KeyReq(statistics)), env.codecs, old(key))
    {
      sent := sent + [KeyReq(statistics)];
      var ex := env.transport(KeyReq(statistics));
      if ex.TransportError? {
        return;
      }
      var body := ReadBody(ex.header, ex.body, env.codecs);
      if body.None? {
        return;
      }
      var found := FindKey(body.value);
      if found.None? {
        return;
      }
      key := found.value;
    }

    /**
     * `Fetch`: fetch the cookie if there is none, then the key if there is
     * none (even when the cookie is still missing), then always POST the
     * form with whatever key is held. A cookie or key once held is never
     * fetched again, and a well-shaped key stays well-shaped.
     */
    method Fetch(env: Env) returns (b: Batch)
      modifies this`statistics, this`key, this`sent
      ensures statistics == if old(statistics) == [] then CookieStep(env.transport(StatisticsReq()), old(statistics)) else old(statistics)
      ensures key == if old(key) == [] then KeyStep(env.transport(KeyReq(statistics)), env.codecs, old(key)) else old(key)
      ensures sent == old(sent) + (if old(statistics) == [] then [StatisticsReq()] else [])
                     + (if old(key) == [] then [KeyReq(statistics)] else []) + [DataReq(key)]
      ensures b == IHuanOutcome(env.transport(DataReq(key)), env.codecs, env.now)
      ensures KeyShaped(old(key)) ==> KeyShaped(key)
    {
      if |statistics| == 0 {
        GenerateStatistics(env);
      }
      if |key| == 0 {
        KeyStepShaped(env.transport(KeyReq(statistics)), env.codecs, key);
        GenerateKey(env);
      }
      b := PostForm(env);
    }

    /** The data POST of `Fetch` with the key currently held, and the extraction of its addresses. */
    method PostForm(env: Env) returns (b: Batch)
      modifies this`sent
      ensures sent == old(sent) + [DataReq(key)]
      ensures b == IHuanOutcome(env.transport(DataReq(key)), env.codecs, env.now)
    {
      sent := sent + [DataReq(key)];
      var ex := env.transport(DataReq(key));
      if ex.TransportError? {
        return Nil;
      }
      var body := ReadBody(ex.header, ex.body, env.codecs);
      if body.None? {
        return Nil;
      }
      var ips := FindAllIps(body.value);
      if |ips| == 0 {
        return Nil;
      }
      var proxies := BuildRecords(ips, env.now);
      b := Slice(proxies);
    }
  }
}
