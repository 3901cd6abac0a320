/**
 * The three list executors (TSX, STR, CPL). Each fetches one or two
 * newline-separated proxy lists over HTTP and turns every non-empty line,
 * verbatim, into a record with the executor's provider tag and the list's
 * dial type. TSX and STR fetch an HTTP list and a SOCKS5 list and
 * concatenate them; CPL fetches a single HTTP list.
 */
module ListExecutors {
  import opened Wrappers
  import opened Text
  import opened Records
  import opened Settings
  import opened Transport

  // ---------------------------------------------------------------------
  // Parsing a list body
  // ---------------------------------------------------------------------

  /** The non-empty `"\n"`-separated segments of a body, in order. */
  function Lines(body: string): (r: seq<string>)
  {
    NonEmpty(Split(body, '\n'))
  }

  /** One fresh record per address, in order. */
  function ToRecords(lines: seq<string>, provider: string, dial: DialType, now: int): (r: seq<Proxy>)
    ensures |r| == |lines|
    ensures forall k :: 0 <= k < |r| ==> r[k] == NewRecord(lines[k], provider, dial, now)
    decreases |lines|
  {
    if lines == [] then []
    else ToRecords(lines[..|lines| - 1], provider, dial, now) + [NewRecord(lines[|lines| - 1], provider, dial, now)]
  }

  /** What the fetch loop produces from a decoded body. */
  function ParseList(body: string, provider: string, dial: DialType, now: int): (r: seq<Proxy>)
  {
    ToRecords(Lines(body), provider, dial, now)
  }

  /**
   * The loop of `fetchHttpProxy`/`fetchSocks5Proxy`/CPL's `Fetch`: split
   * the body on "\n", skip empty segments, append a record for each other
   * segment.
   */
  method ParseBody(body: string, provider: string, dial: DialType, now: int) returns (proxies: seq<Proxy>)
    ensures proxies == ParseList(body, provider, dial, now)
  {
    var rawSlice := Split(body, '\n');
    proxies := [];
    ghost var kept: seq<string> := [];
    var i := 0;
    while i < |rawSlice|
      invariant 0 <= i <= |rawSlice|
      invariant kept == NonEmpty(rawSlice[..i])
      invariant proxies == ToRecords(kept, provider, dial, now)
    {
      var each := rawSlice[i];
      NonEmptySnoc(rawSlice, i);
      if |each| == 0 {
        i := i + 1;
        continue;
      }
      ToRecordsSnoc(kept, each, provider, dial, now);
      proxies := proxies + [NewRecord(each, provider, dial, now)];
      kept := kept + [each];
      i := i + 1;
    }
    assert rawSlice[..i] == rawSlice;
  }

  lemma NonEmptySnoc(xs: seq<string>, i: nat)
    requires i < |xs|
    ensures NonEmpty(xs[..i + 1]) == NonEmpty(xs[..i]) + (if xs[i] == [] then [] else [xs[i]])
  {
    assert xs[..i + 1][..i] == xs[..i];
  }

  lemma ToRecordsSnoc(lines: seq<string>, x: string, provider: string, dial: DialType, now: int)
    ensures ToRecords(lines + [x], provider, dial, now) == ToRecords(lines, provider, dial, now) + [NewRecord(x, provider, dial, now)]
  {
    assert (lines + [x])[..|lines|] == lines;
  }

  /**
   * Every parsed record is one non-empty, newline-free segment of the body,
   * kept verbatim and in order, tagged with the given provider and dial
   * type, with no errors and first and last seen `now`.
   */
  lemma ParseListShape(body: string, provider: string, dial: DialType, now: int)
    ensures var r := ParseList(body, provider, dial, now);
      && |r| == |Lines(body)|
      && forall k :: 0 <= k < |r| ==>
        && r[k].address == Lines(body)[k]
        && r[k].address != []
        && '\n' !in r[k].address
        && r[k].provider == provider && r[k].dialType == dial
        && r[k].errTimes == 0 && r[k].createdAt == now && r[k].updatedAt == now
  {
    var raw := Split(body, '\n');
    var lines := Lines(body);
    SplitPieces(body, '\n');
    forall k | 0 <= k < |lines| ensures '\n' !in lines[k] {
      var j :| 0 <= j < |raw| && raw[j] == lines[k];
    }
  }

  /** Records hold the lines verbatim: reading the addresses back gives the lines. */
  function Addresses(r: seq<Proxy>): (a: seq<string>)
    ensures |a| == |r|
    ensures forall k :: 0 <= k < |r| ==> a[k] == r[k].address
  {
    seq(|r|, k requires 0 <= k < |r| => r[k].address)
  }

  /**
   * Round trip: for non-empty, newline-free addresses, parsing their
   * newline-join (with or without one trailing newline) gives back exactly
   * those addresses, in order.
   */
  lemma ParseListRoundTrip(addrs: seq<string>, provider: string, dial: DialType, now: int)
    requires forall k :: 0 <= k < |addrs| ==> addrs[k] != [] && '\n' !in addrs[k]
    ensures Addresses(ParseList(Join(addrs, '\n'), provider, dial, now)) == addrs
    ensures Addresses(ParseList(Join(addrs, '\n') + "\n", provider, dial, now)) == addrs
  {
    LinesRoundTrip(addrs);
    AddressesOfRecords(Lines(Join(addrs, '\n')), provider, dial, now);
    AddressesOfRecords(Lines(Join(addrs, '\n') + "\n"), provider, dial, now);
  }

  lemma AddressesOfRecords(lines: seq<string>, provider: string, dial: DialType, now: int)
    ensures Addresses(ToRecords(lines, provider, dial, now)) == lines
  {
  }

  /** The lines of a newline-join of non-empty, newline-free pieces, with or without a final newline. */
  lemma LinesRoundTrip(addrs: seq<string>)
    requires forall k :: 0 <= k < |addrs| ==> addrs[k] != [] && '\n' !in addrs[k]
    ensures Lines(Join(addrs, '\n')) == addrs
    ensures Lines(Join(addrs, '\n') + "\n") == addrs
  {
    LinesOfJoin(addrs);
    if addrs == [] {
      LinesOfNewline();
      assert Join(addrs, '\n') + "\n" == "\n";
    } else {
      LinesWithNewline(addrs);
    }
  }

  lemma LinesWithNewline(addrs: seq<string>)
    requires addrs != []
    requires forall k :: 0 <= k < |addrs| ==> addrs[k] != [] && '\n' !in addrs[k]
    ensures Lines(Join(addrs, '\n') + "\n") == addrs
  {
    var j := Join(addrs, '\n');
    assert j + "\n" == j + ['\n'] + [];
    assert Split(j + "\n", '\n') == addrs + [[]] by {
      SplitSeparated(j, [], '\n');
      SplitJoin(addrs, '\n');
      assert Split([], '\n') == [[]];
    }
    assert NonEmpty(addrs + [[]]) == addrs by {
      NonEmptyAppend(addrs, [[]]);
      NonEmptyKeeps(addrs);
      assert NonEmpty([[]]) == NonEmpty([]) + [];
    }
  }

  lemma LinesOfNewline()
    ensures Lines("\n") == []
  {
    SplitAtSeparator([], [], '\n');
    assert [] + ['\n'] + [] == "\n";
    assert Split([], '\n') == [[]];
    assert NonEmpty([[], []]) == NonEmpty([[]]) + [];
    assert NonEmpty([[]]) == NonEmpty([]) + [];
  }

  /** Appending an empty piece to a join appends one separator. */
  lemma {:induction false} JoinSnoc(xs: seq<string>, sep: char)
    requires |xs| >= 1
    ensures Join(xs + [[]], sep) == Join(xs, sep) + [sep]
    decreases |xs|
  {
    if |xs| == 1 {
      assert xs + [[]] == [xs[0], []];
      assert Join([xs[0], []], sep) == xs[0] + [sep] + Join([[]], sep);
    } else {
      assert (xs + [[]])[1..] == xs[1..] + [[]];
      JoinSnoc(xs[1..], sep);
    }
  }

  /** The lines of a join of newline-free pieces are its non-empty pieces. */
  lemma LinesOfJoin(xs: seq<string>)
    requires forall k :: 0 <= k < |xs| ==> '\n' !in xs[k]
    ensures xs != [] ==> Lines(Join(xs, '\n')) == NonEmpty(xs)
    ensures xs == [] ==> Lines(Join(xs, '\n')) == []
    ensures (forall k :: 0 <= k < |xs| ==> xs[k] != []) ==> NonEmpty(xs) == xs
  {
    if xs != [] {
      SplitJoin(xs, '\n');
    } else {
      assert Split([], '\n') == [[]];
      assert NonEmpty([[]]) == NonEmpty([]) + [];
    }
    if forall k :: 0 <= k < |xs| ==> xs[k] != [] {
      NonEmptyKeeps(xs);
    }
  }

  /**
   * Two addresses followed by a blank line parse to those two addresses:
   * the trailing empty segments give no record.
   */
  lemma ParseListTrailingBlank(a: string, b: string, provider: string, dial: DialType, now: int)
    requires a != [] && '\n' !in a && b != [] && '\n' !in b
    ensures Addresses(ParseList(a + "\n" + b + "\n\n", provider, dial, now)) == [a, b]
  {
    var xs: seq<string> := [a, b, []];
    assert Join([[]], '\n') == [];
    assert Join([b, []], '\n') == b + "\n";
    assert Join(xs, '\n') == a + "\n" + (b + "\n");
    assert a + "\n" + b + "\n\n" == Join(xs, '\n') + "\n";
    JoinSnoc(xs, '\n');
    LinesOfJoin(xs + [[]]);
    assert xs + [[]] == [a, b] + [[], []];
    NonEmptyAppend([a, b], [[], []]);
    NonEmptyKeeps([a, b]);
    assert NonEmpty([[], []]) == NonEmpty([[]]) + [];
    assert NonEmpty([[]]) == NonEmpty([]) + [];
    AddressesOfRecords(Lines(a + "\n" + b + "\n\n"), provider, dial, now);
  }

  /** A line ending in "\r" keeps its "\r": segments are not trimmed. */
  lemma ParseListKeepsCarriageReturn(a: string, provider: string, dial: DialType, now: int)
    requires '\n' !in a
    ensures Addresses(ParseList(a + "\r\n", provider, dial, now)) == [a + "\r"]
  {
    var x := a + "\r";
    assert '\n' !in x by {
      assert forall k :: 0 <= k < |x| ==> x[k] == (if k < |a| then a[k] else '\r');
    }
    LinesRoundTrip([x]);
    assert Join([x], '\n') == x;
    assert a + "\r\n" == x + "\n";
    AddressesOfRecords(Lines(x + "\n"), provider, dial, now);
  }

  // ---------------------------------------------------------------------
  // One list download
  // ---------------------------------------------------------------------

  /** The GET request of a list fetch (the request declares `Content-Encoding: gzip`). */
  function ListRequest(url: string, timeout: int, dialer: Dialer): (r: Request)
  {
    Request("GET", url, map["Content-Encoding" := "gzip"], "", timeout, dialer)
  }

  /** The result of one list download: nil on a transport or decode error, else the parsed slice. */
  function ListOutcome(ex: Exchange, codecs: Codecs, provider: string, dial: DialType, now: int): (r: Batch)
  {
    match ex
    case TransportError => Nil
    case Response(header, body) =>
      match ReadBody(header, body, codecs)
      case None => Nil
      case Some(decoded) => Slice(ParseList(decoded, provider, dial, now))
  }

  /**
   * A list download is nil exactly when the transport or the decoder
   * failed; a successful download is a (possibly empty) slice, never nil,
   * and all of its records carry the provider and dial type asked for.
   */
  lemma ListOutcomeSpec(ex: Exchange, codecs: Codecs, provider: string, dial: DialType, now: int)
    ensures var b := ListOutcome(ex, codecs, provider, dial, now);
      && (b.Nil? <==> ex.TransportError? || ReadBody(ex.header, ex.body, codecs).None?)
      && (b.Slice? ==> b.items == ParseList(ReadBody(ex.header, ex.body, codecs).value, provider, dial, now))
      && forall k :: 0 <= k < |b.Items()| ==>
        b.Items()[k].provider == provider && b.Items()[k].dialType == dial && b.Items()[k].errTimes == 0
        && b.Items()[k].address != []
  {
    if ex.Response? && ReadBody(ex.header, ex.body, codecs).Some? {
      ParseListShape(ReadBody(ex.header, ex.body, codecs).value, provider, dial, now);
    }
  }

  /** An empty decoded body is an empty slice, not nil and not an error. */
  lemma ListOutcomeEmptyBody(ex: Exchange, codecs: Codecs, provider: string, dial: DialType, now: int)
    requires ex.Response? && ReadBody(ex.header, ex.body, codecs) == Some("")
    ensures ListOutcome(ex, codecs, provider, dial, now) == Slice([])
  {
    assert Lines("") == [];
  }

  /** `fetchHttpProxy` / `fetchSocks5Proxy` / CPL's `Fetch`: one GET, decode, parse. */
  method FetchList(url: string, timeout: int, dialer: Dialer, provider: string, dial: DialType, env: Env)
    returns (b: Batch)
    ensures b == ListOutcome(env.transport(ListRequest(url, timeout, dialer)), env.codecs, provider, dial, env.now)
  {
    var ex := env.transport(ListRequest(url, timeout, dialer));
    if ex.TransportError? {
      return Nil;
    }
    var body := ReadBody(ex.header, ex.body, env.codecs);
    if body.None? {
      return Nil;
    }
    var proxies := ParseBody(body.value, provider, dial, env.now);
    b := Slice(proxies);
  }

  // ---------------------------------------------------------------------
  // The executors
  // ---------------------------------------------------------------------

  /** A two-list executor's configuration (TSX, STR). */
  datatype DualSource = DualSource(httpUrl: string, socks5Url: string, timeout: int, dialer: Dialer)

  /** CPL's configuration. */
  datatype SingleSource = SingleSource(url: string, timeout: int, dialer: Dialer)

  const TSX_HTTP_URL: string := "https://raw.githubusercontent.com/TheSpeedX/SOCKS-List/master/http.txt"
  const TSX_SOCKS5_URL: string := "https://raw.githubusercontent.com/TheSpeedX/SOCKS-List/master/socks5.txt"
  const STR_HTTP_URL: string := "https://raw.githubusercontent.com/shiftytr/proxy-list/master/http.txt"
  const STR_SOCKS5_URL: string := "https://raw.githubusercontent.com/shiftytr/proxy-list/master/socks5.txt"
  const CPL_URL: string := "https://raw.githubusercontent.com/clarketm/proxy-list/master/proxy-list-raw.txt"

  /** The shared shape of `newTSXExecutor` and `newSTRExecutor`, reading the four given keys. */
  function DualFromConfig(cfg: Config, httpKey: string, socks5Key: string, timeoutKey: string, proxyKey: string,
                          httpDefault: string, socks5Default: string): (s: DualSource)
    ensures cfg.GetString(httpKey) == [] ==> s.httpUrl == httpDefault
    ensures cfg.GetString(httpKey) != [] ==> s.httpUrl == cfg.GetString(httpKey)
    ensures cfg.GetString(socks5Key) == [] ==> s.socks5Url == socks5Default
    ensures cfg.GetString(socks5Key) != [] ==> s.socks5Url == cfg.GetString(socks5Key)
    ensures cfg.GetInt(timeoutKey) == 0 ==> s.timeout == 5
    ensures cfg.GetInt(timeoutKey) != 0 ==> s.timeout == cfg.GetInt(timeoutKey)
    ensures s.dialer == DialerFor(cfg.GetString(proxyKey))
  {
    DualSource(
      OrDefault(cfg.GetString(httpKey), httpDefault),
      OrDefault(cfg.GetString(socks5Key), socks5Default),
      OrDefaultInt(cfg.GetInt(timeoutKey), 5),
      DialerFor(cfg.GetString(proxyKey)))
  }

  /** `newTSXExecutor`: missing URLs fall back to the TheSpeedX lists, a zero timeout to 5 s. */
  function NewTsxSource(cfg: Config): (s: DualSource)
    ensures cfg.GetString("executor.tsx.http_url") == [] ==> s.httpUrl == TSX_HTTP_URL
    ensures cfg.GetString("executor.tsx.socks5_url") == [] ==> s.socks5Url == TSX_SOCKS5_URL
    ensures cfg.GetInt("executor.tsx.timeout") == 0 ==> s.timeout == 5
    ensures s.timeout != 0
  {
    DualFromConfig(cfg, "executor.tsx.http_url", "executor.tsx.socks5_url", "executor.tsx.timeout",
                   "executor.tsx.proxy", TSX_HTTP_URL, TSX_SOCKS5_URL)
  }

  /** `newSTRExecutor`: missing URLs fall back to the shiftytr lists, a zero timeout to 5 s. */
  function NewStrSource(cfg: Config): (s: DualSource)
    ensures cfg.GetString("executor.str.http_url") == [] ==> s.httpUrl == STR_HTTP_URL
    ensures cfg.GetString("executor.str.socks5_url") == [] ==> s.socks5Url == STR_SOCKS5_URL
    ensures cfg.GetInt("executor.str.timeout") == 0 ==> s.timeout == 5
    ensures s.timeout != 0
  {
    DualFromConfig(cfg, "executor.str.http_url", "executor.str.socks5_url", "executor.str.timeout",
                   "executor.str.proxy", STR_HTTP_URL, STR_SOCKS5_URL)
  }

  /** `newCPLExecutor`: a missing URL falls back to the clarketm list, a zero timeout to 5 s. */
  function NewCplSource(cfg: Config): (s: SingleSource)
    ensures cfg.GetString("executor.cpl.url") == [] ==> s.url == CPL_URL
    ensures cfg.GetString("executor.cpl.url") != [] ==> s.url == cfg.GetString("executor.cpl.url")
    ensures cfg.GetInt("executor.cpl.timeout") == 0 ==> s.timeout == 5
    ensures cfg.GetInt("executor.cpl.timeout") != 0 ==> s.timeout == cfg.GetInt("executor.cpl.timeout")
    ensures s.dialer == DialerFor(cfg.GetString("executor.cpl.proxy"))
  {
    SingleSource(
      OrDefault(cfg.GetString("executor.cpl.url"), CPL_URL),
      OrDefaultInt(cfg.GetInt("executor.cpl.timeout"), 5),
      DialerFor(cfg.GetString("executor.cpl.proxy")))
  }

  /** The result of a two-list `Fetch`: the HTTP list's outcome with the SOCKS5 list's appended. */
  function DualOutcome(provider: string, src: DualSource, env: Env): (r: Batch)
  {
    Append(ListOutcome(env.transport(ListRequest(src.httpUrl, src.timeout, src.dialer)), env.codecs, provider, Http, env.now),
           ListOutcome(env.transport(ListRequest(src.socks5Url, src.timeout, src.dialer)), env.codecs, provider, Socks5, env.now))
  }

  /**
   * A two-list fetch yields the HTTP list's records, then the SOCKS5
   * list's: every HTTP record precedes every SOCKS5 record, the length is
   * the sum of the halves, and a failed half leaves the other half intact.
   */
  lemma DualOutcomeSpec(provider: string, src: DualSource, env: Env)
    ensures var h := ListOutcome(env.transport(ListRequest(src.httpUrl, src.timeout, src.dialer)), env.codecs, provider, Http, env.now);
      var s := ListOutcome(env.transport(ListRequest(src.socks5Url, src.timeout, src.dialer)), env.codecs, provider, Socks5, env.now);
      var b := DualOutcome(provider, src, env);
      && b.Items() == h.Items() + s.Items()
      && (forall k :: 0 <= k < |b.Items()| ==> (b.Items()[k].dialType == Http <==> k < |h.Items()|))
      && (forall k :: 0 <= k < |b.Items()| ==> b.Items()[k].provider == provider)
      && (h.Nil? ==> b.Items() == s.Items())
      && (s.Nil? ==> b.Items() == h.Items())
  {
    ListOutcomeSpec(env.transport(ListRequest(src.httpUrl, src.timeout, src.dialer)), env.codecs, provider, Http, env.now);
    ListOutcomeSpec(env.transport(ListRequest(src.socks5Url, src.timeout, src.dialer)), env.codecs, provider, Socks5, env.now);
  }

  /** `Fetch` of TSX and STR: both downloads, the HTTP one first, appended. */
  method FetchDual(provider: string, src: DualSource, env: Env) returns (b: Batch)
    ensures b == DualOutcome(provider, src, env)
  {
    var httpProxies := FetchList(src.httpUrl, src.timeout, src.dialer, provider, Http, env);
    var socks5Proxies := FetchList(src.socks5Url, src.timeout, src.dialer, provider, Socks5, env);
    b := Append(httpProxies, socks5Proxies);
  }

  /** CPL's `Fetch`: one HTTP list; nil on failure, every record an HTTP record tagged CPL. */
  method FetchCpl(src: SingleSource, env: Env) returns (b: Batch)
    ensures b == ListOutcome(env.transport(ListRequest(src.url, src.timeout, src.dialer)), env.codecs, CPL, Http, env.now)
    ensures forall k :: 0 <= k < |b.Items()| ==> b.Items()[k].provider == CPL && b.Items()[k].dialType == Http
  {
    b := FetchList(src.url, src.timeout, src.dialer, CPL, Http, env);
    ListOutcomeSpec(env.transport(ListRequest(src.url, src.timeout, src.dialer)), env.codecs, CPL, Http, env.now);
  }
}
