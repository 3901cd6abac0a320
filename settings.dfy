/**
 * The configuration surface the executors read at construction time
 * (viper lookups) and the dialer choice every executor makes from its
 * `proxy` setting.
 */
module Settings {
  import opened Text

  /** The configuration values: a missing key reads as "" or 0, as viper's getters do. */
  datatype Config = Config(strs: map<string, string>, ints: map<string, int>)
  {
    function GetString(key: string): (r: string)
      ensures key !in strs ==> r == ""
      ensures key in strs ==> r == strs[key]
    {
      if key in strs then strs[key] else ""
    }

    function GetInt(key: string): (r: int)
      ensures key !in ints ==> r == 0
      ensures key in ints ==> r == ints[key]
    {
      if key in ints then ints[key] else 0
    }
  }

  /** `if len(v) == 0 { v = d }`. */
  function OrDefault(v: string, d: string): (r: string)
    ensures v != [] ==> r == v
    ensures v == [] ==> r == d
  {
    if |v| == 0 then d else v
  }

  /** `if v == 0 { v = d }`. */
  function OrDefaultInt(v: int, d: int): (r: int)
    ensures v != 0 ==> r == v
    ensures v == 0 ==> r == d
  {
    if v == 0 then d else v
  }

  /** How the HTTP client reaches the network. */
  datatype Dialer = Direct | HttpDialer(proxy: string) | SocksDialer(proxy: string)

  /**
   * An empty `proxy` setting keeps the default dialer; otherwise the HTTP
   * dialer is used exactly when the setting contains "http" anywhere, and
   * the SOCKS dialer for everything else.
   */
  function DialerFor(proxy: string): (d: Dialer)
    ensures proxy == [] <==> d.Direct?
    ensures d.HttpDialer? <==> proxy != [] && exists i: nat :: OccursAt(proxy, "http", i)
    ensures !d.Direct? ==> d.proxy == proxy
  {
    if |proxy| == 0 then Direct
    else if Contains(proxy, "http") then HttpDialer(proxy)
    else SocksDialer(proxy)
  }
}
