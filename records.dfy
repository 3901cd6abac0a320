/**
 * The normalised proxy record (the `proxy` model the store persists), the
 * two dial types, the executor type identifiers, and Go's nil-or-slice
 * result that every `Fetch` returns.
 */
module Records {

  /** The transport a proxy speaks (`public.DialTypeHttp`, `public.DialTypeSocks5`). */
  datatype DialType = Http | Socks5

  /**
   * The `public.ExecutorType*` identifiers. Their values are not part of
   * this model's sources; the model only relies on their being distinct
   * upper-case strings.
   */
  const STR: string := "STR"
  const CPL: string := "CPL"
  const TSX: string := "TSX"
  const IHUAN: string := "IHUAN"

  /** One discovered proxy: `Address`, `ErrTimes`, `CreatedAt`, `UpdatedAt`, `Provider`, `DialType`. */
  datatype Proxy = Proxy(
    address: string,
    errTimes: int,
    createdAt: int,
    updatedAt: int,
    provider: string,
    dialType: DialType)

  /** The store's identity key of a record. */
  datatype Key = Key(address: string, dialType: DialType)

  function KeyOf(p: Proxy): (r: Key)
  {
    Key(p.address, p.dialType)
  }

  /** A freshly scraped record: no errors yet, first and last seen `now`. */
  function NewRecord(address: string, provider: string, dial: DialType, now: int): (p: Proxy)
    ensures p.address == address && p.provider == provider && p.dialType == dial
    ensures p.errTimes == 0 && p.createdAt == now && p.updatedAt == now
  {
    Proxy(address, 0, now, now, provider, dial)
  }

  /** A Go `[]*proxy`: either `nil` or a (possibly empty) slice. */
  datatype Batch = Nil | Slice(items: seq<Proxy>)
  {
    /** What `range` visits; `nil` behaves as an empty slice. */
    function Items(): (r: seq<Proxy>)
    {
      if Nil? then [] else items
    }
  }

  /**
   * Go's `append(a, b...)`: the elements of `a` then those of `b`; when
   * nothing is appended the first argument comes back unchanged, so the
   * result is nil exactly when `a` is nil and `b` is empty.
   */
  function Append(a: Batch, b: Batch): (r: Batch)
    ensures r.Items() == a.Items() + b.Items()
    ensures r.Nil? <==> a.Nil? && |b.Items()| == 0
  {
    if |b.Items()| == 0 then a else Slice(a.Items() + b.Items())
  }
}
