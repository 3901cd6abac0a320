/**
 * The `Executor` interface and `NewExecutor`: the four executor kinds,
 * the type identifier each one reports, and the type-string dispatch that
 * builds one (or nothing, for an unknown string).
 */
module Executors {
  import opened Wrappers
  import opened Records
  import opened Settings
  import opened Transport
  import opened ListExecutors
  import opened IHuanProvider

  /** One constructed executor. The three list executors are plain settings; IHuan is an object with state. */
  datatype Executor =
    | Str(dual: DualSource)
    | Cpl(single: SingleSource)
    | Tsx(dual: DualSource)
    | IHuan(ihuan: IHuanExecutor)

  /** The identifiers `NewExecutor` recognises. */
  predicate Known(t: string)
  {
    t == STR || t == CPL || t == TSX || t == IHUAN
  }

  /** `Type()`: each executor reports its own constant. */
  function Type(e: Executor): (t: string)
    ensures Known(t)
  {
    match e
    case Str(_) => STR
    case Cpl(_) => CPL
    case Tsx(_) => TSX
    case IHuan(_) => IHUAN
  }

  /** What a registered slot reports: its executor's type, or nothing for nil. */
  function KindOf(o: Option<Executor>): (k: Option<string>)
    ensures k.None? <==> o.None?
  {
    match o
    case None => None
    case Some(e) => Some(Type(e))
  }

  /** A slot holding an IHuan session. */
  predicate IsSession(o: Option<Executor>)
  {
    o.Some? && o.value.IHuan?
  }

  /**
   * The slot `NewExecutor` yields for an identifier: nothing for an unknown
   * one, the list executor built from `cfg` for STR, CPL and TSX, and an
   * IHuan session over the configured settings for IHUAN.
   */
  predicate BuiltFrom(o: Option<Executor>, typ: string, cfg: Config)
  {
    && (!Known(typ) ==> o.None?)
    && (typ == STR ==> o == Some(Str(NewStrSource(cfg))))
    && (typ == CPL ==> o == Some(Cpl(NewCplSource(cfg))))
    && (typ == TSX ==> o == Some(Tsx(NewTsxSource(cfg))))
    && (typ == IHUAN ==> IsSession(o) && o.value.ihuan.src == NewIHuanSource(cfg))
  }

  /** An IHuan session that has no cookie, no key and has sent nothing; any other slot trivially. */
  ghost predicate EmptySession(o: Option<Executor>)
    reads if IsSession(o) then {o.value.ihuan} else {}
  {
    IsSession(o) ==> o.value.ihuan.statistics == [] && o.value.ihuan.key == [] && o.value.ihuan.sent == []
  }

  /**
   * `NewExecutor`: exact, case-sensitive comparison against the four
   * identifiers. A known identifier yields the matching executor built
   * from the configuration, and that executor reports back the same
   * identifier; every other string yields nil.
   */
  method NewExecutor(typ: string, cfg: Config) returns (e: Option<Executor>)
    ensures e.None? <==> !Known(typ)
    ensures e.Some? ==> Type(e.value) == typ
    ensures BuiltFrom(e, typ, cfg) && EmptySession(e)
    ensures IsSession(e) ==> fresh(e.value.ihuan)
  {
    if typ == STR {
      e := Some(Str(NewStrSource(cfg)));
    } else if typ == CPL {
      e := Some(Cpl(NewCplSource(cfg)));
    } else if typ == TSX {
      e := Some(Tsx(NewTsxSource(cfg)));
    } else if typ == IHUAN {
      var x := new IHuanExecutor(cfg);
      e := Some(IHuan(x));
    } else {
      e := None;
    }
  }

  /**
   * `Fetch` through the interface: each kind's own fetch. For IHuan the
   * session moves exactly as the executor's own `Fetch` says: a cookie or
   * key already held is kept and not fetched again.
   */
  method Fetch(e: Executor, env: Env) returns (b: Batch)
    modifies if e.IHuan? then {e.ihuan} else {}
    ensures e.Str? ==> b == DualOutcome(STR, e.dual, env)
    ensures e.Tsx? ==> b == DualOutcome(TSX, e.dual, env)
    ensures e.Cpl? ==> b == ListOutcome(env.transport(ListRequest(e.single.url, e.single.timeout, e.single.dialer)), env.codecs, CPL, Http, env.now)
    ensures e.IHuan? ==> b == IHuanOutcome(env.transport(e.ihuan.DataReq(e.ihuan.key)), env.codecs, env.now)
    ensures e.IHuan? ==>
      e.ihuan.statistics == if old(e.ihuan.statistics) == [] then CookieStep(env.transport(e.ihuan.StatisticsReq()), old(e.ihuan.statistics))
                            else old(e.ihuan.statistics)
    ensures e.IHuan? ==>
      e.ihuan.key == if old(e.ihuan.key) == [] then KeyStep(env.transport(e.ihuan.KeyReq(e.ihuan.statistics)), env.codecs, old(e.ihuan.key))
                     else old(e.ihuan.key)
    ensures e.IHuan? ==>
      e.ihuan.sent == old(e.ihuan.sent)
                      + (if old(e.ihuan.statistics) == [] then [e.ihuan.StatisticsReq()] else [])
                      + (if old(e.ihuan.key) == [] then [e.ihuan.KeyReq(e.ihuan.statistics)] else []) + [e.ihuan.DataReq(e.ihuan.key)]
    ensures e.IHuan? ==> KeyShaped(old(e.ihuan.key)) ==> KeyShaped(e.ihuan.key)
  {
    match e
    case Str(src) =>
      b := FetchDual(STR, src, env);
    case Tsx(src) =>
      b := FetchDual(TSX, src, env);
    case Cpl(src) =>
      b := FetchCpl(src, env);
    case IHuan(x) =>
      b := x.Fetch(env);
  }
}
