/**
 * The program entry: the caller label the log formatter prints, and the
 * start-up sequence that builds the factory and registers one executor per
 * selected identifier.
 */
module Entry {
  import opened Wrappers
  import opened Text
  import opened Settings
  import opened Executors
  import opened Factories
  import Patterns

  // ---------------------------------------------------------------------
  // The caller label
  // ---------------------------------------------------------------------

  /**
   * The file name of a frame path: what follows its last '/'. A path with
   * no '/' at all gives the empty name, not the whole path.
   */
  function BaseName(path: string): (r: string)
    ensures '/' !in r
    ensures '/' !in path ==> r == ""
    ensures '/' in path ==> |r| < |path| && path[|path| - |r| - 1] == '/' && path[|path| - |r|..] == r
  {
    var slash := LastIndex(path, '/');
    if slash >= 0 then path[slash + 1..] else ""
  }

  /** The label `「name:line」` put in front of every log line. */
  function CallerLabel(path: string, line: int): (r: string)
  {
    "「" + BaseName(path) + ":" + IntToDecimal(line) + "」"
  }

  /**
   * Reads a label back: the brackets, then the text before the last ':'
   * as the file name and the digits after it as the line.
   */
  function ReadLabel(tag: string): (r: Option<(string, nat)>)
  {
    if |tag| < 2 || tag[0] != '「' || tag[|tag| - 1] != '」' then None
    else ReadInner(tag[1..|tag| - 1])
  }

  /** The inside of a label: name, the last ':', then a non-empty run of digits. */
  function ReadInner(inner: string): (r: Option<(string, nat)>)
    ensures r.Some? ==> '/' !in inner ==> '/' !in r.value.0
  {
    var colon := LastIndex(inner, ':');
    if colon < 0 then None
    else
      var digits := inner[colon + 1..];
      if |digits| == 0 || !Patterns.AllDigits(digits, 0, |digits|) then None
      else
        assert forall k :: 0 <= k < colon ==> inner[..colon][k] == inner[k];
        Some((inner[..colon], DecimalValue(digits)))
  }

  /** The last ':' of `x + ":" + d` is the one added, when `d` has none. */
  lemma LastColon(x: string, d: string)
    requires ':' !in d
    ensures LastIndex(x + [':'] + d, ':') == |x|
  {
    var s := x + [':'] + d;
    assert s[|x|] == ':';
  }

  /** `name:digits` reads back as the name and the digits' value. */
  lemma ReadInnerOf(name: string, digits: string)
    requires |digits| > 0 && Patterns.AllDigits(digits, 0, |digits|)
    ensures ReadInner(name + [':'] + digits) == Some((name, DecimalValue(digits)))
  {
    var inner := name + [':'] + digits;
    assert ':' !in digits by {
      forall k | 0 <= k < |digits| ensures digits[k] != ':' {
        assert IsDigit(digits[k]);
      }
    }
    LastColon(name, digits);
    assert inner[|name| + 1..] == digits;
    assert inner[..|name|] == name;
  }

  /** The brackets are stripped and the inside is read. */
  lemma ReadBracketed(inner: string)
    ensures ReadLabel(['「'] + inner + ['」']) == ReadInner(inner)
  {
    var tag := ['「'] + inner + ['」'];
    assert tag[1..|tag| - 1] == inner;
  }

  /** Reading a label back gives the file name and line it was made from. */
  lemma ReadCallerLabel(path: string, line: nat)
    ensures ReadLabel(CallerLabel(path, line)) == Some((BaseName(path), line))
  {
    var name, digits := BaseName(path), IntToDecimal(line);
    NatToDecimalRoundTrip(line);
    assert CallerLabel(path, line) == ['「'] + (name + [':'] + digits) + ['」'];
    ReadBracketed(name + [':'] + digits);
    ReadInnerOf(name, digits);
  }

  // ---------------------------------------------------------------------
  // Start-up
  // ---------------------------------------------------------------------

  /** What the slot registered for one selected identifier reports. */
  function SelectedKind(s: string): (k: Option<string>)
    ensures k.Some? <==> Known(Upper(s))
    ensures k.Some? ==> k.value == Upper(s)
  {
    if Known(Upper(s)) then Some(Upper(s)) else None
  }

  /** A slot built for an identifier reports that identifier's kind. */
  lemma BuiltKind(o: Option<Executor>, s: string, cfg: Config)
    requires BuiltFrom(o, Upper(s), cfg)
    ensures KindOf(o) == SelectedKind(s)
  {
  }

  /** One turn of `main`'s loop: make the executor for `typ` and register it. */
  method AddSlot(f: Factory, typ: string, cfg: Config)
    modifies f`executors
    ensures |f.executors| == |old(f.executors)| + 1
    ensures f.executors[..|old(f.executors)|] == old(f.executors)
    ensures BuiltFrom(f.executors[|old(f.executors)|], typ, cfg)
    ensures EmptySession(f.executors[|old(f.executors)|])
    ensures IsSession(f.executors[|old(f.executors)|]) ==> fresh(f.executors[|old(f.executors)|].value.ihuan)
    ensures IsSession(f.executors[|old(f.executors)|]) ==>
      forall k :: 0 <= k < |old(f.executors)| && IsSession(f.executors[k]) ==>
        f.executors[k].value.ihuan != f.executors[|old(f.executors)|].value.ihuan
  {
    var e := NewExecutor(typ, cfg);
    f.RegisterExecutor(e);
  }

  /**
   * `main`'s loop: one slot per identifier, in order, each what
   * `NewExecutor` builds for it; every IHuan slot is a session of its own.
   */
  method RegisterAll(f: Factory, types: seq<string>, cfg: Config)
    requires f.executors == []
    modifies f`executors
    ensures |f.executors| == |types|
    ensures forall k :: 0 <= k < |types| ==> BuiltFrom(f.executors[k], types[k], cfg) && EmptySession(f.executors[k])
    ensures forall k :: 0 <= k < |types| && IsSession(f.executors[k]) ==> fresh(f.executors[k].value.ihuan)
    ensures forall k, l :: 0 <= k < l < |types| && IsSession(f.executors[k]) && IsSession(f.executors[l]) ==>
      f.executors[k].value.ihuan != f.executors[l].value.ihuan
  {
    var i := 0;
    while i < |types|
      invariant 0 <= i <= |types|
      invariant |f.executors| == i
      invariant forall k :: 0 <= k < i ==> BuiltFrom(f.executors[k], types[k], cfg) && EmptySession(f.executors[k])
      invariant forall k :: 0 <= k < i && IsSession(f.executors[k]) ==> fresh(f.executors[k].value.ihuan)
      invariant forall k, l :: 0 <= k < l < i && IsSession(f.executors[k]) && IsSession(f.executors[l]) ==>
        f.executors[k].value.ihuan != f.executors[l].value.ihuan
    {
      AddSlot(f, types[i], cfg);
      i := i + 1;
    }
  }

  /**
   * `main`: builds the factory over the opened store, refuses an empty
   * selection (`ok` false, nothing registered), and otherwise registers,
   * in list order, the executor made for each upper-cased identifier,
   * unknown ones included as nil slots. Each IHuan slot is a session of
   * its own, allocated here.
   */
  method Launch(selected: seq<string>, cfg: Config, db: Store) returns (f: Factory, ok: bool)
    ensures fresh(f) && f.database == db
    ensures ok <==> |selected| > 0
    ensures !ok ==> f.executors == []
    ensures ok ==> |f.executors| == |selected|
    ensures ok ==> forall k :: 0 <= k < |selected| ==> KindOf(f.executors[k]) == SelectedKind(selected[k])
    ensures ok ==> forall k :: 0 <= k < |selected| ==> BuiltFrom(f.executors[k], Upper(selected[k]), cfg)
    ensures ok ==> forall k :: 0 <= k < |selected| ==> EmptySession(f.executors[k])
    ensures ok ==> forall k :: 0 <= k < |selected| && IsSession(f.executors[k]) ==>
      fresh(f.executors[k].value.ihuan)
    ensures ok ==> forall k, l :: 0 <= k < l < |selected| && IsSession(f.executors[k]) && IsSession(f.executors[l]) ==>
      f.executors[k].value.ihuan != f.executors[l].value.ihuan
  {
    f := new Factory(db);
    if |selected| == 0 {
      return f, false;
    }
    var types := seq(|selected|, k requires 0 <= k < |selected| => Upper(selected[k]));
    RegisterAll(f, types, cfg);
    forall k | 0 <= k < |selected| ensures KindOf(f.executors[k]) == SelectedKind(selected[k]) {
      BuiltKind(f.executors[k], selected[k], cfg);
    }
    ok := true;
  }
}
