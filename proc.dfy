/**
 * The defaulting step of the feed processor (package `proc`).
 *
 * A `Processor` holds a reference to a `Conf`: the list of feeds plus a
 * `System` block of global limits. Before the processor runs, `SetDefaults`
 * replaces every integer or duration setting of `System` that is exactly
 * zero by a fixed default, in place, and leaves everything else alone.
 *
 * `Normalize` is the same step as a pure function on a `System` value; the
 * lemmas state the defaulting table, field independence, order independence
 * of the per-field steps and idempotence in its terms.
 */
module Proc {

  /** Go's 64-bit signed integers (`int` on 64-bit targets, and `time.Duration`). */
  newtype Int64 = x: int | -0x8000_0000_0000_0000 <= x < 0x8000_0000_0000_0000

  /** `time.Duration`: a signed count of nanoseconds. */
  type Duration = Int64

  const Nanosecond: Duration := 1
  const Microsecond: Duration := 1000 * Nanosecond
  const Millisecond: Duration := 1000 * Microsecond
  const Second: Duration := 1000 * Millisecond
  const Minute: Duration := 60 * Second

  /** The defaulting table. */
  const DefaultUpdateInterval: Duration := Minute * 5
  const DefaultMaxItems: Int64 := 5
  const DefaultMaxTotal: Int64 := 100
  const DefaultMaxKeepInDB: Int64 := 5000
  const DefaultConcurrent: Int64 := 8

  /** A feed source descriptor; its contents play no part in defaulting. */
  type Feed

  /** The `System` block of `Conf`, fields in declaration order. */
  datatype System = System(
    UpdateInterval: Duration,
    MaxItems: Int64,
    MaxTotal: Int64,
    MaxKeepInDB: Int64,
    Concurrent: Int64,
    BaseURL: string)

  /** The defaultable settings of `System`; `BaseURL` is not one of them. */
  datatype Setting = UpdateInterval | MaxItems | MaxTotal | MaxKeepInDB | Concurrent

  /** The value of one defaultable setting. */
  function Get(s: System, f: Setting): Int64
  {
    match f
    case UpdateInterval => s.UpdateInterval
    case MaxItems => s.MaxItems
    case MaxTotal => s.MaxTotal
    case MaxKeepInDB => s.MaxKeepInDB
    case Concurrent => s.Concurrent
  }

  /** Overwrites one defaultable setting. */
  function Set(s: System, f: Setting, v: Int64): (r: System)
    ensures Get(r, f) == v
    ensures forall g :: g != f ==> Get(r, g) == Get(s, g)
    ensures r.BaseURL == s.BaseURL
  {
    match f
    case UpdateInterval => s.(UpdateInterval := v)
    case MaxItems => s.(MaxItems := v)
    case MaxTotal => s.(MaxTotal := v)
    case MaxKeepInDB => s.(MaxKeepInDB := v)
    case Concurrent => s.(Concurrent := v)
  }

  /** The default that replaces a zero value of `f`. */
  function DefaultFor(f: Setting): (d: Int64)
    ensures d > 0
  {
    match f
    case UpdateInterval => DefaultUpdateInterval
    case MaxItems => DefaultMaxItems
    case MaxTotal => DefaultMaxTotal
    case MaxKeepInDB => DefaultMaxKeepInDB
    case Concurrent => DefaultConcurrent
  }

  /** What defaulting does to one value: only an exact zero is replaced. */
  function Defaulted(v: Int64, d: Int64): Int64
  {
    if v == 0 then d else v
  }

  /** Two `System` values are equal when every setting and `BaseURL` agree. */
  lemma SystemExtensionality(a: System, b: System)
    requires forall f :: Get(a, f) == Get(b, f)
    requires a.BaseURL == b.BaseURL
    ensures a == b
  {
    assert Get(a, UpdateInterval) == Get(b, UpdateInterval);
    assert Get(a, MaxItems) == Get(b, MaxItems);
    assert Get(a, MaxTotal) == Get(b, MaxTotal);
    assert Get(a, MaxKeepInDB) == Get(b, MaxKeepInDB);
    assert Get(a, Concurrent) == Get(b, Concurrent);
  }

  /**
   * The whole defaulting step on a `System` value: each setting that is zero
   * takes its default, every other value (negative ones included) and
   * `BaseURL` are kept.
   */
  function Normalize(s: System): (r: System)
    ensures forall f :: Get(s, f) == 0 ==> Get(r, f) == DefaultFor(f)
    ensures forall f :: Get(s, f) != 0 ==> Get(r, f) == Get(s, f)
    ensures forall f :: Get(r, f) != 0
    ensures forall f :: Get(s, f) >= 0 ==> Get(r, f) > 0
    ensures r.BaseURL == s.BaseURL
  {
    System(
      UpdateInterval := Defaulted(s.UpdateInterval, DefaultFor(UpdateInterval)),
      MaxItems := Defaulted(s.MaxItems, DefaultFor(MaxItems)),
      MaxTotal := Defaulted(s.MaxTotal, DefaultFor(MaxTotal)),
      MaxKeepInDB := Defaulted(s.MaxKeepInDB, DefaultFor(MaxKeepInDB)),
      Concurrent := Defaulted(s.Concurrent, DefaultFor(Concurrent)),
      BaseURL := s.BaseURL)
  }

  /** A setting's outcome depends on that setting alone. */
  lemma FieldIndependence(a: System, b: System, f: Setting)
    requires Get(a, f) == Get(b, f)
    ensures Get(Normalize(a), f) == Get(Normalize(b), f)
  {
  }

  /** Normalizing twice is normalizing once. */
  lemma NormalizeIdempotent(s: System)
    ensures Normalize(Normalize(s)) == Normalize(s)
  {
  }

  /** A value is left as it is exactly when none of its settings is zero. */
  lemma NormalizeFixedPoint(s: System)
    ensures Normalize(s) == s <==> forall f :: Get(s, f) != 0
  {
  }

  /**
   * Exactly one setting is zero: it takes its default and nothing else
   * changes (one row of the test table, for all values of the other fields).
   */
  lemma OnlyZeroSettingChanges(s: System, f: Setting)
    requires Get(s, f) == 0
    requires forall g :: g != f ==> Get(s, g) != 0
    ensures Normalize(s) == Set(s, f, DefaultFor(f))
  {
  }

  /** One conditional assignment of the step: default `f` if it is zero. */
  function DefaultSetting(s: System, f: Setting): (r: System)
    ensures Get(r, f) == Defaulted(Get(s, f), DefaultFor(f))
    ensures forall g :: g != f ==> Get(r, g) == Get(s, g)
    ensures r.BaseURL == s.BaseURL
  {
    if Get(s, f) == 0 then Set(s, f, DefaultFor(f)) else s
  }

  /** The conditional assignments for `fs`, performed in that order. */
  function ApplySteps(s: System, fs: seq<Setting>): System
    decreases |fs|
  {
    if fs == [] then s else ApplySteps(DefaultSetting(s, fs[0]), fs[1..])
  }

  /** The order in which the settings are declared in `System`. */
  const DeclarationOrder: seq<Setting> := [UpdateInterval, MaxItems, MaxTotal, MaxKeepInDB, Concurrent]

  /** After the steps for `fs`, exactly the zero settings named in `fs` hold their defaults. */
  lemma {:induction false} ApplyStepsDefaults(s: System, fs: seq<Setting>)
    ensures forall f ::
              Get(ApplySteps(s, fs), f) == if f in fs && Get(s, f) == 0 then DefaultFor(f) else Get(s, f)
    ensures ApplySteps(s, fs).BaseURL == s.BaseURL
    decreases |fs|
  {
    if fs != [] {
      var t := DefaultSetting(s, fs[0]);
      ApplyStepsDefaults(t, fs[1..]);
      forall f ensures Get(ApplySteps(s, fs), f) ==
        (if f in fs && Get(s, f) == 0 then DefaultFor(f) else Get(s, f))
      {
        assert f in fs <==> f == fs[0] || f in fs[1..];
      }
    }
  }

  /**
   * The per-setting steps commute: performing them in any order, each any
   * number of times, gives Normalize as long as every setting is covered.
   */
  lemma AnyOrderNormalizes(s: System, fs: seq<Setting>)
    requires forall f :: f in fs
    ensures ApplySteps(s, fs) == Normalize(s)
  {
    ApplyStepsDefaults(s, fs);
    forall f ensures Get(ApplySteps(s, fs), f) == Get(Normalize(s), f) {
    }
    SystemExtensionality(ApplySteps(s, fs), Normalize(s));
  }

  /** Each row of the test table, input and expected output. */
  lemma SetDefaultsTable()
    ensures Normalize(System(1, 1, 1, 1, 0, "")) == System(1, 1, 1, 1, 8, "")
    ensures Normalize(System(1, 0, 1, 1, 1, "")) == System(1, 5, 1, 1, 1, "")
    ensures Normalize(System(1, 1, 0, 1, 1, "")) == System(1, 1, 100, 1, 1, "")
    ensures Normalize(System(1, 1, 1, 0, 1, "")) == System(1, 1, 1, 5000, 1, "")
    ensures Normalize(System(0, 1, 1, 1, 1, "")) == System(300_000_000_000, 1, 1, 1, 1, "")
    ensures Normalize(System(1, 1, 1, 1, 1, "http://example.ex"))
         == System(1, 1, 1, 1, 1, "http://example.ex")
  {
  }

  /** The processor's configuration: feed list and the `System` block. */
  class Conf {
    var Feeds: seq<Feed>
    var System: System

    constructor (feeds: seq<Feed>, system: System)
      ensures Feeds == feeds && System == system
    {
      Feeds := feeds;
      System := system;
    }
  }

  class Processor {
    var Conf: Conf

    constructor (conf: Conf)
      ensures Conf == conf
    {
      Conf := conf;
    }

    /**
     * Fills in the defaults of the `System` block of the configuration this
     * processor already points to. The processor keeps the same `Conf`
     * object, the feed list is untouched, and the new block is a fixed point.
     */
    method SetDefaults()
      modifies Conf
      ensures Conf == old(Conf)
      ensures Conf.Feeds == old(Conf.Feeds)
      ensures Conf.System == Normalize(old(Conf.System))
      ensures Conf.System == ApplySteps(old(Conf.System), DeclarationOrder)
      ensures Normalize(Conf.System) == Conf.System
    {
      if Conf.System.UpdateInterval == 0 {
        Conf.System := Conf.System.(UpdateInterval := DefaultUpdateInterval);
      }
      if Conf.System.MaxItems == 0 {
        Conf.System := Conf.System.(MaxItems := DefaultMaxItems);
      }
      if Conf.System.MaxTotal == 0 {
        Conf.System := Conf.System.(MaxTotal := DefaultMaxTotal);
      }
      if Conf.System.MaxKeepInDB == 0 {
        Conf.System := Conf.System.(MaxKeepInDB := DefaultMaxKeepInDB);
      }
      if Conf.System.Concurrent == 0 {
        Conf.System := Conf.System.(Concurrent := DefaultConcurrent);
      }
      NormalizeIdempotent(old(Conf.System));
      forall f ensures f in DeclarationOrder {
        match f
        case UpdateInterval => assert DeclarationOrder[0] == f;
        case MaxItems => assert DeclarationOrder[1] == f;
        case MaxTotal => assert DeclarationOrder[2] == f;
        case MaxKeepInDB => assert DeclarationOrder[3] == f;
        case Concurrent => assert DeclarationOrder[4] == f;
      }
      AnyOrderNormalizes(old(Conf.System), DeclarationOrder);
    }
  }
}
