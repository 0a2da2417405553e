/** The process-wide registry of printer factories, keyed by target triple,
    and the table of default syntaxes keyed by (format, ISA). Modelled as
    one sequential object that callers pass around. */
module Registry {
  import opened Wrappers
  import Factories

  /** A target: (file format, ISA, syntax). */
  type Target = (string, string, string)

  /** Every combination of a format, an ISA and a syntax from the three lists. */
  function Cross(formats: seq<string>, isas: seq<string>, syntaxes: seq<string>): set<Target>
  {
    set f, i, s | f in formats && i in isas && s in syntaxes :: (f, i, s)
  }

  /** Every combination of a format and an ISA from the two lists. */
  function Pairs(formats: seq<string>, isas: seq<string>): set<(string, string)>
  {
    set f, i | f in formats && i in isas :: (f, i)
  }

  /** The triple `t` is one of the combinations of the three lists. */
  predicate Bound(t: Target, formats: seq<string>, isas: seq<string>, syntaxes: seq<string>)
  {
    t.0 in formats && t.1 in isas && t.2 in syntaxes
  }

  /** `m` is `m0` with every triple of the three lists bound to `f`. */
  ghost predicate BindsAll(m: map<Target, Factories.PrinterFactory>, m0: map<Target, Factories.PrinterFactory>,
                           formats: seq<string>, isas: seq<string>, syntaxes: seq<string>, f: Factories.PrinterFactory)
  {
    && (forall t :: t in m <==> t in m0 || Bound(t, formats, isas, syntaxes))
    && (forall t :: t in m ==> m[t] == (if Bound(t, formats, isas, syntaxes) then f else m0[t]))
  }

  /** `d` is `d0` with, when `isDefault`, every pair of the first two lists
      mapped to the last syntax. */
  ghost predicate DefaultsAll(d: map<(string, string), string>, d0: map<(string, string), string>,
                              formats: seq<string>, isas: seq<string>, syntaxes: seq<string>, isDefault: bool)
  {
    && (forall p :: p in d <==> p in d0 || (isDefault && |syntaxes| > 0 && p.0 in formats && p.1 in isas))
    && (forall p :: p in d ==>
          d[p] == (if isDefault && |syntaxes| > 0 && p.0 in formats && p.1 in isas
                   then syntaxes[|syntaxes| - 1] else d0[p]))
  }

  /** One step of the innermost registration loop, on the factory map. */
  lemma BindStep(m: map<Target, Factories.PrinterFactory>, m0: map<Target, Factories.PrinterFactory>,
                 format: string, isa: string, syntaxes: seq<string>, c: nat, f: Factories.PrinterFactory)
    requires c < |syntaxes| && BindsAll(m, m0, [format], [isa], syntaxes[..c], f)
    ensures BindsAll(m[(format, isa, syntaxes[c]) := f], m0, [format], [isa], syntaxes[..c + 1], f)
  {
  }

  /** One step of the innermost registration loop, on the default-syntax map. */
  lemma DefaultStep(d: map<(string, string), string>, d0: map<(string, string), string>,
                    format: string, isa: string, syntaxes: seq<string>, c: nat, isDefault: bool)
    requires c < |syntaxes| && DefaultsAll(d, d0, [format], [isa], syntaxes[..c], isDefault)
    ensures DefaultsAll(if isDefault then d[(format, isa) := syntaxes[c]] else d,
                        d0, [format], [isa], syntaxes[..c + 1], isDefault)
  {
  }

  class PrinterRegistry {
    var factories: map<Target, Factories.PrinterFactory>
    var defaultSyntaxes: map<(string, string), string>

    constructor ()
      ensures factories == map[] && defaultSyntaxes == map[]
    {
      factories, defaultSyntaxes := map[], map[];
    }

    /** The targets that currently have a factory. */
    function RegisteredTargets(): (r: set<Target>)
      reads this
      ensures forall t :: t in r <==> t in factories
    {
      factories.Keys
    }

    /** The default syntax of a (format, ISA) pair, if one was set. */
    function DefaultSyntax(format: string, isa: string): (r: Option<string>)
      reads this
      ensures r.Some? <==> (format, isa) in defaultSyntaxes
      ensures r.Some? ==> r.value == defaultSyntaxes[(format, isa)]
    {
      if (format, isa) in defaultSyntaxes then Some(defaultSyntaxes[(format, isa)]) else None
    }

    /** Sets the default syntax of (format, ISA); the last write wins. */
    method SetDefaultSyntax(format: string, isa: string, syntax: string)
      modifies this
      ensures defaultSyntaxes == old(defaultSyntaxes)[(format, isa) := syntax]
      ensures factories == old(factories)
      ensures DefaultSyntax(format, isa) == Some(syntax)
      ensures forall f, i :: (f, i) != (format, isa) ==> DefaultSyntax(f, i) == old(DefaultSyntax(f, i))
    {
      defaultSyntaxes := defaultSyntaxes[(format, isa) := syntax];
    }

    /** Binds every triple of formats x isas x syntaxes to `f`, visiting the
        formats, then the ISAs, then the syntaxes in list order. With
        `isDefault` each visited triple also becomes its pair's default
        syntax, so every pair ends with the last syntax of the list. */
    method RegisterPrinter(formats: seq<string>, isas: seq<string>, syntaxes: seq<string>,
                           f: Factories.PrinterFactory, isDefault: bool := false)
      returns (ok: bool)
      modifies this
      ensures ok
      ensures RegisteredTargets() == old(RegisteredTargets()) + Cross(formats, isas, syntaxes)
      ensures forall t :: t in Cross(formats, isas, syntaxes) ==> factories[t] == f
      ensures forall t :: t in factories && t !in Cross(formats, isas, syntaxes) ==> factories[t] == old(factories)[t]
      ensures isDefault && |syntaxes| > 0 ==>
        forall p :: p in Pairs(formats, isas) ==> DefaultSyntax(p.0, p.1) == Some(syntaxes[|syntaxes| - 1])
      ensures forall p :: p !in Pairs(formats, isas) || !isDefault || |syntaxes| == 0 ==>
        DefaultSyntax(p.0, p.1) == old(DefaultSyntax(p.0, p.1))
    {
      for a := 0 to |formats|
        invariant Registered(old(factories), old(defaultSyntaxes), formats[..a], isas, syntaxes, f, isDefault)
      {
        assert formats[..a + 1] == formats[..a] + [formats[a]];
        RegisterFormat(formats[a], isas, syntaxes, f, isDefault);
      }
      assert formats[..|formats|] == formats;
      ok := true;
    }

    /** The registry is `factories0`/`defaults0` with every triple of the three
        lists bound to `f` and, with `isDefault`, every pair of the first two
        lists defaulting to the last syntax. */
    ghost predicate Registered(factories0: map<Target, Factories.PrinterFactory>, defaults0: map<(string, string), string>,
                               formats: seq<string>, isas: seq<string>, syntaxes: seq<string>,
                               f: Factories.PrinterFactory, isDefault: bool)
      reads this
    {
      && BindsAll(factories, factories0, formats, isas, syntaxes, f)
      && DefaultsAll(defaultSyntaxes, defaults0, formats, isas, syntaxes, isDefault)
    }

    /** The middle loop of RegisterPrinter: one format, every ISA. */
    method RegisterFormat(format: string, isas: seq<string>, syntaxes: seq<string>,
                          f: Factories.PrinterFactory, isDefault: bool)
      modifies this
      ensures Registered(old(factories), old(defaultSyntaxes), [format], isas, syntaxes, f, isDefault)
    {
      for b := 0 to |isas|
        invariant Registered(old(factories), old(defaultSyntaxes), [format], isas[..b], syntaxes, f, isDefault)
      {
        assert isas[..b + 1] == isas[..b] + [isas[b]];
        RegisterPair(format, isas[b], syntaxes, f, isDefault);
      }
      assert isas[..|isas|] == isas;
    }

    /** The inner loop of RegisterPrinter: one format and ISA, every syntax. */
    method RegisterPair(format: string, isa: string, syntaxes: seq<string>,
                        f: Factories.PrinterFactory, isDefault: bool)
      modifies this
      ensures Registered(old(factories), old(defaultSyntaxes), [format], [isa], syntaxes, f, isDefault)
    {
      for c := 0 to |syntaxes|
        invariant Registered(old(factories), old(defaultSyntaxes), [format], [isa], syntaxes[..c], f, isDefault)
      {
        BindStep(factories, old(factories), format, isa, syntaxes, c, f);
        DefaultStep(defaultSyntaxes, old(defaultSyntaxes), format, isa, syntaxes, c, isDefault);
        factories := factories[(format, isa, syntaxes[c]) := f];
        if isDefault {
          SetDefaultSyntax(format, isa, syntaxes[c]);
        }
      }
      assert syntaxes[..|syntaxes|] == syntaxes;
    }
  }
}
