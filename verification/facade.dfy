/** The caller-facing pretty printer: its selected target, debug style, the
    four per-category policy overrides and the selected named policy. */
module Facade {
  import opened Wrappers
  import opened Policies
  import Registry

  class PrettyPrinter {
    var format: string
    var isa: string
    var syntax: string
    var debug: DebugStyle
    /** The overrides of the function, symbol, section and array-section
        skip sets; the accessors hand out these objects. */
    const functionPolicy: PolicyOptions
    const symbolPolicy: PolicyOptions
    const sectionPolicy: PolicyOptions
    const arraySectionPolicy: PolicyOptions
    var policyName: string

    /** The default configuration: no target, untouched overrides and the
        policy name "default"; the four overrides are distinct objects. The
        debug style is left unspecified. */
    constructor ()
      ensures functionPolicy != symbolPolicy && functionPolicy != sectionPolicy
      ensures functionPolicy != arraySectionPolicy && symbolPolicy != sectionPolicy
      ensures symbolPolicy != arraySectionPolicy && sectionPolicy != arraySectionPolicy
      ensures format == "" && isa == "" && syntax == ""
      ensures policyName == "default"
      ensures fresh(functionPolicy) && fresh(symbolPolicy) && fresh(sectionPolicy) && fresh(arraySectionPolicy)
      ensures functionPolicy.skipped == {} && functionPolicy.kept == {} && functionPolicy.useDefaults
      ensures symbolPolicy.skipped == {} && symbolPolicy.kept == {} && symbolPolicy.useDefaults
      ensures sectionPolicy.skipped == {} && sectionPolicy.kept == {} && sectionPolicy.useDefaults
      ensures arraySectionPolicy.skipped == {} && arraySectionPolicy.kept == {} && arraySectionPolicy.useDefaults
    {
      format, isa, syntax := "", "", "";
      debug := NoDebug;
      functionPolicy := new PolicyOptions();
      symbolPolicy := new PolicyOptions();
      sectionPolicy := new PolicyOptions();
      arraySectionPolicy := new PolicyOptions();
      policyName := "default";
    }

    function GetPolicyName(): string
      reads this
    {
      policyName
    }

    /** Selects the named policy; nothing else changes. */
    method SetPolicyName(name: string)
      modifies this
      ensures GetPolicyName() == name
      ensures format == old(format) && isa == old(isa) && syntax == old(syntax) && debug == old(debug)
    {
      policyName := name;
    }

    /** Selects a target triple; it is not checked against the registry. */
    method SetTarget(target: Registry.Target)
      modifies this
      ensures (format, isa, syntax) == target
      ensures debug == old(debug) && policyName == old(policyName)
    {
      format, isa, syntax := target.0, target.1, target.2;
    }

    /** Selects a format and ISA; the syntax becomes their registered default,
        or becomes empty when there is none, whatever was selected before. */
    method SetFormat(newFormat: string, newIsa: string, registry: Registry.PrinterRegistry)
      modifies this
      ensures format == newFormat && isa == newIsa
      ensures registry.DefaultSyntax(newFormat, newIsa).Some? ==>
        syntax == registry.DefaultSyntax(newFormat, newIsa).value
      ensures registry.DefaultSyntax(newFormat, newIsa).None? ==> syntax == ""
      ensures debug == old(debug) && policyName == old(policyName)
    {
      SetTarget((newFormat, newIsa, registry.DefaultSyntax(newFormat, newIsa).GetOr("")));
    }

    function GetDebug(): bool
      reads this
    {
      debug == DebugMessages
    }

    /** Enables or disables debugging messages; nothing else changes. */
    method SetDebug(doDebug: bool)
      modifies this
      ensures GetDebug() == doDebug
      ensures debug == (if doDebug then DebugMessages else NoDebug)
      ensures format == old(format) && isa == old(isa) && syntax == old(syntax) && policyName == old(policyName)
    {
      debug := if doDebug then DebugMessages else NoDebug;
    }

    /** The policy a print uses: `base` with each of the four overrides
        applied to its own skip set and the printer's own debug style; the
        compiler arguments are those of `base`. */
    method ApplyOverrides(base: PrintingPolicy) returns (r: PrintingPolicy)
      ensures r.skipFunctions == ApplyOptions(functionPolicy.useDefaults, functionPolicy.skipped, functionPolicy.kept, base.skipFunctions)
      ensures r.skipSymbols == ApplyOptions(symbolPolicy.useDefaults, symbolPolicy.skipped, symbolPolicy.kept, base.skipSymbols)
      ensures r.skipSections == ApplyOptions(sectionPolicy.useDefaults, sectionPolicy.skipped, sectionPolicy.kept, base.skipSections)
      ensures r.arraySections == ApplyOptions(arraySectionPolicy.useDefaults, arraySectionPolicy.skipped, arraySectionPolicy.kept, base.arraySections)
      ensures r.compilerArguments == base.compilerArguments
      ensures r.debug == debug
    {
      var functions := functionPolicy.Apply(base.skipFunctions);
      var symbols := symbolPolicy.Apply(base.skipSymbols);
      var sections := sectionPolicy.Apply(base.skipSections);
      var arrays := arraySectionPolicy.Apply(base.arraySections);
      r := base.(skipFunctions := functions, skipSymbols := symbols, skipSections := sections, arraySections := arrays,
                 debug := debug);
    }
  }
}
