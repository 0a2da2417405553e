# gtirb-pprinter: printing policies, printer registry and function containment

This project models, in Dafny, the bookkeeping core of the GTIRB pretty
printer's public header `include/gtirb_pprinter/PrettyPrinter.hpp`:

- **Printing policies.** A `PrintingPolicy` is five name sets plus a
  `DebugStyle`. A `PolicyOptions` object holds a skip set, a keep set and a
  use-defaults flag. Its `apply` edits a caller's set in a fixed order: clear
  it unless defaults are used, insert every skipped name, then erase every kept
  name. `PolicyOptions` is a class whose methods update its fields. `Apply` is
  a method with the source's erase loop. It is proved against the
  specification function `ApplyOptions`, and the set laws are proved about
  that function.
- **The printer registry.** This is the process-wide table from target
  triples (format, ISA, syntax) to printer factories, plus the default-syntax
  table keyed by (format, ISA). It is one `PrinterRegistry` object that
  callers pass around. `RegisterPrinter` binds every triple of the cross
  product in nested loops (formats, then ISAs, then syntaxes). With
  `isDefault` it also sets each pair's default syntax on every step. So in
  the model every pair ends with the last syntax of the list; the header
  does not say which syntax wins.
- **A factory's named-policy table.** This is a map from names to policies,
  kept with a ghost record of every name ever registered.
- **The facade.** The `PrettyPrinter` holds the selected target, the debug
  style, the four policy overrides (function, symbol, section and
  array-section) as four distinct `PolicyOptions` objects, and the selected
  policy name, which starts as `"default"`. `ApplyOverrides` is the step of a
  print that applies each override to its own set of the chosen policy and
  gives the policy the printer's own debug style. The policy is the only
  route by which that style reaches the printer that gets built.
- **Function containment.** Functions are assumed tightly packed. Each runs
  from its entry address to the next entry, and the last one runs to the
  module end. The ordered set of function-entry addresses is a strictly
  increasing sequence. The function holding an address is the one at the
  greatest entry not above it, found through the ordered set's upper bound.
  A function's last block is the block after which the next block, if any,
  belongs to another function.

Addresses are compared and never computed with, so they are modelled as `nat`.

## Model

| member | source | states |
|---|---|---|
| Policies.ApplyMembership | include/gtirb_pprinter/PrettyPrinter.hpp:106-114 | A name is in the applied set iff it is not kept, and it is either skipped or was already present while defaults are used |
| Policies.KeepOverridesSkip | include/gtirb_pprinter/PrettyPrinter.hpp:110-113 | A name that is both skipped and kept is never in the result, because the erase runs after the insert |
| Policies.ApplyIgnoresContentsWithoutDefaults | include/gtirb_pprinter/PrettyPrinter.hpp:107-113 | Without defaults the result is `Skip \ Keep`, whatever the set held before |
| Policies.ApplyIdempotent | include/gtirb_pprinter/PrettyPrinter.hpp:106-114 | Applying the same options twice gives the same set as applying them once |
| Policies.PolicyOptions.constructor | include/gtirb_pprinter/PrettyPrinter.hpp:116-118 | New options have empty skip and keep sets and use the defaults |
| Policies.PolicyOptions.Skip | include/gtirb_pprinter/PrettyPrinter.hpp:100 | Adds the name to the skip set only; the keep set and the flag are unchanged |
| Policies.PolicyOptions.Keep | include/gtirb_pprinter/PrettyPrinter.hpp:102 | Adds the name to the keep set only; the skip set and the flag are unchanged |
| Policies.PolicyOptions.UseDefaults | include/gtirb_pprinter/PrettyPrinter.hpp:104 | Sets the flag (true when no value is given); both sets are unchanged |
| Policies.PolicyOptions.Apply | include/gtirb_pprinter/PrettyPrinter.hpp:106-114 | With defaults the result is `(c ∪ Skip) \ Keep`; without them it is `Skip \ Keep`; in both cases it equals `ApplyOptions` |
| Factories.PrinterFactory.constructor | include/gtirb_pprinter/PrettyPrinter.hpp:256-257 | A new factory has an empty named-policy table and has registered no name |
| Factories.PrinterFactory.RegisterNamedPolicy | include/gtirb_pprinter/PrettyPrinter.hpp:245-247 | Afterwards the name finds the given policy, and every other name finds what it found before |
| Factories.PrinterFactory.DeregisterNamedPolicy | include/gtirb_pprinter/PrettyPrinter.hpp:249-250 | Afterwards the name finds nothing, and every other name finds what it found before |
| Factories.PrinterFactory.FindNamedPolicy | include/gtirb_pprinter/PrettyPrinter.hpp:241-242 | Finds a policy exactly when the name is in the table, and then the policy registered under it |
| Factories.PrinterFactory.NeverRegisteredNotFound | include/gtirb_pprinter/PrettyPrinter.hpp:241-242 | A name that was never registered finds no policy |
| Registry.PrinterRegistry.constructor | include/gtirb_pprinter/PrettyPrinter.hpp:73-76 | The registry starts with no registered target and no default syntax |
| Registry.PrinterRegistry.RegisteredTargets | include/gtirb_pprinter/PrettyPrinter.hpp:73-76 | Exactly the triples that have a factory bound, as a set, so no triple appears twice |
| Registry.PrinterRegistry.DefaultSyntax | include/gtirb_pprinter/PrettyPrinter.hpp:91-93 | Some syntax exactly when one was set for the (format, ISA) pair, and then the one set last |
| Registry.PrinterRegistry.SetDefaultSyntax | include/gtirb_pprinter/PrettyPrinter.hpp:86-93 | Afterwards the pair's default syntax is the one given (last write wins); every other pair and every factory binding are unchanged |
| Registry.PrinterRegistry.RegisterPrinter | include/gtirb_pprinter/PrettyPrinter.hpp:51-76 | Returns true; the registered targets become the old ones together with the cross product, each bound to the factory, others unchanged; with `isDefault` every pair of the product defaults to the last syntax given, other pairs unchanged |
| Facade.PrettyPrinter.constructor | include/gtirb_pprinter/PrettyPrinter.hpp:150-218 | Empty format, ISA and syntax, four fresh distinct overrides with default settings, and the policy name "default" |
| Facade.PrettyPrinter.SetPolicyName | include/gtirb_pprinter/PrettyPrinter.hpp:205-206 | `GetPolicyName()` afterwards returns the name set; the target and debug style are unchanged |
| Facade.PrettyPrinter.SetTarget | include/gtirb_pprinter/PrettyPrinter.hpp:157-162 | Stores the triple as given, without checking it against the registry |
| Facade.PrettyPrinter.SetFormat | include/gtirb_pprinter/PrettyPrinter.hpp:164-167 | Stores the format and ISA; the syntax becomes the pair's registered default, or becomes empty when none is registered (a syntax selected earlier is cleared) |
| Facade.PrettyPrinter.SetDebug | include/gtirb_pprinter/PrettyPrinter.hpp:169-178 | `GetDebug()` afterwards returns the flag set, and the debug style is DebugMessages exactly when it is on |
| Facade.PrettyPrinter.GetPolicyName | include/gtirb_pprinter/PrettyPrinter.hpp:205 | Returns the selected policy name: "default" for a new printer, otherwise the name last given to `SetPolicyName` (stated by those two contracts) |
| Facade.PrettyPrinter.GetDebug | include/gtirb_pprinter/PrettyPrinter.hpp:174-178 | True exactly when the debug style is DebugMessages; after `SetDebug(b)` it returns `b` (stated by `SetDebug`'s contract) |
| Facade.PrettyPrinter.ApplyOverrides | include/gtirb_pprinter/PrettyPrinter.hpp:169-218 | The function, symbol, section and array-section sets of the policy are each edited by their own override; the debug style is the printer's own (`SetDebug`); the compiler arguments are kept |
| FunctionBoundaries.UpperBound | include/gtirb_pprinter/PrettyPrinter.hpp:447 | The position that splits the ordered entries into those not above the address and those above it |
| FunctionBoundaries.ContainingEntry | include/gtirb_pprinter/PrettyPrinter.hpp:405-418 | None iff every entry lies above the address; otherwise the greatest entry not above it |
| FunctionBoundaries.ContainerFunctionName | include/gtirb_pprinter/PrettyPrinter.hpp:405-418 | None iff there is no entry at or below the address; an address between entry `Ai` and the next entry, or at or after the last entry, gets the name of the function at `Ai` |
| FunctionBoundaries.IsFunctionEntry | include/gtirb_pprinter/PrettyPrinter.hpp:420 | An address is a function entry exactly when the function containing it starts at it |
| FunctionBoundaries.EntryStartsItsFunction | include/gtirb_pprinter/PrettyPrinter.hpp:420 | Every entry is a function entry and belongs to its own function |
| FunctionBoundaries.ContainedIffInRange | include/gtirb_pprinter/PrettyPrinter.hpp:405-409 | Inside the module, an address belongs to the function at `Ai` iff `Ai <= x` and `x` is below the next entry, or below the module end for the last function |
| FunctionBoundaries.RangesTileModule | include/gtirb_pprinter/PrettyPrinter.hpp:405-409 | Every address from the first entry to the module end lies in exactly one function's range |
| FunctionBoundaries.ContainingEntryMonotone | include/gtirb_pprinter/PrettyPrinter.hpp:405-409 | A later address belongs to the same function or to a later one |
| FunctionBoundaries.IsFunctionLastBlock | include/gtirb_pprinter/PrettyPrinter.hpp:421 | A block is a function's last block iff it lies in a function and no later block belongs to the same function |

## Left out

- The print traversal of `PrettyPrinterBase` (lines 262-462) is not modelled: sections, blocks, instructions, operands, symbols, addends, CFI directives and alignment. Only its declarations are in the header. It depends on the Capstone disassembler and on GTIRB's IR types, and its effect is text written to a stream.
- `print` (lines 180-191) is modelled only by its policy step, `ApplyOverrides`. That step sets the policy's debug style from the printer's, since `print` is `const` and the printer it builds receives only the policy (lines 234-236, 264-265). The factory lookup, the target-resolution error and the construction and run of a printer are not modelled.
- `getModuleFileFormat`, `getModuleISA`, `registerAuxDataTypes`, `registerPrettyPrinters` and `PrettyPrinterFactory::create` / `defaultPrintingPolicy` are not modelled. They wrap the GTIRB library or are abstract factory hooks with no body here.
- `policyNames` and `namedPolicyExists` of the facade (lines 208-209) are not modelled. They take no module, so they can only read the factory bound to the printer's selected target (lines 213-215), but their bodies are not in the header. The target, the registry and each factory's `namedPolicies` table they would read are modelled.
- `getPolicy` and the private `getFactory` (lines 210, 220) are not modelled. They find a factory from a module's format and ISA through GTIRB.
- `namedPolicies()` is the factory's `namedPolicies` map itself.
- `findRegisteredNamedPolicy` is not modelled. It returns a mutable pointer into the table; editing a policy through it has the same effect as registering the edited policy again under the same name.
- `string_range` is not modelled. It is a range type alias with no logic.
- Copying and moving a `PrettyPrinter` are not modelled.
- Policies.PolicyOptions.Apply: the C++ edits the caller's set in place; the model returns the edited set, and the caller stores it back.
- Registry.PrinterRegistry.RegisterPrinter: with `isDefault` and several syntaxes, the header (lines 62-63) does not say which syntax becomes a pair's default. The model visits formats, then ISAs, then syntaxes in list order and sets the default at each step, so the last syntax of the list wins. This is a modelling choice, not a documented promise.
- Registry.PrinterRegistry.RegisterPrinter: the header documents the three lists as non-empty and the return value as always true. The model accepts empty lists; they register nothing and still return true. The registry is a single sequential object, so its thread-safety is not modelled.
- Factories.PrinterFactory.RegisterNamedPolicy: the header does not say what happens when a name is registered twice. The model replaces the earlier policy.
- Facade.PrettyPrinter.constructor: the C++ default constructor leaves `m_debug` uninitialised (lines 150, 216), so the contract says nothing about the debug style.
- FunctionBoundaries.ContainerFunctionName: the name of a function is looked up through symbols (`getFunctionName`, line 430), which is not modelled. It is a parameter from entry address to name. No address is rejected for lying past the module end, because the doc comment assumes the last function runs to it. The range lemmas are stated for addresses below the module end.
- FunctionBoundaries.IsFunctionLastBlock: the source fills `functionLastBlock` from per-function block lists in GTIRB auxiliary data, which is not modelled. The model derives the set from the entries and the module's block addresses, using the tight-packing assumption of lines 405-409.
