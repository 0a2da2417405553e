/** Printing policies: what a pretty printer leaves out of its output, and the
    per-category overrides a caller layers on top of a factory's defaults. */
module Policies {

  /** Whether a pretty printer includes debugging messages in its output. */
  datatype DebugStyle = NoDebug | DebugMessages

  /** The five name sets of a printing policy and its debug style. */
  datatype PrintingPolicy = PrintingPolicy(
    skipFunctions: set<string>,     // functions whose contents and labels are not printed
    skipSymbols: set<string>,       // symbols whose labels are not printed
    skipSections: set<string>,      // sections not printed at all
    arraySections: set<string>,     // sections with ignored entries and alignment 8
    compilerArguments: set<string>, // extra compiler arguments (binary printers only)
    debug: DebugStyle)

  /** The set that applying options with these fields leaves behind, starting
      from `c`: the old contents are dropped unless defaults are used, then
      every skipped name is added, then every kept name is removed. */
  function ApplyOptions(useDefaults: bool, skip: set<string>, keep: set<string>, c: set<string>): set<string>
  {
    ((if useDefaults then c else {}) + skip) - keep
  }

  /** A name is in the result exactly when it is not kept, and it was either
      skipped or already present while defaults are in use. */
  lemma ApplyMembership(useDefaults: bool, skip: set<string>, keep: set<string>, c: set<string>, s: string)
    ensures s in ApplyOptions(useDefaults, skip, keep, c)
        <==> s !in keep && (s in skip || (useDefaults && s in c))
  {
  }

  /** Keep wins over skip: erasing the kept names runs after inserting the
      skipped ones. */
  lemma KeepOverridesSkip(useDefaults: bool, skip: set<string>, keep: set<string>, c: set<string>, s: string)
    requires s in skip && s in keep
    ensures s !in ApplyOptions(useDefaults, skip, keep, c)
  {
  }

  /** Without defaults the result does not depend on what the set held. */
  lemma ApplyIgnoresContentsWithoutDefaults(skip: set<string>, keep: set<string>, c1: set<string>, c2: set<string>)
    ensures ApplyOptions(false, skip, keep, c1) == ApplyOptions(false, skip, keep, c2) == skip - keep
  {
  }

  /** Applying the same options twice leaves the same set as applying them once. */
  lemma ApplyIdempotent(useDefaults: bool, skip: set<string>, keep: set<string>, c: set<string>)
    ensures ApplyOptions(useDefaults, skip, keep, ApplyOptions(useDefaults, skip, keep, c))
         == ApplyOptions(useDefaults, skip, keep, c)
  {
  }

  /** The options of one policy category: names to add to the skip set, names
      to remove from it, and whether the factory's defaults are kept. */
  class PolicyOptions {
    var skipped: set<string>
    var kept: set<string>
    var useDefaults: bool

    constructor ()
      ensures skipped == {} && kept == {} && useDefaults
    {
      skipped, kept, useDefaults := {}, {}, true;
    }

    /** Records that `s` is to be skipped; nothing else changes. */
    method Skip(s: string)
      modifies this
      ensures skipped == old(skipped) + {s}
      ensures kept == old(kept) && useDefaults == old(useDefaults)
    {
      skipped := skipped + {s};
    }

    /** Records that `s` is to be kept; nothing else changes. */
    method Keep(s: string)
      modifies this
      ensures kept == old(kept) + {s}
      ensures skipped == old(skipped) && useDefaults == old(useDefaults)
    {
      kept := kept + {s};
    }

    /** Sets whether the defaults are kept; nothing else changes. */
    method UseDefaults(value: bool := true)
      modifies this
      ensures useDefaults == value
      ensures skipped == old(skipped) && kept == old(kept)
    {
      useDefaults := value;
    }

    /** Applies the options to `c` and returns the edited set: clear unless
        defaults are used, insert every skipped name, then erase the kept
        names one at a time. */
    method Apply(c: set<string>) returns (r: set<string>)
      ensures useDefaults ==> r == (c + skipped) - kept
      ensures !useDefaults ==> r == skipped - kept
      ensures r == ApplyOptions(useDefaults, skipped, kept, c)
    {
      r := c;
      if !useDefaults {
        r := {};
      }
      r := r + skipped;
      var pending := kept;
      while pending != {}
        invariant pending <= kept
        invariant r == ((if useDefaults then c else {}) + skipped) - (kept - pending)
        decreases pending
      {
        var s :| s in pending;
        r := r - {s};
        pending := pending - {s};
      }
    }
  }
}
