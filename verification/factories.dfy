/** The named-policy table that every printer factory owns. The factory's
    abstract operations (its default policy and the creation of a printer)
    are not part of this model. */
module Factories {
  import opened Wrappers
  import opened Policies

  class PrinterFactory {
    var namedPolicies: map<string, PrintingPolicy>
    /** Every name ever registered with this factory. */
    ghost var everRegistered: set<string>

    ghost predicate Valid()
      reads this
    {
      namedPolicies.Keys <= everRegistered
    }

    constructor ()
      ensures Valid()
      ensures namedPolicies == map[] && everRegistered == {}
    {
      namedPolicies, everRegistered := map[], {};
    }

    /** The policy registered under `name`, or None (a null pointer). */
    function FindNamedPolicy(name: string): (r: Option<PrintingPolicy>)
      reads this
      ensures r.Some? <==> name in namedPolicies
      ensures r.Some? ==> r.value == namedPolicies[name]
    {
      if name in namedPolicies then Some(namedPolicies[name]) else None
    }

    /** Registers `policy` under `name`, replacing any policy of that name. */
    method RegisterNamedPolicy(name: string, policy: PrintingPolicy)
      requires Valid()
      modifies this
      ensures Valid()
      ensures namedPolicies == old(namedPolicies)[name := policy]
      ensures everRegistered == old(everRegistered) + {name}
      ensures FindNamedPolicy(name) == Some(policy)
      ensures forall n :: n != name ==> FindNamedPolicy(n) == old(FindNamedPolicy(n))
    {
      namedPolicies := namedPolicies[name := policy];
      everRegistered := everRegistered + {name};
    }

    /** Removes the policy registered under `name`, if there is one. */
    method DeregisterNamedPolicy(name: string)
      requires Valid()
      modifies this
      ensures Valid()
      ensures namedPolicies == old(namedPolicies) - {name}
      ensures everRegistered == old(everRegistered)
      ensures FindNamedPolicy(name) == None
      ensures forall n :: n != name ==> FindNamedPolicy(n) == old(FindNamedPolicy(n))
    {
      namedPolicies := namedPolicies - {name};
    }

    /** A name that was never registered is not found. */
    lemma NeverRegisteredNotFound(name: string)
      requires Valid() && name !in everRegistered
      ensures FindNamedPolicy(name) == None
    {
    }
  }
}
