/** Which function an address belongs to. Functions are assumed to be tightly
    packed: each one runs from its entry address up to the next entry, and
    the last one up to the end of the module. `entries` is the ordered set of
    function-entry addresses; `blocks` the ordered addresses of the module's
    blocks. */
module FunctionBoundaries {
  import opened Wrappers

  /** Addresses are compared, never computed with, so their width is immaterial. */
  type Addr = nat

  /** The elements of an ordered set, in increasing order without repeats. */
  ghost predicate StrictlyIncreasing(s: seq<Addr>)
  {
    forall i, j :: 0 <= i < j < |s| ==> s[i] < s[j]
  }

  /** The position of the first entry above `x` (an ordered set's upper bound). */
  function UpperBound(entries: seq<Addr>, x: Addr): (k: nat)
    requires StrictlyIncreasing(entries)
    ensures k <= |entries|
    ensures forall i :: 0 <= i < k ==> entries[i] <= x
    ensures forall i :: k <= i < |entries| ==> x < entries[i]
  {
    if |entries| == 0 || x < entries[0] then 0 else 1 + UpperBound(entries[1..], x)
  }

  /** The entry of the function holding `x`: the greatest entry not above `x`,
      or None when every entry lies above it. */
  function ContainingEntry(entries: seq<Addr>, x: Addr): (r: Option<Addr>)
    requires StrictlyIncreasing(entries)
    ensures r.None? <==> forall e :: e in entries ==> x < e
    ensures r.Some? ==> r.value in entries && r.value <= x
    ensures r.Some? ==> forall e :: e in entries && e <= x ==> e <= r.value
  {
    var k := UpperBound(entries, x);
    if k == 0 then None
    else
      var e := entries[k - 1];
      assert e in entries && e <= x;
      Some(e)
  }

  /** The name of the function holding `x`; `functionName` names a function
      by its entry address. */
  function ContainerFunctionName(entries: seq<Addr>, functionName: Addr -> string, x: Addr): (r: Option<string>)
    requires StrictlyIncreasing(entries)
    ensures r.None? <==> |entries| == 0 || x < entries[0]
    ensures forall i :: 0 <= i < |entries| && entries[i] <= x && (i + 1 == |entries| || x < entries[i + 1]) ==>
      r == Some(functionName(entries[i]))
  {
    match ContainingEntry(entries, x)
    case None => None
    case Some(e) => Some(functionName(e))
  }

  /** `x` is a function entry exactly when it starts the function it lies in. */
  predicate IsFunctionEntry(entries: seq<Addr>, x: Addr): (r: bool)
    requires StrictlyIncreasing(entries)
    ensures r <==> ContainingEntry(entries, x) == Some(x)
  {
    x in entries
  }

  /** Where the function entered at `entries[i]` stops: the next entry, or the
      module end for the last function. */
  function FunctionEnd(entries: seq<Addr>, moduleEnd: Addr, i: nat): Addr
    requires i < |entries|
  {
    if i + 1 < |entries| then entries[i + 1] else moduleEnd
  }

  /** Every entry is a function entry and starts its own function. */
  lemma EntryStartsItsFunction(entries: seq<Addr>, i: nat)
    requires StrictlyIncreasing(entries) && i < |entries|
    ensures IsFunctionEntry(entries, entries[i])
    ensures ContainingEntry(entries, entries[i]) == Some(entries[i])
  {
  }

  /** Inside the module, an address belongs to the function entered at
      `entries[i]` exactly when it lies in that function's range. */
  lemma ContainedIffInRange(entries: seq<Addr>, moduleEnd: Addr, i: nat, x: Addr)
    requires StrictlyIncreasing(entries) && i < |entries| && x < moduleEnd
    ensures ContainingEntry(entries, x) == Some(entries[i]) <==> entries[i] <= x < FunctionEnd(entries, moduleEnd, i)
  {
  }

  /** Every address from the first entry to the module end lies in the range
      of exactly one function. */
  lemma RangesTileModule(entries: seq<Addr>, moduleEnd: Addr, x: Addr)
    requires StrictlyIncreasing(entries) && |entries| > 0 && entries[0] <= x < moduleEnd
    ensures exists i :: 0 <= i < |entries| && entries[i] <= x < FunctionEnd(entries, moduleEnd, i)
    ensures forall i, j ::
      (0 <= i < |entries| && 0 <= j < |entries|
       && entries[i] <= x < FunctionEnd(entries, moduleEnd, i)
       && entries[j] <= x < FunctionEnd(entries, moduleEnd, j)) ==> i == j
  {
    var k := UpperBound(entries, x);
    ContainedIffInRange(entries, moduleEnd, k - 1, x);
    forall i, j | 0 <= i < |entries| && 0 <= j < |entries|
      && entries[i] <= x < FunctionEnd(entries, moduleEnd, i)
      && entries[j] <= x < FunctionEnd(entries, moduleEnd, j)
      ensures i == j
    {
      ContainedIffInRange(entries, moduleEnd, i, x);
      ContainedIffInRange(entries, moduleEnd, j, x);
    }
  }

  /** Function membership never goes backwards: a later address belongs to the
      same function or to a later one. */
  lemma ContainingEntryMonotone(entries: seq<Addr>, x: Addr, y: Addr)
    requires StrictlyIncreasing(entries) && x <= y && ContainingEntry(entries, x).Some?
    ensures ContainingEntry(entries, y).Some?
    ensures ContainingEntry(entries, x).value <= ContainingEntry(entries, y).value
  {
  }

  /** `blocks[i]` closes its function: it lies in a function and the next
      block, if any, lies in another one. */
  predicate EndsFunction(entries: seq<Addr>, blocks: seq<Addr>, i: nat)
    requires StrictlyIncreasing(entries) && i < |blocks|
  {
    && ContainingEntry(entries, blocks[i]).Some?
    && (i + 1 == |blocks| || ContainingEntry(entries, blocks[i + 1]) != ContainingEntry(entries, blocks[i]))
  }

  /** The addresses of the last block of every function. */
  function FunctionLastBlocks(entries: seq<Addr>, blocks: seq<Addr>): set<Addr>
    requires StrictlyIncreasing(entries)
  {
    set i: nat | i < |blocks| && EndsFunction(entries, blocks, i) :: blocks[i]
  }

  /** A block is its function's last block exactly when it lies in a
      function and no later block of the module belongs to the same function. */
  predicate IsFunctionLastBlock(entries: seq<Addr>, blocks: seq<Addr>, x: Addr): (r: bool)
    requires StrictlyIncreasing(entries) && StrictlyIncreasing(blocks)
    ensures r <==>
      && x in blocks
      && ContainingEntry(entries, x).Some?
      && forall y :: y in blocks && x < y ==> ContainingEntry(entries, y) != ContainingEntry(entries, x)
  {
    x in FunctionLastBlocks(entries, blocks)
  }
}
