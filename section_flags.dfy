/**
 * A dictionary of section names to "present" flags, in insertion order, and the two
 * comprehensions both analysers apply to it:
 * `[s for s, p in d.items() if p]` and `[s for s, p in d.items() if not p]`.
 */
module SectionFlags {
  import opened Seqs

  type Flags = seq<(string, bool)>

  /** The names in dictionary order. */
  function Names(flags: Flags): (r: seq<string>)
    ensures |r| == |flags|
    decreases |flags|
  {
    if flags == [] then [] else [flags[0].0] + Names(flags[1..])
  }

  /** The names whose flag is set, in dictionary order. */
  function PresentNames(flags: Flags): seq<string>
    decreases |flags|
  {
    if flags == [] then []
    else (if flags[0].1 then [flags[0].0] else []) + PresentNames(flags[1..])
  }

  /** The names whose flag is clear, in dictionary order. */
  function MissingNames(flags: Flags): seq<string>
    decreases |flags|
  {
    if flags == [] then []
    else (if flags[0].1 then [] else [flags[0].0]) + MissingNames(flags[1..])
  }

  /** Every entry goes to exactly one of the two lists. */
  lemma {:induction false} PartitionSizes(flags: Flags)
    ensures |PresentNames(flags)| + |MissingNames(flags)| == |flags|
    decreases |flags|
  {
    if flags != [] {
      PartitionSizes(flags[1..]);
    }
  }

  /** A name is listed as present exactly when some entry flags it present, and likewise for missing. */
  lemma {:induction false} PartitionMembership(flags: Flags, name: string)
    ensures name in PresentNames(flags) <==> (name, true) in flags
    ensures name in MissingNames(flags) <==> (name, false) in flags
    decreases |flags|
  {
    if flags != [] {
      PartitionMembership(flags[1..], name);
      assert forall e :: e in flags <==> e == flags[0] || e in flags[1..];
    }
  }

  /** Both lists keep dictionary order. */
  lemma {:induction false} PartitionKeepsOrder(flags: Flags)
    ensures IsSubsequence(PresentNames(flags), Names(flags))
    ensures IsSubsequence(MissingNames(flags), Names(flags))
    decreases |flags|
  {
    if flags != [] {
      PartitionKeepsOrder(flags[1..]);
      var names := Names(flags);
      assert names[0] == flags[0].0 && names[1..] == Names(flags[1..]);
      var p, m := PresentNames(flags[1..]), MissingNames(flags[1..]);
      if flags[0].1 {
        assert PresentNames(flags) == [flags[0].0] + p && MissingNames(flags) == m;
        assert ([flags[0].0] + p)[1..] == p;
        SubsequenceOfTail(m, names);
      } else {
        assert MissingNames(flags) == [flags[0].0] + m && PresentNames(flags) == p;
        assert ([flags[0].0] + m)[1..] == m;
        SubsequenceOfTail(p, names);
      }
    }
  }
}
