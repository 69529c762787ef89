/** The note table behind the bars: frequencies of the equal-tempered scale at
    quarter-tone steps, c0 · (2^(1/24))^i for i = 0, 1, 2, ..., scanned upward
    until one exceeds maxFreq. A note is kept when its frequency is at least
    minFreq and its index is a multiple of the grouping stride.

    The floating-point generator i ↦ c0 · root24^i is the parameter `gen`. The
    scan stops by itself; `bound` is a note index whose frequency is known to
    exceed maxFreq and serves only to show that the scan ends. */
module TemperedScale {

  ghost predicate StrictlyIncreasing(gen: nat -> real)
  {
    forall i: nat, j: nat :: i < j ==> gen(i) < gen(j)
  }

  predicate IncreasingSeq(s: seq<real>)
  {
    forall k, l :: 0 <= k < l < |s| ==> s[k] < s[l]
  }

  /** The note indices the scan keeps, from index `i` on. */
  function KeptNotes(gen: nat -> real, minFreq: real, maxFreq: real, groupNotes: int, i: nat, bound: nat): (notes: seq<nat>)
    requires groupNotes > 0 && i <= bound && gen(bound) > maxFreq
    ensures forall k :: 0 <= k < |notes| ==>
      && i <= notes[k] < bound
      && notes[k] % groupNotes == 0
      && minFreq <= gen(notes[k]) <= maxFreq
    ensures forall k, l :: 0 <= k < l < |notes| ==> notes[k] < notes[l]
    decreases bound - i
  {
    if gen(i) > maxFreq then []
    else if gen(i) >= minFreq && i % groupNotes == 0 then
      [i] + KeptNotes(gen, minFreq, maxFreq, groupNotes, i + 1, bound)
    else
      KeptNotes(gen, minFreq, maxFreq, groupNotes, i + 1, bound)
  }

  /** The frequencies of the kept notes, in scan order. */
  function Scale(gen: nat -> real, minFreq: real, maxFreq: real, groupNotes: int, bound: nat): (scale: seq<real>)
    requires groupNotes > 0 && gen(bound) > maxFreq
  {
    var notes := KeptNotes(gen, minFreq, maxFreq, groupNotes, 0, bound);
    seq(|notes|, k requires 0 <= k < |notes| => gen(notes[k]))
  }

  /** Every kept frequency lies in [minFreq, maxFreq] and comes from a note whose
      index is a multiple of the stride; the table is strictly increasing when
      the generator is. */
  lemma ScaleInBand(gen: nat -> real, minFreq: real, maxFreq: real, groupNotes: int, bound: nat)
    requires groupNotes > 0 && gen(bound) > maxFreq
    ensures var scale := Scale(gen, minFreq, maxFreq, groupNotes, bound);
      var notes := KeptNotes(gen, minFreq, maxFreq, groupNotes, 0, bound);
      && |scale| == |notes|
      && (forall k :: 0 <= k < |scale| ==>
            minFreq <= scale[k] <= maxFreq && scale[k] == gen(notes[k]) && notes[k] % groupNotes == 0)
      && (StrictlyIncreasing(gen) ==> IncreasingSeq(scale))
  {
  }

  /** With an increasing generator no qualifying note is missed: every note
      index that is a multiple of the stride and whose frequency lies in
      [minFreq, maxFreq] is kept. */
  lemma {:induction false} KeptNotesComplete(gen: nat -> real, minFreq: real, maxFreq: real, groupNotes: int, i: nat, bound: nat, n: nat)
    requires groupNotes > 0 && i <= bound && gen(bound) > maxFreq
    requires StrictlyIncreasing(gen)
    requires i <= n && n % groupNotes == 0 && minFreq <= gen(n) <= maxFreq
    ensures n in KeptNotes(gen, minFreq, maxFreq, groupNotes, i, bound)
    decreases bound - i
  {
    assert gen(i) <= gen(n);
    if n == i {
    } else {
      KeptNotesComplete(gen, minFreq, maxFreq, groupNotes, i + 1, bound, n);
    }
  }

  /** The scan as the program writes it: a while loop over the note index. */
  method BuildScale(gen: nat -> real, minFreq: real, maxFreq: real, groupNotes: int, bound: nat) returns (scale: seq<real>)
    requires groupNotes > 0 && gen(bound) > maxFreq
    ensures scale == Scale(gen, minFreq, maxFreq, groupNotes, bound)
  {
    ghost var notes: seq<nat> := [];
    scale := [];
    var i: nat := 0;
    while gen(i) <= maxFreq
      invariant i <= bound
      invariant notes + KeptNotes(gen, minFreq, maxFreq, groupNotes, i, bound) == KeptNotes(gen, minFreq, maxFreq, groupNotes, 0, bound)
      invariant |scale| == |notes| && forall k :: 0 <= k < |notes| ==> scale[k] == gen(notes[k])
      decreases bound - i
    {
      var freq := gen(i);
      if freq >= minFreq && i % groupNotes == 0 {
        scale := scale + [freq];
        notes := notes + [i];
      }
      i := i + 1;
    }
    assert KeptNotes(gen, minFreq, maxFreq, groupNotes, i, bound) == [];
  }
}
