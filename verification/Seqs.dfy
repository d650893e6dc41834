/** Sequences of sequences, as `torch.cat` and list extension make them. */
module Seqs {
  function Flatten<X>(parts: seq<seq<X>>): seq<X> {
    if parts == [] then [] else Flatten(parts[..|parts| - 1]) + parts[|parts| - 1]
  }

  /** One part after the other: flattening turns concatenation into concatenation. */
  lemma {:induction false} FlattenConcat<X>(a: seq<seq<X>>, b: seq<seq<X>>)
    ensures Flatten(a + b) == Flatten(a) + Flatten(b)
  {
    if b == [] {
      assert a + b == a;
    } else {
      assert (a + b)[..|a + b| - 1] == a + b[..|b| - 1];
      FlattenConcat(a, b[..|b| - 1]);
    }
  }

  lemma FlattenOne<X>(part: seq<X>)
    ensures Flatten([part]) == part
  {
    assert [part][..0] == [];
  }
}
