/** The platform tests the source writes as `'miseq' in seq.lower()` and
    friends: a case-insensitive substring test on the sequencer name. */
module Platform {
  import opened Text

  predicate IsMiSeq(name: string)
  {
    Contains(Lower(name), "miseq")
  }

  predicate IsNextSeq(name: string)
  {
    Contains(Lower(name), "nextseq")
  }

  predicate IsNovaSeq(name: string)
  {
    Contains(Lower(name), "novaseq")
  }
}
