/** Counting in finite sets. */
module Sets {

  /** A part is no larger than the whole. */
  lemma {:induction false} Shrinks(a: set<nat>, b: set<nat>)
    requires a <= b
    ensures |a| <= |b|
    decreases a
  {
    if a != {} {
      var x :| x in a;
      Shrinks(a - {x}, b - {x});
    }
  }
}
