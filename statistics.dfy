/** The detection counters kept by app/camera.py (three module-level
    integers guarded by one lock) and the percentages derived from them. */
module Statistics {

  /** A reading of the three counters. */
  datatype Counts = Counts(sinBlister: nat, conBlister: nat, total: nat)

  const ZeroCounts := Counts(0, 0, 0)

  /** The invariant the counters keep: the total is the sum of the two kinds. */
  predicate Consistent(c: Counts)
  {
    c.total == c.sinBlister + c.conBlister
  }

  /** The counters after one pizza-without-blister pulse. */
  function AddSinBlister(c: Counts): (r: Counts)
    ensures Consistent(c) ==> Consistent(r)
  {
    c.(sinBlister := c.sinBlister + 1, total := c.total + 1)
  }

  /** The counters after one pizza-with-blister pulse. */
  function AddConBlister(c: Counts): (r: Counts)
    ensures Consistent(c) ==> Consistent(r)
  {
    c.(conBlister := c.conBlister + 1, total := c.total + 1)
  }

  /** `count / total * 100`, with a zero total replaced by 1. */
  function Percentage(count: nat, total: nat): (p: real)
    ensures total == 0 ==> p == count as real * 100.0
    ensures 0 < total && count <= total ==> 0.0 <= p <= 100.0
  {
    var denominator := if total > 0 then total else 1;
    var p := (count as real / denominator as real) * 100.0;
    assert 0 < total && count <= total ==> count as real / denominator as real <= 1.0;
    p
  }

  /** Two parts of a positive whole, as fractions of it, add up to one. */
  lemma FractionsAddUp(x: real, y: real, t: real)
    requires 0.0 < t && x + y == t
    ensures x / t + y / t == 1.0
  {
    assert x / t + y / t == (x + y) / t;
  }

  /** For consistent counters the two percentages are 0 when nothing has been
      counted (no division by zero) and otherwise add up to 100. */
  lemma PercentagesSplit(c: Counts)
    requires Consistent(c)
    ensures c.total == 0 ==> Percentage(c.sinBlister, c.total) == 0.0 && Percentage(c.conBlister, c.total) == 0.0
    ensures c.total > 0 ==> Percentage(c.sinBlister, c.total) + Percentage(c.conBlister, c.total) == 100.0
  {
    if c.total > 0 {
      var t := c.total as real;
      var x := c.sinBlister as real;
      var y := c.conBlister as real;
      var a := x / t;
      var b := y / t;
      FractionsAddUp(x, y, t);
      assert Percentage(c.sinBlister, c.total) == a * 100.0;
      assert Percentage(c.conBlister, c.total) == b * 100.0;
    }
  }

  /** The counter globals. */
  class Registry {
    var sinBlister: nat
    var conBlister: nat
    var total: nat

    function Snapshot(): Counts
      reads this
    {
      Counts(sinBlister, conBlister, total)
    }

    ghost predicate Valid()
      reads this
    {
      Consistent(Snapshot())
    }

    /** The counters start at zero. */
    constructor ()
      ensures Snapshot() == ZeroCounts && Valid()
    {
      sinBlister, conBlister, total := 0, 0, 0;
    }

    /** Count one pizza-without-blister edge. */
    method RecordSinBlister()
      modifies this
      ensures Snapshot() == AddSinBlister(old(Snapshot()))
      ensures old(Valid()) ==> Valid()
    {
      sinBlister := sinBlister + 1;
      total := total + 1;
    }

    /** Count one pizza-with-blister edge. */
    method RecordConBlister()
      modifies this
      ensures Snapshot() == AddConBlister(old(Snapshot()))
      ensures old(Valid()) ==> Valid()
    {
      conBlister := conBlister + 1;
      total := total + 1;
    }

    /** `reset_counters`: zeroes all three counters and reports success. */
    method Reset() returns (ok: bool)
      modifies this
      ensures ok && Snapshot() == ZeroCounts && Valid()
    {
      sinBlister := 0;
      conBlister := 0;
      total := 0;
      ok := true;
    }
  }
}
