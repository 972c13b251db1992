/** The sliding-window replay filter (crypto.rs), a 64-bit word of recently accepted counters. */
module Replay {
  import opened Words
  import opened Bits

  const WINDOW: nat := 64

  // ---------------------------------------------------------------------
  // The filter.
  // ---------------------------------------------------------------------

  datatype Filter = Filter(highest: nat, bitmap: bv64)

  const FRESH := Filter(0, 0)

  /** One call of `check_and_accept`: the new filter and the verdict. */
  function Check(f: Filter, c: u32): (Filter, bool) {
    if c > f.highest then
      var shift := c - f.highest;
      var moved := if shift >= WINDOW then 0 else Shl(f.bitmap, shift);
      (Filter(c, Or(moved, 1)), true)
    else
      var diff := f.highest - c;
      if diff >= WINDOW || Test(f.bitmap, diff) then
        (f, false)
      else
        (Filter(f.highest, Or(f.bitmap, Mask(diff))), true)
  }

  /** Reference verdict: never accepted, and at most 63 below everything accepted so far. */
  predicate Admissible(seen: set<u32>, c: u32) {
    c !in seen && forall s | s in seen :: s < c + 64
  }

  /** The word and the high mark represent the set of accepted counters. */
  ghost predicate Tracks(f: Filter, seen: set<u32>) {
    && (seen == {} ==> f.highest == 0)
    && (seen != {} ==> f.highest in seen)
    && (forall s | s in seen :: s <= f.highest)
    && (forall d: nat | d < 64 :: Test(f.bitmap, d) <==> f.highest - d in seen)
  }

  lemma FreshTracks()
    ensures Tracks(FRESH, {})
  {
    forall d: nat | d < 64 ensures !Test(0, d) { ZeroTests(d); }
  }

  /** What an accepted counter does to the word: bit d says whether highest - d was accepted. */
  lemma CheckBits(f: Filter, c: u32, d: nat)
    requires d < 64 && Check(f, c).1
    ensures var f' := Check(f, c).0;
            Test(f'.bitmap, d) <==>
              || d == f'.highest - c
              || (f'.highest - d <= f.highest && 0 <= f.highest - (f'.highest - d) < 64
                  && Test(f.bitmap, f.highest - (f'.highest - d)))
  {
    var f' := Check(f, c).0;
    if c > f.highest {
      var shift := c - f.highest;
      var moved := if shift >= WINDOW then 0 else Shl(f.bitmap, shift);
      assert f' == Filter(c, Or(moved, 1));
      hide *;
      MaskStep(0);
      TestOfSet(moved, 0, d);
      if shift >= WINDOW { ZeroTests(d); } else { TestOfShl(f.bitmap, shift, d); }
    } else {
      var diff := f.highest - c;
      assert f' == Filter(f.highest, Or(f.bitmap, Mask(diff)));
      hide *;
      TestOfSet(f.bitmap, diff, d);
    }
  }

  /** The refinement step: the word agrees with the set of accepted counters, before and after. */
  lemma CheckRefines(f: Filter, seen: set<u32>, c: u32)
    requires Tracks(f, seen)
    ensures var (f', ok) := Check(f, c);
            && (ok <==> Admissible(seen, c))
            && Tracks(f', if ok then seen + {c} else seen)
  {
    var (f', ok) := Check(f, c);
    VerdictIs(f, seen, c);
    if ok {
      HighMark(f, seen, c);
      forall d: nat | d < 64 ensures Test(f'.bitmap, d) <==> f'.highest - d in seen + {c} { BitsAgree(f, seen, c, d); }
    }
    hide Check, Test, Admissible;
  }

  lemma BitsAgree(f: Filter, seen: set<u32>, c: u32, d: nat)
    requires Tracks(f, seen) && Check(f, c).1 && d < 64
    ensures Test(Check(f, c).0.bitmap, d) <==> Check(f, c).0.highest - d in seen + {c}
  {
    var f' := Check(f, c).0;
    CheckBits(f, c, d);
    BitOf(f, seen, f.highest - (f'.highest - d));
    HighMark(f, seen, c);
    hide Test, Check;
  }

  lemma BitOf(f: Filter, seen: set<u32>, d: int)
    requires Tracks(f, seen)
    ensures 0 <= d < 64 ==> (Test(f.bitmap, d) <==> f.highest - d in seen)
    ensures d < 0 ==> f.highest - d !in seen
  {
    hide Test;
  }

  lemma HighMark(f: Filter, seen: set<u32>, c: u32)
    requires Tracks(f, seen) && Check(f, c).1
    ensures var f', seen' := Check(f, c).0, seen + {c};
            f'.highest in seen' && f.highest <= f'.highest && forall s | s in seen' :: s <= f'.highest
  {
    hide Test, Shl, Or, Mask;
  }

  lemma VerdictIs(f: Filter, seen: set<u32>, c: u32)
    requires Tracks(f, seen)
    ensures Check(f, c).1 <==> Admissible(seen, c)
    ensures !Check(f, c).1 ==> Check(f, c).0 == f
  {
    if c <= f.highest && f.highest - c < 64 { BitOf(f, seen, f.highest - c); }
    hide Test, Shl, Or, Mask;
  }

  class ReplayFilter {
    var highest: nat
    var bitmap: bv64
    ghost var accepted: set<u32>

    ghost predicate Valid()
      reads this
    {
      Tracks(State(), accepted)
    }

    ghost function State(): Filter
      reads this
    {
      Filter(highest, bitmap)
    }

    constructor ()
      ensures Valid() && accepted == {} && State() == FRESH
    {
      highest, bitmap, accepted := 0, 0, {};
      new;
      FreshTracks();
    }

    method CheckAndAccept(counter: u32) returns (ok: bool)
      requires Valid()
      modifies this
      ensures Valid()
      ensures (State(), ok) == Check(old(State()), counter)
      ensures ok <==> Admissible(old(accepted), counter)
      ensures accepted == if ok then old(accepted) + {counter} else old(accepted)
    {
      CheckRefines(State(), accepted, counter);
      if counter > highest {
        var shift := counter - highest;
        if shift >= WINDOW {
          bitmap := 0;
        } else {
          bitmap := Shl(bitmap, shift);
        }
        bitmap := Or(bitmap, 1);
        highest := counter;
        ok := true;
      } else {
        var diff := highest - counter;
        if diff >= WINDOW {
          return false;
        }
        var bit := Mask(diff);
        if And(bitmap, bit) != 0 {
          return false;
        }
        bitmap := Or(bitmap, bit);
        ok := true;
      }
      accepted := accepted + {counter};
    }
  }

  // ---------------------------------------------------------------------
  // Whole runs.
  // ---------------------------------------------------------------------

  function FilterAfter(cs: seq<u32>): Filter {
    if cs == [] then FRESH else Check(FilterAfter(cs[..|cs| - 1]), cs[|cs| - 1]).0
  }

  /** The verdict the filter gives on the k-th counter of a run. */
  function Verdict(cs: seq<u32>, k: nat): bool
    requires k < |cs|
  {
    Check(FilterAfter(cs[..k]), cs[k]).1
  }

  /** The counters a run has accepted, by the reference rule alone. */
  function Accepted(cs: seq<u32>): set<u32> {
    if cs == [] then {}
    else
      var before, c := Accepted(cs[..|cs| - 1]), cs[|cs| - 1];
      if Admissible(before, c) then before + {c} else before
  }

  lemma {:induction false} RunTracks(cs: seq<u32>)
    ensures Tracks(FilterAfter(cs), Accepted(cs))
  {
    if cs == [] {
      FreshTracks();
    } else {
      var init := cs[..|cs| - 1];
      RunTracks(init);
      CheckRefines(FilterAfter(init), Accepted(init), cs[|cs| - 1]);
    }
  }

  /** Every verdict of every run is the reference verdict. */
  lemma VerdictIsReference(cs: seq<u32>, k: nat)
    requires k < |cs|
    ensures Verdict(cs, k) <==> Admissible(Accepted(cs[..k]), cs[k])
  {
    RunTracks(cs[..k]);
    CheckRefines(FilterAfter(cs[..k]), Accepted(cs[..k]), cs[k]);
  }

  lemma {:induction false} AcceptedGrows(cs: seq<u32>, k: nat)
    requires k <= |cs|
    ensures Accepted(cs[..k]) <= Accepted(cs)
  {
    if k == |cs| {
      assert cs[..k] == cs;
    } else {
      var init := cs[..|cs| - 1];
      assert cs[..k] == init[..k];
      AcceptedGrows(init, k);
    }
  }

  lemma {:induction false} AcceptedWereSent(cs: seq<u32>)
    ensures forall c | c in Accepted(cs) :: c in cs
  {
    if cs != [] {
      var init := cs[..|cs| - 1];
      AcceptedWereSent(init);
      assert cs == init + [cs[|cs| - 1]];
    }
  }

  /** No counter is ever accepted twice. */
  lemma NoCounterAcceptedTwice(cs: seq<u32>, i: nat, j: nat)
    requires i < j < |cs|
    requires Verdict(cs, i) && Verdict(cs, j)
    ensures cs[i] != cs[j]
  {
    VerdictIsReference(cs, i);
    VerdictIsReference(cs, j);
    var upto := cs[..i + 1];
    assert upto[..i] == cs[..i];
    assert cs[i] in Accepted(upto);
    assert cs[..j][..i + 1] == upto;
    AcceptedGrows(cs[..j], i + 1);
  }

  /** A counter seen for the first time and overtaken by fewer than 64 is never refused. */
  lemma RecentCounterNeverRefused(cs: seq<u32>, k: nat)
    requires k < |cs|
    requires forall j | 0 <= j < k :: cs[j] != cs[k] && cs[j] < cs[k] as int + 64
    ensures Verdict(cs, k)
  {
    VerdictIsReference(cs, k);
    AcceptedWereSent(cs[..k]);
  }
}
