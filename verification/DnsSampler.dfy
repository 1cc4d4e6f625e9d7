/** The weighted query type (dnsblast.c:184-203, dnsblast.h:43-45 and 88-94): how many
    values of rand() lead to which type. */
module DnsSampler {

  /** rand(): its largest value and the numbers it will return, in order. */
  datatype Source = Source(max: nat, at: nat -> nat)
  {
    /** The compile-time constants (int)((RAND_MAX * w) / 100000). */
    function Share(w: nat): nat {
      max * w / 100000
    }
  }

  /** rand() with its hidden position. */
  class Rng {
    const src: Source
    var cursor: nat

    constructor (src: Source)
      ensures this.src == src && cursor == 0
    {
      this.src := src;
      cursor := 0;
    }

    method Rand() returns (r: nat)
      modifies this
      ensures r == src.at(old(cursor)) && cursor == old(cursor) + 1
    {
      r := src.at(cursor);
      cursor := cursor + 1;
    }
  }

  datatype WeightedType = WeightedType(weight: nat, qtype: nat)

  const TYPE_A: nat := 1
  const TYPE_PTR: nat := 12
  const TYPE_SOA: nat := 6
  const TYPE_MX: nat := 15
  const TYPE_TXT: nat := 16
  const TYPE_AAAA: nat := 28

  function WeightedTypes(src: Source): (ws: seq<WeightedType>)
    ensures |ws| == 6 && forall i :: 0 <= i < |ws| ==> ws[i].qtype < 0x1_0000
  {
    [WeightedType(src.Share(33831), TYPE_A), WeightedType(src.Share(38831), TYPE_PTR),
     WeightedType(src.Share(803), TYPE_SOA), WeightedType(src.Share(5073), TYPE_MX),
     WeightedType(src.Share(2604), TYPE_TXT), WeightedType(src.Share(13858), TYPE_AAAA)]
  }

  function Total(ws: seq<WeightedType>, n: nat): nat
    requires n <= |ws|
  {
    if n == 0 then 0 else Total(ws, n - 1) + ws[n - 1].weight
  }

  /** The first draw picks type i iff it falls into the i-th slice from the top. */
  predicate InSlice(src: Source, i: nat, rnd: nat)
    requires i < 6
  {
    var ws := WeightedTypes(src);
    src.max - Total(ws, i + 1) < rnd <= src.max - Total(ws, i)
  }

  predicate InResidue(src: Source, rnd: nat) {
    rnd <= src.max - Total(WeightedTypes(src), 6)
  }

  /** The scan as a function: the index of the slice that holds rnd, or 6. */
  function Scan(src: Source, rnd: nat, i: nat): (r: nat)
    requires i <= 6
    ensures i <= r <= 6
    decreases 6 - i
  {
    if i == 6 then 6
    else if rnd > src.max - Total(WeightedTypes(src), i + 1) then i
    else Scan(src, rnd, i + 1)
  }

  /** Where get_random_type starting at position c ends, and the type it returns. */
  function RandomType(src: Source, c: nat): (r: (nat, nat))
    ensures r.0 < 0x1_0000
  {
    var i := Scan(src, src.at(c), 0);
    var ws := WeightedTypes(src);
    if i < 6 then (ws[i].qtype, c + 1) else (ws[src.at(c + 1) % 6].qtype, c + 2)
  }

  method GetRandomType(rng: Rng) returns (qtype: nat)
    modifies rng
    ensures (qtype, rng.cursor) == RandomType(rng.src, old(rng.cursor))
  {
    var ws := WeightedTypes(rng.src);
    var i := 0;
    var rnd := rng.Rand();
    var pos: int := rng.src.max;
    while i < 6
      invariant 0 <= i <= 6 && pos == rng.src.max - Total(ws, i)
      invariant Scan(rng.src, rnd, 0) == Scan(rng.src, rnd, i)
      invariant rng.cursor == old(rng.cursor) + 1
    {
      pos := pos - ws[i].weight;
      if rnd > pos {
        return ws[i].qtype;
      }
      i := i + 1;
    }
    var r := rng.Rand();
    return ws[r % 6].qtype;
  }

  // ---------------------------------------------------------------- exact counts

  lemma TotalMonotone(ws: seq<WeightedType>, i: nat, n: nat)
    requires i <= n <= |ws|
    ensures Total(ws, i) <= Total(ws, n)
  {
    if i < n {
      TotalMonotone(ws, i, n - 1);
    }
  }

  /** The weights leave at least a twentieth of the range over, so the scan's
      running position never becomes negative. */
  lemma TotalBelowMax(src: Source)
    ensures Total(WeightedTypes(src), 6) * 100000 <= src.max * 95000
    ensures Total(WeightedTypes(src), 6) <= src.max
  {
    var ws := WeightedTypes(src);
    assert Total(ws, 1) == ws[0].weight;
    assert Total(ws, 2) == Total(ws, 1) + ws[1].weight;
    assert Total(ws, 3) == Total(ws, 2) + ws[2].weight;
    assert Total(ws, 4) == Total(ws, 3) + ws[3].weight;
    assert Total(ws, 5) == Total(ws, 4) + ws[4].weight;
    assert Total(ws, 6) == Total(ws, 5) + ws[5].weight;
  }

  /** The scan finds the slice that holds the draw, and 6 only for the residue. */
  lemma {:induction false} ScanFinds(src: Source, rnd: nat, i: nat)
    requires i <= 6 && rnd <= src.max - Total(WeightedTypes(src), i)
    ensures var r := Scan(src, rnd, i);
            if r < 6 then InSlice(src, r, rnd) else InResidue(src, rnd)
    decreases 6 - i
  {
    if i < 6 && rnd <= src.max - Total(WeightedTypes(src), i + 1) {
      ScanFinds(src, rnd, i + 1);
    }
  }

  /** No draw lies in two slices, or in a slice and the residue. */
  lemma SlicesDisjoint(src: Source, i: nat, j: nat, rnd: nat)
    requires i < 6 && j < 6 && InSlice(src, i, rnd)
    ensures InSlice(src, j, rnd) ==> i == j
    ensures !InResidue(src, rnd)
  {
    var ws := WeightedTypes(src);
    TotalMonotone(ws, i + 1, 6);
    if i < j {
      TotalMonotone(ws, i + 1, j);
    } else if j < i {
      TotalMonotone(ws, j + 1, i);
    }
  }

  predicate Between(x: int, lo: int, hi: int) {
    lo < x <= hi
  }

  function Interval(lo: int, hi: int): set<int> {
    set x: int | lo < x <= hi && Between(x, lo, hi)
  }

  lemma {:induction false} IntervalSize(lo: int, hi: int)
    requires lo <= hi
    ensures |Interval(lo, hi)| == hi - lo
    decreases hi - lo
  {
    if lo == hi {
      assert Interval(lo, hi) == {};
    } else {
      IntervalSize(lo, hi - 1);
      forall x: int
        ensures x in Interval(lo, hi) <==> x in Interval(lo, hi - 1) + {hi}
      {
        assert Between(x, lo, hi) <==> Between(x, lo, hi - 1) || (x == hi);
      }
      assert Interval(lo, hi) == Interval(lo, hi - 1) + {hi};
    }
  }

  /** A first draw of rnd leads to entry i of the table (6: to the second draw). */
  predicate Chooses(src: Source, rnd: int, i: nat) {
    0 <= rnd && Scan(src, rnd, 0) == i
  }

  /** The values of rand() that lead there. */
  function Draws(src: Source, i: nat): set<int> {
    set rnd: int | 0 <= rnd <= src.max && Chooses(src, rnd, i)
  }

  lemma ChoosesSlice(src: Source, rnd: nat, i: nat)
    requires rnd <= src.max && i < 6
    ensures Chooses(src, rnd, i) <==> InSlice(src, i, rnd)
  {
    ScanFinds(src, rnd, 0);
    var r := Scan(src, rnd, 0);
    if r < 6 {
      SlicesDisjoint(src, r, i, rnd);
    } else if InSlice(src, i, rnd) {
      SlicesDisjoint(src, i, i, rnd);
    }
  }

  lemma ChoosesResidue(src: Source, rnd: nat)
    requires rnd <= src.max
    ensures Chooses(src, rnd, 6) <==> InResidue(src, rnd)
  {
    ScanFinds(src, rnd, 0);
    var r := Scan(src, rnd, 0);
    if r < 6 {
      SlicesDisjoint(src, r, r, rnd);
    }
  }

  /** For any RAND_MAX, exactly weight_i of the values of rand() choose entry i on
      the first draw. */
  lemma TypeCount(src: Source, i: nat)
    requires i < 6
    ensures |Draws(src, i)| == WeightedTypes(src)[i].weight
  {
    var ws := WeightedTypes(src);
    var lo, hi := src.max - Total(ws, i + 1), src.max - Total(ws, i);
    TotalBelowMax(src);
    TotalMonotone(ws, i + 1, 6);
    forall rnd: int
      ensures rnd in Draws(src, i) <==> rnd in Interval(lo, hi)
    {
      if 0 <= rnd <= src.max {
        ChoosesSlice(src, rnd, i);
        assert Between(rnd, lo, hi) <==> InSlice(src, i, rnd);
      }
    }
    assert Draws(src, i) == Interval(lo, hi);
    IntervalSize(lo, hi);
  }

  /** Only what the weights leave over goes to the uniform second draw. */
  lemma ResidueCount(src: Source)
    ensures |Draws(src, 6)| == src.max + 1 - Total(WeightedTypes(src), 6)
  {
    var hi := src.max - Total(WeightedTypes(src), 6);
    TotalBelowMax(src);
    forall rnd: int
      ensures rnd in Draws(src, 6) <==> rnd in Interval(-1, hi)
    {
      if 0 <= rnd <= src.max {
        ChoosesResidue(src, rnd);
        assert Between(rnd, -1, hi) <==> InResidue(src, rnd);
      }
    }
    assert Draws(src, 6) == Interval(-1, hi);
    IntervalSize(-1, hi);
  }

  // ---------------------------------------------------------------- the second draw

  /** A value of rand() that the second draw turns into entry k. */
  predicate Falls(rnd: int, k: nat) {
    0 <= rnd && rnd % 6 == k
  }

  function SecondDraws(max: int, k: nat): set<int> {
    set rnd: int | 0 <= rnd <= max && Falls(rnd, k)
  }

  /** How many of 0..max they are. */
  function SecondShare(max: int, k: nat): int
    requires -1 <= max
  {
    if max < k then 0 else (max - k) / 6 + 1
  }

  lemma SecondShareStep(max: nat, k: nat)
    requires k < 6
    ensures SecondShare(max, k) == SecondShare(max - 1, k) + (if Falls(max, k) then 1 else 0)
  {
    var q, r := max / 6, max % 6;
    assert max == 6 * q + r;
  }

  /** The second draw is uniform up to one value of rand(): entry k gets every sixth
      value from k on. */
  lemma {:induction false} SecondDrawCount(max: int, k: nat)
    requires -1 <= max && k < 6
    ensures |SecondDraws(max, k)| == SecondShare(max, k)
    decreases max + 1
  {
    if max == -1 {
      assert SecondDraws(max, k) == {};
    } else {
      SecondDrawCount(max - 1, k);
      SecondShareStep(max, k);
      var one := if Falls(max, k) then {max} else {};
      forall rnd: int
        ensures rnd in SecondDraws(max, k) <==> rnd in SecondDraws(max - 1, k) + one
      {
      }
      assert SecondDraws(max, k) == SecondDraws(max - 1, k) + one;
    }
  }

  /** No two entries differ by more than one value, and all values are used. */
  lemma SecondDrawUniform(max: nat)
    ensures forall j: nat, k: nat :: j <= k < 6 ==> 0 <= SecondShare(max, j) - SecondShare(max, k) <= 1
    ensures SecondShare(max, 0) + SecondShare(max, 1) + SecondShare(max, 2)
            + SecondShare(max, 3) + SecondShare(max, 4) + SecondShare(max, 5) == max + 1
  {
    var q, r := (max + 1) / 6, (max + 1) % 6;
    forall k: nat | k < 6
      ensures SecondShare(max, k) == q + (if k < r then 1 else 0)
    {
    }
  }

  /** A draw in the residue ends at entry k iff the next value of rand() falls to it. */
  lemma ResidueChooses(src: Source, c: nat, k: nat)
    requires k < 6 && src.at(c) <= src.max && InResidue(src, src.at(c))
    ensures RandomType(src, c) == (WeightedTypes(src)[k].qtype, c + 2) <==> Falls(src.at(c + 1), k)
  {
    ChoosesResidue(src, src.at(c));
    assert Chooses(src, src.at(c), 6);
    var ws := WeightedTypes(src);
    assert forall i, j :: 0 <= i < j < 6 ==> ws[i].qtype != ws[j].qtype;
  }

  // ---------------------------------------------------------------- the type returned

  /** A first draw in slice i is answered with type i, and nothing more is drawn. */
  lemma SliceChooses(src: Source, c: nat, i: nat)
    requires i < 6 && src.at(c) <= src.max
    ensures RandomType(src, c) == (WeightedTypes(src)[i].qtype, c + 1) <==> InSlice(src, i, src.at(c))
  {
    ChoosesSlice(src, src.at(c), i);
    var ws := WeightedTypes(src);
    assert forall i, j :: 0 <= i < j < 6 ==> ws[i].qtype != ws[j].qtype;
  }

  /** A rand() that returns r1 and from then on r2. */
  function Two(max: nat, r1: nat, r2: nat): Source {
    Source(max, (n: nat) => if n == 0 then r1 else r2)
  }

  /** Two draws that make get_random_type return this type; the second may go unused. */
  predicate Yields(max: nat, r1: int, r2: int, qtype: nat) {
    0 <= r1 && 0 <= r2 && RandomType(Two(max, r1, r2), 0).0 == qtype
  }

  lemma {:induction false} ScanByMax(src: Source, src': Source, rnd: nat, i: nat)
    requires i <= 6 && src.max == src'.max
    ensures Scan(src, rnd, i) == Scan(src', rnd, i)
    decreases 6 - i
  {
    assert WeightedTypes(src) == WeightedTypes(src');
    if i < 6 {
      ScanByMax(src, src', rnd, i + 1);
    }
  }

  /** Only the two draws matter. */
  lemma YieldsDrawn(src: Source, c: nat, qtype: nat)
    ensures RandomType(src, c).0 == qtype <==> Yields(src.max, src.at(c), src.at(c + 1), qtype)
  {
    var two := Two(src.max, src.at(c), src.at(c + 1));
    ScanByMax(src, two, src.at(c), 0);
    assert WeightedTypes(src) == WeightedTypes(two);
  }

  function Outcomes(max: nat, qtype: nat): set<(int, int)> {
    set r1: int, r2: int | 0 <= r1 <= max && 0 <= r2 <= max && Yields(max, r1, r2, qtype) :: (r1, r2)
  }

  function Product<A, B>(a: set<A>, b: set<B>): set<(A, B)> {
    set x, y | x in a && y in b :: (x, y)
  }

  lemma {:induction false} RowSize<A, B>(x: A, b: set<B>)
    ensures |Product({x}, b)| == |b|
  {
    if b == {} {
      assert Product({x}, b) == {};
    } else {
      var y :| y in b;
      RowSize(x, b - {y});
      assert Product({x}, b) == Product({x}, b - {y}) + {(x, y)};
    }
  }

  lemma {:induction false} ProductSize<A, B>(a: set<A>, b: set<B>)
    ensures |Product(a, b)| == |a| * |b|
  {
    if a == {} {
      assert Product(a, b) == {};
    } else {
      var x :| x in a;
      ProductSize(a - {x}, b);
      RowSize(x, b);
      assert Product(a, b) == Product(a - {x}, b) + Product({x}, b);
      assert |a| * |b| == (|a| - 1) * |b| + |b|;
    }
  }

  /** Entry k is returned for a first draw in its slice, or for a second draw that falls to
      it after a first draw in the residue. */
  lemma YieldsExact(src: Source, r1: nat, r2: nat, k: nat)
    requires k < 6 && r1 <= src.max
    ensures Yields(src.max, r1, r2, WeightedTypes(src)[k].qtype)
            <==> r1 in Draws(src, k) || (r1 in Draws(src, 6) && Falls(r2, k))
  {
    var two := Two(src.max, r1, r2);
    ScanByMax(src, two, r1, 0);
    var ws := WeightedTypes(src);
    assert ws == WeightedTypes(two);
    assert forall i, j :: 0 <= i < j < 6 ==> ws[i].qtype != ws[j].qtype;
  }

  lemma OutcomesSplit(src: Source, k: nat)
    requires k < 6
    ensures var first := Product(Draws(src, k), Interval(-1, src.max));
            var second := Product(Draws(src, 6), SecondDraws(src.max, k));
            first !! second && Outcomes(src.max, WeightedTypes(src)[k].qtype) == first + second
  {
    var all, t := Interval(-1, src.max), WeightedTypes(src)[k].qtype;
    var first, second := Product(Draws(src, k), all), Product(Draws(src, 6), SecondDraws(src.max, k));
    forall r1: int, r2: int
      ensures (r1, r2) in Outcomes(src.max, t) <==> (r1, r2) in first + second
    {
      assert r2 in all <==> 0 <= r2 <= src.max && Between(r2, -1, src.max);
      if 0 <= r1 <= src.max && 0 <= r2 <= src.max {
        YieldsExact(src, r1, r2, k);
      }
    }
    forall pair | pair in Outcomes(src.max, t) || pair in first + second
      ensures pair in Outcomes(src.max, t) && pair in first + second
    {
      assert pair == (pair.0, pair.1);
    }
  }

  lemma FirstSize(src: Source, k: nat)
    requires k < 6
    ensures |Product(Draws(src, k), Interval(-1, src.max))| == WeightedTypes(src)[k].weight * (src.max + 1)
  {
    TypeCount(src, k);
    IntervalSize(-1, src.max);
    ProductSize(Draws(src, k), Interval(-1, src.max));
  }

  lemma SecondSize(src: Source, k: nat)
    requires k < 6
    ensures |Product(Draws(src, 6), SecondDraws(src.max, k))|
            == (src.max + 1 - Total(WeightedTypes(src), 6)) * SecondShare(src.max, k)
  {
    ResidueCount(src);
    SecondDrawCount(src.max, k);
    ProductSize(Draws(src, 6), SecondDraws(src.max, k));
  }

  /** Of the pairs of draws, exactly weight_k * (RAND_MAX + 1) return type k at once, and the
      residue times every sixth value return it on the second draw. */
  lemma TypeDistribution(src: Source, k: nat)
    requires k < 6
    ensures var ws := WeightedTypes(src);
            |Outcomes(src.max, ws[k].qtype)|
            == ws[k].weight * (src.max + 1) + (src.max + 1 - Total(ws, 6)) * SecondShare(src.max, k)
  {
    OutcomesSplit(src, k);
    FirstSize(src, k);
    SecondSize(src, k);
  }

  /** The values of rand() for which get_random_type returns this type without drawing again. */
  function FirstDraws(max: nat, qtype: nat): set<int> {
    set rnd: int | 0 <= rnd <= max && Settles(max, rnd, qtype)
  }

  predicate Settles(max: nat, rnd: int, qtype: nat) {
    0 <= rnd && RandomType(Two(max, rnd, rnd), 0) == (qtype, 1)
  }

  lemma FirstDrawsAre(src: Source, i: nat)
    requires i < 6
    ensures |FirstDraws(src.max, WeightedTypes(src)[i].qtype)| == WeightedTypes(src)[i].weight
  {
    var ws := WeightedTypes(src);
    assert forall i, j :: 0 <= i < j < 6 ==> ws[i].qtype != ws[j].qtype;
    forall rnd: int
      ensures rnd in FirstDraws(src.max, ws[i].qtype) <==> rnd in Draws(src, i)
    {
      if 0 <= rnd <= src.max {
        var two := Two(src.max, rnd, rnd);
        ScanByMax(src, two, rnd, 0);
        assert ws == WeightedTypes(two);
      }
    }
    assert FirstDraws(src.max, ws[i].qtype) == Draws(src, i);
    TypeCount(src, i);
  }

  /** The shares of the first draw in figures, for any RAND_MAX: A, PTR, SOA, MX, TXT, AAAA. */
  lemma FirstDrawShares(max: nat)
    ensures |FirstDraws(max, 1)| == max * 33831 / 100000
    ensures |FirstDraws(max, 12)| == max * 38831 / 100000
    ensures |FirstDraws(max, 6)| == max * 803 / 100000
    ensures |FirstDraws(max, 15)| == max * 5073 / 100000
    ensures |FirstDraws(max, 16)| == max * 2604 / 100000
    ensures |FirstDraws(max, 28)| == max * 13858 / 100000
  {
    var src := Two(max, 0, 0);
    FirstDrawsAre(src, 0);
    FirstDrawsAre(src, 1);
    FirstDrawsAre(src, 2);
    FirstDrawsAre(src, 3);
    FirstDrawsAre(src, 4);
    FirstDrawsAre(src, 5);
  }
}
