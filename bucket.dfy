/** The ApplicationXtender bucket path of an object ID (GetPathFromID): a
    fixed window of base-FolderSize digits of the ID, outermost first, leaving
    out the least significant digit (level 0), which the file name carries.

    Go computes each level with floating point,
    int(math.Mod(float64(ID) / math.Pow(FolderSize, i), FolderSize));
    while that arithmetic is exact it equals the truncating integer formula
    Rem(Quot(ID, FolderSize^i), FolderSize) used here. */
module Bucket {
  import opened Common
  import opened Text

  function Pow(b: int, e: nat): (r: int)
    ensures b != 0 ==> r != 0
    ensures b > 0 ==> r > 0
  {
    if e == 0 then 1 else b * Pow(b, e - 1)
  }

  function Abs(a: int): nat { if a < 0 then -a else a }

  /** Go's integer division: the quotient truncated toward zero. */
  function Quot(a: int, b: int): int
    requires b != 0
  {
    var q := Abs(a) / Abs(b);
    if (a < 0) == (b < 0) then q else -q
  }

  /** Go's %: the remainder of truncated division, with the sign of a. */
  function Rem(a: int, b: int): int
    requires b != 0
  {
    var r := Abs(a) % Abs(b);
    if a < 0 then -r else r
  }

  lemma QuotRemNonNegative(a: int, b: int)
    requires a >= 0 && b > 0
    ensures Quot(a, b) == a / b && Rem(a, b) == a % b
  {
  }

  /** The directory name at level i (i >= 1) of the bucket path of id. */
  function Level(id: int, size: int, i: nat): int
    requires size != 0
  {
    Rem(Quot(id, Pow(size, i)), size)
  }

  /** The levels DirDepth, DirDepth-1, ..., 1 of the bucket path, outermost
      first; none when DirDepth <= 0. */
  function Segments(id: int, depth: int, size: int): (segs: seq<int>)
    requires depth > 0 ==> size != 0
    ensures |segs| == Max(depth, 0)
  {
    if depth <= 0 then [] else seq(depth, k requires 0 <= k < depth => Level(id, size, depth - k))
  }

  /** Joining rendered levels as GetPathFromID does: p = filepath.Join(p, strconv.Itoa(level)). */
  function Render(segs: seq<int>): string
  {
    if segs == [] then "" else JoinPath([Render(segs[..|segs| - 1]), Itoa(segs[|segs| - 1])])
  }

  function BucketPath(id: int, depth: int, size: int): string
    requires depth > 0 ==> size != 0
  {
    Render(Segments(id, depth, size))
  }

  /** The levels from `depth` down to i + 1: what the loop has produced when
      its counter has come down to i. */
  function Window(id: int, depth: int, size: int, i: nat): (w: seq<int>)
    requires i <= depth && size != 0
    ensures |w| == depth - i
  {
    seq(depth - i, k requires 0 <= k < depth - i => Level(id, size, depth - k))
  }

  /** GetPathFromID (lib/line.go, main.go and line.go share the same loop). The
      returned error is never set. */
  method PathFromID(id: int, depth: int, size: int) returns (p: string, e: Option<string>)
    requires depth > 0 ==> size != 0
    ensures p == BucketPath(id, depth, size)
    ensures e == None
  {
    e := None;
    p := "";
    var i := depth;
    while i > 0
      invariant depth <= 0 ==> i == depth && p == ""
      invariant depth > 0 ==> 0 <= i <= depth && p == Render(Window(id, depth, size, i))
    {
      var powered := Pow(size, i);
      var subpath := Rem(Quot(id, powered), size);
      ghost var before := Window(id, depth, size, i);
      ghost var after := Window(id, depth, size, i - 1);
      assert after[depth - i] == Level(id, size, i) == subpath;
      assert after == before + [subpath] by {
        forall k | 0 <= k < depth - i
          ensures after[k] == before[k]
        {
        }
      }
      assert (before + [subpath])[..|before|] == before;
      p := JoinPath([p, Itoa(subpath)]);
      i := i - 1;
    }
    if depth > 0 {
      assert Window(id, depth, size, 0) == Segments(id, depth, size);
    }
  }

  // ---------------------------------------------------------------------
  // Paths of the golden test (main_test.go)

  lemma {:induction false} RenderTwo(a: nat, b: nat)
    ensures Render([a, b]) == NatToDecimal(a) + "/" + NatToDecimal(b)
  {
    assert [a, b][..1] == [a];
    assert [a][..0] == [];
    assert Render([a]) == JoinPath(["", Itoa(a)]);
    JoinPath2("", Itoa(a));
    assert Render([a]) == NatToDecimal(a);
    assert Render([a, b]) == JoinPath([NatToDecimal(a), NatToDecimal(b)]);
    JoinPath2(NatToDecimal(a), NatToDecimal(b));
  }

  lemma GoldenPaths()
    ensures BucketPath(2927782, 2, 1024) == "2/811"
    ensures BucketPath(7957574, 2, 1024) == "7/603"
  {
    FirstGoldenPath();
    SecondGoldenPath();
  }

  lemma FirstGoldenPath()
    ensures BucketPath(2927782, 2, 1024) == "2/811"
  {
    assert Pow(1024, 1) == 1024;
    assert Pow(1024, 2) == 1048576;
    assert Segments(2927782, 2, 1024) == [2, 811];
    RenderTwo(2, 811);
    assert NatToDecimal(811) == "811" by {
      assert NatToDecimal(8) == "8";
      assert NatToDecimal(81) == NatToDecimal(8) + "1";
    }
  }

  lemma SecondGoldenPath()
    ensures BucketPath(7957574, 2, 1024) == "7/603"
  {
    assert Pow(1024, 1) == 1024;
    assert Pow(1024, 2) == 1048576;
    assert Segments(7957574, 2, 1024) == [7, 603];
    RenderTwo(7, 603);
    assert NatToDecimal(603) == "603" by {
      assert NatToDecimal(6) == "6";
      assert NatToDecimal(60) == NatToDecimal(6) + "0";
    }
  }

  // ---------------------------------------------------------------------
  // Integer arithmetic used by the digit lemmas

  lemma MulNonNegative(a: int, b: int)
    requires a >= 0 && b >= 0
    ensures a * b >= 0
  {
  }

  /** Division with remainder is unique. */
  lemma {:induction false} DivModUnique(x: int, m: int, k: int, r: int)
    requires m > 0 && 0 <= r < m && x == k * m + r
    ensures x / m == k && x % m == r
  {
    var q, s := x / m, x % m;
    var t := k - q;
    assert t * m == s - r;
    if t >= 1 {
      MulNonNegative(t - 1, m);
    } else if t <= -1 {
      MulNonNegative(-t - 1, m);
    }
  }

  lemma {:induction false} DivDiv(a: int, b: int, c: int)
    requires a >= 0 && b > 0 && c > 0
    ensures (a / b) / c == a / (b * c)
  {
    var q1, r1 := a / b, a % b;
    var q2, r2 := q1 / c, q1 % c;
    MulNonNegative(r2, b);
    assert r2 * b <= (c - 1) * b by {
      MulNonNegative(c - 1 - r2, b);
      assert (c - 1) * b - r2 * b == (c - 1 - r2) * b;
    }
    assert a == q2 * (b * c) + (r2 * b + r1) by {
      assert a == q1 * b + r1;
      assert q1 == q2 * c + r2;
      assert q1 * b == q2 * c * b + r2 * b;
    }
    assert (c - 1) * b + b == b * c;
    DivModUnique(a, b * c, q2, r2 * b + r1);
  }

  lemma {:induction false} ModSplit(x: int, size: int, p: int)
    requires x >= 0 && size > 0 && p > 0
    ensures x % (size * p) == ((x / size) % p) * size + x % size
  {
    var q, r := x / size, x % size;
    var hi, lo := q / p, q % p;
    MulNonNegative(lo, size);
    assert lo * size <= (p - 1) * size by {
      MulNonNegative(p - 1 - lo, size);
      assert (p - 1) * size - lo * size == (p - 1 - lo) * size;
    }
    assert x == hi * (size * p) + (lo * size + r) by {
      assert x == q * size + r;
      assert q == hi * p + lo;
      assert q * size == hi * p * size + lo * size;
    }
    assert (p - 1) * size + size == size * p;
    DivModUnique(x, size * p, hi, lo * size + r);
  }

  // ---------------------------------------------------------------------
  // Properties of the codec

  lemma LevelOfNonNegative(id: int, size: int, i: nat)
    requires id >= 0 && size > 0
    ensures Level(id, size, i) == (id / Pow(size, i)) % size
    ensures 0 <= Level(id, size, i) < size
  {
    var p := Pow(size, i);
    QuotRemNonNegative(id, p);
    QuotRemNonNegative(id / p, size);
  }

  /** For a non-negative ID every directory name lies in [0, FolderSize). */
  lemma SegmentsInRange(id: int, depth: int, size: int)
    requires id >= 0 && size > 0
    ensures forall k :: 0 <= k < |Segments(id, depth, size)| ==> 0 <= Segments(id, depth, size)[k] < size
  {
    var segs := Segments(id, depth, size);
    forall k | 0 <= k < |segs|
      ensures 0 <= segs[k] < size
    {
      LevelOfNonNegative(id, size, depth - k);
    }
  }

  /** DirDepth <= 0 gives the empty path. */
  lemma NoDepthNoPath(id: int, depth: int, size: int)
    requires depth <= 0
    ensures BucketPath(id, depth, size) == ""
  {
  }

  /** Level i of id is level i - 1 of id div FolderSize. */
  lemma {:induction false} LevelShift(id: int, size: int, i: nat)
    requires id >= 0 && size > 0 && i >= 1
    ensures Level(id, size, i) == Level(id / size, size, i - 1)
  {
    var p := Pow(size, i - 1);
    calc {
      Level(id, size, i);
      == { LevelOfNonNegative(id, size, i); }
      (id / Pow(size, i)) % size;
      == { assert Pow(size, i) == size * p; }
      (id / (size * p)) % size;
      == { DivDiv(id, size, p); }
      ((id / size) / p) % size;
      == { LevelOfNonNegative(id / size, size, i - 1); }
      Level(id / size, size, i - 1);
    }
  }

  /** The bucket path depends on the ID only through ID div FolderSize. */
  lemma PathDependsOnQuotient(id1: int, id2: int, depth: int, size: int)
    requires id1 >= 0 && id2 >= 0 && size > 0
    requires id1 / size == id2 / size
    ensures Segments(id1, depth, size) == Segments(id2, depth, size)
    ensures BucketPath(id1, depth, size) == BucketPath(id2, depth, size)
  {
    if depth > 0 {
      forall k | 0 <= k < depth
        ensures Segments(id1, depth, size)[k] == Segments(id2, depth, size)[k]
      {
        LevelShift(id1, size, depth - k);
        LevelShift(id2, size, depth - k);
      }
    }
  }

  /** Reading a sequence of digits as a base-`size` number, most significant first. */
  function Value(ds: seq<int>, size: int): int
  {
    if ds == [] then 0 else Value(ds[..|ds| - 1], size) * size + ds[|ds| - 1]
  }

  /** Peeling off the innermost level: the outer levels of id are the levels
      of id div FolderSize. */
  lemma SegmentsSplit(id: int, depth: int, size: int)
    requires id >= 0 && size > 0 && depth >= 1
    ensures Segments(id, depth, size) == Segments(id / size, depth - 1, size) + [(id / size) % size]
  {
    var segs := Segments(id, depth, size);
    var rest := Segments(id / size, depth - 1, size);
    forall k | 0 <= k < depth - 1
      ensures segs[k] == rest[k]
    {
      LevelShift(id, size, depth - k);
    }
    assert Pow(size, 1) == size;
    LevelOfNonNegative(id, size, 1);
    assert segs[depth - 1] == Level(id, size, 1);
    assert segs == rest + [(id / size) % size];
  }

  /** The levels of id, read as base-FolderSize digits, give back the ID with
      its lowest digit dropped, modulo FolderSize^DirDepth. */
  lemma {:induction false} DecodeSegments(id: int, depth: nat, size: int)
    requires id >= 0 && size > 0
    ensures Value(Segments(id, depth, size), size) == (id / size) % Pow(size, depth)
    decreases depth
  {
    if depth > 0 {
      var x := id / size;
      var rest := Segments(x, depth - 1, size);
      var p := Pow(size, depth - 1);
      SegmentsSplit(id, depth, size);
      var segs := rest + [x % size];
      assert segs[..|segs| - 1] == rest;
      var vr := Value(rest, size);
      assert Value(segs, size) == vr * size + x % size;
      DecodeSegments(x, depth - 1, size);
      assert vr == (x / size) % p;
      ModSplit(x, size, p);
      assert Pow(size, depth) == size * p;
    }
  }

  /** The round trip the source relies on: for an ID below
      FolderSize^(DirDepth+1) the path's digits give back ID div FolderSize. */
  lemma PathRoundTrip(id: int, depth: nat, size: int)
    requires size > 0 && 0 <= id < Pow(size, depth + 1)
    ensures Value(Segments(id, depth, size), size) == id / size
  {
    var p := Pow(size, depth);
    var x := id / size;
    DecodeSegments(id, depth, size);
    assert Pow(size, depth + 1) == size * p;
    SmallQuotient(id, size * p);
    DivDiv(id, size, p);
    assert x / p == 0;
    QuotientZero(x, p);
    SmallQuotient(x, p);
  }

  /** A number below the divisor is its own remainder. */
  lemma SmallQuotient(x: int, m: int)
    requires 0 <= x < m
    ensures x / m == 0 && x % m == x
  {
    DivModUnique(x, m, 0, x);
  }

  lemma QuotientZero(x: int, m: int)
    requires x >= 0 && m > 0 && x / m == 0
    ensures x < m
  {
    assert x == (x / m) * m + x % m;
  }

  predicate IsDigits(ds: seq<int>, size: int)
  {
    forall k :: 0 <= k < |ds| ==> 0 <= ds[k] < size
  }

  lemma {:induction false} ValueBounds(ds: seq<int>, size: int)
    requires size > 0 && IsDigits(ds, size)
    ensures 0 <= Value(ds, size) < Pow(size, |ds|)
  {
    if ds != [] {
      var init := ds[..|ds| - 1];
      assert IsDigits(init, size);
      ValueBounds(init, size);
      var v := Value(init, size);
      var p := Pow(size, |init|);
      assert Value(ds, size) == v * size + ds[|ds| - 1];
      assert Pow(size, |ds|) == size * p;
      DigitStep(v, ds[|ds| - 1], p, size);
    }
  }

  /** One more digit below the base keeps the value below the next power. */
  lemma DigitStep(v: int, digit: int, p: int, size: int)
    requires 0 <= v < p && 0 <= digit < size
    ensures 0 <= v * size + digit < size * p
  {
    MulNonNegative(v, size);
    MulNonNegative(p - 1 - v, size);
    assert (p - 1 - v) * size == p * size - size - v * size;
    assert size * p == p * size;
  }

  /** The other direction: every window of digits is the bucket path of the
      IDs whose digits they are, whatever the lowest digit. */
  lemma {:induction false} EncodeDigits(ds: seq<int>, size: int, low: int)
    requires size > 0 && IsDigits(ds, size) && 0 <= low < size
    ensures Segments(Value(ds, size) * size + low, |ds|, size) == ds
  {
    var n := |ds|;
    var v := Value(ds, size);
    ValueBounds(ds, size);
    MulNonNegative(v, size);
    var id := v * size + low;
    DivModUnique(id, size, v, low);
    if n > 0 {
      var init := ds[..n - 1];
      assert IsDigits(init, size);
      ValueBounds(init, size);
      DivModUnique(v, size, Value(init, size), ds[n - 1]);
      EncodeDigits(init, size, ds[n - 1]);
      SegmentsSplit(id, n, size);
      assert ds == init + [ds[n - 1]];
    }
  }
}
