/** The default colour palette and its round-robin rotation. */
module ColorCycle {
  import opened PyValues

  datatype Color = Color(red: int, green: int, blue: int)

  /** DEFAULT_COLORS */
  const DefaultColors: seq<Color> := [
    Color(255, 59, 59),
    Color(52, 71, 217),
    Color(4, 168, 2),
    Color(224, 146, 0),
    Color(224, 0, 183),
    Color(0, 230, 214),
    Color(140, 0, 0),
    Color(9, 0, 140),
    Color(107, 0, 96)
  ]

  /** The colour as the Python tuple stored under the 'color' style key. */
  function ColorValue(c: Color): Value {
    VTuple([VInt(c.red), VInt(c.green), VInt(c.blue)])
  }

  /** One pick: the front colour moves to the back. */
  function Rotate(q: seq<Color>): (r: seq<Color>)
    requires |q| > 0
    ensures |r| == |q|
  {
    q[1..] + [q[0]]
  }

  /** The queue after k picks. */
  function Rotated(q: seq<Color>, k: nat): (r: seq<Color>)
    requires |q| > 0
    ensures |r| == |q|
  {
    if k == 0 then q else Rotate(Rotated(q, k - 1))
  }

  /** Within one turn of the palette, k picks shift it left by k. */
  lemma {:induction false} RotatedIsShift(q: seq<Color>, k: nat)
    requires 0 < |q| && k <= |q|
    ensures Rotated(q, k) == q[k..] + q[..k]
  {
    if k > 0 {
      RotatedIsShift(q, k - 1);
      var prev := q[k - 1..] + q[..k - 1];
      assert prev[0] == q[k - 1];
      assert prev[1..] == q[k..] + q[..k - 1];
      assert q[..k] == q[..k - 1] + [q[k - 1]];
    }
  }

  lemma {:induction false} RotatedAdd(q: seq<Color>, a: nat, b: nat)
    requires |q| > 0
    ensures Rotated(q, a + b) == Rotated(Rotated(q, a), b)
    decreases b
  {
    if b > 0 { RotatedAdd(q, a, b - 1); }
  }

  /** A full turn of picks restores the queue. */
  lemma RotatedFullTurn(q: seq<Color>)
    requires |q| > 0
    ensures Rotated(q, |q|) == q
  {
    RotatedIsShift(q, |q|);
  }

  /** The queue always holds the same colours. */
  lemma {:induction false} RotatedKeepsColors(q: seq<Color>, k: nat)
    requires |q| > 0
    ensures multiset(Rotated(q, k)) == multiset(q)
  {
    if k > 0 {
      RotatedKeepsColors(q, k - 1);
      var prev := Rotated(q, k - 1);
      assert prev == [prev[0]] + prev[1..];
    }
  }

  /** After k picks the front of the queue is the colour at k mod n. */
  lemma {:induction false} RotatedFront(q: seq<Color>, k: nat)
    requires |q| > 0
    ensures Rotated(q, k)[0] == q[k % |q|]
    decreases k
  {
    var n := |q|;
    if k < n {
      RotatedIsShift(q, k);
      ModBelow(k, n);
    } else {
      RotatedFront(q, k - n);
      RotatedAdd(q, n, k - n);
      RotatedFullTurn(q);
      ModSubtract(k, n);
    }
  }

  lemma ModBelow(k: nat, n: nat)
    requires k < n
    ensures k % n == k
  {
  }

  lemma MulAtLeast(x: int, n: int)
    requires x >= 1 && n > 0
    ensures x * n >= n
  {
  }

  lemma ModUnique(a: int, n: int, q: int, r: int)
    requires 0 < n && 0 <= r < n && a == q * n + r
    ensures a % n == r
  {
    var q', r' := a / n, a % n;
    assert a == q' * n + r';
    assert (q - q') * n == r' - r;
    if q > q' { MulAtLeast(q - q', n); }
    if q < q' { MulAtLeast(q' - q, n); }
  }

  lemma ModSubtract(k: nat, n: nat)
    requires 0 < n <= k
    ensures k % n == (k - n) % n
  {
    var d, r := (k - n) / n, (k - n) % n;
    assert k - n == d * n + r;
    assert k == (d + 1) * n + r;
    ModUnique(k, n, d + 1, r);
  }

  /** The colours returned by n successive picks from the queue q. */
  function Picks(q: seq<Color>, n: nat): (r: seq<Color>)
    requires |q| > 0
    ensures |r| == n
  {
    if n == 0 then [] else Picks(q, n - 1) + [Rotated(q, n - 1)[0]]
  }

  lemma {:induction false} PicksAt(q: seq<Color>, n: nat, k: nat)
    requires |q| > 0 && k < n
    ensures Picks(q, n)[k] == Rotated(q, k)[0]
    decreases n
  {
    if k < n - 1 {
      PicksAt(q, n - 1, k);
      assert Picks(q, n)[k] == Picks(q, n - 1)[k];
    }
  }

  /** Round robin: the k-th pick returns the colour at k mod n. */
  lemma PicksAreRoundRobin(q: seq<Color>, n: nat)
    requires |q| > 0
    ensures forall k :: 0 <= k < n ==> Picks(q, n)[k] == q[k % |q|]
  {
    forall k | 0 <= k < n ensures Picks(q, n)[k] == q[k % |q|] {
      PicksAt(q, n, k);
      RotatedFront(q, k);
    }
  }

  /** Nine picks on a fresh palette return DEFAULT_COLORS in order, and the
      tenth returns the first colour again. */
  lemma FreshPicks()
    ensures Picks(DefaultColors, 9) == DefaultColors
    ensures Picks(DefaultColors, 10)[9] == DefaultColors[0]
  {
    PicksAreRoundRobin(DefaultColors, 10);
    PicksAreRoundRobin(DefaultColors, 9);
  }
}
