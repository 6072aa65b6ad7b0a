/** Facts about row-major grid indices (`row * width + col`), shared by the
    mesh and texture loops and the random scaling. */
module Arith {

  lemma MulMono(a: int, b: int, c: nat)
    requires a <= b
    ensures a * c <= b * c
  {
    var d := b - a;
    assert b * c == a * c + d * c;
  }

  /** One more row adds one width. */
  lemma NextRow(row: int, width: int)
    ensures (row + 1) * width == row * width + width
  {
  }

  /** A square of side `2 * n` holds four squares of side `n`. */
  lemma DoubleSquare(n: int)
    ensures (2 * n) * (2 * n) == n * n * 4
  {
    calc {
      (2 * n) * (2 * n);
      == 2 * (n * (2 * n));
      == 2 * (2 * (n * n));
    }
  }

  /** A row-major index stays below `height * width`. */
  lemma RowMajorBound(width: nat, height: nat, row: nat, col: nat)
    requires row < height && col < width
    ensures row * width + col < height * width
  {
    MulMono(row + 1, height, width);
  }

  /** A row-major index decodes back into its row and column. */
  lemma RowMajorDecode(width: nat, row: nat, col: nat)
    requires col < width
    ensures (row * width + col) / width == row
    ensures (row * width + col) % width == col
  {
    var k := row * width + col;
    var q, r := k / width, k % width;
    assert k == q * width + r;
    if q > row {
      MulMono(row + 1, q, width);
      assert false;
    } else if q < row {
      MulMono(q + 1, row, width);
      assert false;
    }
  }

  /** Quotient and remainder by a positive width are natural numbers, the
      remainder below the width. */
  lemma DivModBounds(k: nat, width: nat)
    requires width > 0
    ensures 0 <= k / width && 0 <= k % width < width
    ensures k == (k / width) * width + k % width
  {
  }

  /** Every index below `height * width` is the row-major index of its
      quotient and remainder, and the quotient is a valid row. */
  lemma RowMajorEncode(width: nat, height: nat, k: nat)
    requires k < height * width
    ensures width > 0
    ensures k / width < height
    ensures k == (k / width) * width + k % width
  {
    var q := k / width;
    if q >= height {
      MulMono(height, q, width);
      assert false;
    }
  }

  /** A prefix of an array is the concatenation of the pieces it is cut
      into. */
  lemma SplitPrefix<T>(a: array<T>, i: nat, j: nat, k: nat)
    requires i <= j <= k <= a.Length
    ensures a[..k] == a[..i] + a[i..j] + a[j..k]
  {
  }
}
