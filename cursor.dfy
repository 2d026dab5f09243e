/**
 * The playlist cursor `currentSongIndex` and how `playNextSong` and
 * `playPreviousSong` move it: forward and backward, wrapping modulo the
 * playlist length `n`.
 */
module Cursor {
  import JavaInt

  /** The forward step of `playNextSong`: one past the cursor, modulo the list length. */
  function Next(i: int, n: int): (j: int)
    requires 0 <= i < n
    ensures 0 <= j < n
    ensures j == if i == n - 1 then 0 else i + 1
  {
    (i + 1) % n
  }

  /**
   * The backward step of `playPreviousSong`: one before the cursor, plus the
   * list length, modulo the list length, computed on unbounded integers
   * (PreviousAsWritten is the same expression on Java `int`).
   */
  function Previous(i: int, n: int): (j: int)
    requires 0 <= i < n
    ensures 0 <= j < n
    ensures j == if i == 0 then n - 1 else i - 1
  {
    (i - 1 + n) % n
  }

  /**
   * The forward expression as Java evaluates it on `int`: the result is an
   * `int` strictly between -n and n, and not negative while the sum fits.
   */
  function NextAsWritten(i: int, n: int): (r: int)
    requires 0 < n <= JavaInt.MaxInt
    ensures JavaInt.InRange(r) && -n < r < n
    ensures 0 <= i + 1 <= JavaInt.MaxInt ==> 0 <= r
  {
    JavaInt.Rem(JavaInt.Wrap(i + 1), n)
  }

  /**
   * The backward expression as Java evaluates it on `int`, left to right: the
   * result is strictly between -n and n, and not negative while the sums fit.
   */
  function PreviousAsWritten(i: int, n: int): (r: int)
    requires 0 < n <= JavaInt.MaxInt
    ensures JavaInt.InRange(r) && -n < r < n
    ensures JavaInt.MinInt <= i - 1 && 0 <= i - 1 + n <= JavaInt.MaxInt ==> 0 <= r
  {
    var d := JavaInt.Wrap(i - 1);
    assert JavaInt.InRange(i - 1) ==> d == i - 1;
    var sum := JavaInt.Wrap(d + n);
    assert JavaInt.MinInt <= i - 1 && 0 <= i - 1 + n <= JavaInt.MaxInt ==> sum == i - 1 + n;
    JavaInt.Rem(sum, n)
  }

  /** The forward step cannot overflow: on every index of a Java list it is Next. */
  lemma NextAsWrittenAgrees(i: int, n: int)
    requires 0 <= i < n <= JavaInt.MaxInt
    ensures NextAsWritten(i, n) == Next(i, n)
  {
  }

  /** The backward step is Previous as long as `i - 1 + n` fits in an `int`. */
  lemma PreviousAsWrittenAgrees(i: int, n: int)
    requires 0 <= i < n <= JavaInt.MaxInt && i - 1 + n <= JavaInt.MaxInt
    ensures PreviousAsWritten(i, n) == Previous(i, n)
  {
  }

  /**
   * On a list of 2^30 + 2 songs, stepping back from the last index overflows
   * and yields a negative index, which `songFiles.get` rejects.
   */
  lemma PreviousAsWrittenOverflows()
    ensures var n := 0x4000_0002; var i := n - 1;
      n <= JavaInt.MaxInt && PreviousAsWritten(i, n) < 0 && Previous(i, n) == i - 1
  {
    var n := 0x4000_0002;
    var i := n - 1;
    assert JavaInt.Wrap(i - 1) == i - 1;
    assert JavaInt.Wrap(i - 1 + n) == -0x7fff_fffe;
    assert JavaInt.Rem(-0x7fff_fffe, n) == -0x3fff_fffc;
  }

  /** Back then forward, or forward then back, returns to the same index. */
  lemma NextPreviousInverse(i: int, n: int)
    requires 0 <= i < n
    ensures Next(Previous(i, n), n) == i
    ensures Previous(Next(i, n), n) == i
  {
  }

  /** The index after `k` forward steps from `i`. */
  function Advance(i: int, n: int, k: nat): (j: int)
    requires 0 <= i < n
    ensures 0 <= j < n
  {
    if k == 0 then i else Next(Advance(i, n, k - 1), n)
  }

  /** Forward steps compose: `a` steps and then `b` more are `a + b` steps. */
  lemma {:induction false} AdvanceAdds(i: int, n: int, a: nat, b: nat)
    requires 0 <= i < n
    ensures Advance(Advance(i, n, a), n, b) == Advance(i, n, a + b)
  {
    if b > 0 {
      AdvanceAdds(i, n, a, b - 1);
    }
  }

  /** Without reaching the end of the list, `k` steps add `k` to the index. */
  lemma {:induction false} AdvanceWithinList(i: int, n: int, k: nat)
    requires 0 <= i && i + k < n
    ensures Advance(i, n, k) == i + k
  {
    if k > 0 {
      AdvanceWithinList(i, n, k - 1);
    }
  }

  /** `n` forward steps go once round the playlist and back to the start. */
  lemma FullCycle(i: int, n: int)
    requires 0 <= i < n
    ensures Advance(i, n, n) == i
  {
    AdvanceWithinList(i, n, n - 1 - i);
    AdvanceAdds(i, n, n - 1 - i, 1);
    AdvanceWithinList(0, n, i);
    AdvanceAdds(i, n, n - i, i);
  }
}
