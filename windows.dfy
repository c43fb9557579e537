/** The batch windows every content runner cuts its record list into:
    `total_batches = (n + batch_size - 1) // batch_size` windows, window `b`
    (0-based) covering the positions `b * batch_size .. min(b * batch_size +
    batch_size, n) - 1`.  The arithmetic facts the runners and the reports
    rely on are proved here once. */
module Windows {

  /** `(n + batch_size - 1) // batch_size`. */
  function NumBatches(n: nat, bs: nat): nat
    requires bs > 0
  {
    (n + bs - 1) / bs
  }

  /** `end_index = min(start_index + batch_size, n)` of window `b`. */
  function WindowEnd(n: nat, bs: nat, b: nat): nat {
    if b * bs + bs <= n then b * bs + bs else n
  }

  /** The positions the first `k` windows cover: `min(k * batch_size, n)`. */
  function Covered(n: nat, bs: nat, k: nat): nat {
    if k * bs <= n then k * bs else n
  }

  lemma MulMono(a: nat, b: nat, bs: nat)
    requires a <= b
    ensures a * bs <= b * bs
  {
  }

  /** Window `b` exists exactly when it starts before the end of the list. */
  lemma BatchBound(n: nat, bs: nat, b: nat)
    requires bs > 0
    ensures b < NumBatches(n, bs) <==> b * bs < n
  {
    var q := NumBatches(n, bs);
    var r := (n + bs - 1) % bs;
    assert q * bs + r == n + bs - 1;
    if b < q {
      MulMono(b, q - 1, bs);
      assert (q - 1) * bs == q * bs - bs;
    } else {
      MulMono(q, b, bs);
    }
  }

  /** All windows together cover the whole list: `min(total_batches * batch_size, n) == n`. */
  lemma CoveredAll(n: nat, bs: nat)
    requires bs > 0
    ensures Covered(n, bs, NumBatches(n, bs)) == n
  {
    var q := NumBatches(n, bs);
    var r := (n + bs - 1) % bs;
    assert q * bs + r == n + bs - 1;
  }

  /** The end of window `b` is what the first `b + 1` windows cover, it lies
      strictly after the window's start, and a window is a full `batch_size`
      long unless it is the last one. */
  lemma WindowFacts(n: nat, bs: nat, b: nat)
    requires bs > 0 && b < NumBatches(n, bs)
    ensures WindowEnd(n, bs, b) == Covered(n, bs, b + 1)
    ensures b * bs < WindowEnd(n, bs, b) <= n
    ensures WindowEnd(n, bs, b) - b * bs <= bs
    ensures b + 1 < NumBatches(n, bs) ==> WindowEnd(n, bs, b) == b * bs + bs < n
    ensures b + 1 == NumBatches(n, bs) ==> WindowEnd(n, bs, b) == n
  {
    BatchBound(n, bs, b);
    BatchBound(n, bs, b + 1);
    assert (b + 1) * bs == b * bs + bs;
  }

  /** The first `b` windows cover `b * batch_size` positions while `b` is a window. */
  lemma CoveredBefore(n: nat, bs: nat, b: nat)
    requires bs > 0 && b < NumBatches(n, bs)
    ensures Covered(n, bs, b) == b * bs
  {
    BatchBound(n, bs, b);
  }

  /** The ends of the windows strictly increase and the last one is `n`. */
  lemma EndsAscend(n: nat, bs: nat, b: nat, c: nat)
    requires bs > 0 && b < c < NumBatches(n, bs)
    ensures WindowEnd(n, bs, b) < WindowEnd(n, bs, c)
  {
    WindowFacts(n, bs, b);
    WindowFacts(n, bs, c);
    MulMono(b + 1, c, bs);
    assert (b + 1) * bs == b * bs + bs;
  }

  /** Window `b` of a list. */
  function Window<T>(s: seq<T>, bs: nat, b: nat): seq<T>
    requires bs > 0 && b < NumBatches(|s|, bs)
  {
    WindowFacts(|s|, bs, b);
    s[b * bs..WindowEnd(|s|, bs, b)]
  }

  /** The lists of a sequence of lists, one after the other (`all_results.extend(...)` per batch). */
  function Concat<T>(ws: seq<seq<T>>): seq<T>
    decreases |ws|
  {
    if ws == [] then [] else Concat(ws[..|ws| - 1]) + ws[|ws| - 1]
  }

  /** The first `k` windows of a list. */
  function Windows<T>(s: seq<T>, bs: nat, k: nat): seq<seq<T>>
    requires bs > 0 && k <= NumBatches(|s|, bs)
  {
    seq(k, b requires 0 <= b < k => Window(s, bs, b))
  }

  /** The first `k` windows, one after the other, are the list up to what they cover. */
  lemma {:induction false} ConcatWindows<T>(s: seq<T>, bs: nat, k: nat)
    requires bs > 0 && k <= NumBatches(|s|, bs)
    ensures Concat(Windows(s, bs, k)) == s[..Covered(|s|, bs, k)]
  {
    if k > 0 {
      var ws := Windows(s, bs, k);
      assert ws[..k - 1] == Windows(s, bs, k - 1);
      ConcatWindows(s, bs, k - 1);
      CoveredBefore(|s|, bs, k - 1);
      WindowFacts(|s|, bs, k - 1);
      var c := (k - 1) * bs;
      assert s[..c] + s[c..WindowEnd(|s|, bs, k - 1)] == s[..WindowEnd(|s|, bs, k - 1)];
    }
  }

  /** The windows cover the list exactly once and in order. */
  lemma WindowsPartition<T>(s: seq<T>, bs: nat)
    requires bs > 0
    ensures Concat(Windows(s, bs, NumBatches(|s|, bs))) == s
  {
    ConcatWindows(s, bs, NumBatches(|s|, bs));
    CoveredAll(|s|, bs);
  }

  /** Each window is non-empty, and only the last one may be shorter than `batch_size`. */
  lemma WindowLengths<T>(s: seq<T>, bs: nat, b: nat)
    requires bs > 0 && b < NumBatches(|s|, bs)
    ensures |Window(s, bs, b)| == WindowEnd(|s|, bs, b) - b * bs
    ensures 0 < |Window(s, bs, b)| <= bs
    ensures b + 1 < NumBatches(|s|, bs) ==> |Window(s, bs, b)| == bs
  {
    WindowFacts(|s|, bs, b);
  }

  /** Position `i` of the list lies in window `i // batch_size`, at offset `i % batch_size`. */
  lemma WindowOf<T>(s: seq<T>, bs: nat, i: nat)
    requires bs > 0 && i < |s|
    ensures i / bs < NumBatches(|s|, bs)
    ensures i % bs < |Window(s, bs, i / bs)| && Window(s, bs, i / bs)[i % bs] == s[i]
  {
    var b := i / bs;
    assert b * bs + i % bs == i;
    BatchBound(|s|, bs, b);
    WindowFacts(|s|, bs, b);
  }

  /** Every position of window `b` belongs to batch `b`: `(b * batch_size + j) // batch_size == b`. */
  lemma DivInWindow(bs: nat, b: nat, j: nat)
    requires j < bs
    ensures (b * bs + j) / bs == b && (b * bs + j) % bs == j
  {
    var x := b * bs + j;
    var q := x / bs;
    assert q * bs + x % bs == x;
    if q > b {
      MulStep(b, q, bs);
      assert false;
    } else if q < b {
      MulStep(q, b, bs);
      assert false;
    }
  }

  lemma MulStep(a: nat, b: nat, bs: nat)
    requires a < b
    ensures a * bs + bs <= b * bs
  {
    MulMono(a + 1, b, bs);
    assert (a + 1) * bs == a * bs + bs;
  }

  /** The resume batch `p // batch_size` starts at or before position `p`,
      and exactly at it when `p` is a multiple of `batch_size`. */
  lemma ResumeStart(p: nat, bs: nat)
    requires bs > 0
    ensures (p / bs) * bs <= p && p - (p / bs) * bs < bs
    ensures p % bs == 0 ==> (p / bs) * bs == p
  {
  }

  /** Concatenating one more list. */
  lemma ConcatSnoc<T>(ws: seq<seq<T>>, w: seq<T>)
    ensures Concat(ws + [w]) == Concat(ws) + w
  {
    assert (ws + [w])[..|ws|] == ws;
  }

  /** Appending window `b` to the part of the list before it, read from any
      earlier position `lo`, reaches the end of window `b`. */
  lemma WindowExtends<T>(s: seq<T>, bs: nat, b: nat, lo: nat)
    requires bs > 0 && b < NumBatches(|s|, bs) && lo <= Covered(|s|, bs, b)
    ensures Covered(|s|, bs, b) <= Covered(|s|, bs, b + 1)
    ensures s[lo..Covered(|s|, bs, b)] + Window(s, bs, b) == s[lo..Covered(|s|, bs, b + 1)]
  {
    CoveredBefore(|s|, bs, b);
    WindowFacts(|s|, bs, b);
  }

  /** What the windows cover grows with their number. */
  lemma CoveredMono(n: nat, bs: nat, a: nat, b: nat)
    requires a <= b
    ensures Covered(n, bs, a) <= Covered(n, bs, b)
  {
    MulMono(a, b, bs);
  }

  /** From the last window on, the windows cover the whole list. */
  lemma CoveredPast(n: nat, bs: nat, k: nat)
    requires bs > 0 && k >= NumBatches(n, bs)
    ensures Covered(n, bs, k) == n
  {
    BatchBound(n, bs, k);
  }

  /** The windows left from window `k0` on: `range(k0, total_batches)`. */
  function Remaining(n: nat, bs: nat, k0: nat): nat
    requires bs > 0
  {
    if k0 < NumBatches(n, bs) then NumBatches(n, bs) - k0 else 0
  }

  /** What the `j` windows from window `k0` on cover: the positions from
      `min(k0 * batch_size, n)` to `min((k0 + j) * batch_size, n)`. */
  function Session<T>(s: seq<T>, bs: nat, k0: nat, j: nat): seq<T> {
    CoveredMono(|s|, bs, k0, k0 + j);
    s[Covered(|s|, bs, k0)..Covered(|s|, bs, k0 + j)]
  }

  /** One more window extends what the windows from `k0` on cover. */
  lemma SessionExtends<T>(s: seq<T>, bs: nat, k0: nat, j: nat)
    requires bs > 0 && k0 + j < NumBatches(|s|, bs)
    ensures Session(s, bs, k0, j) + Window(s, bs, k0 + j) == Session(s, bs, k0, j + 1)
  {
    CoveredMono(|s|, bs, k0, k0 + j);
    WindowExtends(s, bs, k0 + j, Covered(|s|, bs, k0));
  }

  /** The windows left from `k0` on reach the end of the list. */
  lemma SessionAll<T>(s: seq<T>, bs: nat, k0: nat)
    requires bs > 0
    ensures Session(s, bs, k0, Remaining(|s|, bs, k0)) == s[Covered(|s|, bs, k0)..]
  {
    if k0 < NumBatches(|s|, bs) {
      CoveredAll(|s|, bs);
    } else {
      CoveredPast(|s|, bs, k0);
    }
  }

  /** A window before the `c`-th is the same window of the list cut after the
      first `c` windows. */
  lemma WindowOfPrefix<T>(s: seq<T>, bs: nat, c: nat, b: nat)
    requires bs > 0 && b < c && b < NumBatches(|s|, bs)
    ensures b < NumBatches(Covered(|s|, bs, c), bs)
    ensures |s[..Covered(|s|, bs, c)]| == Covered(|s|, bs, c)
    ensures Window(s[..Covered(|s|, bs, c)], bs, b) == Window(s, bs, b)
  {
    var m := Covered(|s|, bs, c);
    WindowFacts(|s|, bs, b);
    CoveredMono(|s|, bs, b + 1, c);
    BatchBound(|s|, bs, b);
    BatchBound(m, bs, b);
    WindowFacts(m, bs, b);
  }
}
