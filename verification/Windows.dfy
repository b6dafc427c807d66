/** The sliding token window of `ingest/chunking.py`, on any kind of token. */
module Windows {
  function Min(a: int, b: int): int {
    if a < b then a else b
  }

  /** `ceil(n / step)`, counted one step at a time. */
  function Steps(n: int, step: nat): nat
    requires step > 0
    decreases n
  {
    if n <= 0 then 0 else 1 + Steps(n - step, step)
  }

  /** Where window `k` starts: the loop adds one step for every window before it. */
  function Start(k: nat, step: nat): nat {
    if k == 0 then 0 else Start(k - 1, step) + step
  }

  lemma {:induction false} StartIsProduct(k: nat, step: nat)
    ensures Start(k, step) == k * step
  {
    if k > 0 {
      StartIsProduct(k - 1, step);
      assert k * step == (k - 1) * step + step;
    }
  }

  lemma {:induction false} StartMonotone(j: nat, k: nat, step: nat)
    requires j <= k
    ensures Start(j, step) <= Start(k, step)
    ensures j < k ==> Start(j, step) + step <= Start(k, step)
  {
    if j < k {
      StartMonotone(j, k - 1, step);
    }
  }

  lemma {:induction false} StepsIsCeiling(n: nat, step: nat)
    requires step > 0
    ensures Steps(n, step) == (n + step - 1) / step
  {
    var q := Steps(n, step);
    StartAtSteps(n, step);
    StartIsProduct(q, step);
    if n > 0 {
      assert n + step - 1 == q * step + (n + step - 1 - q * step);
      DivideExactly(n + step - 1, q, step);
    } else {
      DivideExactly(step - 1, 0, step);
    }
  }

  lemma DivideExactly(x: nat, q: nat, d: nat)
    requires d > 0 && q * d <= x < q * d + d
    ensures x / d == q
  {
    var p := x / d;
    assert p * d <= x < p * d + d;
    if p < q {
      StartMonotone(p, q, d);
    } else if q < p {
      StartMonotone(q, p, d);
    }
    StartIsProduct(p, d);
    StartIsProduct(q, d);
  }

  lemma {:induction false} StartAtSteps(n: int, step: nat)
    requires step > 0
    ensures n <= Start(Steps(n, step), step)
    ensures n > 0 ==> Start(Steps(n, step), step) < n + step
  {
    if n > 0 {
      StartAtSteps(n - step, step);
    }
  }

  /** There is a window `k` exactly while its start is inside the text. */
  lemma StartInside(k: nat, step: nat, n: nat)
    requires step > 0
    ensures k < Steps(n, step) <==> Start(k, step) < n
  {
    var q := Steps(n, step);
    StartAtSteps(n, step);
    if k < q {
      StartMonotone(k, q, step);
    } else {
      StartMonotone(q, k, step);
    }
  }

  /** The last window that starts at or before a position. */
  function LastStart(position: nat, step: nat): (k: nat)
    requires step > 0
    ensures Start(k, step) <= position < Start(k, step) + step
  {
    if position < step then 0 else LastStart(position - step, step) + 1
  }

  /** The windows of a text, as the design states them: `ceil(n / (size - overlap))` of them, one
      every `size - overlap` tokens, each of `size` tokens clipped at the end of the text. */
  function Windows<T>(tokens: seq<T>, size: nat, overlap: nat): (ws: seq<seq<T>>)
    requires overlap < size
    ensures |ws| == Steps(|tokens|, size - overlap)
  {
    var step := size - overlap;
    seq(Steps(|tokens|, step), k requires 0 <= k < Steps(|tokens|, step) =>
      StartInside(k, step, |tokens|);
      tokens[Start(k, step)..Min(Start(k, step) + size, |tokens|)])
  }

  /** The first `k` parts, one after the other. */
  function ConcatUpTo<T>(parts: seq<seq<T>>, k: nat): seq<T>
    requires k <= |parts|
  {
    if k == 0 then [] else ConcatUpTo(parts, k - 1) + parts[k - 1]
  }

  function Concat<T>(parts: seq<seq<T>>): seq<T> {
    ConcatUpTo(parts, |parts|)
  }

  /** The length of the first `k` parts together. */
  function Total<T>(parts: seq<seq<T>>, k: nat): nat
    requires k <= |parts|
  {
    if k == 0 then 0 else Total(parts, k - 1) + |parts[k - 1]|
  }

  /** The first `count` elements of every part. */
  function Heads<T>(parts: seq<seq<T>>, count: nat): (hs: seq<seq<T>>)
    ensures |hs| == |parts|
  {
    seq(|parts|, k requires 0 <= k < |parts| => parts[k][..Min(count, |parts[k]|)])
  }

  /** Every part but the first without its first `count` elements. */
  function LaterTails<T>(parts: seq<seq<T>>, count: nat): (ts: seq<seq<T>>)
    ensures |ts| == |parts|
  {
    seq(|parts|, k requires 0 <= k < |parts| => if k == 0 then parts[0] else parts[k][Min(count, |parts[k]|)..])
  }

  /** Parts that meet end to end at the given cuts put the text back together. */
  ghost predicate Meets<T>(tokens: seq<T>, part: seq<T>, from: nat, to: nat) {
    from <= to <= |tokens| && part == tokens[from..to]
  }

  lemma {:induction false} PartsCover<T>(tokens: seq<T>, parts: seq<seq<T>>, cuts: seq<nat>, k: nat)
    requires k <= |parts| && |cuts| == |parts| + 1 && cuts[0] == 0
    requires forall j :: 0 <= j < |parts| ==> Meets(tokens, parts[j], cuts[j], cuts[j + 1])
    ensures cuts[k] <= |tokens| && ConcatUpTo(parts, k) == tokens[..cuts[k]]
  {
    if k > 0 {
      PartsCover(tokens, parts, cuts, k - 1);
      assert Meets(tokens, parts[k - 1], cuts[k - 1], cuts[k - 1 + 1]);
    }
  }

  /** Reassembly, both ways: the first `size - overlap` tokens of every window, or the first window
      followed by each later one without its first `overlap` tokens, give the text back. */
  lemma Reassembly<T>(tokens: seq<T>, size: nat, overlap: nat)
    requires overlap < size
    ensures Concat(Heads(Windows(tokens, size, overlap), size - overlap)) == tokens
    ensures Concat(LaterTails(Windows(tokens, size, overlap), overlap)) == tokens
  {
    HeadsCover(tokens, size, overlap);
    TailsCover(tokens, size, overlap);
  }

  lemma HeadsCover<T>(tokens: seq<T>, size: nat, overlap: nat)
    requires overlap < size
    ensures Concat(Heads(Windows(tokens, size, overlap), size - overlap)) == tokens
  {
    var step, n := size - overlap, |tokens|;
    var parts := Heads(Windows(tokens, size, overlap), step);
    var cuts: seq<nat> := seq(|parts| + 1, (j: nat) => Min(Start(j, step), n));
    forall j | 0 <= j < |parts|
      ensures Meets(tokens, parts[j], cuts[j], cuts[j + 1])
    {
      StartInside(j, step, n);
    }
    PartsCover(tokens, parts, cuts, |parts|);
    StartInside(|parts|, step, n);
  }

  /** Where window `j` starts to hold tokens that no earlier window holds. */
  function TailCut(j: nat, step: nat, overlap: nat, n: nat): nat {
    if j == 0 then 0 else Min(Start(j, step) + overlap, n)
  }

  lemma TailAt<T>(tokens: seq<T>, size: nat, overlap: nat, parts: seq<seq<T>>, j: nat)
    requires overlap < size && parts == LaterTails(Windows(tokens, size, overlap), overlap) && j < |parts|
    ensures var step, n := size - overlap, |tokens|;
      Meets(tokens, parts[j], TailCut(j, step, overlap, n), TailCut(j + 1, step, overlap, n))
  {
    var step, n := size - overlap, |tokens|;
    var start := Start(j, step);
    StartInside(j, step, n);
    var window := Windows(tokens, size, overlap)[j];
    assert window == tokens[start..Min(start + size, n)];
    assert Start(j + 1, step) + overlap == start + size;
    if j == 0 {
      assert parts[0] == window;
    } else {
      assert parts[j] == window[Min(overlap, |window|)..];
    }
  }

  lemma TailsCover<T>(tokens: seq<T>, size: nat, overlap: nat)
    requires overlap < size
    ensures Concat(LaterTails(Windows(tokens, size, overlap), overlap)) == tokens
  {
    hide Windows, LaterTails;
    var step, n := size - overlap, |tokens|;
    var parts := LaterTails(Windows(tokens, size, overlap), overlap);
    var cuts := seq(|parts| + 1, (j: nat) => TailCut(j, step, overlap, n));
    forall j | 0 <= j < |parts|
      ensures Meets(tokens, parts[j], cuts[j], cuts[j + 1])
    {
      TailAt(tokens, size, overlap, parts, j);
    }
    PartsCover(tokens, parts, cuts, |parts|);
    StartInside(|parts|, step, n);
  }

  lemma SliceOfSlice<T>(tokens: seq<T>, from: nat, to: nat, first: nat, length: nat)
    requires from <= first && first + length <= to <= |tokens|
    ensures tokens[from..to][first - from..first - from + length] == tokens[first..first + length]
  {
    var inner, direct := tokens[from..to][first - from..first - from + length], tokens[first..first + length];
    assert |inner| == |direct|;
    assert forall i :: 0 <= i < length ==> inner[i] == direct[i];
  }

  /** Any run of at most `overlap + 1` consecutive tokens lies wholly inside one window. */
  lemma RunInsideOneWindow<T>(tokens: seq<T>, size: nat, overlap: nat, first: nat, length: nat) returns (k: nat)
    requires overlap < size && 0 < length <= overlap + 1 && first + length <= |tokens|
    ensures k < |Windows(tokens, size, overlap)|
    ensures var start, window := Start(k, size - overlap), Windows(tokens, size, overlap)[k];
      && start <= first && first + length <= start + |window|
      && window[first - start..first - start + length] == tokens[first..first + length]
  {
    var step := size - overlap;
    k := LastStart(first, step);
    StartInside(k, step, |tokens|);
    var start, window := Start(k, step), Windows(tokens, size, overlap)[k];
    assert window == tokens[start..Min(start + size, |tokens|)];
    SliceOfSlice(tokens, start, Min(start + size, |tokens|), first, length);
  }

  /** Whether window `k` holds the token at `position`. */
  ghost predicate Holds(k: nat, size: nat, overlap: nat, position: nat)
    requires overlap < size
  {
    Start(k, size - overlap) <= position < Start(k, size - overlap) + size
  }

  ghost function WindowsHolding(n: nat, size: nat, overlap: nat, position: nat): set<nat>
    requires overlap < size
  {
    set k: nat | k < Steps(n, size - overlap) && Holds(k, size, overlap, position)
  }

  ghost function Interval(lo: int, count: nat): (s: set<int>)
    ensures |s| == count
    ensures forall x :: x in s <==> lo <= x < lo + count
  {
    if count == 0 then {} else Interval(lo, count - 1) + {lo + count - 1}
  }

  lemma {:induction false} SubsetSize(a: set<nat>, b: set<int>)
    requires forall k :: k in a ==> k in b
    ensures |a| <= |b|
  {
    if a != {} {
      var k :| k in a;
      SubsetSize(a - {k}, b - {k});
    }
  }

  lemma {:induction false} StartAdds(j: nat, k: nat, step: nat)
    ensures Start(j + k, step) == Start(j, step) + Start(k, step)
  {
    if k > 0 {
      StartAdds(j, k - 1, step);
    }
  }

  lemma HoldingRange(k: nat, size: nat, overlap: nat, position: nat)
    requires overlap < size && Holds(k, size, overlap, position)
    ensures LastStart(position, size - overlap) - Steps(size, size - overlap) < k <= LastStart(position, size - overlap)
  {
    var step := size - overlap;
    var hi, most := LastStart(position, step), Steps(size, step);
    if k > hi {
      StartMonotone(hi, k, step);
    }
    if k + most <= hi {
      StartMonotone(k + most, hi, step);
      StartAdds(k, most, step);
      StartAtSteps(size, step);
    }
  }

  /** Every token is in at least one window and in at most `ceil(size / step)` of them. */
  lemma TokenMultiplicity(n: nat, size: nat, overlap: nat, position: nat)
    requires overlap < size && position < n
    ensures 1 <= |WindowsHolding(n, size, overlap, position)| <= Steps(size, size - overlap)
  {
    var step := size - overlap;
    var hi: int, most: nat := LastStart(position, step), Steps(size, step);
    var holding := WindowsHolding(n, size, overlap, position);
    StartInside(hi, step, n);
    assert hi in holding;
    forall k | k in holding
      ensures k in Interval(hi - most + 1, most)
    {
      HoldingRange(k, size, overlap, position);
    }
    SubsetSize(holding, Interval(hi - most + 1, most));
  }

  lemma {:induction false} TailsTotal<T>(parts: seq<seq<T>>, count: nat, k: nat)
    requires 0 < k <= |parts|
    ensures Total(parts, k) <= |ConcatUpTo(LaterTails(parts, count), k)| + Start(k - 1, count)
  {
    if k > 1 {
      TailsTotal(parts, count, k - 1);
    }
  }

  /** The duplication cost of the overlap: at most `overlap` for every window after the first. */
  lemma TotalLength<T>(tokens: seq<T>, size: nat, overlap: nat)
    requires overlap < size && tokens != []
    ensures var ws := Windows(tokens, size, overlap); Total(ws, |ws|) <= |tokens| + (|ws| - 1) * overlap
  {
    hide Windows, LaterTails, ConcatUpTo, Total, Steps;
    var ws := Windows(tokens, size, overlap);
    StartInside(0, size - overlap, |tokens|);
    TailsTotal(ws, overlap, |ws|);
    Reassembly(tokens, size, overlap);
    StartIsProduct(|ws| - 1, overlap);
  }
}
