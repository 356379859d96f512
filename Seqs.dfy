/**
 * Sequence operations with Python's string semantics: `sub in s`, `s.find(sub)`,
 * `s.split(sep)` and `sep.join(parts)`, written for any element type so that the
 * same split serves strings (split at "/d/") and block lists (split at PageBreak).
 * Also the fixed-size chunking a row-of-cards layout performs.
 */
module Seqs {
  import opened Wrappers

  /** `sub` occurs in `s` starting at position `i`. */
  predicate OccursAt<T(==)>(s: seq<T>, sub: seq<T>, i: nat) {
    i + |sub| <= |s| && s[i..i + |sub|] == sub
  }

  lemma OccursShift<T>(s: seq<T>, sub: seq<T>)
    requires |s| > 0
    ensures forall j: nat :: 0 < j ==> (OccursAt(s, sub, j) <==> OccursAt(s[1..], sub, j - 1))
  {
    forall j: nat | 0 < j ensures OccursAt(s, sub, j) <==> OccursAt(s[1..], sub, j - 1) {
      if j + |sub| <= |s| {
        var u, w := s[j..j + |sub|], s[1..][j - 1..j - 1 + |sub|];
        forall t | 0 <= t < |sub| ensures u[t] == w[t] {
          assert s[1..][j - 1 + t] == s[j + t];
        }
        assert u == w;
      }
    }
  }

  /** Position of the first occurrence of `sub` in `s`, like Python's `s.find(sub)` (None for -1). */
  function IndexOf<T(==)>(s: seq<T>, sub: seq<T>): (r: Option<nat>)
    ensures r.Some? ==> OccursAt(s, sub, r.value)
    ensures r.Some? ==> forall j: nat :: j < r.value ==> !OccursAt(s, sub, j)
    ensures r.None? ==> forall j: nat :: !OccursAt(s, sub, j)
    decreases |s|
  {
    if |s| < |sub| then None
    else if s[..|sub|] == sub then Some(0)
    else
      OccursShift(s, sub);
      assert !OccursAt(s, sub, 0) by { assert s[0..|sub|] == s[..|sub|]; }
      match IndexOf(s[1..], sub)
      case None => None
      case Some(k) => Some(k + 1)
  }

  /** Python's `sub in s`. */
  predicate Contains<T(==)>(s: seq<T>, sub: seq<T>) {
    IndexOf(s, sub).Some?
  }

  lemma ContainsAt<T>(s: seq<T>, sub: seq<T>, i: nat)
    requires OccursAt(s, sub, i)
    ensures Contains(s, sub)
  {
  }

  /** An occurrence inside a prefix is an occurrence in the whole sequence. */
  lemma PrefixOccurs<T>(s: seq<T>, k: nat, sub: seq<T>, j: nat)
    requires k <= |s| && OccursAt(s[..k], sub, j)
    ensures OccursAt(s, sub, j)
  {
    assert s[..k][j..j + |sub|] == s[j..j + |sub|];
  }

  /** `sep.join(parts)`. */
  function Join<T>(parts: seq<seq<T>>, sep: seq<T>): seq<T> {
    if |parts| == 0 then []
    else if |parts| == 1 then parts[0]
    else parts[0] + sep + Join(parts[1..], sep)
  }

  /**
   * Python's `s.split(sep)` for a non-empty separator: scanning from the left, every
   * non-overlapping occurrence of `sep` cuts `s`; the pieces never contain `sep`,
   * joining them with `sep` gives `s` back, and there are at least two pieces
   * exactly when `sep` occurs in `s`.
   */
  function Split<T(==)>(s: seq<T>, sep: seq<T>): (parts: seq<seq<T>>)
    requires |sep| > 0
    ensures |parts| >= 1
    ensures Join(parts, sep) == s
    ensures forall k :: 0 <= k < |parts| ==> !Contains(parts[k], sep)
    ensures |parts| >= 2 <==> Contains(s, sep)
    decreases |s|
  {
    match IndexOf(s, sep)
    case None => [s]
    case Some(i) =>
      var rest := Split(s[i + |sep|..], sep);
      assert !Contains(s[..i], sep) by {
        if Contains(s[..i], sep) {
          var j := IndexOf(s[..i], sep).value;
          PrefixOccurs(s, i, sep, j);
        }
      }
      assert s == s[..i] + sep + s[i + |sep|..];
      [s[..i]] + rest
  }

  /** Splitting where the first occurrence of `sep` directly follows `a`. */
  lemma SplitAtFirst<T>(a: seq<T>, sep: seq<T>, b: seq<T>)
    requires |sep| > 0
    requires forall j: nat :: j < |a| ==> !OccursAt(a + sep + b, sep, j)
    ensures Split(a + sep + b, sep) == [a] + Split(b, sep)
  {
    var s := a + sep + b;
    assert s[|a|..|a| + |sep|] == sep;
    assert OccursAt(s, sep, |a|);
    assert IndexOf(s, sep) == Some(|a|);
    assert s[..|a|] == a;
    assert s[|a| + |sep|..] == b;
  }

  /** Splitting a sequence in which `sep` does not occur gives one piece. */
  lemma SplitAbsent<T>(s: seq<T>, sep: seq<T>)
    requires |sep| > 0 && !Contains(s, sep)
    ensures Split(s, sep) == [s]
  {
  }

  /**
   * The first piece of a split at a one-element separator `[c]` is the longest
   * prefix free of `c`: `a` when `c` does not occur in `a` and what follows starts with `c`.
   */
  lemma {:induction false} SplitHeadSingle<T>(a: seq<T>, c: T, b: seq<T>)
    requires c !in a
    requires b == [] || b[0] == c
    ensures Split(a + b, [c])[0] == a
  {
    if b == [] {
      assert a + b == a;
      forall j: nat | j < |a| ensures !OccursAt(a, [c], j) {
        assert a[j..j + 1] == [a[j]];
      }
      SplitAbsent(a, [c]);
    } else {
      assert a + b == a + [c] + b[1..];
      forall j: nat | j < |a| ensures !OccursAt(a + [c] + b[1..], [c], j) {
        assert (a + [c] + b[1..])[j] == a[j];
      }
      SplitAtFirst(a, [c], b[1..]);
    }
  }

  /** Concatenation of a sequence of sequences. */
  function Flatten<T>(rows: seq<seq<T>>): seq<T> {
    if rows == [] then [] else rows[0] + Flatten(rows[1..])
  }

  lemma {:induction false} FlattenAppend<T>(rows: seq<seq<T>>, last: seq<T>)
    ensures Flatten(rows + [last]) == Flatten(rows) + last
  {
    if rows == [] {
      assert [] + [last] == [last];
    } else {
      assert (rows + [last])[1..] == rows[1..] + [last];
      FlattenAppend(rows[1..], last);
    }
  }

  lemma MulZero(n: int, k: int)
    requires n > 0 && -n < n * k < n
    ensures k == 0
  {
    if k >= 1 {
      assert n * k == n * (k - 1) + n;
      MulNonNeg(n, k - 1);
    }
  }

  lemma MulNonNeg(n: int, k: int)
    requires n > 0 && k >= 0
    ensures n * k >= 0
  {
  }

  lemma DivStep(x: nat, n: nat)
    requires n > 0
    ensures (x + n) / n == x / n + 1
  {
    var q, r := x / n, x % n;
    var q', r' := (x + n) / n, (x + n) % n;
    assert n * (q' - q - 1) == r - r';
    MulZero(n, q' - q - 1);
  }

  lemma DivSmall(x: nat, n: nat)
    requires x < n
    ensures x / n == 0
  {
    var q, r := x / n, x % n;
    assert n * q == x - r;
    MulZero(n, q);
  }

  /**
   * `s` cut, from the left, into chunks of `n`; the trailing chunk keeps what is
   * left over and is not padded. The chunks are in order, each holds between 1
   * and `n` elements and all but the last exactly `n` (their number: ChunksCount).
   */
  function Chunks<T>(s: seq<T>, n: nat): (rows: seq<seq<T>>)
    requires n > 0
    ensures Flatten(rows) == s
    ensures forall k :: 0 <= k < |rows| ==> 1 <= |rows[k]| <= n
    ensures forall k :: 0 <= k < |rows| - 1 ==> |rows[k]| == n
    decreases |s|
  {
    if |s| == 0 then []
    else if |s| <= n then [s]
    else
      var rest := Chunks(s[n..], n);
      assert s == s[..n] + s[n..];
      var rows := [s[..n]] + rest;
      assert forall k :: 0 < k < |rows| ==> rows[k] == rest[k - 1];
      rows
  }

  /** There are ceil(|s| / n) chunks. */
  lemma {:induction false} ChunksCount<T>(s: seq<T>, n: nat)
    requires n > 0
    ensures |Chunks(s, n)| == (|s| + n - 1) / n
    decreases |s|
  {
    if |s| > n {
      var rest := s[n..];
      ChunksCount(rest, n);
      assert |Chunks(s, n)| == 1 + |Chunks(rest, n)|;
      assert |rest| + n - 1 == |s| - 1;
      DivStep(|s| - 1, n);
    } else if |s| > 0 {
      assert |Chunks(s, n)| == 1;
      DivSmall(|s| - 1, n);
      DivStep(|s| - 1, n);
    }
  }

  /**
   * Appending a chunk of at most `n` elements after a sequence that cuts into
   * full chunks appends exactly that chunk: the step an accumulate-and-flush
   * loop relies on.
   */
  lemma {:induction false} ChunksAppend<T>(p: seq<T>, q: seq<T>, n: nat)
    requires n > 0 && 0 < |q| <= n
    requires forall k :: 0 <= k < |Chunks(p, n)| ==> |Chunks(p, n)[k]| == n
    ensures Chunks(p + q, n) == Chunks(p, n) + [q]
    decreases |p|
  {
    if |p| == 0 {
      assert p + q == q;
    } else {
      assert |Chunks(p, n)[0]| == n;
      assert (p + q)[..n] == p[..n];
      assert (p + q)[n..] == p[n..] + q;
      if |p| == n {
        assert p[n..] + q == q;
      } else {
        assert Chunks(p, n) == [p[..n]] + Chunks(p[n..], n);
        ChunksAppend(p[n..], q, n);
      }
    }
  }

  /** The pieces, each followed by one `c`: a document whose pages each end in a break. */
  function Terminated<T>(pieces: seq<seq<T>>, c: T): seq<T> {
    if pieces == [] then [] else pieces[0] + [c] + Terminated(pieces[1..], c)
  }

  lemma {:induction false} TerminatedAppend<T>(pieces: seq<seq<T>>, last: seq<T>, c: T)
    ensures Terminated(pieces + [last], c) == Terminated(pieces, c) + last + [c]
  {
    if pieces == [] {
      assert [] + [last] == [last];
    } else {
      assert (pieces + [last])[1..] == pieces[1..] + [last];
      TerminatedAppend(pieces[1..], last, c);
    }
  }

  /** Splitting where the first `c` directly follows `a`. */
  lemma SplitAtSingle<T>(a: seq<T>, c: T, b: seq<T>)
    requires c !in a
    ensures Split(a + [c] + b, [c]) == [a] + Split(b, [c])
  {
    forall j: nat | j < |a| ensures !OccursAt(a + [c] + b, [c], j) {
      assert (a + [c] + b)[j] == a[j];
    }
    SplitAtFirst(a, [c], b);
  }

  /**
   * Splitting a terminated sequence at its terminator gives back the pieces, and
   * one empty piece after the last terminator, as long as no piece holds the terminator.
   */
  lemma {:induction false} SplitTerminated<T>(pieces: seq<seq<T>>, c: T)
    requires forall k :: 0 <= k < |pieces| ==> c !in pieces[k]
    ensures Split(Terminated(pieces, c), [c]) == pieces + [[]]
  {
    if pieces == [] {
      assert !Contains([], [c]);
    } else {
      SplitAtSingle(pieces[0], c, Terminated(pieces[1..], c));
      SplitTerminated(pieces[1..], c);
      assert pieces == [pieces[0]] + pieces[1..];
    }
  }

  /** A terminated sequence holds exactly one terminator per piece. */
  lemma {:induction false} TerminatedCount<T>(pieces: seq<seq<T>>, c: T)
    requires forall k :: 0 <= k < |pieces| ==> c !in pieces[k]
    ensures multiset(Terminated(pieces, c))[c] == |pieces|
  {
    if pieces != [] {
      TerminatedCount(pieces[1..], c);
      assert multiset(pieces[0])[c] == 0;
    }
  }

  /** Full chunks flatten and re-chunk to themselves. */
  lemma {:induction false} ChunksOfFull<T>(rows: seq<seq<T>>, n: nat)
    requires n > 0
    requires forall k :: 0 <= k < |rows| ==> |rows[k]| == n
    ensures Chunks(Flatten(rows), n) == rows
  {
    if rows != [] {
      ChunksOfFull(rows[1..], n);
      var s := Flatten(rows);
      assert s == rows[0] + Flatten(rows[1..]);
      assert s[..n] == rows[0];
      assert s[n..] == Flatten(rows[1..]);
      if |s| == n {
        assert Flatten(rows[1..]) == [];
        assert rows[1..] == [];
        assert rows == [rows[0]];
      }
    }
  }

  /**
   * The state of an accumulate-and-flush loop after it has seen `items[..i]`:
   * the full chunks moved to `rows`, the remaining fewer than `n` in `pending`.
   */
  ghost predicate Packed<T>(items: seq<T>, i: nat, rows: seq<seq<T>>, pending: seq<T>, n: nat) {
    && n > 0 && i <= |items| && |pending| < n
    && Flatten(rows) + pending == items[..i]
    && forall k :: 0 <= k < |rows| ==> |rows[k]| == n
  }

  /** One step of the loop: append the next item, and flush when `n` are pending. */
  lemma PackedStep<T>(items: seq<T>, i: nat, rows: seq<seq<T>>, pending: seq<T>, n: nat)
    requires Packed(items, i, rows, pending, n) && i < |items|
    ensures var p := pending + [items[i]];
      if |p| == n then Packed(items, i + 1, rows + [p], [], n) else Packed(items, i + 1, rows, p, n)
  {
    var p := pending + [items[i]];
    assert items[..i + 1] == items[..i] + [items[i]];
    assert Flatten(rows) + p == items[..i + 1];
    if |p| == n {
      FlattenAppend(rows, p);
      assert Flatten(rows + [p]) + [] == items[..i + 1];
    }
  }

  /** After the last item, flushing a non-empty remainder leaves exactly the chunks of all items. */
  lemma PackedDone<T>(items: seq<T>, rows: seq<seq<T>>, pending: seq<T>, n: nat)
    requires Packed(items, |items|, rows, pending, n)
    ensures (if pending == [] then rows else rows + [pending]) == Chunks(items, n)
  {
    assert items[..|items|] == items;
    ChunksOfFull(rows, n);
    if pending == [] {
      assert Flatten(rows) + [] == Flatten(rows);
    } else {
      ChunksAppend(Flatten(rows), pending, n);
    }
  }

  /** Terminating a leading piece puts it and its terminator in front. */
  lemma TerminatedCons<T>(first: seq<T>, rest: seq<seq<T>>, c: T)
    ensures Terminated([first] + rest, c) == first + [c] + Terminated(rest, c)
  {
    assert ([first] + rest)[1..] == rest;
  }

  /** Regrouping a four-part concatenation. */
  lemma AppendAssoc<T>(a: seq<T>, b: seq<T>, c: seq<T>, d: seq<T>)
    ensures a + b + c + d == a + (b + c + d)
  {
  }

  /** Terminating one more piece of `pieces` appends it and its terminator. */
  lemma TerminatedSnoc<T>(pieces: seq<seq<T>>, j: nat, c: T)
    requires j < |pieces|
    ensures Terminated(pieces[..j + 1], c) == Terminated(pieces[..j], c) + pieces[j] + [c]
  {
    assert pieces[..j + 1] == pieces[..j] + [pieces[j]];
    TerminatedAppend(pieces[..j], pieces[j], c);
  }
}
