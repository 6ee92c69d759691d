// The log ring buffer: cmd/run/journal/journal.go. Its methods run under the journal's lock,
// one at a time.
module Journals {
  import opened Bytes

  const MAX_LINES := 4096

  // A Go slice of strings: the elements lo to hi of an array that others may also hold.
  datatype Slice = Slice(base: array<string>, lo: nat, hi: nat)

  /** Every line ever added, behind as many empty ones as the array starts with. */
  function Padded(history: seq<string>): seq<string> {
    seq(MAX_LINES, _ => "") + history
  }

  /** The last n lines. */
  function Last(n: nat, history: seq<string>): seq<string>
    requires n <= MAX_LINES
  {
    Padded(history)[MAX_LINES + |history| - n..]
  }

  /** How many lines a reader that stopped at position pos gets. */
  function Missed(idx: int, pos: int): nat {
    var behind := (idx - pos) % TWO_64;
    if behind < MAX_LINES then behind else MAX_LINES
  }

  // ---- what a copy is for ----

  /** For a reader that stopped when taken lines had been added: the lines since, or the last
      4096 of them if it is further behind. */
  lemma EarlierPosition(history: seq<string>, taken: nat)
    requires taken <= |history| && |history| - taken < TWO_64
    ensures var n := Missed(|history| % TWO_64, taken % TWO_64);
            && n == (if |history| - taken < MAX_LINES then |history| - taken else MAX_LINES)
            && (n <= |history| && Last(n, history) == history[|history| - n..])
            && (|history| - taken <= MAX_LINES ==> Last(n, history) == history[taken..])
  {
    Difference(|history|, taken, TWO_64);
    var n := Missed(|history| % TWO_64, taken % TWO_64);
    assert Last(n, history) == history[|history| - n..];
  }

  lemma Difference(a: nat, b: nat, m: nat)
    requires b <= a && a - b < m
    ensures (a % m - b % m) % m == a - b
  {
    var q, r := a / m - b / m, a % m - b % m;
    assert a - b == q * m + r by {
      assert a == (a / m) * m + a % m && b == (b / m) * m + b % m;
      assert (a / m) * m - (b / m) * m == q * m;
    }
    ModUnique(r, m, -q, a - b);
  }

  lemma ModUnique(x: int, m: nat, q: int, r: int)
    requires 0 <= r < m && x == q * m + r
    ensures x % m == r
  {
    var d := x / m - q;
    assert x == (x / m) * m + x % m;
    assert d * m == r - x % m;
    if d >= 1 {
      AtLeast(d, m);
    } else if d <= -1 {
      AtLeast(-d, m);
    }
  }

  lemma AtLeast(d: int, m: nat)
    requires d >= 1
    ensures d * m >= m
  {
  }

  // ---- the ring ----

  /** Slot j % 4096 holds line j for each of the last 4096 lines j. */
  ghost predicate Ring(buf: seq<string>, history: seq<string>) {
    && |buf| == MAX_LINES
    && forall j {:trigger Padded(history)[j]} :: |history| <= j < |history| + MAX_LINES ==> buf[j % MAX_LINES] == Padded(history)[j]
  }

  lemma AddKeepsRing(buf: seq<string>, history: seq<string>, line: string)
    requires Ring(buf, history)
    ensures Ring(buf[|history| % MAX_LINES := line], history + [line])
  {
    var h := history + [line];
    var n := |history|;
    forall j {:trigger Padded(h)[j]} | |h| <= j < |h| + MAX_LINES
      ensures buf[n % MAX_LINES := line][j % MAX_LINES] == Padded(h)[j]
    {
      if j < n + MAX_LINES {
        assert Padded(h)[j] == Padded(history)[j];
        assert j % MAX_LINES != n % MAX_LINES;
      } else {
        assert j == n + MAX_LINES && Padded(h)[j] == line;
        assert j % MAX_LINES == n % MAX_LINES;
      }
    }
  }

  lemma RoundTheRing(x: int, laps: int)
    ensures (x + MAX_LINES * laps) % MAX_LINES == x % MAX_LINES
  {
  }

  /** The wrapped index falls on the same slot as the unwrapped one. */
  lemma SlotOf(n: nat, back: nat)
    requires back <= MAX_LINES
    ensures ((n % TWO_64 - back) % TWO_64) % MAX_LINES == (n + MAX_LINES - back) % MAX_LINES
    ensures (n % TWO_64) % MAX_LINES == n % MAX_LINES
  {
    var laps := TWO_64 / MAX_LINES;
    var q, r := n / TWO_64, n % TWO_64;
    RoundTheRing(r, q * laps);
    RoundTheRing(r - back, q * laps + 1);
    RoundTheRing(r - back, laps);
    assert n == r + MAX_LINES * (q * laps);
    assert n + MAX_LINES - back == r - back + MAX_LINES * (q * laps + 1);
    if r < back {
      assert (r - back) % TWO_64 == r - back + MAX_LINES * laps;
    }
  }

  /** Slot i, counted round the ring from where the last n lines begin. */
  lemma SlotReadsBack(buf: seq<string>, history: seq<string>, n: nat, k: nat)
    requires Ring(buf, history) && 0 < n <= MAX_LINES && k < n
    ensures buf[(|history| + MAX_LINES - n + k) % MAX_LINES] == Last(n, history)[k]
  {
    var j := |history| + MAX_LINES - n + k;
    assert Padded(history)[j] == Last(n, history)[k];
  }

  /** Going round: k slots on from slot x. */
  lemma Onward(x: int, k: nat)
    requires k < MAX_LINES
    ensures (x + k) % MAX_LINES == x % MAX_LINES + k - (if x % MAX_LINES + k < MAX_LINES then 0 else MAX_LINES)
  {
  }

  lemma Width(x: nat, n: nat)
    requires 0 < n <= MAX_LINES
    ensures var end, start := x % MAX_LINES, (x + MAX_LINES - n) % MAX_LINES;
            end - start == if start < end then n else n - MAX_LINES
  {
  }

  lemma ReadsAhead(buf: seq<string>, history: seq<string>, n: nat, start: nat, end: nat)
    requires Ring(buf, history) && 0 < n <= MAX_LINES
    requires end == |history| % MAX_LINES && start == (|history| + MAX_LINES - n) % MAX_LINES && start < end
    ensures buf[start..end] == Last(n, history)
  {
    Width(|history|, n);
    forall k | 0 <= k < n ensures buf[start..end][k] == Last(n, history)[k] {
      SlotReadsBack(buf, history, n, k);
      Onward(|history| + MAX_LINES - n, k);
    }
  }

  lemma ReadsRound(buf: seq<string>, history: seq<string>, n: nat, start: nat, end: nat)
    requires Ring(buf, history) && 0 < n <= MAX_LINES
    requires end == |history| % MAX_LINES && start == (|history| + MAX_LINES - n) % MAX_LINES && start >= end
    ensures buf[start..] + buf[..end] == Last(n, history)
  {
    var read := buf[start..] + buf[..end];
    Width(|history|, n);
    forall k | 0 <= k < n ensures read[k] == Last(n, history)[k] {
      SlotReadsBack(buf, history, n, k);
      Onward(|history| + MAX_LINES - n, k);
    }
  }

  /** The live array after more lines are added from index idx on. */
  function Overwritten(buf: seq<string>, idx: int, lines: seq<string>): (r: seq<string>)
    requires |buf| == MAX_LINES
    ensures |r| == MAX_LINES
    decreases |lines|
  {
    if lines == [] then buf else Overwritten(buf[idx % MAX_LINES := lines[0]], (idx + 1) % TWO_64, lines[1..])
  }

  lemma {:induction false} OverwrittenRange(buf: seq<string>, idx: int, lines: seq<string>)
    requires |buf| == MAX_LINES && idx % MAX_LINES + |lines| <= MAX_LINES
    ensures Overwritten(buf, idx, lines) == buf[..idx % MAX_LINES] + lines + buf[idx % MAX_LINES + |lines|..]
    decreases |lines|
  {
    if lines != [] {
      var i := idx % MAX_LINES;
      var next := buf[i := lines[0]];
      NextSlot(idx);
      if i + 1 < MAX_LINES {
        OverwrittenRange(next, (idx + 1) % TWO_64, lines[1..]);
        assert next[..i + 1] == buf[..i] + [lines[0]];
        assert [lines[0]] + lines[1..] == lines;
      } else {
        assert lines[1..] == [];
      }
    }
  }

  lemma NextSlot(idx: int)
    ensures ((idx + 1) % TWO_64) % MAX_LINES == (idx + 1) % MAX_LINES
    ensures idx % MAX_LINES + 1 < MAX_LINES ==> ((idx + 1) % TWO_64) % MAX_LINES == idx % MAX_LINES + 1
  {
    var laps := TWO_64 / MAX_LINES;
    var q, r := (idx + 1) / TWO_64, (idx + 1) % TWO_64;
    assert idx + 1 == r + MAX_LINES * (q * laps);
    RoundTheRing(r, q * laps);
    Onward(idx, 1);
  }

  /** A slice of the live array that holds the last n lines, taken when slot 0 is the next to be
      written, keeps them exactly while at most 4096 - n lines have been added; from then on the
      new lines show through. */
  lemma AliasShowsNewLines(buf: seq<string>, n: nat, idx: int, lines: seq<string>)
    requires |buf| == MAX_LINES && n <= MAX_LINES && idx % MAX_LINES == 0 && |lines| <= MAX_LINES
    ensures var first := MAX_LINES - n;
            Overwritten(buf, idx, lines)[first..]
            == if |lines| <= first then buf[first..] else lines[first..] + buf[|lines|..]
  {
    OverwrittenRange(buf, idx, lines);
  }

  class Journal {
    const buf: array<string>
    var idx: int
    ghost var history: seq<string>

    ghost predicate Valid()
      reads this, buf
    {
      Ring(buf[..], history) && idx == |history| % TWO_64
    }

    constructor ()
      ensures Valid() && history == [] && fresh(buf)
    {
      buf := new string[MAX_LINES](_ => "");
      idx, history := 0, [];
      new;
      assert buf[..] == Padded([]);
    }

    method AddLine(line: string)
      requires Valid()
      modifies this, buf
      ensures Valid() && history == old(history) + [line]
      ensures buf[..] == old(buf[..])[old(idx) % MAX_LINES := line] && idx == (old(idx) + 1) % TWO_64
    {
      SlotOf(|history|, 0);
      AddKeepsRing(buf[..], history, line);
      hide Ring;
      buf[idx % MAX_LINES] := line;
      idx := (idx + 1) % TWO_64;
      history := history + [line];
    }

    /** The lines from pos on, at most 4096 of them, and the position of the first. The slice
        is the live array itself exactly when the next line goes to slot 0. */
    method CopyFrom(pos: int) returns (start: int, lines: Slice)
      requires Valid() && 0 <= pos < TWO_64
      ensures var n := Missed(idx, pos);
              && start == (idx - n) % TWO_64
              && lines.lo <= lines.hi <= lines.base.Length
              && lines.base[lines.lo..lines.hi] == Last(n, history)
      ensures fresh(lines.base) <==> pos == idx || idx % MAX_LINES != 0
      ensures !fresh(lines.base) ==> lines.base == buf && lines.hi == MAX_LINES && lines.lo == MAX_LINES - Missed(idx, pos)
    {
      if pos == idx {
        var empty := new string[0];
        return idx, Slice(empty, 0, 0);
      }
      var n := Missed(idx, pos);
      var end := idx % MAX_LINES;
      var first := ((idx - n) % TWO_64) % MAX_LINES;
      SlotOf(|history|, n);
      start := (idx - n) % TWO_64;
      lines := CopyRing(n, first, end);
    }

    /** The two cases of the copy: a range, or round the end of the array. */
    method CopyRing(ghost n: nat, first: nat, end: nat) returns (lines: Slice)
      requires Ring(buf[..], history) && 0 < n <= MAX_LINES
      requires end == |history| % MAX_LINES && first == (|history| + MAX_LINES - n) % MAX_LINES
      ensures lines.lo <= lines.hi <= lines.base.Length && lines.base[lines.lo..lines.hi] == Last(n, history)
      ensures if end == 0 then lines == Slice(buf, MAX_LINES - n, MAX_LINES) else fresh(lines.base)
    {
      if first < end {
        ReadsAhead(buf[..], history, n, first, end);
        var copy := Fresh(buf[first..end]);
        lines := Slice(copy, 0, copy.Length);
      } else {
        ReadsRound(buf[..], history, n, first, end);
        lines := Append(Slice(buf, first, buf.Length), buf[..end]);
        assert buf[..][first..] == buf[first..] && buf[..][..end] == buf[..end];
      }
    }

    /** listen: what arrives on the channel is added line by line. */
    method Listen(lines: seq<string>)
      requires Valid()
      modifies this, buf
      ensures Valid() && history == old(history) + lines
      ensures buf[..] == Overwritten(old(buf[..]), old(idx), lines)
    {
      for k := 0 to |lines|
        invariant Valid() && history == old(history) + lines[..k]
        invariant Overwritten(buf[..], idx, lines[k..]) == Overwritten(old(buf[..]), old(idx), lines)
      {
        assert lines[k..][0] == lines[k] && lines[k..][1..] == lines[k + 1..];
        AddLine(lines[k]);
        assert lines[..k + 1] == lines[..k] + [lines[k]];
      }
      assert lines[..|lines|] == lines;
    }

    method GetIndex() returns (r: int)
      requires Valid()
      ensures r == |history| % TWO_64
    {
      r := idx;
    }
  }

  method Fresh(s: seq<string>) returns (a: array<string>)
    ensures fresh(a) && a[..] == s
  {
    a := new string[|s|](i requires 0 <= i < |s| => s[i]);
  }

  /** Go's append to a slice without spare capacity: it copies unless there is nothing to add. */
  method Append(s: Slice, more: seq<string>) returns (r: Slice)
    requires s.lo <= s.hi == s.base.Length
    ensures r.lo <= r.hi <= r.base.Length && r.base[r.lo..r.hi] == s.base[s.lo..s.hi] + more
    ensures if more == [] then r == s else fresh(r.base)
  {
    if more == [] {
      return s;
    }
    var a := Fresh(s.base[s.lo..s.hi] + more);
    r := Slice(a, 0, a.Length);
  }
}
