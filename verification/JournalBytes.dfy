/** The journal file as bytes: how opening, the backup and the boundary check find lines in
    it, against the lines the file really consists of. */
module JournalBytes {
  import opened Wrappers
  import J = Journal

  newtype Byte = b: int | 0 <= b < 256

  const NEWLINE: Byte := 10
  const CHUNK: nat := 65536
  const READ_MAX: nat := 32768

  type File = seq<Byte>

  /** The position after the first newline, or 0 when there is none. */
  function FirstLine(f: File): (n: nat)
    ensures n <= |f|
    ensures n > 0 ==> f[n - 1] == NEWLINE && NEWLINE !in f[..n - 1]
    ensures n == 0 ==> NEWLINE !in f
  {
    if f == [] then 0
    else if f[0] == NEWLINE then 1
    else
      var n := FirstLine(f[1..]);
      if n == 0 then 0 else
        assert f[..n] == [f[0]] + f[1..][..n - 1];
        n + 1
  }

  /** The lines of a file in order, each with its newline. */
  function Lines(f: File): (ls: seq<J.Line>)
    decreases |f|
  {
    var n := FirstLine(f);
    if n == 0 then [] else [J.Line(None, n)] + Lines(f[n..])
  }

  /** The bytes after the last newline. */
  function Torn(f: File): (t: File)
    ensures |t| <= |f| && NEWLINE !in t
    decreases |f|
  {
    var n := FirstLine(f);
    if n == 0 then f else Torn(f[n..])
  }

  lemma {:induction false} LinesThenTorn(f: File)
    ensures J.Size(Lines(f)) + |Torn(f)| == |f|
    ensures f[J.Size(Lines(f))..] == Torn(f)
    ensures J.Size(Lines(f)) > 0 ==> f[J.Size(Lines(f)) - 1] == NEWLINE
    decreases |f|
  {
    var n := FirstLine(f);
    if n > 0 {
      var rest := f[n..];
      LinesThenTorn(rest);
      var m := J.Size(Lines(rest));
      assert J.Size(Lines(f)) == n + m by { assert Lines(f)[1..] == Lines(rest); }
      assert rest[m..] == f[n + m..];
      if m > 0 { assert rest[m - 1] == f[n + m - 1]; }
    }
  }

  /** The last newline of a buffer, or -1. */
  method LastIndexByte(buf: File) returns (i: int)
    ensures -1 <= i < |buf|
    ensures i >= 0 ==> buf[i] == NEWLINE
    ensures forall k :: i < k < |buf| ==> buf[k] != NEWLINE
  {
    i := |buf| - 1;
    while i >= 0 && buf[i] != NEWLINE
      invariant -1 <= i < |buf|
      invariant forall k :: i < k < |buf| ==> buf[k] != NEWLINE
    {
      i := i - 1;
    }
  }

  /** Where the lines of a file end is where its last newline is, and nowhere else. */
  lemma {:induction false} LastNewline(f: File, n: nat)
    requires n <= |f| && (n > 0 ==> f[n - 1] == NEWLINE)
    requires forall k :: n <= k < |f| ==> f[k] != NEWLINE
    ensures n == J.Size(Lines(f))
  {
    LinesThenTorn(f);
  }

  /** The backup's search for the last newline, a chunk at a time from the end. */
  method CompleteLines(f: File) returns (n: nat)
    ensures n == J.Size(Lines(f))
  {
    var end := |f|;
    while end > 0
      invariant 0 <= end <= |f|
      invariant forall k :: end <= k < |f| ==> f[k] != NEWLINE
    {
      var start := if end > CHUNK then end - CHUNK else 0;
      var i := LastIndexByte(f[start..end]);
      if i >= 0 {
        assert f[start..end][i] == f[start + i];
        forall k | start + i + 1 <= k < |f| ensures f[k] != NEWLINE {
          if k < end { assert f[start..end][k - start] == f[k]; }
        }
        LastNewline(f, start + i + 1);
        return start + i + 1;
      }
      forall k | start <= k < |f| ensures f[k] != NEWLINE {
        if k < end { assert f[start..end][k - start] == f[k]; }
      }
      end := start;
    }
    LastNewline(f, 0);
    return 0;
  }

  /** The file only grows between one read and the next. */
  ghost predicate Growing(views: seq<File>) { forall i, j :: 0 <= i <= j < |views| ==> views[i] <= views[j] }

  lemma {:induction false} PrefixTransitive(a: File, b: File, c: File)
    requires a <= b <= c
    ensures a <= c
  {
    assert c[..|a|] == c[..|b|][..|a|] == b[..|a|] == a;
  }

  /** Copying a file that is appended to meanwhile, until a read finds nothing more; the i-th
      read sees views[i]. What was copied is the whole file as the last read saw it. */
  method CopyFile(views: seq<File>) returns (out: File, done: bool, ghost at: nat)
    requires Growing(views)
    ensures done ==> at < |views| && out == views[at]
    ensures !done && views != [] ==> out <= views[|views| - 1] && |out| >= |views|
  {
    out, done, at := [], false, 0;
    for i := 0 to |views|
      invariant |out| >= i && if i == 0 then out == [] else out <= views[i - 1]
    {
      if i > 0 { PrefixTransitive(out, views[i - 1], views[i]); }
      var left := views[i][|out|..];
      if left == [] { return out, true, i; }
      var n := if |left| < READ_MAX then |left| else READ_MAX;
      assert out + left[..n] == views[i][..|out| + n];
      out := out + left[..n];
    }
  }

  /** The size opening leaves the file with: it looks for a newline in the last window only. */
  method OpenedSize(f: File) returns (size: nat)
    ensures size == if |Torn(f)| < J.TAIL_WINDOW then J.Size(Lines(f)) else 0
  {
    size := |f|;
    if size > 0 {
      var window := if size < J.TAIL_WINDOW then size else J.TAIL_WINDOW;
      var buf := f[size - window..];
      if buf[|buf| - 1] != NEWLINE {
        var i := LastIndexByte(buf);
        WindowSearched(f, window, buf, i);
        size := if i >= 0 then size - window + i + 1 else 0;
      } else {
        WindowSearched(f, window, buf, |buf| - 1);
      }
    }
  }

  /** What the last newline of the window says about the whole file. */
  lemma {:induction false} WindowSearched(f: File, window: nat, buf: File, i: int)
    requires 0 < window <= |f| && -1 <= i < window && buf == f[|f| - window..] && (window == |f| || window >= J.TAIL_WINDOW)
    requires i >= 0 ==> buf[i] == NEWLINE
    requires forall k :: i < k < window ==> buf[k] != NEWLINE
    ensures i >= 0 ==> J.Size(Lines(f)) == |f| - window + i + 1 && |Torn(f)| == window - i - 1
    ensures i < 0 ==> |Torn(f)| >= J.TAIL_WINDOW || J.Size(Lines(f)) == 0
  {
    forall k | |f| - window + i < k < |f| ensures f[k] != NEWLINE {
      assert buf[k - (|f| - window)] == f[k];
    }
    NoNewlineAfter(f, |f| - window + i + 1);
    if i >= 0 { LastNewline(f, |f| - window + i + 1); }
  }

  lemma {:induction false} NoNewlineAfter(f: File, n: nat)
    requires n <= |f| && forall k :: n <= k < |f| ==> f[k] != NEWLINE
    ensures J.Size(Lines(f)) <= n && |Torn(f)| == |f| - J.Size(Lines(f))
  {
    LinesThenTorn(f);
  }

  /** The check of a recorded boundary: inside the file, at 0 or just after a newline. */
  predicate LineBoundary(f: File, size: nat, off: int)
    requires size <= |f|
  {
    if off < 0 || off > size then false else off == 0 || f[off - 1] == NEWLINE
  }

  /** It accepts exactly the offsets between the file's lines. */
  lemma {:induction false} LineBoundaryExact(f: File, off: nat)
    requires |Torn(f)| == 0
    ensures LineBoundary(f, |f|, off) <==> J.Boundary(Lines(f), off)
    decreases |f|
  {
    var n := FirstLine(f);
    if n > 0 && off > 0 {
      assert Lines(f)[1..] == Lines(f[n..]);
      if off >= n {
        LineBoundaryExact(f[n..], off - n);
        if off > n && off <= |f| { assert f[n..][off - n - 1] == f[off - 1]; }
      } else {
        assert f[off - 1] in f[..n - 1];
      }
    }
  }

  /** What reading a line at a time from an offset sees is what the line model says. */
  lemma {:induction false} LinesFrom(f: File, off: nat)
    requires off <= J.Size(Lines(f)) <= |f|
    ensures J.Size(J.Tail(Lines(f), off)) == J.Size(Lines(f)) - off
    ensures J.Boundary(Lines(f), off) ==> Lines(f[off..]) == J.Tail(Lines(f), off)
    decreases |f|
  {
    var n := FirstLine(f);
    if off == 0 {
      assert f[0..] == f;
    } else if n > 0 && off >= n {
      var rest := f[n..];
      assert Lines(f)[1..] == Lines(rest);
      LinesThenTorn(rest);
      LinesFrom(rest, off - n);
      assert rest[off - n..] == f[off..];
    } else if n > 0 {
      InFirstLine(f, off);
    }
  }

  lemma {:induction false} InFirstLine(f: File, off: nat)
    requires 0 < off < FirstLine(f)
    ensures J.Size(J.Tail(Lines(f), off)) == J.Size(Lines(f)) - off && !J.Boundary(Lines(f), off)
  {
    var rest := Lines(f[FirstLine(f)..]);
    assert Lines(f)[1..] == rest && J.Tail(Lines(f), off)[1..] == rest;
  }

  /** A complete record appended to a file whose last line is whole is one more line. */
  lemma {:induction false} AppendLine(f: File, rec: File)
    requires |Torn(f)| == 0 && |rec| > 0 && rec[|rec| - 1] == NEWLINE && NEWLINE !in rec[..|rec| - 1]
    ensures Lines(f + rec) == Lines(f) + [J.Line(None, |rec|)] && |Torn(f + rec)| == 0
    decreases |f|
  {
    var n := FirstLine(f);
    if f == [] {
      assert f + rec == rec;
      FirstLineIs(rec, |rec|);
      assert rec[|rec|..] == [];
    } else {
      FirstLineIs(f + rec, n);
      assert (f + rec)[n..] == f[n..] + rec;
      AppendLine(f[n..], rec);
    }
  }

  lemma {:induction false} FirstLineIs(f: File, n: nat)
    requires 0 < n <= |f| && f[n - 1] == NEWLINE && NEWLINE !in f[..n - 1]
    ensures FirstLine(f) == n
  {
    var m := FirstLine(f);
    if m != 0 && m != n { assert false; }
  }
}
