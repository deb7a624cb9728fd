/**
 * The stderr filter of the activity tracker (`FilteredStderr`): a line
 * buffer that forwards complete lines to the real error stream, dropping the
 * noise that the input-listener library prints, and swallowing a whole
 * traceback block once the listener's "unhandled exception" banner shows up.
 */
module StderrFilter {
  import opened Text
  import opened Seqs

  /** The banner that starts a block to swallow. */
  const Marker := "Unhandled exception in listener callback"

  /** A complete line that `write` drops as listener-library noise. */
  predicate IsPynputNoise(line: string) {
    && Contains(Lower(line), "pynput")
    && (|| Contains(line, "NotImplementedError")
        || Contains(line, "TypeError")
        || Contains(line, "_ThreadHandle")
        || Contains(line, "Traceback"))
  }

  /** The narrower test `flush` applies to the unterminated leftover. */
  predicate IsPynputFragment(text: string) {
    && Contains(Lower(text), "pynput")
    && (Contains(text, "NotImplementedError") || Contains(text, "TypeError"))
  }

  /** `line.strip() == ""`: the line that ends a swallowed block. */
  predicate IsBlank(line: string) {
    Trim(line, Python) == ""
  }

  /** Whether one complete line is forwarded, given the suppress flag. */
  predicate Forwards(line: string, suppress: bool) {
    !(suppress || IsPynputNoise(line))
  }

  /** The suppress flag after one complete line has been handled. */
  function NextSuppress(line: string, suppress: bool): bool {
    if IsBlank(line) && suppress then false else suppress
  }

  /** What handling a run of complete lines forwards, and the flag it leaves. */
  datatype Filtered = Filtered(out: seq<string>, suppress: bool)

  /** Handling one more complete line after `f`: one pass of the loop in `write`. */
  function Step(f: Filtered, line: string): Filtered {
    if Forwards(line, f.suppress) then Filtered(f.out + [line + "\n"], NextSuppress(line, f.suppress))
    else Filtered(f.out, NextSuppress(line, f.suppress))
  }

  /** `o` is some non-noise line of `lines`, re-terminated. */
  ghost predicate IsForwardOf(o: string, lines: seq<string>) {
    exists j :: 0 <= j < |lines| && o == lines[j] + "\n" && !IsPynputNoise(lines[j])
  }

  /** Every forwarded string is a non-noise line of `lines`, re-terminated. */
  ghost predicate ForwardedFrom(out: seq<string>, lines: seq<string>) {
    forall k :: 0 <= k < |out| ==> IsForwardOf(out[k], lines)
  }

  lemma ForwardedFromAppend(a: seq<string>, b: seq<string>, lines: seq<string>)
    requires ForwardedFrom(a, lines) && ForwardedFrom(b, lines)
    ensures ForwardedFrom(a + b, lines)
  {
    forall k | 0 <= k < |a + b|
      ensures IsForwardOf((a + b)[k], lines)
    {
      if k < |a| {
        assert (a + b)[k] == a[k];
      } else {
        assert (a + b)[k] == b[k - |a|];
      }
    }
  }

  /**
   * The `for line in lines[:-1]` loop of `write`, as a function of the lines
   * handled so far and the flag it started with.
   */
  function FilterLines(lines: seq<string>, suppress: bool): (r: Filtered)
    ensures |r.out| <= |lines|
    ensures !suppress ==> !r.suppress
    decreases |lines|
  {
    if lines == [] then Filtered([], suppress)
    else
      Step(FilterLines(lines[..|lines| - 1], suppress), lines[|lines| - 1])
  }

  /** Whatever the flag, only non-noise lines are ever forwarded, each re-terminated. */
  lemma {:induction false} NoiseNeverForwarded(lines: seq<string>, suppress: bool)
    ensures ForwardedFrom(FilterLines(lines, suppress).out, lines)
    decreases |lines|
  {
    if lines != [] {
      var init := lines[..|lines| - 1];
      var line := lines[|lines| - 1];
      var prev := FilterLines(init, suppress);
      var step := if Forwards(line, prev.suppress) then [line + "\n"] else [];
      NoiseNeverForwarded(init, suppress);
      assert ForwardedFrom(prev.out, lines) by {
        forall k | 0 <= k < |prev.out|
          ensures IsForwardOf(prev.out[k], lines)
        {
          assert IsForwardOf(prev.out[k], init);
          var j :| 0 <= j < |init| && prev.out[k] == init[j] + "\n" && !IsPynputNoise(init[j]);
          assert init[j] == lines[j];
        }
      }
      assert ForwardedFrom(step, lines) by {
        if step != [] {
          assert step[0] == lines[|lines| - 1] + "\n";
          assert IsForwardOf(step[0], lines);
        }
      }
      ForwardedFromAppend(prev.out, step, lines);
    }
  }

  /** One more line: the step the loop of `write` takes. */
  lemma FilterLinesStep(lines: seq<string>, i: nat, suppress: bool)
    requires i < |lines|
    ensures FilterLines(lines[..i + 1], suppress) == Step(FilterLines(lines[..i], suppress), lines[i])
  {
    assert lines[..i + 1][..i] == lines[..i];
  }

  /** Handling two runs of lines one after the other is handling their concatenation. */
  lemma {:induction false} FilterLinesAppend(a: seq<string>, b: seq<string>, suppress: bool)
    ensures var first := FilterLines(a, suppress);
            var second := FilterLines(b, first.suppress);
            FilterLines(a + b, suppress) == Filtered(first.out + second.out, second.suppress)
    decreases |b|
  {
    if b == [] {
      assert a + b == a;
    } else {
      var b' := b[..|b| - 1];
      assert (a + b)[..|a + b| - 1] == a + b';
      assert (a + b)[|a + b| - 1] == b[|b| - 1];
      FilterLinesAppend(a, b', suppress);
    }
  }

  /** The lines that are not listener noise, in order. */
  function Clean(lines: seq<string>): (r: seq<string>)
    ensures |r| <= |lines|
    ensures forall k {:trigger IsPynputNoise(r[k])} :: 0 <= k < |r| ==> !IsPynputNoise(r[k])
  {
    if lines == [] then []
    else
      var line := lines[|lines| - 1];
      Clean(lines[..|lines| - 1]) + (if IsPynputNoise(line) then [] else [line])
  }

  /** A single line is kept exactly when it is not listener noise. */
  lemma CleanOne(line: string)
    ensures Clean([line]) == if IsPynputNoise(line) then [] else [line]
  {
    assert [line][..0] == [];
  }

  /**
   * Cleaning distributes over concatenation; with `CleanOne` this fixes
   * `Clean` to the non-noise lines, every one of them, in order.
   */
  lemma {:induction false} CleanAppend(a: seq<string>, b: seq<string>)
    ensures Clean(a + b) == Clean(a) + Clean(b)
    decreases |b|
  {
    if b == [] {
      assert a + b == a;
    } else {
      var init, last := b[..|b| - 1], b[|b| - 1];
      assert (a + b)[..|a + b| - 1] == a + init;
      assert (a + b)[|a + b| - 1] == last;
      CleanAppend(a, init);
      var kept: seq<string> := if IsPynputNoise(last) then [] else [last];
      calc {
        Clean(a + b);
        Clean(a + init) + kept;
        (Clean(a) + Clean(init)) + kept;
        Clean(a) + (Clean(init) + kept);
        Clean(a) + Clean(b);
      }
    }
  }

  /** Each line followed by "\n". */
  function Terminated(lines: seq<string>): (r: seq<string>)
    ensures |r| == |lines|
    ensures forall k :: 0 <= k < |lines| ==> r[k] == lines[k] + "\n"
  {
    seq(|lines|, k requires 0 <= k < |lines| => lines[k] + "\n")
  }

  /** Outside a swallowed block, exactly the non-noise lines are forwarded, and the flag stays off. */
  lemma {:induction false} FilterLinesUnsuppressed(lines: seq<string>)
    ensures FilterLines(lines, false) == Filtered(Terminated(Clean(lines)), false)
    decreases |lines|
  {
    if lines != [] {
      var init := lines[..|lines| - 1];
      var line := lines[|lines| - 1];
      FilterLinesUnsuppressed(init);
      var c := Clean(init);
      if !IsPynputNoise(line) {
        assert Terminated(c + [line]) == Terminated(c) + [line + "\n"];
      }
    }
  }

  /** None of the first `n` lines is blank. */
  predicate NoBlankBefore(lines: seq<string>, n: nat)
    requires n <= |lines|
  {
    forall j :: 0 <= j < n ==> !IsBlank(lines[j])
  }

  /** Index of the first blank line, or `|lines|` when there is none. */
  function FirstBlank(lines: seq<string>): (k: nat)
    ensures k <= |lines|
    ensures NoBlankBefore(lines, k)
    ensures k < |lines| ==> IsBlank(lines[k])
  {
    if lines == [] then 0
    else if IsBlank(lines[0]) then 0
    else 1 + FirstBlank(lines[1..])
  }

  /** Inside a swallowed block, the first `n` lines, none of them blank, forward nothing and the flag stays on. */
  lemma {:induction false} FilterLinesSwallowed(lines: seq<string>, n: nat)
    requires n <= |lines|
    requires NoBlankBefore(lines, n)
    ensures FilterLines(lines[..n], true) == Filtered([], true)
  {
    if n == 0 {
      assert lines[..0] == [];
    } else {
      FilterLinesSwallowed(lines, n - 1);
      FilterLinesStep(lines, n - 1, true);
    }
  }

  /**
   * Once the flag is on, everything up to and including the first blank line
   * is dropped; filtering then carries on as if nothing had been swallowed.
   */
  lemma SwallowUntilBlank(lines: seq<string>)
    ensures FirstBlank(lines) == |lines| ==> FilterLines(lines, true) == Filtered([], true)
    ensures FirstBlank(lines) < |lines| ==>
              FilterLines(lines, true) == FilterLines(lines[FirstBlank(lines) + 1..], false)
  {
    var k := FirstBlank(lines);
    if k == |lines| {
      FilterLinesSwallowed(lines, k);
      TakeAll(lines);
    } else {
      SwallowFirstBlock(lines, k);
    }
  }

  /** A swallowed block through its first blank line `k` forwards nothing and clears the flag. */
  lemma SwallowThroughBlank(lines: seq<string>, k: nat)
    requires k < |lines| && IsBlank(lines[k])
    requires NoBlankBefore(lines, k)
    ensures FilterLines(lines[..k + 1], true) == Filtered([], false)
  {
    FilterLinesSwallowed(lines, k);
    FilterLinesStep(lines, k, true);
  }

  /** The swallowed block through the first blank line `k`, cut off the front. */
  lemma SwallowFirstBlock(lines: seq<string>, k: nat)
    requires k < |lines| && IsBlank(lines[k])
    requires NoBlankBefore(lines, k)
    ensures FilterLines(lines, true) == FilterLines(lines[k + 1..], false)
  {
    var rest := lines[k + 1..];
    SwallowThroughBlank(lines, k);
    FilterLinesAppend(lines[..k + 1], rest, true);
    EmptyAppend(FilterLines(rest, false).out);
    TakeDrop(lines, k + 1);
  }

  /**
   * What a swallowed run of lines forwards when it holds a blank line:
   * nothing up to the first one, then exactly the non-noise lines after it.
   */
  lemma SwallowedThenClean(lines: seq<string>, k: nat)
    requires k == FirstBlank(lines) && k < |lines|
    ensures FilterLines(lines, true).out == Terminated(Clean(lines[k + 1..]))
  {
    SwallowFirstBlock(lines, k);
    FilterLinesUnsuppressed(lines[k + 1..]);
  }

  /**
   * A chunk that carries the listener banner turns suppression on for the
   * whole buffer, whatever came before it: of the buffer's `complete` lines,
   * `write` then forwards none up to the first blank one, and only what
   * follows that.
   */
  lemma BannerChunkSwallowsFirstBlock(buffered: string, s: string, before: bool, complete: seq<string>)
    requires Contains(s, Marker)
    requires var lines := SplitLines(buffered + s); complete == lines[..|lines| - 1]
    ensures var f := FilterLines(complete, before || Contains(buffered + s, Marker));
            && (FirstBlank(complete) == |complete| ==> f == Filtered([], true))
            && (FirstBlank(complete) < |complete| ==>
                  f == FilterLines(complete[FirstBlank(complete) + 1..], false))
  {
    ContainsInAppend(buffered, s, Marker);
    assert before || Contains(buffered + s, Marker);
    SwallowUntilBlank(complete);
  }

  /** The error stream the filter writes to: what was written to it, and how often it was flushed. */
  class Stream {
    var writes: seq<string>
    var flushes: nat

    constructor ()
      ensures writes == [] && flushes == 0
    {
      writes := [];
      flushes := 0;
    }

    method Write(s: string)
      modifies this
      ensures writes == old(writes) + [s] && flushes == old(flushes)
    {
      writes := writes + [s];
    }

    method Flush()
      modifies this
      ensures writes == old(writes) && flushes == old(flushes) + 1
    {
      flushes := flushes + 1;
    }
  }

  class FilteredStderr {
    const original: Stream
    var buffer: string
    var suppressNext: bool

    constructor (original: Stream)
      ensures this.original == original
      ensures buffer == "" && !suppressNext
    {
      this.original := original;
      buffer := "";
      suppressNext := false;
    }

    /**
     * Appends `s`, forwards the complete lines that pass the filter and keeps
     * the text after the last newline.
     */
    method Write(s: string)
      modifies this, original
      ensures var t := old(buffer) + s;
              var lines := SplitLines(t);
              var complete := lines[..|lines| - 1];
              var f := FilterLines(complete, old(suppressNext) || Contains(t, Marker));
              && buffer == lines[|lines| - 1]
              && t == Unlines(complete) + buffer
              && original.writes == old(original.writes) + f.out
              && suppressNext == f.suppress
      ensures '\n' !in buffer
      ensures '\n' !in old(buffer) + s ==> buffer == old(buffer) + s && original.writes == old(original.writes)
      ensures original.flushes == old(original.flushes)
    {
      buffer := buffer + s;
      if Contains(buffer, Marker) {
        suppressNext := true;
      }
      ghost var start := suppressNext;
      var t := buffer;
      var lines := SplitLines(t);
      var complete, last := lines[..|lines| - 1], lines[|lines| - 1];
      SplitLinesLast(t);
      if '\n' in t {
        ForwardLines(complete);
        buffer := last;
      } else {
        assert FilterLines(complete, start) == Filtered([], start);
      }
    }

    /** The `for line in lines[:-1]` loop of `write`: filters and forwards complete lines. */
    method ForwardLines(lines: seq<string>)
      modifies this, original
      ensures var f := FilterLines(lines, old(suppressNext));
              original.writes == old(original.writes) + f.out && suppressNext == f.suppress
      ensures buffer == old(buffer) && original.flushes == old(original.flushes)
    {
      ghost var start := suppressNext;
      ghost var written := original.writes;
      var i := 0;
      ghost var done := FilterLines([], start);
      while i < |lines|
        invariant 0 <= i <= |lines|
        invariant done == FilterLines(lines[..i], start)
        invariant original.writes == written + done.out && suppressNext == done.suppress
        invariant buffer == old(buffer) && original.flushes == old(original.flushes)
      {
        var line := lines[i];
        FilterLinesStep(lines, i, start);
        if !(suppressNext || IsPynputNoise(line)) {
          original.Write(line + "\n");
          AppendSnoc(written, done.out, line + "\n");
        }
        if Trim(line, Python) == "" && suppressNext {
          suppressNext := false;
        }
        done := Step(done, line);
        i := i + 1;
      }
      TakeAll(lines);
    }

    /**
     * Forwards the leftover unless a block is being swallowed or it is a
     * listener-noise fragment, flushes the stream, and resets the filter.
     */
    method Flush()
      modifies this, original
      ensures buffer == "" && !suppressNext
      ensures original.writes == old(original.writes) +
        (if old(buffer) != "" && !old(suppressNext) && !IsPynputFragment(old(buffer)) then [old(buffer)] else [])
      ensures original.flushes == old(original.flushes) + 1
    {
      if buffer != "" && !suppressNext {
        if !IsPynputFragment(buffer) {
          original.Write(buffer);
        }
      }
      original.Flush();
      buffer := "";
      suppressNext := false;
    }
  }
}
