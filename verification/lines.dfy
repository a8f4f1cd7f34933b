/** The partial-line buffer both the relay and the browser client keep while
    reading a stream: each network chunk is appended to the buffer, the buffer
    is split on "\n", every piece but the last is processed as a complete line,
    and the last piece becomes the new buffer. The per-line work is a parameter
    `step`, so the loop is written, and proved chunk-boundary invariant, once. */
module LineBuffer {
  import opened Text

  /** `s.split("\n")`: always at least one piece, none containing "\n". */
  function Split(s: string): (parts: seq<string>)
    ensures |parts| >= 1
    ensures forall k :: 0 <= k < |parts| ==> '\n' !in parts[k]
    decreases |s|
  {
    if |s| == 0 then [[]]
    else if s[0] == '\n' then [[]] + Split(s[1..])
    else
      var t := Split(s[1..]);
      [[s[0]] + t[0]] + t[1..]
  }

  /** The lines given back with their terminators: `l1 + "\n" + l2 + "\n" + ...`. */
  function Terminated(lines: seq<string>): string {
    if |lines| == 0 then [] else lines[0] + "\n" + Terminated(lines[1..])
  }

  /** Splitting and rejoining with "\n" gives back the input. */
  lemma {:induction false} SplitJoin(s: string)
    ensures Join(Split(s), "\n") == s
    decreases |s|
  {
    if |s| == 0 {
    } else if s[0] == '\n' {
      SplitJoin(s[1..]);
      var t := Split(s[1..]);
      assert Split(s) == [[]] + t;
      assert ([[]] + t)[1..] == t;
    } else {
      SplitJoin(s[1..]);
      var t := Split(s[1..]);
      assert Split(s) == [[s[0]] + t[0]] + t[1..];
      JoinGlued(s[0], t[0], t[1..]);
      assert t == [t[0]] + t[1..];
      assert s == [s[0]] + s[1..];
    }
  }

  /** Gluing a character to the first piece puts it in front of the join. */
  lemma JoinGlued(c: char, head: string, tail: seq<string>)
    ensures Join([[c] + head] + tail, "\n") == [c] + Join([head] + tail, "\n")
  {
    if tail == [] {
      assert [[c] + head] + tail == [[c] + head];
      assert [head] + tail == [head];
    } else {
      JoinFront([c] + head, tail);
      JoinFront(head, tail);
      assert [c] + head + "\n" + Join(tail, "\n") == [c] + (head + "\n" + Join(tail, "\n"));
    }
  }

  lemma JoinFront(first: string, rest: seq<string>)
    requires |rest| >= 1
    ensures Join([first] + rest, "\n") == first + "\n" + Join(rest, "\n")
  {
    assert ([first] + rest)[1..] == rest;
  }

  /** Splitting lines that contain no "\n" after joining them gives them back. */
  lemma {:induction false} JoinSplit(parts: seq<string>)
    requires |parts| >= 1
    requires forall k :: 0 <= k < |parts| ==> '\n' !in parts[k]
    ensures Split(Join(parts, "\n")) == parts
    decreases |parts|
  {
    if |parts| == 1 {
      NoNewlineSplit(parts[0]);
    } else {
      JoinSplit(parts[1..]);
      SplitAfterLine(parts[0], Join(parts[1..], "\n"));
      assert parts[0] + "\n" + Join(parts[1..], "\n") == parts[0] + ("\n" + Join(parts[1..], "\n"));
      assert [parts[0]] + parts[1..] == parts;
    }
  }

  /** A string without "\n" splits into itself alone. */
  lemma {:induction false} NoNewlineSplit(s: string)
    requires '\n' !in s
    ensures Split(s) == [s]
    decreases |s|
  {
    if |s| > 0 {
      assert s[0] in s;
      assert forall c :: c in s[1..] ==> c in s;
      NoNewlineSplit(s[1..]);
      assert [s[0]] + s[1..] == s;
    }
  }

  /** A complete line in front of `rest` is split off as the first piece. */
  lemma {:induction false} SplitAfterLine(line: string, rest: string)
    requires '\n' !in line
    ensures Split(line + "\n" + rest) == [line] + Split(rest)
    decreases |line|
  {
    if |line| == 0 {
      assert line + "\n" + rest == "\n" + rest;
      assert ("\n" + rest)[1..] == rest;
    } else {
      var s := line + "\n" + rest;
      assert s[0] == line[0];
      assert line[0] in line;
      assert forall c :: c in line[1..] ==> c in line;
      assert s[1..] == line[1..] + "\n" + rest;
      SplitAfterLine(line[1..], rest);
      assert [line[0]] + line[1..] == line;
    }
  }

  /** Every piece but the last. */
  function Complete(parts: seq<string>): seq<string>
    requires |parts| >= 1
  {
    parts[..|parts| - 1]
  }

  /** The last piece: the text after the final "\n". */
  function Fragment(parts: seq<string>): string
    requires |parts| >= 1
  {
    parts[|parts| - 1]
  }

  /** The joined pieces are the complete lines with their terminators followed
      by the fragment. */
  lemma {:induction false} JoinIsTerminatedPlusFragment(parts: seq<string>)
    requires |parts| >= 1
    ensures Join(parts, "\n") == Terminated(Complete(parts)) + Fragment(parts)
    decreases |parts|
  {
    if |parts| > 1 {
      JoinIsTerminatedPlusFragment(parts[1..]);
      assert Complete(parts)[1..] == Complete(parts[1..]);
    }
  }

  /** The result of reading one chunk: the complete lines to process now and the
      carry-over buffer. */
  datatype Fed = Fed(lines: seq<string>, rest: string)

  /** `buffer += chunk; lines = buffer.split("\n"); buffer = lines.pop()`.
      The buffer that remains is exactly the text after the last "\n", and the
      lines are everything before it, cut at each "\n". */
  function Feed(buffer: string, chunk: string): (r: Fed)
    ensures buffer + chunk == Terminated(r.lines) + r.rest
    ensures '\n' !in r.rest
    ensures forall k :: 0 <= k < |r.lines| ==> '\n' !in r.lines[k]
  {
    var parts := Split(buffer + chunk);
    SplitJoin(buffer + chunk);
    JoinIsTerminatedPlusFragment(parts);
    Fed(Complete(parts), Fragment(parts))
  }

  /** Lines and buffers are uniquely determined: any decomposition of the text
      into "\n"-free terminated lines and a "\n"-free tail is the one `Feed` picks. */
  lemma {:induction false} FeedUnique(buffer: string, chunk: string, lines: seq<string>, rest: string)
    requires buffer + chunk == Terminated(lines) + rest
    requires '\n' !in rest
    requires forall k :: 0 <= k < |lines| ==> '\n' !in lines[k]
    ensures Feed(buffer, chunk) == Fed(lines, rest)
  {
    var parts := lines + [rest];
    assert Complete(parts) == lines && Fragment(parts) == rest;
    JoinIsTerminatedPlusFragment(parts);
    JoinSplit(parts);
  }

  /** Processing lines one after another, in order. */
  function FoldLines<A>(step: (A, string) -> A, acc: A, lines: seq<string>): A
    decreases |lines|
  {
    if |lines| == 0 then acc else FoldLines(step, step(acc, lines[0]), lines[1..])
  }

  lemma {:induction false} FoldLinesAppend<A>(step: (A, string) -> A, acc: A, a: seq<string>, b: seq<string>)
    ensures FoldLines(step, acc, a + b) == FoldLines(step, FoldLines(step, acc, a), b)
    decreases |a|
  {
    if |a| == 0 {
      assert a + b == b;
    } else {
      assert (a + b)[1..] == a[1..] + b;
      FoldLinesAppend(step, step(acc, a[0]), a[1..], b);
    }
  }

  /** The state of the read loop between chunks. */
  datatype Pumped<A> = Pumped(buffer: string, acc: A)

  /** The read loop over the chunks a stream delivers: feed each chunk, process
      its complete lines, carry the rest. At stream end the loop simply stops;
      an unterminated fragment left in the buffer is never processed. */
  function Pump<A>(step: (A, string) -> A, buffer: string, acc: A, chunks: seq<string>): (r: Pumped<A>)
    ensures |chunks| > 0 || '\n' !in buffer ==> '\n' !in r.buffer
    decreases |chunks|
  {
    if |chunks| == 0 then Pumped(buffer, acc)
    else
      var fed := Feed(buffer, chunks[0]);
      Pump(step, fed.rest, FoldLines(step, acc, fed.lines), chunks[1..])
  }

  /** The first character of a line glued to the front of the first piece. */
  function Glue(c: char, parts: seq<string>): seq<string>
    requires |parts| >= 1
  {
    [[c] + parts[0]] + parts[1..]
  }

  lemma SplitCons(c: char, x: string)
    ensures c == '\n' ==> Split([c] + x) == [[]] + Split(x)
    ensures c != '\n' ==> Split([c] + x) == Glue(c, Split(x))
  {
    assert ([c] + x)[0] == c && ([c] + x)[1..] == x;
  }

  lemma GlueAppend(c: char, p: seq<string>, q: seq<string>)
    requires |p| >= 1
    ensures Glue(c, p + q) == Glue(c, p) + q
  {
    assert (p + q)[0] == p[0];
    assert (p + q)[1..] == p[1..] + q;
  }

  /** Splitting `s + t` splits `s`, then continues from its fragment. */
  lemma {:induction false} SplitAppend(s: string, t: string)
    ensures Split(s + t) == Complete(Split(s)) + Split(Fragment(Split(s)) + t)
    decreases |s|
  {
    if |s| == 0 {
      assert s + t == t;
    } else {
      var c, x := s[0], s[1..];
      assert s == [c] + x;
      assert s + t == [c] + (x + t);
      SplitAppend(x, t);
      SplitCons(c, x + t);
      SplitCons(c, x);
      if c == '\n' {
        SplitAppendNewline(x, t);
      } else {
        SplitAppendGlued(c, x, t);
      }
    }
  }

  lemma SplitAppendNewline(x: string, t: string)
    requires Split(x + t) == Complete(Split(x)) + Split(Fragment(Split(x)) + t)
    ensures [[]] + Split(x + t) == Complete([[]] + Split(x)) + Split(Fragment([[]] + Split(x)) + t)
  {
    PrependLine(Split(x + t), Split(x), Split(Fragment(Split(x)) + t));
  }

  lemma PrependLine(whole: seq<string>, p: seq<string>, q: seq<string>)
    requires |p| >= 1
    requires whole == Complete(p) + q
    ensures [[]] + whole == Complete([[]] + p) + q
    ensures Fragment([[]] + p) == Fragment(p)
  {
    assert Complete([[]] + p) == [[]] + Complete(p);
  }

  lemma SplitAppendGlued(c: char, x: string, t: string)
    requires c != '\n'
    requires Split(x + t) == Complete(Split(x)) + Split(Fragment(Split(x)) + t)
    ensures Glue(c, Split(x + t)) == Complete(Glue(c, Split(x))) + Split(Fragment(Glue(c, Split(x))) + t)
  {
    var sx := Split(x);
    if |sx| == 1 {
      GlueSinglePiece(c, sx, t);
    } else {
      GlueSeveralPieces(c, sx, Split(Fragment(sx) + t));
    }
  }

  lemma GlueSinglePiece(c: char, sx: seq<string>, t: string)
    requires c != '\n' && |sx| == 1
    ensures Glue(c, Complete(sx) + Split(Fragment(sx) + t)) == Complete(Glue(c, sx)) + Split(Fragment(Glue(c, sx)) + t)
  {
    assert Complete(sx) + Split(Fragment(sx) + t) == Split(sx[0] + t);
    assert Complete(Glue(c, sx)) == [];
    assert Fragment(Glue(c, sx)) == [c] + sx[0];
    assert [c] + sx[0] + t == [c] + (sx[0] + t);
    SplitCons(c, sx[0] + t);
  }

  lemma GlueSeveralPieces(c: char, sx: seq<string>, tail: seq<string>)
    requires |sx| > 1
    ensures Glue(c, Complete(sx) + tail) == Complete(Glue(c, sx)) + tail
    ensures Fragment(Glue(c, sx)) == Fragment(sx)
  {
    assert Complete(Glue(c, sx)) == Glue(c, Complete(sx));
    GlueAppend(c, Complete(sx), tail);
  }

  /** The complete lines of a whole text: every piece of its split but the last. */
  function AllLines(s: string): seq<string> {
    Complete(Split(s))
  }

  /** The read loop processes exactly the complete lines of the concatenated
      input, in order, and ends holding the text after its last "\n". */
  lemma {:induction false} PumpIsOneShot<A>(step: (A, string) -> A, buffer: string, acc: A, chunks: seq<string>)
    requires '\n' !in buffer
    ensures Pump(step, buffer, acc, chunks)
         == Pumped(Fragment(Split(buffer + Concat(chunks))), FoldLines(step, acc, AllLines(buffer + Concat(chunks))))
    decreases |chunks|
  {
    if |chunks| == 0 {
      assert buffer + Concat(chunks) == buffer;
      NoNewlineSplit(buffer);
    } else {
      var fed := Feed(buffer, chunks[0]);
      var rest := Concat(chunks[1..]);
      PumpIsOneShot(step, fed.rest, FoldLines(step, acc, fed.lines), chunks[1..]);
      assert buffer + Concat(chunks) == (buffer + chunks[0]) + rest;
      SplitAppend(buffer + chunks[0], rest);
      var whole := Split(buffer + Concat(chunks));
      var tail := Split(fed.rest + rest);
      assert whole == fed.lines + tail;
      assert Fragment(whole) == Fragment(tail);
      assert AllLines(buffer + Concat(chunks)) == fed.lines + Complete(tail);
      FoldLinesAppend(step, acc, fed.lines, Complete(tail));
    }
  }

  /** Chunk-boundary invariance: however a stream is cut into chunks, the loop
      ends in the same state as when the whole text arrives as one chunk. */
  lemma RechunkInvariant<A>(step: (A, string) -> A, acc: A, chunks: seq<string>)
    ensures Pump(step, [], acc, chunks) == Pump(step, [], acc, [Concat(chunks)])
  {
    PumpIsOneShot(step, [], acc, chunks);
    PumpIsOneShot(step, [], acc, [Concat(chunks)]);
    assert Concat([Concat(chunks)]) == Concat(chunks);
  }

  /** Nothing after the last "\n" of the stream is processed: the processed
      lines, with their terminators, followed by the final buffer make up the
      input, and the final buffer holds no "\n". */
  lemma PumpLeavesFragment<A>(step: (A, string) -> A, acc: A, chunks: seq<string>)
    ensures Terminated(AllLines(Concat(chunks))) + Pump(step, [], acc, chunks).buffer == Concat(chunks)
    ensures '\n' !in Pump(step, [], acc, chunks).buffer
  {
    PumpIsOneShot(step, [], acc, chunks);
    assert [] + Concat(chunks) == Concat(chunks);
    SplitJoin(Concat(chunks));
    JoinIsTerminatedPlusFragment(Split(Concat(chunks)));
  }

  /** Terminated lines read back as exactly those lines. */
  lemma TerminatedLines(lines: seq<string>)
    requires forall k :: 0 <= k < |lines| ==> '\n' !in lines[k]
    ensures AllLines(Terminated(lines)) == lines
  {
    var parts := lines + [[]];
    assert Complete(parts) == lines && Fragment(parts) == [];
    JoinIsTerminatedPlusFragment(parts);
    assert Terminated(lines) + [] == Terminated(lines);
    JoinSplit(parts);
  }
}
