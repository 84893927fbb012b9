/** The fallback stdio mode of the server wrapper: input arrives in
    chunks, a buffer keeps the text after the last newline, and every
    complete line with something other than blanks is handed on (parsed
    and served) in order; at the end of input a non-blank leftover is
    handed on too. */
module StdioFraming {
  import opened Text

  /** `line.trim()` is truthy: some character is not blank (see
      `HasContentIsTrim`). */
  predicate HasContent(line: string) {
    !IsBlank(line)
  }

  lemma HasContentIsTrim(line: string)
    ensures HasContent(line) <==> Trim(line) != []
  {
    TrimEmptyIffBlank(line);
  }

  /** The elements `keep` accepts, in order. */
  function Filter<T>(xs: seq<T>, keep: T -> bool): seq<T>
  {
    if xs == [] then []
    else
      var init := Filter(xs[..|xs| - 1], keep);
      if keep(xs[|xs| - 1]) then init + [xs[|xs| - 1]] else init
  }

  /** Exactly the accepted elements are kept. */
  lemma {:induction false} FilterMembers<T>(xs: seq<T>, keep: T -> bool)
    ensures forall x :: x in Filter(xs, keep) <==> x in xs && keep(x)
  {
    if xs != [] {
      FilterMembers(xs[..|xs| - 1], keep);
      assert xs == xs[..|xs| - 1] + [xs[|xs| - 1]];
    }
  }

  /** Filtering one more element. */
  lemma FilterSnoc<T>(xs: seq<T>, x: T, keep: T -> bool)
    ensures Filter(xs + [x], keep) == Filter(xs, keep) + (if keep(x) then [x] else [])
  {
    assert (xs + [x])[..|xs + [x]| - 1] == xs;
  }

  /** Filtering distributes over concatenation. */
  lemma {:induction false} FilterAppend<T>(xs: seq<T>, ys: seq<T>, keep: T -> bool)
    ensures Filter(xs + ys, keep) == Filter(xs, keep) + Filter(ys, keep)
  {
    if ys == [] {
      assert xs + ys == xs;
    } else {
      var init := ys[..|ys| - 1];
      FilterAppend(xs, init, keep);
      assert xs + ys == (xs + init) + [ys[|ys| - 1]];
    }
  }

  /** The lines with content, in order. */
  function ContentLines(lines: seq<string>): seq<string> {
    Filter(lines, HasContent)
  }

  /** All pieces but the last, and the last. */
  function Complete<T>(pieces: seq<T>): seq<T>
    requires |pieces| >= 1
  {
    pieces[..|pieces| - 1]
  }

  function Leftover<T>(pieces: seq<T>): T
    requires |pieces| >= 1
  {
    pieces[|pieces| - 1]
  }

  /** One `data` event: the buffer grows by the chunk, is split at the
      newlines, the last piece becomes the buffer (`lines.pop() || ''`),
      and the other lines with content are handed on. */
  function Receive(handled: seq<string>, buffer: string, chunk: string): (r: (seq<string>, string))
  {
    var pieces := SplitOn(buffer + chunk, '\n');
    (handled + ContentLines(Complete(pieces)), Leftover(pieces))
  }

  /** The `end` event: a leftover with content is handed on. */
  function Finish(handled: seq<string>, buffer: string): seq<string> {
    if HasContent(buffer) then handled + [buffer] else handled
  }

  /** The buffer after a chunk holds no newline, and the completed lines
      and the buffer rejoined with newlines give the old buffer and the
      chunk. */
  lemma ReceiveBuffer(handled: seq<string>, buffer: string, chunk: string)
    ensures var pieces := SplitOn(buffer + chunk, '\n');
      && '\n' !in Receive(handled, buffer, chunk).1
      && Join(Complete(pieces) + [Receive(handled, buffer, chunk).1], '\n') == buffer + chunk
  {
    var pieces := SplitOn(buffer + chunk, '\n');
    SplitJoin(buffer + chunk, '\n');
    SplitPieces(buffer + chunk, '\n');
    assert Complete(pieces) + [Leftover(pieces)] == pieces;
    assert Leftover(pieces) in pieces;
  }

  /** The lines a chunk hands on come after the earlier ones, hold no
      newline and have content. */
  lemma ReceiveHandled(handled: seq<string>, buffer: string, chunk: string)
    ensures (forall l :: l in Receive(handled, buffer, chunk).0 && l !in handled ==> '\n' !in l && HasContent(l))
    ensures Receive(handled, buffer, chunk).0[..|handled|] == handled
  {
    var pieces := SplitOn(buffer + chunk, '\n');
    var lines := ContentLines(Complete(pieces));
    SplitPieces(buffer + chunk, '\n');
    FilterMembers(Complete(pieces), HasContent);
    forall l | l in lines
      ensures '\n' !in l && HasContent(l)
    {
      var i :| 0 <= i < |Complete(pieces)| && Complete(pieces)[i] == l;
      assert pieces[i] == l;
    }
    assert (handled + lines)[..|handled|] == handled;
  }

  /** A chunk without a newline, after a buffer without one, is only
      buffered. */
  lemma ReceiveWithoutNewline(handled: seq<string>, buffer: string, chunk: string)
    requires '\n' !in chunk && '\n' !in buffer
    ensures Receive(handled, buffer, chunk) == (handled, buffer + chunk)
  {
    var text := buffer + chunk;
    assert '\n' !in text;
    SplitWithoutSep(text, '\n');
    assert Complete(SplitOn(text, '\n')) == [];
    assert handled + ContentLines([]) == handled;
  }

  /** After one chunk the buffer holds no newline, the lines handed on
      hold none either and have content, the completed lines and the
      buffer put back together with newlines give exactly the old buffer
      and the chunk, and without a newline everything stays buffered. */
  lemma ReceiveSpec(handled: seq<string>, buffer: string, chunk: string)
    ensures var pieces := SplitOn(buffer + chunk, '\n');
      && '\n' !in Receive(handled, buffer, chunk).1
      && Join(Complete(pieces) + [Receive(handled, buffer, chunk).1], '\n') == buffer + chunk
      && (forall l :: l in Receive(handled, buffer, chunk).0 && l !in handled ==> '\n' !in l && HasContent(l))
      && Receive(handled, buffer, chunk).0[..|handled|] == handled
      && ('\n' !in chunk && '\n' !in buffer ==> Receive(handled, buffer, chunk) == (handled, buffer + chunk))
  {
    ReceiveBuffer(handled, buffer, chunk);
    ReceiveHandled(handled, buffer, chunk);
    if '\n' !in chunk && '\n' !in buffer {
      ReceiveWithoutNewline(handled, buffer, chunk);
    }
  }

  /** Splitting after a first character that is not the separator. */
  lemma SplitFirst(x: string, sep: char)
    requires x != [] && x[0] != sep
    ensures var r := SplitOn(x[1..], sep); SplitOn(x, sep) == [[x[0]] + r[0]] + r[1..]
  {
  }

  lemma SplitExtendSep(x: string, c: string, sep: char)
    requires x != [] && x[0] == sep
    ensures SplitOn(x + c, sep) == [""] + SplitOn(x[1..] + c, sep)
  {
    assert (x + c)[1..] == x[1..] + c;
  }

  lemma SplitExtendOther(x: string, c: string, sep: char)
    requires x != [] && x[0] != sep
    ensures var r := SplitOn(x[1..] + c, sep); SplitOn(x + c, sep) == [[x[0]] + r[0]] + r[1..]
  {
    assert (x + c)[1..] == x[1..] + c;
    SplitFirst(x + c, sep);
  }

  lemma ConsSplice<T>(e: T, s: seq<T>, t: seq<T>)
    requires |s| >= 1
    ensures Complete([e] + s) + t == [e] + (Complete(s) + t)
    ensures Leftover([e] + s) == Leftover(s)
  {
    assert Complete([e] + s) == [e] + Complete(s);
  }

  lemma TailSplice<T>(s: seq<T>, t: seq<T>)
    requires |s| >= 2
    ensures (Complete(s) + t)[0] == s[0]
    ensures (Complete(s) + t)[1..] == Complete(s[1..]) + t
    ensures Leftover(s[1..]) == Leftover(s)
  {
    assert Complete(s)[1..] == Complete(s[1..]);
  }

  /** The pieces of `x` but the last, then the pieces of its last piece
      extended by `c`. */
  function Spliced(x: string, c: string, sep: char): seq<string> {
    var s := SplitOn(x, sep);
    Complete(s) + SplitOn(Leftover(s) + c, sep)
  }

  lemma AppendAfterSep(x: string, c: string, sep: char)
    requires x != [] && x[0] == sep
    requires SplitOn(x[1..] + c, sep) == Spliced(x[1..], c, sep)
    ensures SplitOn(x + c, sep) == Spliced(x, c, sep)
  {
    var s' := SplitOn(x[1..], sep);
    var t := SplitOn(Leftover(s') + c, sep);
    SplitExtendSep(x, c, sep);
    assert SplitOn(x, sep) == [""] + s';
    ConsSplice("", s', t);
  }

  lemma AppendBeforeSep(x: string, c: string, sep: char)
    requires x != [] && x[0] != sep && sep in x[1..]
    requires SplitOn(x[1..] + c, sep) == Spliced(x[1..], c, sep)
    ensures SplitOn(x + c, sep) == Spliced(x, c, sep)
  {
    var s' := SplitOn(x[1..], sep);
    SplitPieces(x[1..], sep);
    var t := SplitOn(Leftover(s') + c, sep);
    var first := [x[0]] + s'[0];
    SplitExtendOther(x, c, sep);
    SplitFirst(x, sep);
    TailSplice(s', t);
    ConsSplice(first, s'[1..], t);
  }

  /** Splitting text extended by `c` re-splits only its last piece. */
  lemma {:induction false} SplitAppend(x: string, c: string, sep: char)
    ensures SplitOn(x + c, sep) == Spliced(x, c, sep)
  {
    if sep !in x {
      SplitWithoutSep(x, sep);
    } else {
      SplitAppend(x[1..], c, sep);
      if x[0] == sep {
        AppendAfterSep(x, c, sep);
      } else {
        AppendBeforeSep(x, c, sep);
      }
    }
  }

  /** All the chunks received so far. */
  function Concat(chunks: seq<string>): string {
    if chunks == [] then [] else Concat(chunks[..|chunks| - 1]) + chunks[|chunks| - 1]
  }

  /** The state after a sequence of `data` events, from an empty buffer. */
  function Feed(chunks: seq<string>): (seq<string>, string) {
    if chunks == [] then ([], "")
    else
      var (handled, buffer) := Feed(chunks[..|chunks| - 1]);
      Receive(handled, buffer, chunks[|chunks| - 1])
  }

  /** However the input is cut into chunks, the buffer is the text after
      the last newline and the lines handed on are the complete lines with
      content, in order. */
  lemma {:induction false} FeedSpec(chunks: seq<string>)
    ensures var pieces := SplitOn(Concat(chunks), '\n');
      && Feed(chunks).1 == Leftover(pieces)
      && Feed(chunks).0 == ContentLines(Complete(pieces))
  {
    if chunks != [] {
      var init := chunks[..|chunks| - 1];
      var c := chunks[|chunks| - 1];
      FeedSpec(init);
      var s := SplitOn(Concat(init), '\n');
      var (handled, buffer) := Feed(init);
      SplitAppend(Concat(init), c, '\n');
      var tail := SplitOn(buffer + c, '\n');
      var pieces := Complete(s) + tail;
      assert SplitOn(Concat(chunks), '\n') == pieces;
      assert Complete(pieces) == Complete(s) + Complete(tail);
      FilterAppend(Complete(s), Complete(tail), HasContent);
    }
  }

  /** Over the whole input, ended: every line with content is handed on
      once, in order, whether or not the input ends with a newline. */
  lemma StreamHandlesEveryLine(chunks: seq<string>)
    ensures Finish(Feed(chunks).0, Feed(chunks).1) == ContentLines(SplitOn(Concat(chunks), '\n'))
  {
    FeedSpec(chunks);
    var pieces := SplitOn(Concat(chunks), '\n');
    assert pieces == Complete(pieces) + [Leftover(pieces)];
    FilterAppend(Complete(pieces), [Leftover(pieces)], HasContent);
    assert ContentLines([Leftover(pieces)]) == (if HasContent(Leftover(pieces)) then [Leftover(pieces)] else []) by {
      assert [Leftover(pieces)][..0] == [];
    }
  }

  /** The `data` and `end` handlers of `startFallbackMode`, with the lines
      they hand on recorded in `handled`. */
  class LineReader {
    var buffer: string
    var handled: seq<string>

    constructor()
      ensures buffer == "" && handled == []
    {
      buffer := "";
      handled := [];
    }

    method OnData(chunk: string)
      modifies this
      ensures (handled, buffer) == Receive(old(handled), old(buffer), chunk)
    {
      buffer := buffer + chunk;
      var lines := SplitOn(buffer, '\n');
      buffer := lines[|lines| - 1];
      var complete := lines[..|lines| - 1];
      ghost var before := handled;
      var i := 0;
      while i < |complete|
        invariant 0 <= i <= |complete|
        invariant handled == before + ContentLines(complete[..i])
        invariant buffer == lines[|lines| - 1]
      {
        var line := complete[i];
        assert complete[..i + 1] == complete[..i] + [line];
        FilterSnoc(complete[..i], line, HasContent);
        HasContentIsTrim(line);
        if Trim(line) != [] {
          handled := handled + [line];
        }
        i := i + 1;
      }
      assert complete[..|complete|] == complete;
    }

    method OnEnd()
      modifies this
      ensures handled == Finish(old(handled), old(buffer))
      ensures buffer == old(buffer)
    {
      HasContentIsTrim(buffer);
      if Trim(buffer) != [] {
        handled := handled + [buffer];
      }
    }
  }
}
