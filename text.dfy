/** Line splitting, the reading side of the two line-oriented formats the
    bridge writes: newline-delimited JSON and Server-Sent Events. */
module Text {

  /** `s` holds no line terminator (neither LF nor CR). */
  predicate NoLineBreak(s: string)
  {
    '\n' !in s && '\r' !in s
  }

  /** Every text `enc` produces is a single line. */
  ghost predicate SingleLine<T(!new)>(enc: T -> string)
  {
    forall x :: NoLineBreak(enc(x))
  }

  /** The lines of `s`, each ended by a line feed; text after the last line
      feed is an unfinished line and is not returned. */
  function Lines(s: string): seq<string>
  {
    LinesFrom(s, "")
  }

  /** `Lines`, with `pending` the part of the current line already read. */
  function LinesFrom(s: string, pending: string): seq<string>
    decreases |s|
  {
    if s == "" then []
    else if s[0] == '\n' then [pending] + LinesFrom(s[1..], "")
    else LinesFrom(s[1..], pending + [s[0]])
  }

  /** A line `w` followed by a line feed is read back as one line. */
  lemma {:induction false} LinesFromLine(w: string, rest: string, pending: string)
    requires '\n' !in w
    ensures LinesFrom(w + "\n" + rest, pending) == [pending + w] + LinesFrom(rest, "")
    decreases |w|
  {
    var s := w + "\n" + rest;
    if w == "" {
      assert s[0] == '\n' && s[1..] == rest;
      assert pending + w == pending;
    } else {
      assert s[0] == w[0] && s[1..] == w[1..] + "\n" + rest;
      LinesFromLine(w[1..], rest, pending + [w[0]]);
      assert pending + [w[0]] + w[1..] == pending + w;
    }
  }

  lemma LinesOfLine(w: string, rest: string)
    requires '\n' !in w
    ensures Lines(w + "\n" + rest) == [w] + Lines(rest)
  {
    LinesFromLine(w, rest, "");
    assert "" + w == w;
  }
}
