/**
 * The serialiser that turns the conversation log into the text placed in
 * prompts: every turn becomes a line `sender: message`, and the lines are
 * joined with a single newline, first turn first.
 */
module FormatConvHistory {
  import opened ConversationHistoryModel

  /** The line one turn becomes: the sender's literal, a colon and a space, then the message. */
  function EntryLine(e: ConversationMessage): (r: string)
    ensures |r| == |SenderName(e.sender)| + 2 + |e.message|
    ensures r[..|SenderName(e.sender)|] == SenderName(e.sender)
    ensures r[|SenderName(e.sender)|..|SenderName(e.sender)| + 2] == ": "
    ensures r[|SenderName(e.sender)| + 2..] == e.message
  {
    SenderName(e.sender) + ": " + e.message
  }

  /** The turns mapped to their lines, one line per turn, in the same order. */
  function EntryLines(h: ConversationHistory): (r: seq<string>)
    ensures |r| == |h|
    ensures forall i :: 0 <= i < |h| ==> r[i] == EntryLine(h[i])
  {
    if h == [] then [] else [EntryLine(h[0])] + EntryLines(h[1..])
  }

  /** Sum of the lengths of some strings. */
  function TotalLength(lines: seq<string>): nat
  {
    if lines == [] then 0 else |lines[0]| + TotalLength(lines[1..])
  }

  /**
   * The joining of strings with a separator: nothing for no strings, the
   * string itself for one, and the separator between each neighbouring pair
   * otherwise.
   */
  function Join(lines: seq<string>, sep: string): (r: string)
    ensures lines == [] ==> r == ""
    ensures lines != [] ==> |lines[0]| <= |r| && r[..|lines[0]|] == lines[0]
  {
    if |lines| == 0 then ""
    else if |lines| == 1 then lines[0]
    else lines[0] + sep + Join(lines[1..], sep)
  }

  /** The joined text holds every string and one separator between each neighbouring pair. */
  lemma {:induction false} JoinLength(lines: seq<string>, sep: string)
    requires lines != []
    ensures |Join(lines, sep)| == TotalLength(lines) + (|lines| - 1) * |sep|
  {
    if |lines| > 1 {
      JoinLength(lines[1..], sep);
    }
  }

  /** The serialised history: the turns' lines joined by single newlines. */
  function Format(h: ConversationHistory): (r: string)
    ensures h == [] ==> r == ""
    ensures |h| == 1 ==> r == EntryLine(h[0])
    ensures h != [] ==> |EntryLine(h[0])| <= |r| && r[..|EntryLine(h[0])|] == EntryLine(h[0])
    ensures h != [] ==> r[0] != '\n'
  {
    Join(EntryLines(h), "\n")
  }

  /**
   * Reference definition: every turn's line followed by its own newline.
   * The serialised history is this text without its final newline.
   */
  function Terminated(h: ConversationHistory): string
  {
    if h == [] then "" else EntryLine(h[0]) + "\n" + Terminated(h[1..])
  }

  /** Where the line of turn `i` starts in the serialised history. */
  function Offset(h: ConversationHistory, i: nat): nat
    requires i <= |h|
  {
    |Terminated(h[..i])|
  }

  /** Number of occurrences of a character in a string. */
  function Count(s: string, c: char): nat
  {
    if s == [] then 0 else (if s[0] == c then 1 else 0) + Count(s[1..], c)
  }

  /** Total length of the turns' lines. */
  function TotalEntryLength(h: ConversationHistory): nat
  {
    if h == [] then 0
    else |SenderName(h[0].sender)| + 2 + |h[0].message| + TotalEntryLength(h[1..])
  }

  /** Total number of newlines inside the turns' messages. */
  function MessageNewlines(h: ConversationHistory): nat
  {
    if h == [] then 0 else Count(h[0].message, '\n') + MessageNewlines(h[1..])
  }

  /** Joining distributes over concatenation of two non-empty lists of strings. */
  lemma {:induction false} JoinConcat(a: seq<string>, b: seq<string>, sep: string)
    requires a != [] && b != []
    ensures Join(a + b, sep) == Join(a, sep) + sep + Join(b, sep)
  {
    if |a| == 1 {
      assert (a + b)[1..] == b;
    } else {
      assert (a + b)[1..] == a[1..] + b;
      JoinConcat(a[1..], b, sep);
    }
  }

  /** The lines of concatenated histories are the concatenated lines. */
  lemma EntryLinesConcat(h1: ConversationHistory, h2: ConversationHistory)
    ensures EntryLines(h1 + h2) == EntryLines(h1) + EntryLines(h2)
  {
  }

  /** Serialising two non-empty histories one after the other puts one newline between them. */
  lemma {:induction false} FormatConcat(h1: ConversationHistory, h2: ConversationHistory)
    requires h1 != [] && h2 != []
    ensures Format(h1 + h2) == Format(h1) + "\n" + Format(h2)
  {
    EntryLinesConcat(h1, h2);
    JoinConcat(EntryLines(h1), EntryLines(h2), "\n");
  }

  /** Appending a turn to a non-empty history appends a newline and that turn's line. */
  lemma {:induction false} FormatAppend(h: ConversationHistory, e: ConversationMessage)
    requires h != []
    ensures Format(h + [e]) == Format(h) + "\n" + EntryLine(e)
  {
    FormatConcat(h, [e]);
  }

  /** A history of two or more turns serialises as its first line, a newline, and the rest. */
  lemma FormatCons(h: ConversationHistory)
    requires |h| >= 2
    ensures Format(h) == EntryLine(h[0]) + "\n" + Format(h[1..])
  {
  }

  /** The serialised history is the reference text without its final newline. */
  lemma {:induction false} FormatTerminated(h: ConversationHistory)
    requires h != []
    ensures Format(h) + "\n" == Terminated(h)
  {
    if |h| >= 2 {
      FormatCons(h);
      FormatTerminated(h[1..]);
    }
  }

  /** Length of the serialised history: every line plus one newline between neighbours. */
  lemma {:induction false} FormatLength(h: ConversationHistory)
    requires h != []
    ensures |Format(h)| == TotalEntryLength(h) + |h| - 1
  {
    JoinLength(EntryLines(h), "\n");
    EntryLinesTotalLength(h);
  }

  /** The two ways of summing the line lengths agree. */
  lemma {:induction false} EntryLinesTotalLength(h: ConversationHistory)
    ensures TotalLength(EntryLines(h)) == TotalEntryLength(h)
  {
    if h != [] {
      assert EntryLines(h)[1..] == EntryLines(h[1..]);
      EntryLinesTotalLength(h[1..]);
    }
  }

  /** Counting a character in a concatenation adds the two counts. */
  lemma {:induction false} CountConcat(a: string, b: string, c: char)
    ensures Count(a + b, c) == Count(a, c) + Count(b, c)
  {
    if a == [] {
      assert a + b == b;
    } else {
      assert (a + b)[1..] == a[1..] + b;
      CountConcat(a[1..], b, c);
    }
  }

  /** A character that does not occur in a string is counted zero times. */
  lemma {:induction false} CountAbsent(s: string, c: char)
    requires c !in s
    ensures Count(s, c) == 0
  {
    if s != [] {
      CountAbsent(s[1..], c);
    }
  }

  /** A turn's line holds exactly the newlines of its message. */
  lemma {:induction false} EntryLineNewlines(e: ConversationMessage)
    ensures Count(EntryLine(e), '\n') == Count(e.message, '\n')
  {
    var name := SenderName(e.sender);
    CountConcat(name, ": ", '\n');
    CountConcat(name + ": ", e.message, '\n');
    CountAbsent(name, '\n');
    CountAbsent(": ", '\n');
  }

  /**
   * Separator count: the serialiser adds exactly one newline between each
   * pair of neighbouring turns and no other, beside those in the messages.
   */
  lemma {:induction false} FormatNewlines(h: ConversationHistory)
    requires h != []
    ensures Count(Format(h), '\n') == |h| - 1 + MessageNewlines(h)
  {
    EntryLineNewlines(h[0]);
    if |h| >= 2 {
      FormatCons(h);
      CountConcat(EntryLine(h[0]), "\n", '\n');
      CountConcat(EntryLine(h[0]) + "\n", Format(h[1..]), '\n');
      assert Count("\n", '\n') == 1;
      FormatNewlines(h[1..]);
    }
  }

  /** The serialised tail of a history from turn `i` on starts with turn `i`'s line. */
  lemma SuffixStartsWithEntry(h: ConversationHistory, i: nat)
    requires i < |h|
    ensures |EntryLine(h[i])| <= |Format(h[i..])|
    ensures Format(h[i..])[..|EntryLine(h[i])|] == EntryLine(h[i])
    ensures i + 1 == |h| ==> Format(h[i..]) == EntryLine(h[i])
    ensures i + 1 < |h| ==> |EntryLine(h[i])| < |Format(h[i..])|
    ensures i + 1 < |h| ==> Format(h[i..])[|EntryLine(h[i])|] == '\n'
  {
  }

  /** Splitting a history before turn `i` splits its serialisation at `Offset(h, i) - 1`. */
  lemma {:induction false} SplitBefore(h: ConversationHistory, i: nat)
    requires 0 < i < |h|
    ensures Format(h) == Format(h[..i]) + "\n" + Format(h[i..])
    ensures |Format(h[..i]) + "\n"| == Offset(h, i)
  {
    assert h == h[..i] + h[i..];
    FormatConcat(h[..i], h[i..]);
    FormatTerminated(h[..i]);
  }

  /**
   * Ordering: the line of turn `i` sits at `Offset(h, i)` in the serialised
   * history, preceded by a newline unless it is the first turn, and followed
   * by a newline unless it is the last turn, in which case the text ends there.
   */
  lemma {:induction false} EntryAt(h: ConversationHistory, i: nat)
    requires i < |h|
    ensures Offset(h, i) + |EntryLine(h[i])| <= |Format(h)|
    ensures Format(h)[Offset(h, i)..Offset(h, i) + |EntryLine(h[i])|] == EntryLine(h[i])
    ensures i > 0 ==> Format(h)[Offset(h, i) - 1] == '\n'
    ensures i + 1 == |h| ==> Offset(h, i) + |EntryLine(h[i])| == |Format(h)|
    ensures i + 1 < |h| ==> Offset(h, i) + |EntryLine(h[i])| < |Format(h)|
    ensures i + 1 < |h| ==> Format(h)[Offset(h, i) + |EntryLine(h[i])|] == '\n'
  {
    if i == 0 {
      FirstEntryAt(h);
    } else {
      LaterEntryAt(h, i);
    }
  }

  /** `EntryAt` for the first turn, whose line opens the text. */
  lemma FirstEntryAt(h: ConversationHistory)
    requires h != []
    ensures Offset(h, 0) == 0
    ensures |EntryLine(h[0])| <= |Format(h)|
    ensures Format(h)[..|EntryLine(h[0])|] == EntryLine(h[0])
    ensures |h| == 1 ==> |EntryLine(h[0])| == |Format(h)|
    ensures |h| > 1 ==> |EntryLine(h[0])| < |Format(h)| && Format(h)[|EntryLine(h[0])|] == '\n'
  {
  }

  /** `EntryAt` for a later turn, whose line follows the serialised turns before it and a newline. */
  lemma {:induction false} LaterEntryAt(h: ConversationHistory, i: nat)
    requires 0 < i < |h|
    ensures Offset(h, i) + |EntryLine(h[i])| <= |Format(h)|
    ensures Format(h)[Offset(h, i)..Offset(h, i) + |EntryLine(h[i])|] == EntryLine(h[i])
    ensures Format(h)[Offset(h, i) - 1] == '\n'
    ensures i + 1 == |h| ==> Offset(h, i) + |EntryLine(h[i])| == |Format(h)|
    ensures i + 1 < |h| ==> Offset(h, i) + |EntryLine(h[i])| < |Format(h)|
    ensures i + 1 < |h| ==> Format(h)[Offset(h, i) + |EntryLine(h[i])|] == '\n'
  {
    SuffixStartsWithEntry(h, i);
    SplitBefore(h, i);
    Placement(Format(h), Format(h[..i]), Format(h[i..]), EntryLine(h[i]), Offset(h, i));
  }

  /** Where a line that opens the part after a newline sits in the whole text. */
  lemma Placement(f: string, before: string, q: string, line: string, o: nat)
    requires f == before + "\n" + q && o == |before| + 1
    requires |line| <= |q| && q[..|line|] == line
    ensures o + |line| <= |f| && f[o..o + |line|] == line
    ensures f[o - 1] == '\n'
    ensures |line| < |q| ==> o + |line| < |f| && f[o + |line|] == q[|line|]
    ensures |line| == |q| ==> o + |line| == |f|
  {
  }

  /** The text opens with one of the two sender literals, then a colon and a space. */
  predicate OpensWithSender(t: string)
  {
    (|t| >= 6 && t[..6] == "user: ") || (|t| >= 8 && t[..8] == "AI-bot: ")
  }

  /** Every line of the serialised history begins with `user: ` or `AI-bot: `. */
  lemma EntrySenderPrefix(h: ConversationHistory, i: nat)
    requires i < |h|
    ensures Offset(h, i) < |Format(h)|
    ensures OpensWithSender(Format(h)[Offset(h, i)..])
  {
    EntryAt(h, i);
    SenderAt(Format(h), Offset(h, i), h[i]);
  }

  /** Wherever a turn's line occurs in a text, the text there opens with a sender literal. */
  lemma SenderAt(f: string, o: nat, e: ConversationMessage)
    requires o + |EntryLine(e)| <= |f| && f[o..o + |EntryLine(e)|] == EntryLine(e)
    ensures o < |f| && OpensWithSender(f[o..])
  {
    var line := EntryLine(e);
    var name := SenderName(e.sender);
    assert line[..|name| + 2] == name + ": ";
    PrefixOfSlice(f, o, line, |name| + 2);
    assert f[o..][..|name| + 2] == f[o..o + |name| + 2];
  }

  /** A prefix of a slice of a text is a slice of that text. */
  lemma PrefixOfSlice(f: string, o: nat, line: string, n: nat)
    requires o + |line| <= |f| && f[o..o + |line|] == line && n <= |line|
    ensures f[o..o + n] == line[..n]
  {
  }
}
