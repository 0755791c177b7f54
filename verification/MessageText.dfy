/** Cutting a message to the length Discord takes (internal/notify/notify.go). Texts are
    sequences of characters. */
module MessageText {

  const MAX_CONTENT := 2000

  function Split(body: string): (lines: seq<string>)
    ensures lines != []
  {
    if body == [] then [""]
    else
      var rest := Split(body[1..]);
      if body[0] == '\n' then [""] + rest else [[body[0]] + rest[0]] + rest[1..]
  }

  function Join(lines: seq<string>): string {
    if lines == [] then "" else if |lines| == 1 then lines[0] else lines[0] + "\n" + Join(lines[1..])
  }

  function Digits(n: nat): string {
    if n < 10 then [('0' as int + n) as char] else Digits(n / 10) + [('0' as int + n % 10) as char]
  }

  function More(n: nat): string {
    "\n\U{2026}and " + Digits(n) + " more lines, see the site."
  }

  /** The first n lines and how many were left out. */
  function Cut(lines: seq<string>, n: nat): string
    requires n <= |lines|
  {
    Join(lines[..n]) + More(|lines| - n)
  }

  predicate Fits(text: string, tail: string) {
    |text| + |tail| <= MAX_CONTENT
  }

  lemma {:induction false} JoinSplit(body: string)
    ensures Join(Split(body)) == body
  {
    if body != [] {
      JoinSplit(body[1..]);
      var rest := Split(body[1..]);
      if body[0] == '\n' {
        assert ([""] + rest)[1..] == rest;
      } else {
        assert ([[body[0]] + rest[0]] + rest[1..])[1..] == rest[1..];
      }
    }
  }

  lemma {:induction false} JoinInTwo(lines: seq<string>, n: nat)
    requires 1 <= n < |lines|
    ensures Join(lines) == Join(lines[..n]) + "\n" + Join(lines[n..])
  {
    if n == 1 {
      assert lines[..1] == [lines[0]];
    } else {
      JoinInTwo(lines[1..], n - 1);
      assert lines[..n][1..] == lines[1..][..n - 1] && lines[n..] == lines[1..][n - 1..];
    }
  }

  /** What was kept of a body: all of it, its first n lines, or too few characters for
      even one line. */
  datatype Kept = Whole | Lines(n: nat) | Start(n: nat)

  function Shown(body: string, tail: string, kept: Kept): string
    requires kept.Lines? ==> kept.n <= |Split(body)|
    requires kept.Start? ==> kept.n <= |body|
  {
    match kept
    case Whole => body + tail
    case Lines(n) => Cut(Split(body), n) + tail
    case Start(n) => body[..n] + "\U{2026}" + tail
  }

  /** Nothing longer would have done. */
  ghost predicate Best(body: string, tail: string, kept: Kept) {
    var lines := Split(body);
    match kept
    case Whole => Fits(body, tail)
    case Lines(n) =>
      && !Fits(body, tail) && 1 <= n < |lines| && Fits(Cut(lines, n), tail)
      && forall m :: n < m < |lines| ==> !Fits(Cut(lines, m), tail)
    case Start(n) =>
      && !Fits(body, tail) && (forall m :: 1 <= m < |lines| ==> !Fits(Cut(lines, m), tail))
      && n <= |body|
      && n == (if |tail| >= MAX_CONTENT then 0
               else if MAX_CONTENT - |tail| - 1 < |body| then MAX_CONTENT - |tail| - 1 else |body|)
  }

  method FitContent(body: string, tail: string) returns (text: string, kept: Kept)
    ensures Best(body, tail, kept) && text == Shown(body, tail, kept)
  {
    hide Split, Cut;
    if |body| + |tail| <= MAX_CONTENT {
      return body + tail, Whole;
    }
    var lines := Split(body);
    var n := |lines| - 1;
    while n > 0
      invariant 0 <= n < |lines|
      invariant forall m :: n < m < |lines| ==> !Fits(Cut(lines, m), tail)
    {
      var cut := Cut(lines, n);
      if |cut| + |tail| <= MAX_CONTENT {
        return cut + tail, Lines(n);
      }
      n := n - 1;
    }
    var keep := MAX_CONTENT - |tail| - 1;
    if keep < 0 {
      keep := 0;
    }
    var end := if keep < |body| then keep else |body|;
    return body[..end] + "\U{2026}" + tail, Start(end);
  }

  /** The tail always survives at the end; the text fits exactly when the tail leaves room
      for one character or nothing had to be cut; and lines are cut at a line break. */
  lemma TailSurvives(body: string, tail: string, kept: Kept)
    requires Best(body, tail, kept)
    ensures var text := Shown(body, tail, kept);
            && |tail| <= |text| && text[|text| - |tail|..] == tail
            && (|text| <= 2000 <==> |tail| < 2000 || |body| + |tail| <= 2000)
    ensures kept.Lines? ==> body == Join(Split(body)[..kept.n]) + "\n" + Join(Split(body)[kept.n..])
  {
    hide Split, Join, Best, Shown;
    TailEnds(body, tail, kept);
    FitsWhenRoom(body, tail, kept);
    if kept.Lines? {
      LinesAreSome(body, tail, kept);
      JoinSplit(body);
      JoinInTwo(Split(body), kept.n);
    }
  }

  lemma LinesAreSome(body: string, tail: string, kept: Kept)
    requires Best(body, tail, kept) && kept.Lines?
    ensures 1 <= kept.n < |Split(body)|
  {
  }

  lemma TailEnds(body: string, tail: string, kept: Kept)
    requires Best(body, tail, kept)
    ensures var text := Shown(body, tail, kept); |tail| <= |text| && text[|text| - |tail|..] == tail
  {
    hide Split, Cut, Fits;
    match kept
    case Whole => EndsIn(body, tail);
    case Lines(n) => EndsIn(Cut(Split(body), n), tail);
    case Start(n) => EndsIn(body[..n] + "\U{2026}", tail);
  }

  lemma FitsWhenRoom(body: string, tail: string, kept: Kept)
    requires Best(body, tail, kept)
    ensures |Shown(body, tail, kept)| <= MAX_CONTENT <==> |tail| < MAX_CONTENT || Fits(body, tail)
  {
    hide Split, Join, More;
    if kept.Lines? {
      MoreIsText(|Split(body)| - kept.n);
    }
  }

  lemma EndsIn(front: string, tail: string)
    ensures (front + tail)[|front + tail| - |tail|..] == tail
  {
  }

  lemma MoreIsText(n: nat)
    ensures |More(n)| > 0
  {
  }
}
