/** Joining lines with a newline (`'\n'.join(lines)`) and its inverse,
    `text.split('\n')`. */
module Lines {

  const Newline: char := '\n'

  /** `'\n'.join(ls)`. */
  function Join(ls: seq<string>): (r: string)
    ensures |ls| > 0 ==> |r| >= |ls[0]| + |ls| - 1
    ensures |ls| > 0 ==> r[..|ls[0]|] == ls[0]
    ensures |ls| > 1 ==> r[|ls[0]|] == Newline
  {
    if |ls| == 0 then ""
    else if |ls| == 1 then ls[0]
    else ls[0] + [Newline] + Join(ls[1..])
  }

  /** `s.split('\n')`: always at least one piece, none containing a newline. */
  function Split(s: string): (r: seq<string>)
    ensures |r| > 0
    ensures forall i :: 0 <= i < |r| ==> Newline !in r[i]
  {
    if |s| == 0 then [""]
    else
      var rest := Split(s[1..]);
      if s[0] == Newline then [""] + rest
      else [[s[0]] + rest[0]] + rest[1..]
  }

  /** The joined text begins with the first line. */
  lemma JoinStartsWithFirst(ls: seq<string>)
    requires |ls| > 0
    ensures Join(ls)[..|ls[0]|] == ls[0]
  {
  }

  /** The joined text ends with the last line. */
  lemma {:induction false} JoinEndsWithLast(ls: seq<string>)
    requires |ls| > 0
    ensures var j := Join(ls); var l := ls[|ls| - 1];
      |l| <= |j| && j[|j| - |l|..] == l
  {
    if |ls| > 1 {
      JoinEndsWithLast(ls[1..]);
      var tail := Join(ls[1..]);
      var l := ls[|ls| - 1];
      assert ls[1..][|ls[1..]| - 1] == l;
      var j := ls[0] + [Newline] + tail;
      assert j[|j| - |l|..] == tail[|tail| - |l|..];
    }
  }

  /** Prepending one character to the first line prepends it to the text. */
  lemma JoinConsChar(c: char, x: string, ys: seq<string>)
    ensures Join([[c] + x] + ys) == [c] + Join([x] + ys)
  {
    if |ys| > 0 {
      assert ([[c] + x] + ys)[1..] == ys;
      assert ([x] + ys)[1..] == ys;
    }
  }

  /** Splitting a joined text restores the lines, provided no line holds a
      newline of its own. */
  lemma {:induction false} SplitJoin(ls: seq<string>)
    requires |ls| > 0
    requires forall i :: 0 <= i < |ls| ==> Newline !in ls[i]
    ensures Split(Join(ls)) == ls
  {
    if |ls| == 1 {
      SplitNoNewline(ls[0]);
    } else {
      SplitJoin(ls[1..]);
      SplitAfterLine(ls[0], Join(ls[1..]));
    }
  }

  /** A text without a newline splits into itself. */
  lemma {:induction false} SplitNoNewline(s: string)
    requires Newline !in s
    ensures Split(s) == [s]
  {
    if |s| > 0 {
      SplitNoNewline(s[1..]);
      assert [s[0]] + s[1..] == s;
    }
  }

  /** A line followed by a newline splits off as the first piece. */
  lemma {:induction false} SplitAfterLine(a: string, t: string)
    requires Newline !in a
    ensures Split(a + [Newline] + t) == [a] + Split(t)
  {
    var s := a + [Newline] + t;
    if |a| == 0 {
      assert s == [Newline] + t;
      assert s[1..] == t;
    } else {
      assert s[1..] == a[1..] + [Newline] + t;
      SplitAfterLine(a[1..], t);
      assert [a[0]] + a[1..] == a;
    }
  }

  /** Joining the pieces of a split restores the text: no character is lost. */
  lemma {:induction false} JoinSplit(s: string)
    ensures Join(Split(s)) == s
  {
    if |s| > 0 {
      JoinSplit(s[1..]);
      var rest := Split(s[1..]);
      if s[0] == Newline {
        assert ([""] + rest)[1..] == rest;
        assert s == [Newline] + s[1..];
      } else {
        assert rest == [rest[0]] + rest[1..];
        JoinConsChar(s[0], rest[0], rest[1..]);
        assert s == [s[0]] + s[1..];
      }
    }
  }
}
