/** Python's `sep.join(lines)` for a one-character separator, and the split that undoes it. */
module Text {

  /** `"\n".join(lines)` in general form: the lines with one `sep` between neighbours, none at the end. */
  function Join(lines: seq<string>, sep: char): (s: string)
    ensures |lines| == 1 ==> s == lines[0]
    decreases |lines|
  {
    if lines == [] then ""
    else if |lines| == 1 then lines[0]
    else Join(lines[..|lines| - 1], sep) + [sep] + lines[|lines| - 1]
  }

  /** Position of the last `sep` in `s`. */
  function LastIndexOf(s: string, sep: char): (i: nat)
    requires sep in s
    ensures i < |s| && s[i] == sep && sep !in s[i + 1..]
    decreases |s|
  {
    if s[|s| - 1] == sep then |s| - 1
    else
      assert sep in s[..|s| - 1] by {
        var k :| 0 <= k < |s| && s[k] == sep;
        assert s[..|s| - 1][k] == sep;
      }
      LastIndexOf(s[..|s| - 1], sep)
  }

  /** `s.split(sep)`: the pieces between separators, in order; always at least one piece. */
  function Split(s: string, sep: char): (pieces: seq<string>)
    ensures |pieces| >= 1
    ensures forall k :: 0 <= k < |pieces| ==> sep !in pieces[k]
    decreases |s|
  {
    if sep !in s then [s]
    else
      var i := LastIndexOf(s, sep);
      Split(s[..i], sep) + [s[i + 1..]]
  }

  /** Any position holding the last separator is the one LastIndexOf finds. */
  lemma LastIndexOfUnique(s: string, sep: char, i: nat)
    requires i < |s| && s[i] == sep && sep !in s[i + 1..]
    ensures LastIndexOf(s, sep) == i
  {
  }

  /** Splitting the joined text gives the lines back, provided no line contains the separator. */
  lemma {:induction false} SplitJoin(lines: seq<string>, sep: char)
    requires |lines| >= 1
    requires forall k :: 0 <= k < |lines| ==> sep !in lines[k]
    ensures Split(Join(lines, sep), sep) == lines
    decreases |lines|
  {
    if |lines| > 1 {
      var init, last := lines[..|lines| - 1], lines[|lines| - 1];
      assert lines == init + [last];
      assert forall k :: 0 <= k < |init| ==> init[k] == lines[k];
      SplitJoin(init, sep);
      SplitAfterLast(Join(init, sep), sep, last);
    }
  }

  /** Appending a separator and a separator-free piece appends exactly that piece to the split. */
  lemma SplitAfterLast(head: string, sep: char, last: string)
    requires sep !in last
    ensures Split(head + [sep] + last, sep) == Split(head, sep) + [last]
  {
    var s := head + [sep] + last;
    assert s[|head|] == sep;
    assert s[|head| + 1..] == last;
    assert s[..|head|] == head;
    LastIndexOfUnique(s, sep, |head|);
  }

  predicate StartsWith(s: string, prefix: string) {
    |prefix| <= |s| && s[..|prefix|] == prefix
  }

  /** The joined text begins with its first line. */
  lemma {:induction false} JoinStartsWithFirst(lines: seq<string>, sep: char)
    requires |lines| >= 1
    ensures StartsWith(Join(lines, sep), lines[0])
    decreases |lines|
  {
    if |lines| > 1 {
      JoinStartsWithFirst(lines[..|lines| - 1], sep);
    }
  }
}
