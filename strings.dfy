/** Python's `" ".join` and `str.split(" ")` on text. */
module Strings {
  import opened Seqs

  /** `" ".join(parts)`. */
  function Join(parts: seq<string>): string
    requires |parts| >= 1
  {
    if |parts| == 1 then parts[0] else parts[0] + " " + Join(parts[1..])
  }

  /**
   * `s.split(" ")`: cuts at every single space and keeps the empty pieces
   * that two adjacent spaces leave, so there is always at least one piece.
   */
  function Split(s: string): (parts: seq<string>)
    ensures |parts| >= 1
    ensures forall i :: 0 <= i < |parts| ==> ' ' !in parts[i]
    ensures Join(parts) == s
    decreases |s|
  {
    if ' ' !in s then [s]
    else
      var i := IndexOf(s, ' ');
      assert ' ' !in s[..i] by {
        forall j | 0 <= j < i ensures s[..i][j] != ' ' { }
      }
      var rest := Split(s[i + 1..]);
      assert ([s[..i]] + rest)[1..] == rest;
      assert s == s[..i] + " " + s[i + 1..];
      [s[..i]] + rest
  }

  /** The first space of `a + " " + b` is the one after `a`, when `a` has none. */
  lemma {:induction false} SplitAfterWord(a: string, b: string)
    requires ' ' !in a
    ensures Split(a + " " + b) == [a] + Split(b)
  {
    var s := a + " " + b;
    assert s[|a|] == ' ';
    var i := IndexOf(s, ' ');
    assert i == |a|;
    assert s[..i] == a;
    assert s[i + 1..] == b;
  }

  /** Two space-free fields and a tail, joined by spaces, split back into the two fields and the tail's pieces. */
  lemma SplitThreeFields(a: string, b: string, c: string)
    requires ' ' !in a && ' ' !in b
    ensures Split(a + " " + b + " " + c) == [a, b] + Split(c)
  {
    var rest := b + " " + c;
    SplitAfterWord(b, c);
    assert a + " " + b + " " + c == a + " " + rest;
    SplitAfterWord(a, rest);
    assert [a] + ([b] + Split(c)) == [a, b] + Split(c);
  }

  /** Splitting undoes joining, as long as no piece holds a space. */
  lemma {:induction false} SplitJoin(parts: seq<string>)
    requires |parts| >= 1
    requires forall i :: 0 <= i < |parts| ==> ' ' !in parts[i]
    ensures Split(Join(parts)) == parts
  {
    if |parts| > 1 {
      SplitJoin(parts[1..]);
      SplitAfterWord(parts[0], Join(parts[1..]));
      assert parts == [parts[0]] + parts[1..];
    }
  }

  /** The first piece is the whole text exactly when the text has no space. */
  lemma {:induction false} FirstPieceIsWhole(s: string)
    ensures Split(s)[0] == s <==> ' ' !in s
  {
    if ' ' in s {
      var i := IndexOf(s, ' ');
      assert |Split(s)[0]| == i < |s|;
    }
  }
}
