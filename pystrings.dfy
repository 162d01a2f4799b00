/** The few Python string operations the controller relies on. */
module PyStrings {

  /** `sep.join(parts)`. */
  function Join(sep: string, parts: seq<string>): string
  {
    if |parts| == 0 then ""
    else if |parts| == 1 then parts[0]
    else parts[0] + sep + Join(sep, parts[1..])
  }

  /** `s.split(c)` for a one-character separator: always at least one piece. */
  function Split(s: string, c: char): (pieces: seq<string>)
    ensures |pieces| > 0
  {
    if |s| == 0 then [""]
    else
      var rest := Split(s[1..], c);
      if s[0] == c then [""] + rest
      else [[s[0]] + rest[0]] + rest[1..]
  }

  /** Splitting a separator-free prefix glues it onto the first piece. */
  lemma {:induction false} SplitPrefix(p: string, s: string, c: char)
    requires c !in p
    ensures Split(p + s, c) == [p + Split(s, c)[0]] + Split(s, c)[1..]
  {
    if |p| > 0 {
      assert (p + s)[1..] == p[1..] + s;
      SplitPrefix(p[1..], s, c);
      assert [p[0]] + (p[1..] + Split(s, c)[0]) == p + Split(s, c)[0];
    } else {
      var pieces := Split(s, c);
      assert p + s == s && p + pieces[0] == pieces[0];
      assert [pieces[0]] + pieces[1..] == pieces;
    }
  }

  /** Joining with a newline and splitting at newlines gives the parts back,
      as long as there is at least one part and no part holds the separator. */
  lemma {:induction false} JoinSplit(parts: seq<string>, c: char)
    requires |parts| > 0
    requires forall i :: 0 <= i < |parts| ==> c !in parts[i]
    ensures Split(Join([c], parts), c) == parts
  {
    if |parts| == 1 {
      SplitPrefix(parts[0], "", c);
      assert parts[0] + "" == parts[0];
    } else {
      var tail := Join([c], parts[1..]);
      JoinSplit(parts[1..], c);
      assert Join([c], parts) == parts[0] + ([c] + tail);
      SplitPrefix(parts[0], [c] + tail, c);
      assert ([c] + tail)[1..] == tail;
      assert Split([c] + tail, c) == [""] + parts[1..];
      assert parts[0] + "" == parts[0];
      assert [parts[0]] + parts[1..] == parts;
    }
  }

  /** ASCII case folding of one character. */
  function LowerChar(ch: char): char
  {
    if 'A' <= ch <= 'Z' then (ch as int + 32) as char else ch
  }

  /** `s.lower()`, restricted to ASCII letters. */
  function Lower(s: string): string
  {
    seq(|s|, i requires 0 <= i < |s| => LowerChar(s[i]))
  }

  /** `repr(s)` for a string: single-quoted (escapes are not modelled). */
  function Repr(s: string): string
  {
    "'" + s + "'"
  }

  /** `str(xs)` for a list of strings: `['a', 'b']`. */
  function ListRepr(xs: seq<string>): (s: string)
    ensures |s| >= 2 && s[0] == '[' && s[|s| - 1] == ']'
  {
    "[" + Join(", ", seq(|xs|, i requires 0 <= i < |xs| => Repr(xs[i]))) + "]"
  }

  /** `str([])` is `[]`. */
  lemma ListReprEmpty()
    ensures ListRepr([]) == "[]"
  {
  }

  /** `str([x])` is `['x']`. */
  lemma ListReprSingle(x: string)
    ensures ListRepr([x]) == "[" + Repr(x) + "]"
  {
    assert seq(1, i requires 0 <= i < 1 => Repr([x][i])) == [Repr(x)];
  }

  /** `str([x] + xs)` for non-empty `xs` renders `x` first, then `", "`, then
      the elements of `xs` as `str(xs)` shows them: together with the two
      lemmas above this fixes the rendering of every list. */
  lemma ListReprCons(x: string, xs: seq<string>)
    requires |xs| > 0
    ensures ListRepr([x] + xs) == "[" + Repr(x) + ", " + ListRepr(xs)[1..]
  {
    var all := [x] + xs;
    var quoted := seq(|all|, i requires 0 <= i < |all| => Repr(all[i]));
    var rest := seq(|xs|, i requires 0 <= i < |xs| => Repr(xs[i]));
    assert quoted[1..] == rest;
    assert Join(", ", quoted) == Repr(x) + ", " + Join(", ", rest);
    var shown := "[" + Join(", ", rest) + "]";
    assert shown[1..] == Join(", ", rest) + "]";
  }
}
