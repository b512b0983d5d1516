/**
  The Python string operations the pipeline relies on: `str.split` on one
  character, `sep.join`, `str.replace` of one character by another,
  `str(n)` for a natural number, and `re.findall(r"\[(.*?)\]", s)`.
 */
module Strings {

  import opened Errors

  /** `s.split(c)`: every occurrence of `c` separates two parts, empty parts kept. */
  function Split(s: string, c: char): (parts: seq<string>)
    ensures |parts| >= 1
  {
    if s == [] then [""] else Cons(s[0], c, Split(s[1..], c))
  }

  /** The parts of `[x] + s` from those of `s`: a separator opens an empty part, any other character joins the first. */
  function Cons(x: char, c: char, parts: seq<string>): (r: seq<string>)
    requires |parts| >= 1
    ensures |r| >= 1
  {
    if x == c then [""] + parts else [[x] + parts[0]] + parts[1..]
  }

  /** No part holds the separator. */
  lemma {:induction false} SplitPartsExclude(s: string, c: char)
    ensures forall i :: 0 <= i < |Split(s, c)| ==> c !in Split(s, c)[i]
  {
    if s != [] {
      SplitPartsExclude(s[1..], c);
      var rest := Split(s[1..], c);
      if s[0] != c {
        assert c !in rest[0];
        assert c !in [s[0]] + rest[0];
      }
    }
  }

  /** `sep.join(parts)`. */
  function Join(parts: seq<string>, sep: string): string
  {
    if parts == [] then ""
    else if |parts| == 1 then parts[0]
    else parts[0] + sep + Join(parts[1..], sep)
  }

  /** `"".join(parts)`. */
  function Concat(parts: seq<string>): string
  {
    if parts == [] then "" else parts[0] + Concat(parts[1..])
  }

  /** A separator between two strings splits them apart. */
  lemma {:induction false} SplitAppend(a: string, b: string, c: char)
    ensures Split(a + [c] + b, c) == Split(a, c) + Split(b, c)
  {
    if a == [] {
      assert a + [c] + b == [c] + b;
      SplitCons(c, b, c);
    } else {
      SplitAppend(a[1..], b, c);
      assert a == [a[0]] + a[1..];
      SplitAppendStep(a[0], a[1..], b, c);
    }
  }

  lemma SplitAppendStep(x: char, rest: string, b: string, c: char)
    requires Split(rest + [c] + b, c) == Split(rest, c) + Split(b, c)
    ensures Split([x] + rest + [c] + b, c) == Split([x] + rest, c) + Split(b, c)
  {
    assert [x] + rest + [c] + b == [x] + (rest + [c] + b);
    SplitCons(x, rest + [c] + b, c);
    SplitCons(x, rest, c);
    ConsAppend(x, c, Split(rest, c), Split(b, c));
  }

  lemma ConsAppend(x: char, c: char, r: seq<string>, rb: seq<string>)
    requires |r| >= 1
    ensures Cons(x, c, r + rb) == Cons(x, c, r) + rb
  {
    if x != c {
      assert (r + rb)[0] == r[0];
      assert (r + rb)[1..] == r[1..] + rb;
    }
  }

  /** Splitting a string one character longer at the front. */
  lemma SplitCons(x: char, s: string, c: char)
    ensures Split([x] + s, c) == Cons(x, c, Split(s, c))
  {
    assert ([x] + s)[0] == x && ([x] + s)[1..] == s;
  }

  /** A string without the separator is a single part. */
  lemma {:induction false} SplitNoSeparator(s: string, c: char)
    requires c !in s
    ensures Split(s, c) == [s]
  {
    if s != [] {
      assert c !in s[1..];
      SplitNoSeparator(s[1..], c);
      assert [s[0]] + s[1..] == s;
    }
  }

  /** The parts of a string made of separators only are all empty, and conversely. */
  lemma {:induction false} SplitAllEmpty(s: string, c: char)
    ensures (forall i :: 0 <= i < |s| ==> s[i] == c) <==>
            (forall j :: 0 <= j < |Split(s, c)| ==> Split(s, c)[j] == "")
  {
    if s != [] {
      SplitAllEmpty(s[1..], c);
      var rest := Split(s[1..], c);
      if s[0] == c {
        var parts := Split(s, c);
        assert parts == [""] + rest;
        assert forall i :: 1 <= i < |s| ==> s[i] == s[1..][i - 1];
        assert (forall i :: 0 <= i < |s| ==> s[i] == c) <==> (forall i :: 0 <= i < |s[1..]| ==> s[1..][i] == c);
        assert forall j :: 0 <= j < |rest| ==> rest[j] == parts[j + 1];
        assert forall j :: 1 <= j < |parts| ==> parts[j] == rest[j - 1];
      } else {
        assert Split(s, c)[0] != "";
      }
    }
  }

  /** `s.replace(a, b)` for single characters. */
  function Replace(s: string, a: char, b: char): (r: string)
    ensures |r| == |s|
    ensures forall i :: 0 <= i < |s| ==> r[i] == if s[i] == a then b else s[i]
  {
    if s == [] then ""
    else [if s[0] == a then b else s[0]] + Replace(s[1..], a, b)
  }

  /** The decimal digit of `d`. */
  function Digit(d: nat): char
    requires d < 10
  {
    "0123456789"[d]
  }

  /** `str(n)` for a natural number. */
  function NatToString(n: nat): (r: string)
    ensures |r| >= 1
    ensures forall i :: 0 <= i < |r| ==> '0' <= r[i] <= '9'
    ensures r[0] == '0' ==> n == 0
  {
    if n < 10 then [Digit(n)] else NatToString(n / 10) + [Digit(n % 10)]
  }

  /** `str(n)` for any integer. */
  function IntToString(n: int): (r: string)
    ensures n >= 0 ==> r == NatToString(n)
    ensures n < 0 ==> |r| >= 2 && r[0] == '-' && r[1..] == NatToString(-n)
  {
    if n < 0 then "-" + NatToString(-n) else NatToString(n)
  }

  /**
    The index of the first `]` at or after `i`, provided no newline comes
    first: where the lazy `(.*?)` of the pattern can stop (`.` matches
    anything but a newline).
   */
  function CloseAt(s: string, i: nat): (r: Option<nat>)
    requires i <= |s|
    ensures r.Some? ==> i <= r.value < |s| && s[r.value] == ']'
    ensures r.Some? ==> forall k :: i <= k < r.value ==> s[k] != ']' && s[k] != '\n'
    decreases |s| - i
  {
    if i == |s| then None
    else if s[i] == ']' then Some(i)
    else if s[i] == '\n' then None
    else CloseAt(s, i + 1)
  }

  /**
    `re.findall(r"\[(.*?)\]", s)`: scanning left to right, a `[` that has a
    `]` after it on the same line yields the text between them and the scan
    resumes after that `]`; any other character is skipped.
   */
  function Bracketed(s: string): (r: seq<string>)
    ensures forall i :: 0 <= i < |r| ==> ']' !in r[i] && '\n' !in r[i]
    decreases |s|
  {
    if s == [] then []
    else if s[0] == '[' then
      match CloseAt(s, 1)
      case Some(j) => [s[1..j]] + Bracketed(s[j + 1..])
      case None => Bracketed(s[1..])
    else Bracketed(s[1..])
  }

  /** A string without `[` holds no bracketed text. */
  lemma {:induction false} BracketedNone(s: string)
    requires '[' !in s
    ensures Bracketed(s) == []
  {
    if s != [] {
      assert s[0] != '[';
      assert forall k :: 0 <= k < |s[1..]| ==> s[1..][k] == s[k + 1];
      BracketedNone(s[1..]);
    }
  }

  /** A bracketed token at the front is captured whole, and the scan goes on after it. */
  lemma {:induction false} BracketedFront(c: string, rest: string)
    requires ']' !in c && '\n' !in c
    ensures Bracketed("[" + c + "]" + rest) == [c] + Bracketed(rest)
  {
    var s := "[" + c + "]" + rest;
    CloseAtToken(s, c, 1);
    assert s[1..|c| + 1] == c;
    assert s[|c| + 2..] == rest;
  }

  lemma {:induction false} CloseAtToken(s: string, c: string, i: nat)
    requires ']' !in c && '\n' !in c
    requires |s| >= |c| + 2 && s[1..|c| + 1] == c && s[|c| + 1] == ']'
    requires 1 <= i <= |c| + 1
    ensures CloseAt(s, i) == Some(|c| + 1)
    decreases |c| + 1 - i
  {
    if i < |c| + 1 {
      assert s[i] == c[i - 1];
      CloseAtToken(s, c, i + 1);
    }
  }

  /** A character other than `[` is skipped: it neither opens a capture nor changes what follows. */
  lemma BracketedSkip(x: char, rest: string)
    requires x != '['
    ensures Bracketed([x] + rest) == Bracketed(rest)
  {
    assert ([x] + rest)[1..] == rest;
  }

  /** No `]` before the end of the string or the next newline: the lazy group cannot close. */
  lemma {:induction false} CloseAtNone(s: string, i: nat, e: nat)
    requires i <= e <= |s|
    requires e == |s| || s[e] == '\n'
    requires forall k :: i <= k < e ==> s[k] != ']'
    ensures CloseAt(s, i) == None
    decreases e - i
  {
    if i < e {
      CloseAtNone(s, i + 1, e);
    }
  }

  /**
    A `[` whose line has no `]` after it captures nothing: the scan skips
    that `[` alone and goes on with the very next character.
   */
  lemma BracketedUnclosed(line: string, more: string)
    requires ']' !in line && '\n' !in line
    ensures Bracketed("[" + line) == Bracketed(line)
    ensures Bracketed("[" + line + "\n" + more) == Bracketed(line + "\n" + more)
  {
    var s := "[" + line;
    assert forall k :: 1 <= k < |s| ==> s[k] == line[k - 1];
    CloseAtNone(s, 1, |s|);
    assert s[1..] == line;
    var t := "[" + line + "\n" + more;
    assert forall k :: 1 <= k <= |line| ==> t[k] == line[k - 1];
    CloseAtNone(t, 1, |line| + 1);
    assert t[1..] == line + "\n" + more;
  }

  /** A newline between the brackets stops the lazy group, so only the later token on its own line is captured. */
  lemma BracketedAcrossLines()
    ensures Bracketed("[a\n[b]") == ["b"]
  {
    BracketedUnclosed("a", "[b]");
    assert "[" + "a" + "\n" + "[b]" == "[a\n[b]";
    assert "a" + "\n" + "[b]" == ['a'] + "\n[b]";
    BracketedSkip('a', "\n[b]");
    BracketedLineBreak();
  }

  lemma BracketedLineBreak()
    ensures Bracketed("\n[b]") == ["b"]
  {
    assert "\n[b]" == ['\n'] + "[b]";
    BracketedSkip('\n', "[b]");
    BracketedFront("b", "");
    BracketedNone("");
    assert "[" + "b" + "]" + "" == "[b]";
  }
}
