/** The string operations the modelled code uses, on ASCII text. */
module Text {

  predicate Space(c: char) {
    var n := c as int;
    n == 32 || 9 <= n <= 13 || 28 <= n <= 31
  }

  function StripLeft(s: string): (r: string)
    ensures r == "" || !Space(r[0])
    ensures |r| <= |s| && r == s[|s| - |r|..]
  {
    if s != "" && Space(s[0]) then StripLeft(s[1..]) else s
  }

  function StripRight(s: string): (r: string)
    ensures r == "" || !Space(r[|r| - 1])
    ensures |r| <= |s| && r == s[..|r|]
  {
    if s != "" && Space(s[|s| - 1]) then StripRight(s[..|s| - 1]) else s
  }

  function Strip(s: string): (r: string)
    ensures Stripped(r)
  {
    StripRight(StripLeft(s))
  }

  predicate Stripped(s: string) {
    s == "" || (!Space(s[0]) && !Space(s[|s| - 1]))
  }

  lemma StripFixed(s: string)
    requires Stripped(s)
    ensures Strip(s) == s
  {
  }

  function Lower(c: char): char {
    if 'A' <= c <= 'Z' then ((c as int) + 32) as char else c
  }

  function LowerAll(s: string): (r: string)
    ensures |r| == |s| && forall i :: 0 <= i < |s| ==> r[i] == Lower(s[i])
  {
    if s == "" then "" else [Lower(s[0])] + LowerAll(s[1..])
  }

  predicate StartsWith(s: string, prefix: string) {
    prefix <= s
  }

  predicate EndsWith(s: string, suffix: string) {
    |suffix| <= |s| && s[|s| - |suffix|..] == suffix
  }

  predicate Contains(s: string, part: string) {
    StartsWith(s, part) || (s != "" && Contains(s[1..], part))
  }

  predicate Digits(s: string) {
    s != "" && forall i :: 0 <= i < |s| ==> '0' <= s[i] <= '9'
  }

  /** The pieces of `s` between separators; one piece more than there are separators. */
  function Split(s: string, sep: char): (parts: seq<string>)
    ensures parts != []
    ensures forall k :: 0 <= k < |parts| ==> sep !in parts[k]
    ensures Join(parts, sep) == s
  {
    if s == "" then [""]
    else
      var rest := Split(s[1..], sep);
      if s[0] == sep then [""] + rest
      else
        assert [s[0]] + s[1..] == s;
        [[s[0]] + rest[0]] + rest[1..]
  }

  function Join(parts: seq<string>, sep: char): string {
    if parts == [] then ""
    else if |parts| == 1 then parts[0]
    else parts[0] + [sep] + Join(parts[1..], sep)
  }

  lemma {:induction false} SplitCut(head: string, tail: string, sep: char)
    requires sep !in head
    ensures Split(head + [sep] + tail, sep) == [head] + Split(tail, sep)
  {
    var s := head + [sep] + tail;
    if head == "" {
      assert s[1..] == tail;
    } else {
      assert s[1..] == head[1..] + [sep] + tail;
      SplitCut(head[1..], tail, sep);
      assert [s[0]] + head[1..] == head;
    }
  }

  lemma {:induction false} SplitPlain(s: string, sep: char)
    requires sep !in s
    ensures Split(s, sep) == [s]
  {
    if s != "" {
      SplitPlain(s[1..], sep);
    }
  }

  // ---------------------------------------------------------------- what these operations mean

  lemma {:induction false} StripLeftTrims(s: string)
    ensures forall i :: 0 <= i < |s| - |StripLeft(s)| ==> Space(s[i])
  {
    if s != "" && Space(s[0]) {
      StripLeftTrims(s[1..]);
      forall i | 0 < i < |s| - |StripLeft(s)| ensures Space(s[i]) {
        assert s[i] == s[1..][i - 1];
      }
    }
  }

  lemma {:induction false} StripRightTrims(s: string)
    ensures forall i :: |StripRight(s)| <= i < |s| ==> Space(s[i])
  {
    if s != "" && Space(s[|s| - 1]) {
      var t := s[..|s| - 1];
      StripRightTrims(t);
      forall i | |StripRight(s)| <= i < |t| ensures Space(s[i]) {
        assert s[i] == t[i];
      }
    }
  }

  /** Stripping cuts blanks off both ends, all of them, and nothing else. */
  lemma StripTrims(s: string) returns (i: nat, j: nat)
    ensures i <= j <= |s| && Strip(s) == s[i..j] && Stripped(Strip(s))
    ensures forall k :: 0 <= k < i || j <= k < |s| ==> Space(s[k])
  {
    var t := StripLeft(s);
    StripLeftTrims(s);
    StripRightTrims(t);
    i := |s| - |t|;
    j := i + |StripRight(t)|;
    forall k | j <= k < |s| ensures Space(s[k]) {
      assert s[k] == t[k - i];
    }
  }

  /** The blanks of ASCII, separators 28 to 31 included. */
  lemma SpaceIs(c: char)
    ensures Space(c) <==> c == ' ' || c == '\t' || c == '\n' || c == '\r' || c as int == 11 || c as int == 12
                          || 28 <= c as int <= 31
  {
  }

  lemma LowerIs(c: char)
    ensures 'A' <= c <= 'Z' ==> Lower(c) as int - 'a' as int == c as int - 'A' as int
    ensures !('A' <= c <= 'Z') ==> Lower(c) == c
  {
  }

  lemma EndsIff(s: string, suffix: string)
    ensures EndsWith(s, suffix) <==> exists p :: s == p + suffix
  {
    if EndsWith(s, suffix) {
      assert s == s[..|s| - |suffix|] + suffix;
    }
  }

  lemma {:induction false} ContainsPart(s: string, a: string, part: string, b: string)
    requires s == a + part + b
    ensures Contains(s, part)
  {
    if a != "" {
      ContainsPart(s[1..], a[1..], part, b);
    }
  }

  lemma {:induction false} PartContained(s: string, part: string) returns (a: string, b: string)
    requires Contains(s, part)
    ensures s == a + part + b
  {
    if StartsWith(s, part) {
      a, b := "", s[|part|..];
    } else {
      a, b := PartContained(s[1..], part);
      a := [s[0]] + a;
    }
  }

  lemma ContainsIff(s: string, part: string)
    ensures Contains(s, part) <==> exists a, b :: s == a + part + b
  {
    if Contains(s, part) {
      var a, b := PartContained(s, part);
    }
    if a, b :| s == a + part + b {
      ContainsPart(s, a, part, b);
    }
  }
}
