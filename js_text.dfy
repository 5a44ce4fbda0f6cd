/** The JavaScript string primitives the server routes and the browser client rely on
    (String.prototype.split, join, trim, startsWith, includes, toLowerCase, number-to-string),
    stated over Dafny strings. */
module JsText {

  datatype Option<T> = None | Some(value: T)

  /** The characters that String.prototype.trim removes and that the regular-expression
      class \s matches: the ECMAScript WhiteSpace and LineTerminator characters. */
  predicate IsSpace(c: char) {
    c == ' ' || c == '\t' || c == '\n' || c == '\r' || c == '\U{B}' || c == '\U{C}'
    || c == '\U{A0}' || c == '\U{1680}' || ('\U{2000}' <= c <= '\U{200A}')
    || c == '\U{2028}' || c == '\U{2029}' || c == '\U{202F}' || c == '\U{205F}'
    || c == '\U{3000}' || c == '\U{FEFF}'
  }

  predicate StartsWith<T(==)>(s: seq<T>, prefix: seq<T>) {
    |prefix| <= |s| && s[..|prefix|] == prefix
  }

  predicate EndsWith(s: string, suffix: string) {
    |suffix| <= |s| && s[|s| - |suffix|..] == suffix
  }

  /** String.prototype.includes */
  predicate Contains(s: string, sub: string)
    decreases |s|
  {
    StartsWith(s, sub) || (|s| > 0 && Contains(s[1..], sub))
  }

  function Last<T>(s: seq<T>): T
    requires |s| > 0
  {
    s[|s| - 1]
  }

  function Init<T>(s: seq<T>): seq<T>
    requires |s| > 0
  {
    s[..|s| - 1]
  }

  lemma InitLast<T>(s: seq<T>)
    requires |s| > 0
    ensures s == Init(s) + [Last(s)]
  {
  }

  lemma PrefixStep<T>(s: seq<T>, k: nat)
    requires k < |s|
    ensures Init(s[..k + 1]) == s[..k] && Last(s[..k + 1]) == s[k]
  {
  }

  lemma ConcatAssoc<T>(a: seq<T>, b: seq<T>, c: seq<T>)
    ensures a + (b + c) == a + b + c
  {
  }

  // ---------------------------------------------------------------------------
  // split and join
  // ---------------------------------------------------------------------------

  /** s.split(sep) for a one-character separator: the maximal separator-free segments,
      in order, always at least one (possibly empty) segment. */
  function Split(s: string, sep: char): (parts: seq<string>)
    ensures |parts| >= 1
    decreases |s|
  {
    if |s| == 0 then [""]
    else
      var rest := Split(s[1..], sep);
      if s[0] == sep then [""] + rest
      else [[s[0]] + rest[0]] + rest[1..]
  }

  /** parts.join(sep) */
  function Join(parts: seq<string>, sep: string): string
    decreases |parts|
  {
    if |parts| == 0 then ""
    else if |parts| == 1 then parts[0]
    else parts[0] + sep + Join(parts[1..], sep)
  }

  /** Splitting and re-joining gives the original text back, and no segment holds the separator. */
  lemma SplitJoin(s: string, sep: char)
    ensures Join(Split(s, sep), [sep]) == s
    ensures forall k :: 0 <= k < |Split(s, sep)| ==> sep !in Split(s, sep)[k]
  {
    SplitRejoins(s, sep);
    SplitSegmentsFree(s, sep);
  }

  lemma {:induction false} SplitRejoins(s: string, sep: char)
    ensures Join(Split(s, sep), [sep]) == s
    decreases |s|
  {
    if |s| > 0 {
      SplitRejoins(s[1..], sep);
      var rest := Split(s[1..], sep);
      if s[0] == sep {
        assert Split(s, sep) == [""] + rest;
        assert Join([""] + rest, [sep]) == "" + [sep] + Join(rest, [sep]);
        assert s == [sep] + s[1..];
      } else {
        var parts := [[s[0]] + rest[0]] + rest[1..];
        assert Split(s, sep) == parts;
        assert s == [s[0]] + s[1..];
        if |rest| > 1 {
          assert parts[1..] == rest[1..];
          assert Join(rest, [sep]) == rest[0] + [sep] + Join(rest[1..], [sep]);
          assert Join(parts, [sep]) == parts[0] + [sep] + Join(rest[1..], [sep]);
        }
      }
    }
  }

  lemma {:induction false} SplitSegmentsFree(s: string, sep: char)
    ensures forall k :: 0 <= k < |Split(s, sep)| ==> sep !in Split(s, sep)[k]
    decreases |s|
  {
    if |s| > 0 {
      SplitSegmentsFree(s[1..], sep);
    }
  }

  lemma {:induction false} JoinInitLast(parts: seq<string>, sep: string)
    requires |parts| >= 1
    ensures Join(parts, sep) == (if |parts| == 1 then "" else Join(Init(parts), sep) + sep) + Last(parts)
    decreases |parts|
  {
    if |parts| > 2 {
      JoinInitLast(parts[1..], sep);
      assert Init(parts)[1..] == Init(parts[1..]);
    }
  }

  /** Joining two non-empty lists one after the other puts the separator between them. */
  lemma {:induction false} JoinConcat(p: seq<string>, q: seq<string>, sep: string)
    requires |p| >= 1 && |q| >= 1
    ensures Join(p + q, sep) == Join(p, sep) + sep + Join(q, sep)
    decreases |p|
  {
    assert (p + q)[1..] == p[1..] + q;
    if |p| > 1 {
      JoinConcat(p[1..], q, sep);
    }
  }

  /** Where part `k` starts in `Join(parts, sep)`: after the parts before it and one separator. */
  function PartOffset(parts: seq<string>, sep: string, k: nat): nat
    requires k < |parts|
  {
    if k == 0 then 0 else |Join(parts[..k], sep)| + |sep|
  }

  /** A joined list starts with its first part. */
  lemma JoinStartsWithFirst(parts: seq<string>, sep: string)
    requires |parts| >= 1
    ensures |parts[0]| <= |Join(parts, sep)| && Join(parts, sep)[..|parts[0]|] == parts[0]
  {
    if |parts| > 1 {
      assert Join(parts, sep) == parts[0] + (sep + Join(parts[1..], sep));
    }
  }

  /** Every part is found, unchanged, at its offset in the joined text. */
  lemma JoinHasPart(parts: seq<string>, sep: string, k: nat)
    requires k < |parts|
    ensures PartOffset(parts, sep, k) + |parts[k]| <= |Join(parts, sep)|
    ensures Join(parts, sep)[PartOffset(parts, sep, k)..PartOffset(parts, sep, k) + |parts[k]|] == parts[k]
  {
    var q := parts[k..];
    JoinStartsWithFirst(q, sep);
    if k == 0 {
      assert q == parts;
    } else {
      var p := parts[..k];
      assert p + q == parts;
      JoinConcat(p, q, sep);
      SliceAfter(Join(p, sep) + sep, Join(q, sep), 0, |parts[k]|);
    }
  }

  /** A slice of the second text keeps its place, shifted, in the two joined. */
  lemma SliceAfter(h: string, j: string, o: nat, n: nat)
    requires o + n <= |j|
    ensures (h + j)[|h| + o..|h| + o + n] == j[o..o + n]
  {
  }

  /** A text holds every slice of itself. */
  lemma {:induction false} ContainsAt(s: string, sub: string, i: nat)
    requires i + |sub| <= |s| && s[i..i + |sub|] == sub
    ensures Contains(s, sub)
    decreases i
  {
    if i > 0 {
      assert s[1..][i - 1..i - 1 + |sub|] == sub;
      ContainsAt(s[1..], sub, i - 1);
    }
  }

  /** A text holds whatever stands between its beginning and its end. */
  lemma ContainsMiddle(x: string, y: string, z: string)
    ensures Contains(x + y + z, y)
  {
    assert (x + y + z)[|x|..|x| + |y|] == y;
    ContainsAt(x + y + z, y, |x|);
  }

  /** A text put between a head and a tail keeps the head's prefixes and ends with the tail. */
  lemma Enclosed(head: string, body: string, tail: string, prefix: string)
    requires StartsWith(head, prefix)
    ensures StartsWith(head + body + tail, prefix)
    ensures EndsWith(head + body + tail, tail)
  {
    assert (head + body + tail)[..|prefix|] == head[..|prefix|];
    assert (head + body + tail)[|head + body|..] == tail;
  }

  /** Text added at the end keeps what a text holds. */
  lemma {:induction false} ContainsExtend(s: string, t: string, sub: string)
    requires Contains(s, sub)
    ensures Contains(s + t, sub)
    decreases |s|
  {
    if StartsWith(s, sub) {
      assert (s + t)[..|sub|] == s[..|sub|];
    } else {
      assert (s + t)[1..] == s[1..] + t;
      ContainsExtend(s[1..], t, sub);
    }
  }

  /** A text with a joined list in it holds every part of the list. */
  lemma ContainsJoinedPart(x: string, parts: seq<string>, sep: string, z: string, k: nat)
    requires k < |parts|
    ensures Contains(x + Join(parts, sep) + z, parts[k])
  {
    var j := Join(parts, sep);
    JoinHasPart(parts, sep, k);
    var o := PartOffset(parts, sep, k);
    assert (x + j + z)[|x| + o..|x| + o + |parts[k]|] == j[o..o + |parts[k]|];
    ContainsAt(x + j + z, parts[k], |x| + o);
  }

  /** The complete segments of a split, each followed by the separator, and then the last
      (incomplete) segment give the text back. */
  lemma SplitRejoin(s: string, sep: char)
    ensures var parts := Split(s, sep);
      (if |parts| == 1 then "" else Join(Init(parts), [sep]) + [sep]) + Last(parts) == s
      && (forall k :: 0 <= k < |parts| ==> sep !in parts[k])
  {
    SplitJoin(s, sep);
    JoinInitLast(Split(s, sep), [sep]);
  }

  /** A text without the separator is one segment. */
  lemma {:induction false} SplitWithoutSeparator(s: string, sep: char)
    requires sep !in s
    ensures Split(s, sep) == [s]
    decreases |s|
  {
    if |s| > 0 {
      SplitWithoutSeparator(s[1..], sep);
      assert s == [s[0]] + s[1..];
    }
  }

  /** Appending text only extends the last segment of a split and adds segments after it:
      the complete segments of s stay as they are. */
  lemma {:induction false} SplitAppend(s: string, t: string, sep: char)
    ensures Split(s + t, sep) == Init(Split(s, sep)) + Split(Last(Split(s, sep)) + t, sep)
    decreases |s|
  {
    if |s| == 0 {
      assert s + t == t;
    } else {
      SplitAppend(s[1..], t, sep);
      SplitAppendStep(s, t, sep);
    }
  }

  /** The step of SplitAppend: from the tail of s to all of s. */
  lemma SplitAppendStep(s: string, t: string, sep: char)
    requires |s| > 0
    requires Split(s[1..] + t, sep) == Init(Split(s[1..], sep)) + Split(Last(Split(s[1..], sep)) + t, sep)
    ensures Split(s + t, sep) == Init(Split(s, sep)) + Split(Last(Split(s, sep)) + t, sep)
  {
    assert (s + t)[1..] == s[1..] + t;
    if s[0] == sep {
      StepAtSeparator(s, t, sep);
    } else if |Split(s[1..], sep)| == 1 {
      StepInOnlySegment(s, t, sep);
    } else {
      StepInFirstSegment(s, t, sep);
    }
  }

  lemma StepAtSeparator(s: string, t: string, sep: char)
    requires |s| > 0 && s[0] == sep && (s + t)[1..] == s[1..] + t
    requires Split(s[1..] + t, sep) == Init(Split(s[1..], sep)) + Split(Last(Split(s[1..], sep)) + t, sep)
    ensures Split(s + t, sep) == Init(Split(s, sep)) + Split(Last(Split(s, sep)) + t, sep)
  {
    var rest := Split(s[1..], sep);
    assert (s + t)[0] == sep;
    assert Split(s + t, sep) == [""] + Split(s[1..] + t, sep);
    assert Split(s, sep) == [""] + rest;
    assert Init([""] + rest) == [""] + Init(rest) && Last([""] + rest) == Last(rest);
    ConcatAssoc([""], Init(rest), Split(Last(rest) + t, sep));
  }

  lemma StepInOnlySegment(s: string, t: string, sep: char)
    requires |s| > 0 && s[0] != sep && |Split(s[1..], sep)| == 1
    ensures Split(s + t, sep) == Init(Split(s, sep)) + Split(Last(Split(s, sep)) + t, sep)
  {
    SplitJoin(s[1..], sep);
    assert s == [s[0]] + s[1..];
    assert Split(s, sep) == [s];
    assert Last(Split(s, sep)) + t == s + t;
  }

  lemma StepInFirstSegment(s: string, t: string, sep: char)
    requires |s| > 0 && s[0] != sep && |Split(s[1..], sep)| > 1 && (s + t)[1..] == s[1..] + t
    requires Split(s[1..] + t, sep) == Init(Split(s[1..], sep)) + Split(Last(Split(s[1..], sep)) + t, sep)
    ensures Split(s + t, sep) == Init(Split(s, sep)) + Split(Last(Split(s, sep)) + t, sep)
  {
    var rest := Split(s[1..], sep);
    var tail := Split(Last(rest) + t, sep);
    var whole := Split(s[1..] + t, sep);
    var head := [[s[0]] + rest[0]];
    var mid := Init(rest)[1..];
    assert whole[0] == rest[0] && whole[1..] == mid + tail;
    assert Split(s + t, sep) == head + (mid + tail);
    assert Split(s, sep) == head + rest[1..];
    assert Init(Split(s, sep)) == head + mid && Last(Split(s, sep)) == Last(rest);
    ConcatAssoc(head, mid, tail);
  }

  /** A separator-free segment followed by a separator is one complete segment. */
  lemma {:induction false} SplitSegmentThenSeparator(l: string, b: string, sep: char)
    requires sep !in l
    ensures Split(l + [sep] + b, sep) == [l] + Split(b, sep)
    decreases |l|
  {
    if |l| == 0 {
      assert ([sep] + b)[1..] == b;
    } else {
      assert (l + [sep] + b)[1..] == l[1..] + [sep] + b;
      SplitSegmentThenSeparator(l[1..], b, sep);
      assert l == [l[0]] + l[1..];
    }
  }

  /** Splitting at a separator splits the two sides independently. */
  lemma SplitAtSeparator(a: string, b: string, sep: char)
    ensures Split(a + [sep] + b, sep) == Split(a, sep) + Split(b, sep)
  {
    var parts := Split(a, sep);
    var l := Last(parts);
    SplitAppend(a, [sep] + b, sep);
    ConcatAssoc(a, [sep], b);
    ConcatAssoc(l, [sep], b);
    SplitJoin(a, sep);
    assert sep !in parts[|parts| - 1];
    SplitSegmentThenSeparator(l, b, sep);
    Regroup(Split(a + [sep] + b, sep), parts, Split(b, sep));
  }

  /** Putting the last element back in front of what follows gives the whole sequence. */
  lemma Regroup<T>(x: seq<T>, parts: seq<T>, rest: seq<T>)
    requires |parts| > 0 && x == Init(parts) + ([Last(parts)] + rest)
    ensures x == parts + rest
  {
    ConcatAssoc(Init(parts), [Last(parts)], rest);
    assert Init(parts) + [Last(parts)] == parts;
  }

  /** String.prototype.indexOf for one character, `None` for -1. */
  function IndexOf(s: string, c: char): (d: Option<nat>)
    ensures d.Some? ==> d.value < |s| && s[d.value] == c && c !in s[..d.value]
    ensures d.None? ==> c !in s
    decreases |s|
  {
    if |s| == 0 then None
    else if s[0] == c then Some(0)
    else
      var d := IndexOf(s[1..], c);
      assert d.Some? ==> s[..d.value + 1] == [s[0]] + s[1..][..d.value];
      assert d.None? ==> s == [s[0]] + s[1..];
      if d.Some? then Some(d.value + 1) else None
  }

  /** String.prototype.lastIndexOf for one character, `None` for -1. */
  function LastIndexOf(s: string, c: char): (d: Option<nat>)
    ensures d.Some? ==> d.value < |s| && s[d.value] == c && c !in s[d.value + 1..]
    ensures d.None? ==> c !in s
    decreases |s|
  {
    if |s| == 0 then None
    else if s[|s| - 1] == c then Some(|s| - 1)
    else
      var d := LastIndexOf(s[..|s| - 1], c);
      assert d.Some? ==> s[d.value + 1..] == s[..|s| - 1][d.value + 1..] + [s[|s| - 1]];
      assert d.None? ==> s == s[..|s| - 1] + [s[|s| - 1]];
      d
  }

  // ---------------------------------------------------------------------------
  // trim
  // ---------------------------------------------------------------------------

  function TrimStart(s: string): (r: string)
    ensures |r| <= |s| && r == s[|s| - |r|..]
    ensures |r| > 0 ==> !IsSpace(r[0])
    ensures forall k :: 0 <= k < |s| - |r| ==> IsSpace(s[k])
    decreases |s|
  {
    if |s| > 0 && IsSpace(s[0]) then TrimStart(s[1..]) else s
  }

  function TrimEnd(s: string): (r: string)
    ensures |r| <= |s| && r == s[..|r|]
    ensures |r| > 0 ==> !IsSpace(r[|r| - 1])
    ensures forall k :: |r| <= k < |s| ==> IsSpace(s[k])
    decreases |s|
  {
    if |s| > 0 && IsSpace(s[|s| - 1]) then TrimEnd(s[..|s| - 1]) else s
  }

  lemma TrimStartDrop(s: string)
    requires |s| > 0 && IsSpace(s[0])
    ensures TrimStart(s) == TrimStart(s[1..])
  {
  }

  /** Leading white space goes, up to the first other character. */
  lemma {:induction false} TrimStartSpaces(ws: string, rest: string)
    requires forall k :: 0 <= k < |ws| ==> IsSpace(ws[k])
    requires |rest| > 0 && !IsSpace(rest[0])
    ensures TrimStart(ws + rest) == rest
    decreases |ws|
  {
    if |ws| > 0 {
      assert (ws + rest)[1..] == ws[1..] + rest;
      TrimStartSpaces(ws[1..], rest);
    }
  }

  lemma TrimEndDrop(s: string)
    requires |s| > 0 && IsSpace(s[|s| - 1])
    ensures TrimEnd(s) == TrimEnd(s[..|s| - 1])
  {
  }

  /** A text that neither starts nor ends with white space. */
  predicate IsTrimmed(s: string) {
    |s| == 0 || (!IsSpace(s[0]) && !IsSpace(s[|s| - 1]))
  }

  /** String.prototype.trim: the text between the leading and the trailing white space. */
  function Trim(s: string): (r: string)
    ensures IsTrimmed(r) && |r| <= |s|
  {
    var a := TrimStart(s);
    var r := TrimEnd(a);
    assert |r| > 0 ==> r[0] == a[0];
    r
  }

  lemma TrimOfTrimmed(s: string)
    requires IsTrimmed(s)
    ensures Trim(s) == s
  {
  }

  // ---------------------------------------------------------------------------
  // characters, case and numbers
  // ---------------------------------------------------------------------------

  /** String.prototype.toLowerCase on the ASCII letters. */
  function LowerChar(c: char): char {
    if 'A' <= c <= 'Z' then (c as int + 32) as char else c
  }

  function ToLower(s: string): (r: string)
    ensures |r| == |s| && forall k :: 0 <= k < |s| ==> r[k] == LowerChar(s[k])
  {
    seq(|s|, k requires 0 <= k < |s| => LowerChar(s[k]))
  }

  /** Every occurrence of one character replaced by another (a global one-character regular
      expression replacement). */
  function ReplaceChar(s: string, from: char, to: char): (r: string)
    ensures |r| == |s|
    ensures forall k :: 0 <= k < |s| ==> r[k] == (if s[k] == from then to else s[k])
  {
    seq(|s|, k requires 0 <= k < |s| => if s[k] == from then to else s[k])
  }

  predicate IsDigit(c: char) {
    '0' <= c <= '9'
  }

  function Digit(d: nat): (c: char)
    requires d < 10
    ensures IsDigit(c) && (c as int) - ('0' as int) == d
  {
    ('0' as int + d) as char
  }

  /** The decimal text JavaScript produces for a non-negative integer (String(n), `${n}`). */
  function NatToString(n: nat): (s: string)
    ensures |s| >= 1 && forall k :: 0 <= k < |s| ==> IsDigit(s[k])
    ensures |s| > 1 ==> s[0] != '0'
  {
    if n < 10 then [Digit(n)] else NatToString(n / 10) + [Digit(n % 10)]
  }

  /** The value of a string of decimal digits (parseInt on such a string). */
  function DigitsValue(s: string): nat
    requires forall k :: 0 <= k < |s| ==> IsDigit(s[k])
  {
    if |s| == 0 then 0
    else
      assert IsDigit(s[|s| - 1]);
      10 * DigitsValue(s[..|s| - 1]) + ((s[|s| - 1] as int) - ('0' as int))
  }

  /** Reading back the decimal text gives the number. */
  lemma {:induction false} NatToStringRoundTrip(n: nat)
    ensures DigitsValue(NatToString(n)) == n
  {
    if n >= 10 {
      NatToStringRoundTrip(n / 10);
      var s := NatToString(n);
      assert s[..|s| - 1] == NatToString(n / 10);
    }
  }

  /** Distinct numbers have distinct decimal texts. */
  lemma NatToStringInjective(a: nat, b: nat)
    requires NatToString(a) == NatToString(b)
    ensures a == b
  {
    NatToStringRoundTrip(a);
    NatToStringRoundTrip(b);
  }
}
