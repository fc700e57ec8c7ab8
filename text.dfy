/** The few Python `str` operations the modelled code relies on. */
module Text {

  /** Concatenation regrouped to the right. */
  lemma Regroup<T>(a: seq<T>, b: seq<T>, c: seq<T>, d: seq<T>)
    ensures a + b + c + d == a + (b + (c + d))
    ensures (a + (b + (c + d)))[|a|..] == b + (c + d)
  {
  }

  /** `sep.join(xs)`: empty for no items; otherwise it begins with the first item. */
  function Join(xs: seq<string>, sep: string): (r: string)
    ensures |xs| == 0 ==> r == ""
    ensures |xs| >= 1 ==> xs[0] <= r
  {
    if |xs| == 0 then ""
    else if |xs| == 1 then xs[0]
    else xs[0] + sep + Join(xs[1..], sep)
  }

  /** The position of the first `c` in `s` (`s.index(c)` when `c` occurs). */
  function IndexOf<T(==)>(s: seq<T>, c: T): (i: nat)
    requires c in s
    ensures i < |s| && s[i] == c && c !in s[..i]
  {
    if s[0] == c then 0 else 1 + IndexOf(s[1..], c)
  }

  /** `s.split(c)` for a one-character separator: never empty, and no piece holds `c`;
      the first piece runs up to the first `c`, and a second piece exists iff `c` occurs. */
  function SplitOn(s: string, c: char): (parts: seq<string>)
    ensures |parts| >= 1
    ensures forall k :: 0 <= k < |parts| ==> c !in parts[k]
    ensures parts[0] <= s && (|parts[0]| == |s| || s[|parts[0]|] == c)
    ensures |parts| >= 2 <==> c in s
    decreases |s|
  {
    if c !in s then [s]
    else
      var i := IndexOf(s, c);
      [s[..i]] + SplitOn(s[i + 1..], c)
  }

  /** Where `c` occurs, the split is the text before its first occurrence followed by
      the split of what comes after it. */
  lemma SplitOnFirst(s: string, c: char)
    requires c in s
    ensures SplitOn(s, c) == [s[..IndexOf(s, c)]] + SplitOn(s[IndexOf(s, c) + 1..], c)
  {
  }

  /** Joining the pieces of a split with the separator gives back the string. */
  lemma {:induction false} JoinSplitOn(s: string, c: char)
    ensures Join(SplitOn(s, c), [c]) == s
    decreases |s|
  {
    if c in s {
      var i := IndexOf(s, c);
      JoinSplitOn(s[i + 1..], c);
      assert s == s[..i] + [c] + s[i + 1..];
    }
  }

  /** The prefix of a join up to its first separator is the first item. */
  lemma JoinHead(xs: seq<string>, c: char)
    requires |xs| >= 2 && c !in xs[0]
    ensures c in Join(xs, [c])
    ensures IndexOf(Join(xs, [c]), c) == |xs[0]|
  {
    var s := Join(xs, [c]);
    assert s == xs[0] + [c] + Join(xs[1..], [c]);
    assert s[|xs[0]|] == c;
    assert s[..|xs[0]|] == xs[0];
  }

  /** Splitting a join of two or more items cuts off the first item, when it is free of
      the separator. */
  lemma SplitOnJoinStep(xs: seq<string>, c: char)
    requires |xs| >= 2 && c !in xs[0]
    ensures SplitOn(Join(xs, [c]), c) == [xs[0]] + SplitOn(Join(xs[1..], [c]), c)
  {
    var s := Join(xs, [c]);
    var rest := Join(xs[1..], [c]);
    assert s == xs[0] + [c] + rest;
    JoinHead(xs, c);
    assert s[..|xs[0]|] == xs[0];
    assert s[|xs[0]| + 1..] == rest;
  }

  lemma FreeTail(xs: seq<string>, c: char)
    requires |xs| >= 1
    requires forall k :: 0 <= k < |xs| ==> c !in xs[k]
    ensures forall k :: 0 <= k < |xs[1..]| ==> c !in xs[1..][k]
  {
    forall k | 0 <= k < |xs[1..]| ensures c !in xs[1..][k] {
      assert xs[1..][k] == xs[k + 1];
    }
  }

  lemma SplitOnJoinOne(xs: seq<string>, c: char)
    requires |xs| == 1 && c !in xs[0]
    ensures SplitOn(Join(xs, [c]), c) == xs
  {
    assert Join(xs, [c]) == xs[0];
  }

  /** Splitting a join of separator-free items gives back the items, in order. */
  lemma {:induction false} SplitOnJoin(xs: seq<string>, c: char)
    requires |xs| >= 1
    requires forall k :: 0 <= k < |xs| ==> c !in xs[k]
    ensures SplitOn(Join(xs, [c]), c) == xs
  {
    if |xs| >= 2 {
      var tail := xs[1..];
      FreeTail(xs, c);
      SplitOnJoin(tail, c);
      assert SplitOn(Join(tail, [c]), c) == tail;
      SplitOnJoinStep(xs, c);
      assert xs == [xs[0]] + tail;
    } else {
      SplitOnJoinOne(xs, c);
    }
  }

  /** A join of two or more items holds the separator. */
  lemma {:induction false} JoinHoldsSeparator(xs: seq<string>, c: char)
    requires |xs| >= 2
    ensures c in Join(xs, [c])
  {
    var s := Join(xs, [c]);
    assert s == xs[0] + [c] + Join(xs[1..], [c]);
    assert s[|xs[0]|] == c;
  }

  /** A join of separator-free items is separator-free only when there are fewer than two items. */
  lemma {:induction false} JoinFreeOfSeparator(xs: seq<string>, c: char)
    requires forall k :: 0 <= k < |xs| ==> c !in xs[k]
    ensures c in Join(xs, [c]) <==> |xs| >= 2
  {
    if |xs| >= 2 {
      JoinHoldsSeparator(xs, c);
    }
  }

  /** `ch.isspace()`: the characters Python's `str.split()` splits on. */
  predicate IsSpace(ch: char) {
    var n := ch as int;
    n == 32 || 9 <= n <= 13 || 28 <= n <= 31 || n == 0x85 || n == 0xA0 || n == 0x1680 ||
    0x2000 <= n <= 0x200A || n == 0x2028 || n == 0x2029 || n == 0x202F || n == 0x205F ||
    n == 0x3000
  }

  /** A token of `str.split()`: non-empty and free of whitespace. */
  predicate IsWord(w: string) {
    w != [] && forall k :: 0 <= k < |w| ==> !IsSpace(w[k])
  }

  /** The length of the whitespace-free prefix of `s`. */
  function WordLen(s: string): (n: nat)
    ensures n <= |s|
    ensures forall k :: 0 <= k < n ==> !IsSpace(s[k])
    ensures n < |s| ==> IsSpace(s[n])
  {
    if s == [] || IsSpace(s[0]) then 0 else 1 + WordLen(s[1..])
  }

  /** `s.split()`: the maximal runs of non-whitespace characters, in order. */
  function Words(s: string): (ws: seq<string>)
    ensures forall k :: 0 <= k < |ws| ==> IsWord(ws[k])
    decreases |s|
  {
    if s == [] then []
    else if IsSpace(s[0]) then Words(s[1..])
    else
      var n := WordLen(s);
      [s[..n]] + Words(s[n..])
  }

  lemma {:induction false} WordLenOfWord(w: string, rest: string)
    requires IsWord(w)
    requires rest == [] || IsSpace(rest[0])
    ensures WordLen(w + rest) == |w|
  {
    if |w| > 1 {
      assert (w + rest)[1..] == w[1..] + rest;
      WordLenOfWord(w[1..], rest);
    } else {
      assert (w + rest)[1..] == rest;
    }
  }

  /** Leading whitespace produces no token: `split()` skips it. */
  lemma WordsSkipSpace(c: char, s: string)
    requires IsSpace(c)
    ensures Words([c] + s) == Words(s)
  {
    assert ([c] + s)[1..] == s;
  }

  /** A whole run of whitespace, of any length, produces no token. */
  lemma {:induction false} WordsSkipRun(sp: string, s: string)
    requires forall k :: 0 <= k < |sp| ==> IsSpace(sp[k])
    ensures Words(sp + s) == Words(s)
  {
    if sp != [] {
      assert sp + s == [sp[0]] + (sp[1..] + s);
      WordsSkipSpace(sp[0], sp[1..] + s);
      WordsSkipRun(sp[1..], s);
    } else {
      assert sp + s == s;
    }
  }

  /** A word followed by whitespace (or by nothing) splits off as the first token. */
  lemma WordsCons(w: string, rest: string)
    requires IsWord(w)
    requires rest == [] || IsSpace(rest[0])
    ensures Words(w + rest) == [w] + Words(rest)
  {
    WordLenOfWord(w, rest);
    assert (w + rest)[..|w|] == w;
    assert (w + rest)[|w|..] == rest;
  }

  /** `" ".join(ws).split() == ws` for whitespace-free, non-empty tokens. */
  lemma {:induction false} WordsOfJoin(ws: seq<string>)
    requires forall k :: 0 <= k < |ws| ==> IsWord(ws[k])
    ensures Words(Join(ws, " ")) == ws
  {
    if |ws| == 1 {
      WordsCons(ws[0], "");
      assert ws[0] + "" == ws[0];
    } else if |ws| >= 2 {
      var rest := Join(ws[1..], " ");
      assert Join(ws, " ") == ws[0] + (" " + rest);
      WordsCons(ws[0], " " + rest);
      assert (" " + rest)[1..] == rest;
      WordsOfJoin(ws[1..]);
      assert ws == [ws[0]] + ws[1..];
    }
  }

  /** `s.replace(pat, rep)`: every non-overlapping occurrence of `pat`, scanned left to
      right, is replaced; an empty `pat` inserts `rep` around every character. */
  function Replace(s: string, pat: string, rep: string): (r: string)
    ensures pat != [] && |rep| == |pat| ==> |r| == |s|
    ensures pat == [] ==> |r| == |s| + |rep| * (|s| + 1)
    decreases |s|
  {
    if pat == [] then rep + Interleave(s, rep)
    else if |s| < |pat| then s
    else if s[..|pat|] == pat then rep + Replace(s[|pat|..], pat, rep)
    else [s[0]] + Replace(s[1..], pat, rep)
  }

  /** With an empty pattern the replacement comes first, and then each character of `s`
      is followed by it: the result is `rep`, `s[0]`, then the replacement of `s[1..]`. */
  lemma ReplaceEmpty(s: string, rep: string)
    ensures Replace(s, "", rep)[..|rep|] == rep
    ensures s == [] ==> Replace(s, "", rep) == rep
    ensures s != [] ==> Replace(s, "", rep)[|rep|] == s[0] &&
                        Replace(s, "", rep)[|rep| + 1..] == Replace(s[1..], "", rep)
  {
    var r := Replace(s, "", rep);
    var tail := Interleave(s, rep);
    assert r == rep + tail;
    assert r[..|rep|] == rep;
    if s != [] {
      var rest := Replace(s[1..], "", rep);
      assert rest == rep + Interleave(s[1..], rep);
      DropFirst(s[0], rep, Interleave(s[1..], rep));
      assert r[|rep| + 1..] == tail[1..];
    }
  }

  /** Dropping the first character of `[c] + a + b` leaves `a + b`. */
  lemma DropFirst(c: char, a: string, b: string)
    ensures ([c] + a + b)[1..] == a + b
  {
  }

  /** `pat` occurs in `s` at some position. */
  predicate OccursIn(pat: string, s: string) {
    exists k :: 0 <= k <= |s| && pat <= s[k..]
  }

  /** A non-empty pattern that does not occur leaves the text unchanged. */
  lemma {:induction false} ReplaceAbsent(s: string, pat: string, rep: string)
    requires pat != [] && !OccursIn(pat, s)
    ensures Replace(s, pat, rep) == s
    decreases |s|
  {
    if |s| >= |pat| {
      assert s[0..] == s;
      assert !(pat <= s);
      forall k | 0 <= k <= |s[1..]|
        ensures !(pat <= s[1..][k..])
      {
        assert s[1..][k..] == s[k + 1..];
      }
      ReplaceAbsent(s[1..], pat, rep);
      assert s == [s[0]] + s[1..];
    }
  }

  /** Every character of `s` followed by `rep`. */
  function Interleave(s: string, rep: string): (r: string)
    ensures |r| == |s| + |rep| * |s|
  {
    if s == [] then [] else [s[0]] + rep + Interleave(s[1..], rep)
  }

  /** With a one-character pattern and replacement, `replace` maps characters one to one. */
  lemma {:induction false} ReplaceChar(s: string, c: char, d: char)
    ensures |Replace(s, [c], [d])| == |s|
    ensures forall k :: 0 <= k < |s| ==>
      Replace(s, [c], [d])[k] == if s[k] == c then d else s[k]
  {
    if s != [] {
      ReplaceChar(s[1..], c, d);
      var r := Replace(s, [c], [d]);
      assert r == (if s[0] == c then [d] else [s[0]]) + Replace(s[1..], [c], [d]);
    }
  }

  /** Strips every leading `c`. */
  function StripLeft(s: string, c: char): (r: string)
    ensures |r| <= |s| && r == s[|s| - |r|..]
    ensures forall k :: 0 <= k < |s| - |r| ==> s[k] == c
    ensures r == [] || r[0] != c
  {
    if s != [] && s[0] == c then StripLeft(s[1..], c) else s
  }

  /** Strips every trailing `c`. */
  function StripRight(s: string, c: char): (r: string)
    ensures |r| <= |s| && r == s[..|r|]
    ensures forall k :: |r| <= k < |s| ==> s[k] == c
    ensures r == [] || r[|r| - 1] != c
  {
    if s != [] && s[|s| - 1] == c then StripRight(s[..|s| - 1], c) else s
  }

  /** `s.strip(c)`: no longer than `s`, neither starting nor ending with `c`, and `s`
      itself when `c` does not occur in it. */
  function Strip(s: string, c: char): (r: string)
    ensures |r| <= |s|
    ensures r == [] || (r[0] != c && r[|r| - 1] != c)
    ensures c !in s ==> r == s
  {
    StripRight(StripLeft(s, c), c)
  }

  function DigitChar(d: nat): (ch: char)
    requires d < 10
    ensures '0' <= ch <= '9' && ch as int - '0' as int == d
  {
    "0123456789"[d]
  }

  /** `str(n)` for a natural number: decimal digits, no leading zero. */
  function NatToString(n: nat): (s: string)
    ensures |s| >= 1
    ensures forall k :: 0 <= k < |s| ==> '0' <= s[k] <= '9'
    ensures n >= 10 ==> s[0] != '0'
  {
    if n < 10 then [DigitChar(n)] else NatToString(n / 10) + [DigitChar(n % 10)]
  }

  /** `str(i)` for any integer: a minus sign before the digits of a negative number. */
  function IntToString(i: int): (r: string)
    ensures r != "" && (r[0] == '-' <==> i < 0)
  {
    if i < 0 then "-" + NatToString(-i) else NatToString(i)
  }

  /** Reads decimal digits back into a number. */
  function ParseDigits(s: string): int
  {
    if s == [] then 0 else 10 * ParseDigits(s[..|s| - 1]) + (s[|s| - 1] as int - '0' as int)
  }

  lemma {:induction false} ParseNatToString(n: nat)
    ensures ParseDigits(NatToString(n)) == n
  {
    var s := NatToString(n);
    if n >= 10 {
      ParseNatToString(n / 10);
      assert s == NatToString(n / 10) + [DigitChar(n % 10)];
      assert s[..|s| - 1] == NatToString(n / 10);
      assert s[|s| - 1] == DigitChar(n % 10);
      assert ParseDigits(s) == 10 * (n / 10) + n % 10;
    } else {
      assert s == [DigitChar(n)];
      assert s[..|s| - 1] == [];
    }
  }

  /** Reads `str(i)` back: an optional minus sign, then digits. */
  function ParseInt(s: string): int
  {
    if s != [] && s[0] == '-' then -ParseDigits(s[1..]) else ParseDigits(s)
  }

  /** A leading minus sign negates the digits after it. */
  lemma ParseMinus(t: string)
    ensures ParseInt("-" + t) == -ParseDigits(t)
  {
    assert ("-" + t)[1..] == t;
  }

  /** A negative number is read back through its minus sign. */
  lemma ParseNegative(i: int)
    requires i < 0
    ensures ParseInt(IntToString(i)) == i
  {
    var n: nat := -i;
    ParseNatToString(n);
    ParseMinus(NatToString(n));
    assert IntToString(i) == "-" + NatToString(n);
  }

  /** A number that is not negative is read back from its digits alone. */
  lemma ParseNonNegative(i: int)
    requires i >= 0
    ensures ParseInt(IntToString(i)) == i
  {
    ParseNatToString(i);
    assert '0' <= NatToString(i)[0] <= '9';
  }

  /** Rendering a limit loses nothing: the text reads back as the same integer. */
  lemma ParseIntToString(i: int)
    ensures ParseInt(IntToString(i)) == i
  {
    if i < 0 {
      ParseNegative(i);
    } else {
      ParseNonNegative(i);
    }
  }

  /** A zero-padded decimal of at least `width` digits (`%02d`, `%06d`). */
  function ZeroPad(n: nat, width: nat): (s: string)
  {
    var d := NatToString(n);
    if |d| >= width then d else seq(width - |d|, _ => '0') + d
  }
}
