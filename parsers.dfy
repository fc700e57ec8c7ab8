/** guspy/parsers.py: the case-comment token parser and the support-shift windows.
    The command table is a parameter, an ordered sequence of (key, command words)
    pairs; dates are day numbers, with the calendar rendering passed in. */
module Parsers {
  import opened Wrappers
  import opened Text

  /** `last_item(ls, item)`: whether the first index of `item` is the last position;
      `list.index` raises ValueError when `item` is absent. */
  function LastItem<T(==)>(ls: seq<T>, item: T): (r: Result<bool, PyError>)
    ensures r.Failure? <==> item !in ls
    ensures r.Failure? ==> r.error == ValueError
    ensures r.Success? ==> (r.value <==> ls[|ls| - 1] == item && item !in ls[..|ls| - 1])
  {
    if item in ls then
      var i := IndexOf(ls, item);
      assert i < |ls| - 1 ==> ls[..|ls| - 1][i] == item;
      assert i == |ls| - 1 ==> ls[..|ls| - 1] == ls[..i];
      Success(i == |ls| - 1)
    else Failure(ValueError)
  }

  // ---------------------------------------------------------------------------
  // CaseCommentParser

  /** `search(word)`: the token right after the first occurrence of `word`; None when
      `word` is absent or only occurs as the last token. */
  function Search(items: seq<string>, word: string): (r: Option<string>)
    ensures r.Some? <==> |items| >= 1 && word in items[..|items| - 1]
    ensures r.Some? ==> exists i :: 0 <= i < |items| - 1 && items[i] == word && word !in items[..i] &&
                                   r.value == items[i + 1]
  {
    if word in items && IndexOf(items, word) + 1 < |items| then
      var i := IndexOf(items, word);
      assert items[..|items| - 1][i] == word;
      assert items[..i] == items[..|items| - 1][..i];
      Some(items[i + 1])
    else
      assert word in items ==> IndexOf(items, word) == |items| - 1;
      assert word in items ==> items[..|items| - 1] == items[..IndexOf(items, word)];
      None
  }

  /** The first occurrence of `c` in `pre + [c] + rest`, when `pre` lacks `c`, is right after `pre`. */
  lemma IndexAfter<T>(pre: seq<T>, c: T, rest: seq<T>)
    requires c !in pre
    ensures IndexOf(pre + [c] + rest, c) == |pre|
  {
    var s := pre + [c] + rest;
    assert s[|pre|] == c;
    assert s[..|pre|] == pre;
  }

  /** `search` finds the token after the first occurrence of the word. */
  lemma SearchAfter(pre: seq<string>, word: string, rest: seq<string>)
    requires word !in pre && |rest| >= 1
    ensures Search(pre + [word] + rest, word) == Some(rest[0])
  {
    var ws := pre + [word] + rest;
    IndexAfter(pre, word, rest);
    assert ws[|pre|] == word;
    assert ws[|pre| + 1] == rest[0];
  }

  /** The comment `pre word value post`, joined with spaces, splits back into its tokens. */
  lemma CommentWords(pre: seq<string>, word: string, value: string, post: seq<string>)
    requires forall k :: 0 <= k < |pre| ==> IsWord(pre[k])
    requires IsWord(word) && IsWord(value)
    requires forall k :: 0 <= k < |post| ==> IsWord(post[k])
    ensures Words(Join(pre + [word, value] + post, " ")) == pre + [word, value] + post
  {
    AllWords(pre, [word, value], post);
    WordsOfJoin(pre + [word, value] + post);
  }

  /** `search` finds the token after the first occurrence of the word. */
  lemma SearchAfterWord(pre: seq<string>, word: string, value: string, post: seq<string>)
    requires word !in pre
    ensures Search(pre + [word, value] + post, word) == Some(value)
  {
    var rest := [value] + post;
    assert pre + [word, value] + post == pre + [word] + rest;
    SearchAfter(pre, word, rest);
  }

  /** Whatever precedes `word` (when it does not hold `word`) does not change what
      `search` finds after it: a comment `pre word value post` yields `value`. */
  lemma SearchInComment(pre: seq<string>, word: string, value: string, post: seq<string>)
    requires forall k :: 0 <= k < |pre| ==> IsWord(pre[k])
    requires IsWord(word) && IsWord(value)
    requires forall k :: 0 <= k < |post| ==> IsWord(post[k])
    requires word !in pre
    ensures Search(Words(Join(pre + [word, value] + post, " ")), word) == Some(value)
  {
    CommentWords(pre, word, value, post);
    SearchAfterWord(pre, word, value, post);
  }

  lemma AllWords(a: seq<string>, b: seq<string>, c: seq<string>)
    requires forall k :: 0 <= k < |a| ==> IsWord(a[k])
    requires forall k :: 0 <= k < |b| ==> IsWord(b[k])
    requires forall k :: 0 <= k < |c| ==> IsWord(c[k])
    ensures forall k :: 0 <= k < |a + b + c| ==> IsWord((a + b + c)[k])
  {
    forall k | 0 <= k < |a + b + c| ensures IsWord((a + b + c)[k]) {
      if k < |a| { assert (a + b + c)[k] == a[k]; }
      else if k < |a| + |b| { assert (a + b + c)[k] == b[k - |a|]; }
      else { assert (a + b + c)[k] == c[k - |a| - |b|]; }
    }
  }

  /** `check(value)`: a value starting with `-` is refused; every other value, None
      and "" included, passes unchanged. */
  function Check(value: Option<string>): (r: Option<string>)
    ensures r.None? <==> value.None? || (Truthy(value) && value.value[0] == '-')
    ensures r.Some? ==> r == value
  {
    if Truthy(value) && value.value[0] == '-' then None else value
  }

  /** The value a command word yields in a comment: `check(search(command))`. */
  function Accepted(items: seq<string>, command: string): (r: Option<string>)
    ensures r.Some? ==> |items| >= 1 && command in items[..|items| - 1]
    ensures r.Some? ==> r.value == "" || r.value[0] != '-'
    ensures r.Some? ==> exists i :: 0 <= i < |items| - 1 && items[i] == command && command !in items[..i] &&
                                   r.value == items[i + 1]
    ensures r.None? && |items| >= 1 && command in items[..|items| - 1] ==> Search(items, command).value != "" && Search(items, command).value[0] == '-'
  {
    Check(Search(items, command))
  }

  /** The inner loop of `split` for one key, from command index `j` on, starting from
      the dictionary `parsed`. */
  function Scan(items: seq<string>, key: string, commands: seq<string>, j: nat,
                parsed: map<string, Option<string>>): (r: map<string, Option<string>>)
    requires j <= |commands|
    ensures r.Keys == parsed.Keys || r.Keys == parsed.Keys + {key}
    ensures forall k :: k in parsed && k != key ==> r[k] == parsed[k]
    ensures key in r && r != parsed ==> r[key].None? || Truthy(r[key])
    decreases |commands| - j
  {
    if j == |commands| then parsed
    else
      var result := Accepted(items, commands[j]);
      if Truthy(result) then parsed[key := result]
      else if LastItem(commands, commands[j]) == Success(true) then
        Scan(items, key, commands, j + 1, parsed[key := None])
      else Scan(items, key, commands, j + 1, parsed)
  }

  /** The dictionary `split` has built after the given (key, commands) pairs, before `format`. */
  function Parsed(items: seq<string>, cli: seq<(string, seq<string>)>): (r: map<string, Option<string>>)
    ensures forall k :: k in r ==> exists i :: 0 <= i < |cli| && cli[i].0 == k
    ensures forall k :: k in r ==> r[k].None? || Truthy(r[k])
  {
    if cli == [] then map[]
    else
      var last := cli[|cli| - 1];
      Scan(items, last.0, last.1, 0, Parsed(items, cli[..|cli| - 1]))
  }

  /** The first accepted value among the commands, in order. */
  function FirstAccepted(items: seq<string>, commands: seq<string>): (r: Option<string>)
    ensures r.Some? ==> Truthy(r)
    ensures r.None? <==> forall j :: 0 <= j < |commands| ==> !Truthy(Accepted(items, commands[j]))
    ensures r.Some? ==> exists j :: 0 <= j < |commands| && r == Accepted(items, commands[j]) &&
                                   forall i :: 0 <= i < j ==> !Truthy(Accepted(items, commands[i]))
  {
    if commands == [] then None
    else if Truthy(Accepted(items, commands[0])) then Accepted(items, commands[0])
    else
      var r := FirstAccepted(items, commands[1..]);
      assert forall j :: 1 <= j < |commands| ==> commands[1..][j - 1] == commands[j];
      if r.Some? then
        var j :| 0 <= j < |commands[1..]| && r == Accepted(items, commands[1..][j]) &&
                 forall i :: 0 <= i < j ==> !Truthy(Accepted(items, commands[1..][i]));
        assert forall i :: 0 <= i < j + 1 ==> !Truthy(Accepted(items, commands[i])) by {
          forall i | 0 <= i < j + 1 ensures !Truthy(Accepted(items, commands[i])) {
            if i > 0 { assert commands[i] == commands[1..][i - 1]; }
          }
        }
        r
      else r
  }

  /** What `split` records for one key: the first accepted value; otherwise None, but
      only when the last command word does not also occur earlier in the list (the
      `last_item` test); otherwise nothing at all. */
  function KeyOutcome(items: seq<string>, commands: seq<string>): (r: Option<Option<string>>)
    ensures r.Some? && r.value.None? ==> |commands| >= 1 && commands[|commands| - 1] !in commands[..|commands| - 1]
  {
    var first := FirstAccepted(items, commands);
    if first.Some? then Some(first)
    else if |commands| >= 1 && commands[|commands| - 1] !in commands[..|commands| - 1] then Some(None)
    else None
  }

  lemma {:induction false} ScanFrom(items: seq<string>, key: string, commands: seq<string>, j: nat,
                                    parsed: map<string, Option<string>>)
    requires j <= |commands|
    ensures var first := FirstAccepted(items, commands[j..]);
      Scan(items, key, commands, j, parsed) ==
        if first.Some? then parsed[key := first]
        else if j < |commands| && commands[|commands| - 1] !in commands[..|commands| - 1] then parsed[key := None]
        else parsed
    decreases |commands| - j
  {
    if j < |commands| {
      var c := commands[j];
      assert commands[j..][0] == c;
      assert commands[j..][1..] == commands[j + 1..];
      if !Truthy(Accepted(items, c)) {
        var last := LastItem(commands, c);
        if last == Success(true) {
          ScanFrom(items, key, commands, j + 1, parsed[key := None]);
        } else {
          ScanFrom(items, key, commands, j + 1, parsed);
          if j == |commands| - 1 {
            assert commands[..|commands| - 1] + [c] == commands;
          }
        }
      }
    }
  }

  /** One key's pass of `split` writes exactly `KeyOutcome` under that key, or nothing. */
  lemma ScanOutcome(items: seq<string>, key: string, commands: seq<string>, parsed: map<string, Option<string>>)
    ensures Scan(items, key, commands, 0, parsed) ==
      if KeyOutcome(items, commands).Some? then parsed[key := KeyOutcome(items, commands).value] else parsed
  {
    ScanFrom(items, key, commands, 0, parsed);
    assert commands[0..] == commands;
  }

  /** The keys of a command table are distinct, as those of a JSON object are. */
  predicate DistinctKeys(cli: seq<(string, seq<string>)>) {
    forall i, j :: 0 <= i < j < |cli| ==> cli[i].0 != cli[j].0
  }

  /** A word that is no key of the table never appears in the parsed dictionary. */
  lemma {:induction false} ParsedOnlyKeys(items: seq<string>, cli: seq<(string, seq<string>)>, k: string)
    requires forall i :: 0 <= i < |cli| ==> cli[i].0 != k
    ensures k !in Parsed(items, cli)
  {
    if cli != [] {
      var init := cli[..|cli| - 1];
      var last := cli[|cli| - 1];
      ParsedOnlyKeys(items, init, k);
      ScanOutcome(items, last.0, last.1, Parsed(items, init));
    }
  }

  /** Each key of a distinct-key table maps to exactly what `KeyOutcome` says for its
      command list: the first accepted value, or None, or no entry at all. */
  lemma {:induction false} ParsedEntry(items: seq<string>, cli: seq<(string, seq<string>)>, i: nat)
    requires DistinctKeys(cli)
    requires i < |cli|
    ensures var p := Parsed(items, cli);
      var outcome := KeyOutcome(items, cli[i].1);
      (cli[i].0 in p <==> outcome.Some?) && (cli[i].0 in p ==> p[cli[i].0] == outcome.value)
  {
    var init := cli[..|cli| - 1];
    var last := cli[|cli| - 1];
    ScanOutcome(items, last.0, last.1, Parsed(items, init));
    if i == |cli| - 1 {
      assert forall m :: 0 <= m < |init| ==> init[m].0 != last.0 by {
        forall m | 0 <= m < |init| ensures init[m].0 != last.0 {
          assert init[m] == cli[m];
        }
      }
      ParsedOnlyKeys(items, init, last.0);
    } else {
      assert init[i] == cli[i];
      assert DistinctKeys(init) by {
        forall a, b | 0 <= a < b < |init| ensures init[a].0 != init[b].0 {
          assert init[a] == cli[a] && init[b] == cli[b];
        }
      }
      ParsedEntry(items, init, i);
    }
  }

  /** `version_format(v)`: the text after the first `@`, cut at the next `@` or `,`; a
      version without `@` comes back unchanged. */
  function VersionFormat(version: string): (r: string)
    ensures '@' !in version ==> r == version
    ensures '@' in version ==> '@' !in r && ',' !in r
  {
    var parts := SplitOn(version, '@');
    if |parts| >= 2 then SplitOn(parts[1], ',')[0] else version
  }

  /** With an `@`, `version_format` keeps the longest run right after the first `@` that
      holds neither `@` nor `,`. */
  lemma VersionSegment(version: string)
    requires '@' in version
    ensures var t := version[IndexOf(version, '@') + 1..];
      var r := VersionFormat(version);
      r <= t && '@' !in r && ',' !in r && (|r| == |t| || t[|r|] == '@' || t[|r|] == ',')
  {
    var t := version[IndexOf(version, '@') + 1..];
    VersionPieces(version);
    CutTwice(t);
  }

  /** With an `@`, the second piece of the split at `@` is the first piece of the text
      after the first `@`. */
  lemma VersionPieces(version: string)
    requires '@' in version
    ensures var t := version[IndexOf(version, '@') + 1..];
      VersionFormat(version) == SplitOn(SplitOn(t, '@')[0], ',')[0]
  {
    var i := IndexOf(version, '@');
    var t := version[i + 1..];
    var parts := SplitOn(version, '@');
    SplitOnFirst(version, '@');
    assert parts[1] == SplitOn(t, '@')[0];
    assert VersionFormat(version) == SplitOn(parts[1], ',')[0];
  }

  /** Cutting at the first `@` and then at the first `,` leaves the longest prefix free
      of both. */
  lemma CutTwice(t: string)
    ensures var r := SplitOn(SplitOn(t, '@')[0], ',')[0];
      r <= t && (|r| == |t| || t[|r|] == '@' || t[|r|] == ',')
  {
    var a := SplitOn(t, '@')[0];
    var r := SplitOn(a, ',')[0];
    assert a == t[..|a|];
    assert r == a[..|r|];
    if |r| < |a| {
      assert t[|r|] == a[|r|];
    }
  }

  /** `chatter_format(s)`: `s.strip('"')`. */
  function ChatterFormat(chatter: string): (r: string)
    ensures |r| <= |chatter|
    ensures r == [] || (r[0] != '"' && r[|r| - 1] != '"')
  {
    Strip(chatter, '"')
  }

  /** A run of `n` double quotes. */
  function Quotes(n: nat): (q: string)
    ensures |q| == n && forall k :: 0 <= k < n ==> q[k] == '"'
  {
    seq(n, _ => '"')
  }

  lemma {:induction false} StripLeftQuotes(a: nat, t: string)
    requires t == [] || t[0] != '"'
    ensures StripLeft(Quotes(a) + t, '"') == t
  {
    if a > 0 {
      assert (Quotes(a) + t)[1..] == Quotes(a - 1) + t;
      StripLeftQuotes(a - 1, t);
    } else {
      assert Quotes(a) + t == t;
    }
  }

  lemma {:induction false} StripRightQuotes(t: string, b: nat)
    requires t == [] || t[|t| - 1] != '"'
    ensures StripRight(t + Quotes(b), '"') == t
  {
    if b > 0 {
      assert (t + Quotes(b))[..|t| + b - 1] == t + Quotes(b - 1);
      StripRightQuotes(t, b - 1);
    } else {
      assert t + Quotes(b) == t;
    }
  }

  /** `chatter_format` removes any number of surrounding double quotes and nothing
      else: the text inside comes back whole. */
  lemma ChatterUnquote(a: nat, t: string, b: nat)
    requires t == [] || (t[0] != '"' && t[|t| - 1] != '"')
    ensures ChatterFormat(Quotes(a) + t + Quotes(b)) == t
  {
    if t == [] {
      assert Quotes(a) + t + Quotes(b) == Quotes(a + b);
      assert Quotes(a + b) == Quotes(a + b) + [];
      StripLeftQuotes(a + b, []);
    } else {
      assert Quotes(a) + t + Quotes(b) == Quotes(a) + (t + Quotes(b));
      StripLeftQuotes(a, t + Quotes(b));
      StripRightQuotes(t, b);
    }
  }

  /** `format(parsed)`: a truthy "Version" goes through `version_format`, a truthy
      "Chatter" through `chatter_format`; no key is added or removed, and every other
      entry stays as it was. */
  function Format(parsed: map<string, Option<string>>): (r: map<string, Option<string>>)
    ensures r.Keys == parsed.Keys
    ensures forall k :: k in parsed && k != "Version" && k != "Chatter" ==> r[k] == parsed[k]
    ensures "Version" in parsed && Truthy(parsed["Version"]) ==>
      r["Version"] == Some(VersionFormat(parsed["Version"].value))
    ensures "Chatter" in parsed && Truthy(parsed["Chatter"]) ==>
      r["Chatter"] == Some(ChatterFormat(parsed["Chatter"].value))
  {
    var p := if "Version" in parsed && Truthy(parsed["Version"])
             then parsed["Version" := Some(VersionFormat(parsed["Version"].value))] else parsed;
    if "Chatter" in p && Truthy(p["Chatter"])
    then p["Chatter" := Some(ChatterFormat(p["Chatter"].value))] else p
  }

  /** One more (key, commands) pair is one more pass of the inner loop. */
  lemma ParsedSnoc(items: seq<string>, cli: seq<(string, seq<string>)>, i: nat)
    requires i < |cli|
    ensures Parsed(items, cli[..i + 1]) == Scan(items, cli[i].0, cli[i].1, 0, Parsed(items, cli[..i]))
  {
    assert cli[..i + 1][..i] == cli[..i];
  }

  /** The inner loop of `split` for one key: the commands are tried in order, and the
      first accepted value is stored and ends the loop; a failing command that is the
      list's last item (by `last_item`) stores None. */
  method SplitKey(items: seq<string>, key: string, value: seq<string>, parsed0: map<string, Option<string>>)
    returns (parsed: map<string, Option<string>>)
    ensures parsed == Scan(items, key, value, 0, parsed0)
  {
    parsed := parsed0;
    var j := 0;
    while j < |value|
      invariant 0 <= j <= |value|
      invariant Scan(items, key, value, j, parsed) == Scan(items, key, value, 0, parsed0)
    {
      var command := value[j];
      var result := Check(Search(items, command));
      if Truthy(result) {
        assert Scan(items, key, value, j, parsed) == parsed[key := result];
        parsed := parsed[key := result];
        break;
      } else if LastItem(value, command) == Success(true) {
        parsed := parsed[key := None];
      }
      j := j + 1;
    }
  }

  /** `format(parsed_dict)`: a truthy "Version" entry is overwritten by its
      `version_format`, then a truthy "Chatter" entry by its `chatter_format`. */
  method FormatInPlace(parsed0: map<string, Option<string>>) returns (parsed: map<string, Option<string>>)
    ensures parsed == Format(parsed0)
  {
    parsed := parsed0;
    if "Version" in parsed && Truthy(parsed["Version"]) {
      parsed := parsed["Version" := Some(VersionFormat(parsed["Version"].value))];
    }
    if "Chatter" in parsed && Truthy(parsed["Chatter"]) {
      parsed := parsed["Chatter" := Some(ChatterFormat(parsed["Chatter"].value))];
    }
  }

  /** `CaseCommentParser(comment).split()`: for each (key, commands) pair in order, the
      commands are tried in order until one yields an accepted value; the last command
      failing records None. The result is then formatted. */
  method Split(comment: string, cli: seq<(string, seq<string>)>) returns (parsed: map<string, Option<string>>)
    requires DistinctKeys(cli)
    ensures parsed == Format(Parsed(Words(comment), cli))
  {
    var items := Words(comment);
    parsed := map[];
    var i := 0;
    while i < |cli|
      invariant 0 <= i <= |cli|
      invariant parsed == Parsed(items, cli[..i])
    {
      var (key, value) := cli[i];
      parsed := SplitKey(items, key, value, parsed);
      ParsedSnoc(items, cli, i);
      i := i + 1;
    }
    assert cli[..|cli|] == cli;
    parsed := FormatInPlace(parsed);
  }

  // ---------------------------------------------------------------------------
  // Dates and shifts

  /** A calendar date, as its proleptic Gregorian day number (0001-01-01 is day 1). */
  datatype Date = Date(ordinal: int)

  /** `DateTimeParser.day()`: `datetime.weekday()`, Monday 0 through Sunday 6. */
  function DayIndex(d: Date): (w: int)
    ensures 0 <= w < 7
  {
    (d.ordinal + 6) % 7
  }

  /** The next calendar day (`+ timedelta(days=1)`). */
  function NextDay(d: Date): (n: Date)
    ensures DayIndex(n) == (DayIndex(d) + 1) % 7
  {
    Date(d.ordinal + 1)
  }

  /** `DateTimeParser.weekday()`: Monday to Friday; the weekend is exactly Saturday (5)
      and Sunday (6). */
  predicate IsWeekday(d: Date)
    ensures IsWeekday(d) <==> DayIndex(d) != 5 && DayIndex(d) != 6
  {
    DayIndex(d) < 5
  }

  /** Weekdays repeat every seven days, day 1 (1 January of year 1) is a Monday, and a
      weekend lasts at most two days. */
  lemma WeekdayCycle(d: Date)
    ensures IsWeekday(Date(d.ordinal + 7)) == IsWeekday(d)
    ensures DayIndex(Date(1)) == 0 && IsWeekday(Date(1))
    ensures !IsWeekday(d) ==> IsWeekday(NextDay(d)) || IsWeekday(NextDay(NextDay(d)))
  {
    assert (d.ordinal + 7 + 6) % 7 == (d.ordinal + 6) % 7;
  }

  /** The week cycles: the day after `d` has the next index, Sunday wrapping to Monday;
      so a Friday is followed by a weekend day and a Sunday by a weekday. */
  lemma NextDayIndex(d: Date)
    ensures DayIndex(NextDay(d)) == (DayIndex(d) + 1) % 7
    ensures DayIndex(d) == 4 ==> !IsWeekday(NextDay(d))
    ensures DayIndex(d) == 6 ==> IsWeekday(NextDay(d)) && DayIndex(NextDay(d)) == 0
  {
  }

  /** An (hour, minute) pair of the shift table. */
  type Clock = (nat, nat)

  /** `ShiftParser.get_timing()`: the start and end clock of a shift on the given day. */
  function GetTiming(d: Date, shift: string): (r: (Option<Clock>, Option<Clock>))
    ensures r.0.None? <==> r.1.None?
    ensures r.0.Some? ==> r.0.value.0 < 24 && r.1.value.0 < 24 && r.0.value.1 == 0 && r.1.value.1 == 0
  {
    if IsWeekday(d) then
      if shift == "SIN" then (Some((1, 0)), Some((9, 0)))
      else if shift == "DUB" then (Some((9, 0)), Some((16, 0)))
      else if shift == "USA" then (Some((16, 0)), Some((1, 0)))
      else if shift == "ALL" then (Some((1, 0)), Some((1, 0)))
      else (None, None)
    else
      if shift == "SIN" then (Some((1, 0)), Some((13, 0)))
      else if shift == "USA" then (Some((13, 0)), Some((1, 0)))
      else if shift == "ALL" then (Some((1, 0)), Some((1, 0)))
      else (None, None)
  }

  /** The shift table, (weekday?, shift) to (start hour, end hour). */
  const ShiftTable: map<(bool, string), (nat, nat)> := map[
    (true, "SIN") := (1, 9), (true, "DUB") := (9, 16), (true, "USA") := (16, 1), (true, "ALL") := (1, 1),
    (false, "SIN") := (1, 13), (false, "USA") := (13, 1), (false, "ALL") := (1, 1)]

  /** `get_timing` covers exactly the pairs of the table, on the hour; any other pair,
      DUB on a weekend among them, has no timing. */
  lemma TimingTable(d: Date, shift: string)
    ensures var key := (IsWeekday(d), shift);
      GetTiming(d, shift) ==
        if key in ShiftTable then (Some((ShiftTable[key].0, 0)), Some((ShiftTable[key].1, 0)))
        else (None, None)
  {
  }

  /** A moment with seconds and microseconds zeroed. */
  datatype Stamp = Stamp(date: Date, hour: nat, minute: nat)

  /** Minutes since the start of day 0. */
  function Minutes(s: Stamp): int {
    s.date.ordinal * 1440 + s.hour * 60 + s.minute
  }

  /** The shift window of `get_shifts` before rendering: both ends on the given day,
      except that the end moves to the next day when the start hour is not before the
      end hour. */
  function ShiftWindow(d: Date, shift: string): (w: Option<(Stamp, Stamp)>)
    ensures w.None? <==> GetTiming(d, shift).0.None?
    ensures w.Some? ==> w.value.0.date == d && w.value.0.hour < 24 && w.value.1.hour < 24
    ensures w.Some? ==> 0 < Minutes(w.value.1) - Minutes(w.value.0) <= 1440
  {
    var (start, end) := GetTiming(d, shift);
    if start.None? then None
    else
      var s := start.value;
      var e := end.value;
      if s.0 < e.0 then Some((Stamp(d, s.0, s.1), Stamp(d, e.0, e.1)))
      else Some((Stamp(d, s.0, s.1), Stamp(NextDay(d), e.0, e.1)))
  }

  /** The USA shift is overnight on every day: it ends at 01:00 the next day. */
  lemma UsaOvernight(d: Date)
    ensures var w := ShiftWindow(d, "USA");
      w.Some? && w.value.1 == Stamp(NextDay(d), 1, 0) &&
      w.value.0 == Stamp(d, if IsWeekday(d) then 16 else 13, 0)
  {
  }

  /** The ALL shift spans exactly 24 hours, 01:00 to 01:00. */
  lemma AllDay(d: Date)
    ensures var w := ShiftWindow(d, "ALL");
      w.Some? && w.value.0 == Stamp(d, 1, 0) && Minutes(w.value.1) - Minutes(w.value.0) == 1440
  {
  }

  /** The SIN and DUB shifts stay within the given day. */
  lemma DaytimeShifts(d: Date, shift: string)
    requires shift == "SIN" || shift == "DUB"
    ensures var w := ShiftWindow(d, shift);
      w.Some? ==> w.value.1.date == d && w.value.0.hour < w.value.1.hour
    ensures ShiftWindow(d, shift).None? <==> shift == "DUB" && !IsWeekday(d)
  {
  }

  /** `soql_standard()` on a moment with seconds zeroed and no time zone:
      `YYYY-MM-DDTHH:MM:00.000000Z`, the date part being `ymd`. */
  function SoqlStandard(s: Stamp, ymd: Date -> string): (t: string)
    ensures |t| == |ymd(s.date)| + |ZeroPad(s.hour, 2)| + |ZeroPad(s.minute, 2)| + 13
    ensures ymd(s.date) <= t
    ensures |t| >= 13 && t[|t| - 11..] == ":00.000000Z"
    ensures t[|t| - 1] == 'Z'
  {
    ymd(s.date) + "T" + ZeroPad(s.hour, 2) + ":" + ZeroPad(s.minute, 2) + ":00.000000Z"
  }

  /** An hour or minute below 100 renders as exactly two digits that read back as it. */
  lemma TwoDigits(n: nat)
    requires n < 100
    ensures |ZeroPad(n, 2)| == 2 && ParseDigits(ZeroPad(n, 2)) == n
  {
    ParseNatToString(n);
    if n < 10 {
      var z := ZeroPad(n, 2);
      assert z == "0" + NatToString(n);
      assert z[..1] == "0";
    }
  }

  /** The hour of a rendered stamp sits right after the date and the `T`, the minute
      after the next `:`, and both read back as the stamp's clock time. */
  lemma StampClock(s: Stamp, ymd: Date -> string)
    requires s.hour < 24 && s.minute < 60
    ensures var t := SoqlStandard(s, ymd);
      var n := |ymd(s.date)|;
      && |t| == n + 17
      && t[n] == 'T' && ParseDigits(t[n + 1..n + 3]) == s.hour && t[n + 3] == ':'
      && ParseDigits(t[n + 4..n + 6]) == s.minute
  {
    TwoDigits(s.hour);
    TwoDigits(s.minute);
    var n := |ymd(s.date)|;
    var h := ZeroPad(s.hour, 2);
    var m := ZeroPad(s.minute, 2);
    var t := SoqlStandard(s, ymd);
    assert t == ymd(s.date) + "T" + h + (":" + m + ":00.000000Z");
    assert t[n + 1..n + 3] == h;
    assert t == (ymd(s.date) + "T" + h + ":") + m + ":00.000000Z";
    assert t[n + 4..n + 6] == m;
  }

  /** `ShiftParser(date, shift).get_shifts()`: (None, None) without a timing, otherwise
      the two ends of the window rendered in SOQL form. */
  function GetShifts(d: Date, shift: string, ymd: Date -> string): (r: (Option<string>, Option<string>))
    ensures r.0.None? <==> GetTiming(d, shift).0.None?
    ensures r.0.None? <==> r.1.None?
    ensures r.0.Some? ==> |r.0.value| >= 13 && r.0.value[|r.0.value| - 11..] == ":00.000000Z"
    ensures r.1.Some? ==> |r.1.value| >= 13 && r.1.value[|r.1.value| - 11..] == ":00.000000Z"
    ensures r.0.Some? ==> ymd(d) <= r.0.value
    ensures r.0.Some? ==> r.0.value == SoqlStandard(ShiftWindow(d, shift).value.0, ymd) &&
                          r.1.value == SoqlStandard(ShiftWindow(d, shift).value.1, ymd)
  {
    match ShiftWindow(d, shift)
    case None => (None, None)
    case Some((s, e)) => (Some(SoqlStandard(s, ymd)), Some(SoqlStandard(e, ymd)))
  }

  /** The window's ends carry the table's clock times; the end moves to the next day
      exactly when the start hour is not before the end hour. */
  lemma WindowEnds(d: Date, shift: string)
    requires GetTiming(d, shift).0.Some?
    ensures var (start, end) := GetTiming(d, shift);
      var w := ShiftWindow(d, shift).value;
      && w.0 == Stamp(d, start.value.0, start.value.1)
      && w.1 == Stamp(if start.value.0 < end.value.0 then d else NextDay(d), end.value.0, end.value.1)
  {
  }

  /** The rendered end of a shift begins with the date of the day it ends on: the next
      day's date for an overnight shift. */
  lemma ShiftEndDate(d: Date, shift: string, ymd: Date -> string)
    requires GetTiming(d, shift).0.Some?
    ensures var (start, end) := GetTiming(d, shift);
      var day := if start.value.0 < end.value.0 then d else NextDay(d);
      ymd(day) <= GetShifts(d, shift, ymd).1.value
  {
    WindowEnds(d, shift);
    var e := ShiftWindow(d, shift).value.1;
    assert GetShifts(d, shift, ymd).1 == Some(SoqlStandard(e, ymd));
  }

  /** The rendered ends carry the timing table's hours with zeroed minutes: the hour
      digits after each date's `T` read back as the table's hour, the minute digits as 0. */
  lemma ShiftClock(d: Date, shift: string, ymd: Date -> string)
    requires GetTiming(d, shift).0.Some?
    ensures var (start, end) := GetTiming(d, shift);
      var day := if start.value.0 < end.value.0 then d else NextDay(d);
      var (a, b) := GetShifts(d, shift, ymd);
      var n := |ymd(d)|;
      var m := |ymd(day)|;
      && |a.value| == n + 17 && ParseDigits(a.value[n + 1..n + 3]) == start.value.0
      && ParseDigits(a.value[n + 4..n + 6]) == 0
      && |b.value| == m + 17 && ParseDigits(b.value[m + 1..m + 3]) == end.value.0
      && ParseDigits(b.value[m + 4..m + 6]) == 0
  {
    WindowEnds(d, shift);
    var w := ShiftWindow(d, shift).value;
    StampClock(w.0, ymd);
    StampClock(w.1, ymd);
  }
}
