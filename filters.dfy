/** The SOQL predicate fragments of guspy/filters.py. Every builder is fail-soft:
    a missing or empty argument gives None rather than an exception. Values are
    inserted verbatim: an embedded single quote is not escaped. */
module Filters {
  import opened Wrappers
  import opened Text

  /** `quote(s)`: one single quote on each side, the text in between untouched. */
  function Quote(s: string): (r: string)
    ensures |r| == |s| + 2
    ensures r[0] == '\'' && r[|r| - 1] == '\''
    ensures r[1..|r| - 1] == s
  {
    "'" + s + "'"
  }

  /** `bracket(s)`: one parenthesis on each side, the text in between untouched. */
  function Bracket(s: string): (r: string)
    ensures |r| == |s| + 2
    ensures r[0] == '(' && r[|r| - 1] == ')'
    ensures r[1..|r| - 1] == s
  {
    "(" + s + ")"
  }

  /** `equals(field, value)`: `field = 'value'` with the value quoted verbatim. */
  function Equals(field: Option<string>, value: Option<string>): (r: Option<string>)
    ensures r.Some? <==> Truthy(field) && Truthy(value)
    ensures r.Some? ==> r.value == field.value + " = " + Quote(value.value)
  {
    if Truthy(field) && Truthy(value) then Some(field.value + " = '" + value.value + "'")
    else None
  }

  /** `is_in(field, value)`: `field IN value`; the caller supplies any brackets. */
  function IsIn(field: Option<string>, value: Option<string>): (r: Option<string>)
    ensures r.Some? <==> Truthy(field) && Truthy(value)
    ensures r.Some? ==> |r.value| == |field.value| + 4 + |value.value|
    ensures r.Some? ==> r.value[..|field.value|] == field.value
    ensures r.Some? ==> r.value[|field.value|..|field.value| + 4] == " IN "
    ensures r.Some? ==> r.value[|field.value| + 4..] == value.value
  {
    if Truthy(field) && Truthy(value) then Some(field.value + " IN " + value.value)
    else None
  }

  /** `like(field, value, identifier="*")`: `field LIKE 'pattern'`, where the pattern
      is the value with every `identifier` replaced by `%`. */
  function Like(field: Option<string>, value: Option<string>, identifier: string := "*")
    : (r: Option<string>)
    ensures r.Some? <==> Truthy(field) && Truthy(value)
    ensures r.Some? ==> r.value == field.value + " LIKE " + Quote(Replace(value.value, identifier, "%"))
  {
    if Truthy(field) && Truthy(value)
    then Some(field.value + " LIKE '" + Replace(value.value, identifier, "%") + "'")
    else None
  }

  /** With a one-character identifier the pattern keeps the value's length, and each
      character is either kept or, where it is the identifier, turned into `%`. */
  lemma LikePattern(field: string, value: string, c: char)
    requires field != "" && value != ""
    ensures var r := Like(Some(field), Some(value), [c]).value;
      var p := r[|field| + 7..|r| - 1];
      && |p| == |value|
      && forall k :: 0 <= k < |value| ==> p[k] == if value[k] == c then '%' else value[k]
  {
    ReplaceChar(value, c, '%');
    var q := Quote(Replace(value, [c], "%"));
    var r := Like(Some(field), Some(value), [c]).value;
    assert r == field + " LIKE " + q;
    assert r[|field| + 7..|r| - 1] == q[1..|q| - 1];
  }

  /** The values of a sequence whose every element is present. */
  function Present(args: seq<Option<string>>): (vs: seq<string>)
    requires forall k :: 0 <= k < |args| ==> args[k].Some?
    ensures |vs| == |args|
    ensures forall k :: 0 <= k < |args| ==> vs[k] == args[k].value
  {
    seq(|args|, k requires 0 <= k < |args| => args[k].value)
  }

  /** `sep.join(args)` behind an arity check of two: fewer arguments give None; a None
      among two or more is refused by `join` with a TypeError. */
  function Combine(args: seq<Option<string>>, sep: string): (r: Result<Option<string>, PyError>)
    ensures |args| < 2 ==> r == Success(None)
    ensures |args| >= 2 ==> (r.Success? <==> forall k :: 0 <= k < |args| ==> args[k].Some?)
    ensures r.Success? && |args| >= 2 ==> r.value.Some?
    ensures |args| == 2 && args[0].Some? && args[1].Some? ==>
      r == Success(Some(args[0].value + sep + args[1].value))
  {
    if |args| < 2 then Success(None)
    else if forall k :: 0 <= k < |args| ==> args[k].Some? then
      var vs := Present(args);
      assert |vs| == 2 ==> vs[1..] == [vs[1]] && Join(vs, sep) == vs[0] + sep + vs[1];
      Success(Some(Join(vs, sep)))
    else Failure(TypeError)
  }

  /** `incl(*args)`: the fragments joined in order with ` AND `. */
  function Incl(args: seq<Option<string>>): (r: Result<Option<string>, PyError>)
    ensures |args| < 2 ==> r == Success(None)
    ensures |args| == 2 && args[0].Some? && args[1].Some? ==>
      r == Success(Some(args[0].value + " AND " + args[1].value))
  {
    Combine(args, " AND ")
  }

  /** `excl(*args)`: the fragments joined in order with ` OR `. */
  function Excl(args: seq<Option<string>>): (r: Result<Option<string>, PyError>)
    ensures |args| < 2 ==> r == Success(None)
    ensures |args| == 2 && args[0].Some? && args[1].Some? ==>
      r == Success(Some(args[0].value + " OR " + args[1].value))
  {
    Combine(args, " OR ")
  }

  lemma {:induction false} JoinSnoc(xs: seq<string>, y: string, sep: string)
    requires |xs| >= 1
    ensures Join(xs + [y], sep) == Join(xs, sep) + sep + y
  {
    if |xs| == 1 {
      assert (xs + [y])[1..] == [y];
    } else {
      assert (xs + [y])[1..] == xs[1..] + [y];
      JoinSnoc(xs[1..], y, sep);
    }
  }

  /** Adding one more fragment to a combination is the same as combining the earlier
      result with it: `incl(a, b, c) == incl(incl(a, b), c)`, and likewise for `excl`. */
  lemma CombineExtend(args: seq<Option<string>>, x: string, sep: string)
    requires |args| >= 2
    requires forall k :: 0 <= k < |args| ==> args[k].Some?
    ensures Combine(args, sep).Success?
    ensures Combine(args + [Some(x)], sep) == Combine([Combine(args, sep).value, Some(x)], sep)
  {
    var longer := args + [Some(x)];
    assert forall k :: 0 <= k < |longer| ==> longer[k].Some?;
    assert Present(longer) == Present(args) + [x];
    JoinSnoc(Present(args), x, sep);
    assert Combine(args, sep) == Success(Some(Join(Present(args), sep)));
  }

  /** `bracket(quote(x)) == "('" + x + "')"`: together they add four characters. */
  lemma BracketQuote(x: string)
    ensures Bracket(Quote(x)) == "('" + x + "')"
    ensures |Bracket(Quote(x))| == |x| + 4
  {
  }
}
