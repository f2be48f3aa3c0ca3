/** The few JavaScript value and string operations the relay relies on:
    optional fields, truthiness of string fields, Array.prototype.join,
    splitting on a character, and String.prototype.trim. */
module JsText {

  /** A field that may be undefined. */
  datatype Option<+T> = None | Some(value: T) {
    predicate IsFailure() { None? }

    function PropagateFailure<U>(): Option<U>
      requires None?
    {
      None
    }

    function Extract(): T
      requires Some?
    {
      value
    }
  }

  /** `!!v` for a string-valued field: defined and not the empty string. */
  predicate Truthy(v: Option<string>) {
    v.Some? && v.value != ""
  }

  /** A plain object whose fields hold strings; a missing key is undefined. */
  type JsObject = map<string, string>

  /** Property access on such an object. */
  function Lookup(m: JsObject, key: string): Option<string> {
    if key in m then Some(m[key]) else None
  }

  /** `a || b` on string-valued fields. */
  function Or(a: Option<string>, b: Option<string>): Option<string> {
    if Truthy(a) then a else b
  }

  /** String interpolation of a field: `${v}` renders undefined as "undefined". */
  function Show(v: Option<string>): string {
    if v.Some? then v.value else "undefined"
  }

  /** `xs.join(sep)`. */
  function Join(sep: string, xs: seq<string>): string
    decreases |xs|
  {
    if |xs| == 0 then ""
    else if |xs| == 1 then xs[0]
    else xs[0] + sep + Join(sep, xs[1..])
  }

  /** Joining one more element adds the separator and that element at the end. */
  lemma {:induction false} JoinSnoc(sep: string, xs: seq<string>, x: string)
    requires |xs| > 0
    ensures Join(sep, xs + [x]) == Join(sep, xs) + sep + x
  {
    if |xs| == 1 {
      assert xs + [x] == [xs[0], x];
      assert (xs + [x])[1..] == [x];
    } else {
      assert (xs + [x])[1..] == xs[1..] + [x];
      JoinSnoc(sep, xs[1..], x);
    }
  }

  /** `s.split(c)` for a one-character separator. */
  function Split(s: string, c: char): (r: seq<string>)
    ensures |r| >= 1
    decreases |s|
  {
    if s == [] then [""]
    else
      var rest := Split(s[1..], c);
      if s[0] == c then [""] + rest
      else [[s[0]] + rest[0]] + rest[1..]
  }

  /** A string without the separator splits into itself. */
  lemma {:induction false} SplitWithout(x: string, c: char)
    requires c !in x
    ensures Split(x, c) == [x]
    decreases |x|
  {
    if x != [] {
      SplitWithout(x[1..], c);
      assert [x[0]] + x[1..] == x;
    }
  }

  /** A separator-free part followed by the separator splits off as the first part. */
  lemma {:induction false} SplitAfter(x: string, c: char, t: string)
    requires c !in x
    ensures Split(x + [c] + t, c) == [x] + Split(t, c)
    decreases |x|
  {
    if x == [] {
      assert x + [c] + t == [c] + t;
      assert ([c] + t)[1..] == t;
    } else {
      var s := x + [c] + t;
      assert s[0] == x[0];
      assert s[1..] == x[1..] + [c] + t;
      SplitAfter(x[1..], c, t);
      assert [x[0]] + x[1..] == x;
    }
  }

  /** Splitting a join on its one-character separator gives back the parts,
      provided no part contains the separator. */
  lemma {:induction false} SplitJoin(xs: seq<string>, c: char)
    requires |xs| > 0
    requires forall i :: 0 <= i < |xs| ==> c !in xs[i]
    ensures Split(Join([c], xs), c) == xs
    decreases |xs|
  {
    if |xs| == 1 {
      SplitWithout(xs[0], c);
    } else {
      SplitJoin(xs[1..], c);
      SplitAfter(xs[0], c, Join([c], xs[1..]));
      assert [xs[0]] + xs[1..] == xs;
    }
  }

  /** The characters String.prototype.trim removes: WhiteSpace and
      LineTerminator of ECMAScript (section 12.2 and 12.3 of ECMA-262). */
  predicate IsJsSpace(ch: char) {
    ch in {'\t', '\n', '\U{000B}', '\U{000C}', '\r', ' ', '\U{00A0}', '\U{1680}',
           '\U{2000}', '\U{2001}', '\U{2002}', '\U{2003}', '\U{2004}', '\U{2005}',
           '\U{2006}', '\U{2007}', '\U{2008}', '\U{2009}', '\U{200A}', '\U{2028}',
           '\U{2029}', '\U{202F}', '\U{205F}', '\U{3000}', '\U{FEFF}'}
  }

  /** Every character of `x` is whitespace. */
  predicate AllSpace(x: string) {
    forall k :: 0 <= k < |x| ==> IsJsSpace(x[k])
  }

  /** How many whitespace characters `s` starts with. */
  function LeadingSpace(s: string): (n: nat)
    ensures n <= |s| && AllSpace(s[..n]) && (n == |s| || !IsJsSpace(s[n]))
    decreases |s|
  {
    if s != [] && IsJsSpace(s[0]) then
      var n := LeadingSpace(s[1..]);
      assert s[..n + 1] == [s[0]] + s[1..][..n];
      n + 1
    else 0
  }

  /** Where the trailing whitespace of `s` begins. */
  function VisibleEnd(s: string): (n: nat)
    ensures n <= |s| && AllSpace(s[n..]) && (n == 0 || !IsJsSpace(s[n - 1]))
    decreases |s|
  {
    if s != [] && IsJsSpace(s[|s| - 1]) then
      var n := VisibleEnd(s[..|s| - 1]);
      assert s[n..] == s[..|s| - 1][n..] + [s[|s| - 1]];
      n
    else |s|
  }

  /** The leading whitespace dropped, and nothing else. */
  function TrimStart(s: string): string {
    s[LeadingSpace(s)..]
  }

  /** The trailing whitespace dropped, and nothing else. */
  function TrimEnd(s: string): string {
    s[..VisibleEnd(s)]
  }

  /** `s.trim()`. */
  function Trim(s: string): string {
    TrimEnd(TrimStart(s))
  }

  /** A prefix of a suffix of `s` is an infix of `s`, and what follows it is a suffix of `s`. */
  lemma SliceOfSuffix(s: string, i: nat, t: string, j: nat)
    requires i <= |s| && t == s[i..] && j <= |t|
    ensures t[..j] == s[i..i + j] && t[j..] == s[i + j..]
  {
  }

  /** The trimmed string is the infix of `s` that starts where TrimStart
      stops, and only whitespace lies around it. */
  lemma TrimInfix(s: string)
    ensures var r, i := Trim(s), LeadingSpace(s);
      i + |r| <= |s| && r == s[i..i + |r|] && AllSpace(s[..i]) && AllSpace(s[i + |r|..])
  {
    var t := TrimStart(s);
    SliceOfSuffix(s, LeadingSpace(s), t, VisibleEnd(t));
  }

  /** The trimmed string neither starts nor ends with whitespace. */
  lemma TrimEnds(s: string)
    ensures var r := Trim(s); r == [] || (!IsJsSpace(r[0]) && !IsJsSpace(r[|r| - 1]))
  {
    var t := TrimStart(s);
    var r := TrimEnd(t);
    assert r != [] ==> r[0] == t[0] && t[0] == s[LeadingSpace(s)];
    assert r != [] ==> r[|r| - 1] == t[VisibleEnd(t) - 1];
  }

  /** The two together: what `s.trim()` promises. */
  lemma TrimShape(s: string)
    ensures var r, i := Trim(s), LeadingSpace(s);
      i + |r| <= |s| && r == s[i..i + |r|] && AllSpace(s[..i]) && AllSpace(s[i + |r|..])
      && (r == [] || (!IsJsSpace(r[0]) && !IsJsSpace(r[|r| - 1])))
  {
    TrimInfix(s);
    TrimEnds(s);
  }

  /** Trimming a string that opens with one whitespace character followed by
      a non-whitespace one removes that single character at the front. */
  lemma TrimStartOne(ws: char, x: string)
    requires IsJsSpace(ws) && x != [] && !IsJsSpace(x[0])
    ensures TrimStart([ws] + x) == x
  {
    var s := [ws] + x;
    assert s[1..] == x;
    assert LeadingSpace(s[1..]) == 0;
  }

  /** Trailing whitespace added to a string is removed along with the
      string's own. */
  lemma {:induction false} TrimEndSpaces(x: string, tail: string)
    requires AllSpace(tail)
    ensures TrimEnd(x + tail) == TrimEnd(x)
    decreases |tail|
  {
    if tail == [] {
      assert x + tail == x;
    } else {
      var s := x + tail;
      var front := tail[..|tail| - 1];
      assert s[|s| - 1] == tail[|tail| - 1];
      assert s[..|s| - 1] == x + front;
      assert AllSpace(front) by {
        forall k | 0 <= k < |front| ensures IsJsSpace(front[k]) {
          assert front[k] == tail[k];
        }
      }
      TrimEndSpaces(x, front);
      assert VisibleEnd(s) == VisibleEnd(x + front);
      assert s[..VisibleEnd(s)] == (x + front)[..VisibleEnd(s)];
    }
  }

  /** Trimming the end never cuts into a prefix that ends in a visible character. */
  lemma TrimEndKeepsVisiblePrefix(p: string, rest: string)
    requires p != [] && !IsJsSpace(p[|p| - 1])
    ensures |TrimEnd(p + rest)| >= |p| && TrimEnd(p + rest)[..|p|] == p
  {
    var s := p + rest;
    var n := VisibleEnd(s);
    assert s[|p| - 1] == p[|p| - 1];
    assert s[..n][..|p|] == p;
  }
}
