/** The string operations of the JavaScript runtime that the console's code
    relies on: `String(x)`, `Array.prototype.join`, `String.prototype.split`
    on one character, and `String.prototype.trim`. */
module JsText {
  import opened Js

  // ---------------------------------------------------------------------
  // Number to text
  // ---------------------------------------------------------------------

  function DigitChar(d: nat): char
    requires d < 10
  {
    "0123456789"[d]
  }

  /** Decimal text of a non-negative integer, most significant digit first. */
  function NatToString(n: nat): (s: string)
    ensures |s| >= 1
    ensures forall i :: 0 <= i < |s| ==> '0' <= s[i] <= '9'
    decreases n
  {
    if n < 10 then [DigitChar(n)] else NatToString(n / 10) + [DigitChar(n % 10)]
  }

  /** `String(n)` for an integral number. */
  function IntToString(n: int): string {
    if n < 0 then "-" + NatToString(-n) else NatToString(n)
  }

  // ---------------------------------------------------------------------
  // join
  // ---------------------------------------------------------------------

  /** `parts.join(sep)`. */
  function Join(parts: seq<string>, sep: string): string
  {
    if |parts| == 0 then ""
    else if |parts| == 1 then parts[0]
    else parts[0] + sep + Join(parts[1..], sep)
  }

  /** `String(v)`, the text JavaScript makes of a value. Functions print
      their source text, which the model does not have. */
  function ToJsString(v: Value): string
    decreases v
  {
    match v
    case Undef => "undefined"
    case Null => "null"
    case Bool(b) => if b then "true" else "false"
    case Num(n) => IntToString(n)
    case Str(s) => s
    case List(items) =>
      Join(seq(|items|, i requires 0 <= i < |items| =>
             if items[i].Undef? || items[i].Null? then "" else ToJsString(items[i])), ",")
    case Obj(_) => "[object Object]"
    case JsMap(_) => "[object Map]"
    case Fn(_) => "function"
  }

  /** `values.join(sep)`: `undefined` and `null` elements become empty text. */
  function JoinValues(values: seq<Value>, sep: string): string {
    Join(seq(|values|, i requires 0 <= i < |values| =>
           if values[i].Undef? || values[i].Null? then "" else ToJsString(values[i])), sep)
  }

  // ---------------------------------------------------------------------
  // split on one character
  // ---------------------------------------------------------------------

  /** Position of the first `c` in `s`, or `|s|` when there is none. */
  function IndexOf(s: string, c: char): (i: nat)
    ensures i <= |s| && c !in s[..i]
    ensures i < |s| ==> s[i] == c
  {
    if s == [] then 0
    else if s[0] == c then 0
    else
      var j := IndexOf(s[1..], c);
      assert s[..1 + j] == [s[0]] + s[1..][..j];
      1 + j
  }

  /** `s.split(c)`: the pieces between occurrences of `c`, in order; a text
      without `c` is one piece. */
  function Split(s: string, c: char): (parts: seq<string>)
    ensures |parts| >= 1
    decreases |s|
  {
    var i := IndexOf(s, c);
    if i == |s| then [s] else [s[..i]] + Split(s[i + 1..], c)
  }

  /** There are at least two pieces exactly when the separator occurs. */
  lemma SplitCount(s: string, c: char)
    ensures |Split(s, c)| >= 2 <==> c in s
  {
    var i := IndexOf(s, c);
    if i == |s| {
      assert s[..i] == s;
    }
  }

  /** Joining the pieces with the separator gives the text back. */
  lemma {:induction false} JoinSplit(s: string, c: char)
    ensures Join(Split(s, c), [c]) == s
    decreases |s|
  {
    var i := IndexOf(s, c);
    if i < |s| {
      var rest := s[i + 1..];
      JoinSplit(rest, c);
      assert Split(s, c) == [s[..i]] + Split(rest, c);
      assert s == s[..i] + [c] + rest;
    }
  }

  /** A prefix free of `c` shifts the first `c` by its length. */
  lemma {:induction false} IndexOfAfter(a: string, b: string, c: char)
    requires c !in a
    ensures IndexOf(a + b, c) == |a| + IndexOf(b, c)
  {
    if a != [] {
      assert (a + b)[1..] == a[1..] + b;
      IndexOfAfter(a[1..], b, c);
    } else {
      assert a + b == b;
    }
  }

  /** Splitting pieces that do not contain the separator, after joining
      them with it, gives the pieces back. */
  lemma {:induction false} SplitJoin(parts: seq<string>, c: char)
    requires |parts| >= 1
    requires forall k :: 0 <= k < |parts| ==> c !in parts[k]
    ensures Split(Join(parts, [c]), c) == parts
  {
    var head := parts[0];
    if |parts| == 1 {
      IndexOfAfter(head, [], c);
      assert head + [] == head;
    } else {
      var tail := Join(parts[1..], [c]);
      var s := head + ([c] + tail);
      assert Join(parts, [c]) == s by {
        assert Join(parts, [c]) == head + [c] + tail;
      }
      assert IndexOf([c] + tail, c) == 0;
      IndexOfAfter(head, [c] + tail, c);
      assert s[..|head|] == head;
      assert s[|head| + 1..] == tail;
      assert Split(s, c) == [head] + Split(tail, c);
      SplitJoin(parts[1..], c);
    }
  }

  // ---------------------------------------------------------------------
  // trim
  // ---------------------------------------------------------------------

  /** The characters `String.prototype.trim` removes: white space and line
      terminators of ECMAScript. */
  predicate IsJsSpace(ch: char) {
    ch == ' ' || ch == '\t' || ch == '\n' || ch == '\r' || ch == '\U{000B}' || ch == '\U{000C}'
    || ch == '\U{00A0}' || ch == '\U{1680}' || ('\U{2000}' <= ch <= '\U{200A}')
    || ch == '\U{2028}' || ch == '\U{2029}' || ch == '\U{202F}' || ch == '\U{205F}'
    || ch == '\U{3000}' || ch == '\U{FEFF}'
  }

  predicate AllSpace(s: string) {
    forall i :: 0 <= i < |s| ==> IsJsSpace(s[i])
  }

  /** The first position at or after `i` that is not white space (`|s|`
      when there is none). */
  function TrimStartIndex(s: string, i: nat): (k: nat)
    requires i <= |s|
    ensures i <= k <= |s|
    ensures forall j :: i <= j < k ==> IsJsSpace(s[j])
    ensures k < |s| ==> !IsJsSpace(s[k])
    decreases |s| - i
  {
    if i < |s| && IsJsSpace(s[i]) then TrimStartIndex(s, i + 1) else i
  }

  /** The end of the text before `hi` without its trailing white space,
      never going below `lo`. */
  function TrimEndIndex(s: string, lo: nat, hi: nat): (k: nat)
    requires lo <= hi <= |s|
    ensures lo <= k <= hi
    ensures forall j :: k <= j < hi ==> IsJsSpace(s[j])
    ensures k > lo ==> !IsJsSpace(s[k - 1])
    decreases hi
  {
    if hi > lo && IsJsSpace(s[hi - 1]) then TrimEndIndex(s, lo, hi - 1) else hi
  }

  /** `s.trim()`: white space goes from both ends and from nowhere else. */
  function Trim(s: string): (r: string)
    ensures |r| <= |s|
    ensures r != [] ==> !IsJsSpace(r[0]) && !IsJsSpace(r[|r| - 1])
  {
    var lo := TrimStartIndex(s, 0);
    s[lo..TrimEndIndex(s, lo, |s|)]
  }

  /** The scan from the front stops at the first character that is not
      white space. */
  lemma {:induction false} TrimStartStops(s: string, i: nat, k: nat)
    requires i <= k <= |s|
    requires forall j :: i <= j < k ==> IsJsSpace(s[j])
    requires k < |s| ==> !IsJsSpace(s[k])
    ensures TrimStartIndex(s, i) == k
    decreases k - i
  {
    if i < k {
      TrimStartStops(s, i + 1, k);
    }
  }

  /** The scan from the back stops after the last character that is not
      white space. */
  lemma {:induction false} TrimEndStops(s: string, lo: nat, hi: nat, k: nat)
    requires lo <= k <= hi <= |s|
    requires forall j :: k <= j < hi ==> IsJsSpace(s[j])
    requires k > lo ==> !IsJsSpace(s[k - 1])
    ensures TrimEndIndex(s, lo, hi) == k
    decreases hi
  {
    if k < hi {
      TrimEndStops(s, lo, hi - 1, k);
    }
  }

  /** Trimming removes exactly the white space around the text: text with
      no white space at its ends comes back whatever white space surrounds
      it. */
  lemma TrimStripsOuterSpace(p: string, m: string, q: string)
    requires AllSpace(p) && AllSpace(q)
    requires m != [] && !IsJsSpace(m[0]) && !IsJsSpace(m[|m| - 1])
    ensures Trim(p + m + q) == m
  {
    var s := p + m + q;
    var lo, hi := |p|, |p| + |m|;
    assert s[lo] == m[0] && s[hi - 1] == m[|m| - 1];
    TrimStartStops(s, 0, lo);
    TrimEndStops(s, lo, |s|, hi);
    assert s[lo..hi] == m;
  }

  /** Text trims to nothing exactly when it is all white space. */
  lemma TrimEmpty(s: string)
    ensures Trim(s) == "" <==> AllSpace(s)
  {
  }
}
