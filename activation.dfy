/**
 * Classification of a payload as an LPA activation-profile descriptor
 * (`LPA:<version>$<SM-DP+ address>$<activation code>`) and the three-stage
 * cascade that extracts its activation code.
 *
 * The regular expressions are modelled with their exact JavaScript meaning:
 * `.` matches any character except a line terminator, `.*?` is lazy, `.+`
 * is greedy, and `match` reports the leftmost match.
 */
module Activation {
  import opened Common
  import opened JsStrings

  /** `isLPAData(data)`: a non-empty string containing "LPA". */
  predicate IsLPAData(d: Payload) {
    PayloadTruthy(d) && d.Text? && Contains(d.s, "LPA")
  }

  /** Index of the first line terminator at or after `i`, or `|s|`. */
  function LineEnd(s: string, i: nat): (e: nat)
    requires i <= |s|
    ensures i <= e <= |s|
    ensures forall k :: i <= k < e ==> !IsLineTerminator(s[k])
    ensures e < |s| ==> IsLineTerminator(s[e])
    decreases |s| - i
  {
    if i == |s| || IsLineTerminator(s[i]) then i else LineEnd(s, i + 1)
  }

  /** The attempt of `/LPA:.*?\$.*?\$(.+)/` that starts at `p`, where "LPA:"
      occurs. Both lazy groups stop at the first `$` they can, all on the
      same line; the capture runs greedily to the line's end and must hold
      at least one character. Backtracking cannot help: if the second `$`
      ends the line, no later `$` exists on it. */
  function ThreeFieldAt(s: string, p: nat): (r: Option<string>)
    requires OccursAt(s, "LPA:", p)
    ensures r.Some? ==> r.value != []
    ensures r.Some? ==> forall k :: 0 <= k < |r.value| ==> !IsLineTerminator(r.value[k])
  {
    var e := LineEnd(s, p + 4);
    var a := Find(s, '$', p + 4, e);
    if a == e then None
    else
      var b := Find(s, '$', a + 1, e);
      if b + 1 >= e then None else Some(s[b + 1..e])
  }

  /** `s.match(/LPA:.*?\$.*?\$(.+)/)[1]`, trying start positions from `i`. */
  function ThreeFieldFrom(s: string, i: nat): (r: Option<string>)
    ensures r.Some? ==> r.value != []
    decreases |s| - i
  {
    if i + 4 > |s| then None
    else if OccursAt(s, "LPA:", i) && ThreeFieldAt(s, i).Some? then ThreeFieldAt(s, i)
    else ThreeFieldFrom(s, i + 1)
  }

  /** `s.match(/LPA:(.+)/)[1]`, trying start positions from `i`: the rest of
      the line after the leftmost "LPA:" that is followed by a character of
      the same line. */
  function AfterMarkerFrom(s: string, i: nat): (r: Option<string>)
    ensures r.Some? ==> r.value != []
    decreases |s| - i
  {
    if i + 4 > |s| then None
    else if OccursAt(s, "LPA:", i) && i + 4 < |s| && !IsLineTerminator(s[i + 4]) then
      Some(s[i + 4..LineEnd(s, i + 4)])
    else AfterMarkerFrom(s, i + 1)
  }

  /** The second stage: when splitting at `$` gives at least two pieces
      and the first holds "LPA", the last piece, trimmed. */
  function LastField(s: string): (r: Option<string>)
    ensures r.Some? ==> '$' in s
  {
    var parts := Split(s, '$');
    if |parts| >= 2 && Contains(parts[0], "LPA") then Some(Trim(parts[|parts| - 1])) else None
  }

  /** The third stage: the text after "LPA:" to the end of its line,
      trimmed, when it is not empty. */
  function AfterMarker(s: string): (r: Option<string>)
  {
    var t := AfterMarkerFrom(s, 0);
    if t.Some? && t.value != "" then Some(Trim(t.value)) else None
  }

  /** `extractActivationCode(data)`; `None` is the source's `null`. A
      returned code may be empty (a field of blanks trims to ""). */
  function ExtractActivationCode(d: Payload): (r: Option<string>)
    ensures r.Some? ==> IsLPAData(d)
  {
    if !PayloadTruthy(d) || !d.Text? then None
    else if !Contains(d.s, "LPA") then None
    else
      var m := ThreeFieldFrom(d.s, 0);
      if m.Some? && m.value != "" then Some(Trim(m.value))
      else if LastField(d.s).Some? then LastField(d.s)
      else AfterMarker(d.s)
  }

  /** Absent marker or non-string input: not LPA data, and no code. */
  lemma NoMarkerNoCode(d: Payload)
    ensures !IsLPAData(d) <==> !d.Text? || !Contains(d.s, "LPA")
    ensures !IsLPAData(d) ==> ExtractActivationCode(d) == None
  {
    if d.Text? && Contains(d.s, "LPA") {
      var i :| 0 <= i <= |d.s| - 3 && OccursAt(d.s, "LPA", i);
      assert d.s != "";
    }
  }

  ghost predicate NoChar(s: string, c: char) {
    forall k :: 0 <= k < |s| ==> s[k] != c
  }

  ghost predicate SingleLine(s: string) {
    forall k :: 0 <= k < |s| ==> !IsLineTerminator(s[k])
  }

  /** Every `$` of `s`, if any, is at index `d`. */
  ghost predicate DollarsAt(s: string, d: int) {
    forall k :: 0 <= k < |s| && s[k] == '$' ==> k == d
  }

  lemma SingleLineConcat(a: string, b: string)
    requires SingleLine(a) && SingleLine(b)
    ensures SingleLine(a + b)
  {
    forall k | 0 <= k < |a + b| ensures !IsLineTerminator((a + b)[k]) {
      if k < |a| { assert (a + b)[k] == a[k]; } else { assert (a + b)[k] == b[k - |a|]; }
    }
  }

  /** On a line without terminators `LineEnd` is the end of the string. */
  lemma {:induction false} LineEndOfSingleLine(s: string, i: nat)
    requires i <= |s|
    requires forall k :: i <= k < |s| ==> !IsLineTerminator(s[k])
    ensures LineEnd(s, i) == |s|
    decreases |s| - i
  {
    if i < |s| { LineEndOfSingleLine(s, i + 1); }
  }

  /** The first `c` after `pre` in `pre + mid + [c] + rest`, where `mid` has
      none, is the one right after `mid`. */
  lemma FindAfter(pre: string, mid: string, c: char, rest: string)
    requires NoChar(mid, c)
    ensures var s := pre + mid + [c] + rest;
      Find(s, c, |pre|, |s|) == |pre| + |mid|
  {
    var s := pre + mid + [c] + rest;
    forall j | |pre| <= j < |pre| + |mid| ensures s[j] != c {
      assert s[j] == mid[j - |pre|];
    }
    FindIsFirst(s, c, |pre|, |s|, |pre| + |mid|);
  }

  /** The three-field pattern needs two `$`. */
  lemma {:induction false} ThreeFieldNeedsTwoDollars(s: string, d: int, i: nat)
    requires DollarsAt(s, d)
    ensures ThreeFieldFrom(s, i) == None
    decreases |s| - i
  {
    if i + 4 <= |s| {
      if OccursAt(s, "LPA:", i) {
        var e := LineEnd(s, i + 4);
        var a := Find(s, '$', i + 4, e);
        if a < e {
          var b := Find(s, '$', a + 1, e);
          assert b == e;
        }
      }
      ThreeFieldNeedsTwoDollars(s, d, i + 1);
    }
  }

  /** A marker inside a prefix is a marker of the whole string. */
  lemma ContainsInPrefix(p: string, rest: string, t: string)
    requires Contains(p, t)
    ensures Contains(p + rest, t)
  {
    var i :| 0 <= i <= |p| - |t| && OccursAt(p, t, i);
    assert (p + rest)[i..i + |t|] == p[i..i + |t|];
    assert OccursAt(p + rest, t, i);
  }

  /** `LPA:<x>$<y>$<code>` on one line: the marker is at the start and
      its line runs to the end of the text. */
  lemma ThreeFieldLine(x: string, y: string, code: string)
    requires SingleLine(x) && SingleLine(y) && SingleLine(code)
    ensures var s := "LPA:" + x + "$" + y + "$" + code;
      && OccursAt(s, "LPA:", 0) && OccursAt(s, "LPA", 0)
      && LineEnd(s, 4) == |s|
  {
    var s := "LPA:" + x + "$" + y + "$" + code;
    assert s[..4] == "LPA:";
    assert OccursAt(s, "LPA:", 0);
    assert OccursAt(s, "LPA", 0);
    assert SingleLine(s[4..]) by {
      assert s[4..] == x + "$" + y + "$" + code;
      SingleLineConcat(x, "$");
      SingleLineConcat(x + "$", y);
      SingleLineConcat(x + "$" + y, "$");
      SingleLineConcat(x + "$" + y + "$", code);
    }
    forall k | 4 <= k < |s| ensures !IsLineTerminator(s[k]) {
      assert s[k] == s[4..][k - 4];
    }
    LineEndOfSingleLine(s, 4);
  }

  /** In `LPA:<x>$<y>$<code>` with no `$` in `x` or `y`, the first two
      `$` after the marker are the ones that end `x` and `y`. */
  lemma ThreeFieldDollars(x: string, y: string, code: string)
    requires NoChar(x, '$') && NoChar(y, '$')
    ensures var s := "LPA:" + x + "$" + y + "$" + code;
      && Find(s, '$', 4, |s|) == 4 + |x|
      && Find(s, '$', 5 + |x|, |s|) == 5 + |x| + |y|
  {
    var s := "LPA:" + x + "$" + y + "$" + code;
    FindAfter("LPA:", x, '$', y + "$" + code);
    assert s == "LPA:" + x + ['$'] + (y + "$" + code);
    FindAfter("LPA:" + x + "$", y, '$', code);
    assert s == ("LPA:" + x + "$") + y + ['$'] + code;
  }

  /** When the text starts with `LPA:` on a line that runs to its end,
      and the first two `$` after the marker are at `a` and `b` with text
      after `b`, the leftmost match captures the rest after `b`. */
  lemma ThreeFieldAtStart(s: string, a: nat, b: nat)
    requires OccursAt(s, "LPA:", 0) && LineEnd(s, 4) == |s|
    requires a < |s| && Find(s, '$', 4, |s|) == a
    requires b + 1 < |s| && Find(s, '$', a + 1, |s|) == b
    ensures ThreeFieldFrom(s, 0) == Some(s[b + 1..])
  {
    var e := LineEnd(s, 0 + 4);
    assert e == |s|;
    assert Find(s, '$', 0 + 4, e) == a;
    assert Find(s, '$', a + 1, e) == b;
    assert s[b + 1..e] == s[b + 1..];
    assert ThreeFieldAt(s, 0) == Some(s[b + 1..]);
  }

  /** On a single line `LPA:<x>$<y>$<code>`, the leftmost three-field
      match captures exactly `<code>`, which may contain further `$`. */
  lemma ThreeFieldMatch(x: string, y: string, code: string)
    requires NoChar(x, '$') && NoChar(y, '$')
    requires SingleLine(x) && SingleLine(y) && SingleLine(code)
    requires code != []
    ensures OccursAt("LPA:" + x + "$" + y + "$" + code, "LPA", 0)
    ensures ThreeFieldFrom("LPA:" + x + "$" + y + "$" + code, 0) == Some(code)
  {
    var s := "LPA:" + x + "$" + y + "$" + code;
    ThreeFieldLine(x, y, code);
    ThreeFieldDollars(x, y, code);
    var b := 5 + |x| + |y|;
    assert s[b + 1..] == code;
    ThreeFieldAtStart(s, 4 + |x|, b);
  }

  /** The documented three-field format `LPA:<x>$<y>$<code>` yields the
      trimmed third field. */
  lemma ThreeFieldFormat(x: string, y: string, code: string)
    requires NoChar(x, '$') && NoChar(y, '$')
    requires SingleLine(x) && SingleLine(y) && SingleLine(code)
    requires code != []
    ensures ExtractActivationCode(Text("LPA:" + x + "$" + y + "$" + code)) == Some(Trim(code))
  {
    var s := "LPA:" + x + "$" + y + "$" + code;
    ThreeFieldMatch(x, y, code);
    assert s != [];
  }

  /** The two-field format `<prefix with LPA>$<code>`, with no other `$`,
      yields the trimmed last field. */
  lemma TwoFieldFormat(p: string, code: string)
    requires Contains(p, "LPA")
    requires NoChar(p, '$') && NoChar(code, '$')
    ensures ExtractActivationCode(Text(p + "$" + code)) == Some(Trim(code))
  {
    var s := p + "$" + code;
    ContainsInPrefix(p, "$" + code, "LPA");
    assert p + ("$" + code) == s;
    forall k | 0 <= k < |s| && k != |p| ensures s[k] != '$' {
      if k < |p| { assert s[k] == p[k]; } else { assert s[k] == code[k - |p| - 1]; }
    }
    assert DollarsAt(s, |p|);
    ThreeFieldNeedsTwoDollars(s, |p|, 0);
    assert '$' !in p && '$' !in code;
    SplitJoin([p, code], '$');
    assert Join([p, code], '$') == s;
    assert Split(s, '$') == [p, code];
    assert LastField(s) == Some(Trim(code));
    assert PayloadTruthy(Text(s)) && Text(s).s == s;
  }

  /** Without any `$`, the text after "LPA:" is the code, trimmed. */
  lemma NoSeparatorFormat(code: string)
    requires NoChar(code, '$') && SingleLine(code)
    requires code != []
    ensures ExtractActivationCode(Text("LPA:" + code)) == Some(Trim(code))
  {
    var s := "LPA:" + code;
    assert s[..4] == "LPA:";
    assert OccursAt(s, "LPA", 0);
    assert OccursAt(s, "LPA:", 0);
    forall k | 4 <= k < |s| ensures s[k] == code[k - 4] { }
    assert DollarsAt(s, -1);
    ThreeFieldNeedsTwoDollars(s, -1, 0);
    assert '$' !in s;
    LineEndOfSingleLine(s, 4);
    assert s[4..|s|] == code;
    assert AfterMarkerFrom(s, 0) == Some(code);
    assert LastField(s).None?;
  }
}
