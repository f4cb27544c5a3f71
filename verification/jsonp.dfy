/** The JSONP side of the relay: the callback name sent with the request, and the
    unwrapping of the reseller's reply into plain JSON text. */
module Jsonp {
  import Decimal

  const CallbackPrefix: string := "callback_"
  const SuffixLength: nat := 15

  /** Fifteen draws of `random.randint(0, 9)`, taken as an input. */
  predicate ValidDraws(draws: seq<int>) {
    |draws| == SuffixLength && forall i :: 0 <= i < |draws| ==> 0 <= draws[i] <= 9
  }

  /** The numerals of the draws, in order. */
  function DigitString(draws: seq<int>): (s: string)
    requires forall i :: 0 <= i < |draws| ==> 0 <= draws[i] <= 9
    ensures |s| == |draws|
    ensures forall i :: 0 <= i < |draws| ==> s[i] == Decimal.DigitChar(draws[i])
  {
    if draws == [] then []
    else DigitString(draws[..|draws| - 1]) + [Decimal.DigitChar(draws[|draws| - 1])]
  }

  /** The callback name of one request. */
  function CallbackName(draws: seq<int>): string
    requires ValidDraws(draws)
  {
    CallbackPrefix + DigitString(draws)
  }

  /** `callback_` followed by exactly fifteen decimal digits. */
  predicate IsCallbackName(s: string) {
    |s| == |CallbackPrefix| + SuffixLength
    && s[..|CallbackPrefix|] == CallbackPrefix
    && forall i :: |CallbackPrefix| <= i < |s| ==> Decimal.IsAsciiDigit(s[i])
  }

  /** The draws a callback name was made from. */
  function DrawsOf(name: string): seq<int>
    requires IsCallbackName(name)
  {
    seq(SuffixLength, i requires 0 <= i < SuffixLength => Decimal.DigitValue(name[|CallbackPrefix| + i]))
  }

  /** Every callback name has the documented shape, and gives back its draws. */
  lemma CallbackNameShape(draws: seq<int>)
    requires ValidDraws(draws)
    ensures IsCallbackName(CallbackName(draws))
    ensures DrawsOf(CallbackName(draws)) == draws
  {
    var name := CallbackName(draws);
    assert name[..|CallbackPrefix|] == CallbackPrefix;
    forall i | 0 <= i < SuffixLength ensures DrawsOf(name)[i] == draws[i] {
      assert DrawsOf(name)[i] == Decimal.DigitValue(name[|CallbackPrefix| + i]);
      assert name[|CallbackPrefix| + i] == Decimal.DigitChar(draws[i]);
    }
  }

  /** The fifteen-step loop that joins the drawn digits, then the prefix. */
  method MakeCallbackName(draws: seq<int>) returns (name: string)
    requires ValidDraws(draws)
    ensures name == CallbackName(draws)
    ensures IsCallbackName(name) && DrawsOf(name) == draws
  {
    var suffix := "";
    for i := 0 to SuffixLength
      invariant |suffix| == i
      invariant forall j :: 0 <= j < i ==> suffix[j] == Decimal.DigitChar(draws[j])
    {
      suffix := suffix + [Decimal.DigitChar(draws[i])];
    }
    name := CallbackPrefix + suffix;
    assert suffix == DigitString(draws);
    CallbackNameShape(draws);
  }

  /** The code points Python's `str.strip()` removes (`str.isspace()`). */
  const Whitespace: set<char> := {
    '\t', '\n', '\U{000B}', '\U{000C}', '\r', '\U{001C}', '\U{001D}', '\U{001E}', '\U{001F}',
    ' ', '\U{0085}', '\U{00A0}', '\U{1680}',
    '\U{2000}', '\U{2001}', '\U{2002}', '\U{2003}', '\U{2004}', '\U{2005}', '\U{2006}',
    '\U{2007}', '\U{2008}', '\U{2009}', '\U{200A}',
    '\U{2028}', '\U{2029}', '\U{202F}', '\U{205F}', '\U{3000}'}

  predicate OccursAt(s: string, pat: string, i: nat) {
    i + |pat| <= |s| && s[i..i + |pat|] == pat
  }

  /** `s.replace(pat, "")`: occurrences of `pat` removed, scanning left to right
      without overlap; an empty `pat` changes nothing. */
  function RemoveAll(s: string, pat: string): (r: string)
    ensures |r| <= |s|
    decreases |s|
  {
    if pat == [] || |s| < |pat| then s
    else if s[..|pat|] == pat then RemoveAll(s[|pat|..], pat)
    else [s[0]] + RemoveAll(s[1..], pat)
  }

  /** `s.lstrip(cs)`: the longest prefix of characters from `cs` removed. */
  function LStrip(s: string, cs: set<char>): (r: string)
    ensures |r| <= |s| && r == s[|s| - |r|..]
    ensures forall i :: 0 <= i < |s| - |r| ==> s[i] in cs
    ensures r == [] || r[0] !in cs
  {
    if |s| > 0 && s[0] in cs then LStrip(s[1..], cs) else s
  }

  /** `s.rstrip(cs)`: the longest suffix of characters from `cs` removed. */
  function RStrip(s: string, cs: set<char>): (r: string)
    ensures |r| <= |s| && r == s[..|r|]
    ensures forall i :: |r| <= i < |s| ==> s[i] in cs
    ensures r == [] || r[|r| - 1] !in cs
  {
    if |s| > 0 && s[|s| - 1] in cs then RStrip(s[..|s| - 1], cs) else s
  }

  /** `s.strip()`. */
  function Strip(s: string): string {
    RStrip(LStrip(s, Whitespace), Whitespace)
  }

  /** `.lstrip('(').rstrip(')')`. */
  function StripParens(s: string): string {
    RStrip(LStrip(s, {'('}), {')'})
  }

  /** The unwrap of a reply body: the callback name removed wherever it occurs,
      surrounding whitespace stripped, then every leading `(` and trailing `)`. */
  function Unwrap(body: string, name: string): (r: string)
    ensures r == [] || (r[0] != '(' && r[|r| - 1] != ')')
  {
    StripParens(Strip(RemoveAll(body, name)))
  }

  /** Without an occurrence of `pat`, the removal changes nothing. */
  lemma {:induction false} RemoveAllWithoutOccurrence(s: string, pat: string)
    requires forall i: nat :: !OccursAt(s, pat, i)
    ensures RemoveAll(s, pat) == s
    decreases |s|
  {
    if pat != [] && |s| >= |pat| {
      assert !OccursAt(s, pat, 0);
      forall i: nat ensures !OccursAt(s[1..], pat, i) {
        if OccursAt(s[1..], pat, i) {
          assert s[1..][i..i + |pat|] == s[i + 1..i + 1 + |pat|];
          assert OccursAt(s, pat, i + 1);
        }
      }
      RemoveAllWithoutOccurrence(s[1..], pat);
    }
  }

  /** With an occurrence of a non-empty `pat`, the removal makes the text shorter. */
  lemma {:induction false} RemoveAllWithOccurrence(s: string, pat: string, i: nat)
    requires pat != [] && OccursAt(s, pat, i)
    ensures |RemoveAll(s, pat)| < |s|
    decreases |s|
  {
    if s[..|pat|] != pat {
      assert i != 0;
      assert s[1..][i - 1..i - 1 + |pat|] == s[i..i + |pat|];
      RemoveAllWithOccurrence(s[1..], pat, i - 1);
    }
  }

  /** A leading `pat` is removed. */
  lemma RemoveAllLeading(pat: string, s: string)
    requires pat != []
    ensures RemoveAll(pat + s, pat) == RemoveAll(s, pat)
  {
    assert (pat + s)[..|pat|] == pat;
    assert (pat + s)[|pat|..] == s;
  }

  /** A prefix of characters from `cs` in front of a text not starting with one is
      exactly what `lstrip` removes. */
  lemma {:induction false} LStripExact(pre: string, t: string, cs: set<char>)
    requires forall i :: 0 <= i < |pre| ==> pre[i] in cs
    requires t == [] || t[0] !in cs
    ensures LStrip(pre + t, cs) == t
    decreases |pre|
  {
    if pre == [] {
      assert pre + t == t;
    } else {
      assert (pre + t)[1..] == pre[1..] + t;
      LStripExact(pre[1..], t, cs);
    }
  }

  /** A suffix of characters from `cs` behind a text not ending in one is exactly
      what `rstrip` removes. */
  lemma {:induction false} RStripExact(t: string, suf: string, cs: set<char>)
    requires forall i :: 0 <= i < |suf| ==> suf[i] in cs
    requires t == [] || t[|t| - 1] !in cs
    ensures RStrip(t + suf, cs) == t
    decreases |suf|
  {
    if suf == [] {
      assert t + suf == t;
    } else {
      assert (t + suf)[..|t + suf| - 1] == t + suf[..|suf| - 1];
      RStripExact(t, suf[..|suf| - 1], cs);
    }
  }

  /** Stripping the parentheses again changes nothing: the unwrap leaves none at
      either end. */
  lemma StripParensIdempotent(body: string, name: string)
    ensures StripParens(Unwrap(body, name)) == Unwrap(body, name)
  {
    var u := Unwrap(body, name);
    LStripExact([], u, {'('});
    RStripExact(u, [], {')'});
    assert [] + u == u && u + [] == u;
  }

  /** `k` opening parentheses. */
  function Opens(k: nat): (s: string)
    ensures |s| == k && forall i :: 0 <= i < k ==> s[i] == '('
  {
    seq(k, _ => '(')
  }

  /** `m` closing parentheses. */
  function Closes(m: nat): (s: string)
    ensures |s| == m && forall i :: 0 <= i < m ==> s[i] == ')'
  {
    seq(m, _ => ')')
  }

  /** A name that starts with neither parenthesis cannot be found across the
      parentheses around a text that does not contain it. */
  lemma NoOccurrenceAcrossParens(name: string, k: nat, json: string, m: nat)
    requires name != [] && name[0] != '(' && name[|name| - 1] != ')'
    requires forall i: nat :: !OccursAt(json, name, i)
    ensures forall i: nat :: !OccursAt(Opens(k) + json + Closes(m), name, i)
  {
    var p := Opens(k) + json + Closes(m);
    forall i: nat | OccursAt(p, name, i) ensures false {
      var n := |name|;
      assert p[i] == name[0];
      assert p[i + n - 1] == name[n - 1];
      if k <= i && i + n <= k + |json| {
        assert p[i..i + n] == json[i - k..i - k + n];
        assert OccursAt(json, name, i - k);
      }
    }
  }

  /** A text with no whitespace at either end is left alone by `strip()`. */
  lemma StripUnchanged(s: string)
    requires s == [] || (s[0] !in Whitespace && s[|s| - 1] !in Whitespace)
    ensures Strip(s) == s
  {
    LStripExact([], s, Whitespace);
    RStripExact(s, [], Whitespace);
    assert [] + s == s && s + [] == s;
  }

  /** The parenthesis strip removes exactly the parentheses around a text that
      does not start with `(` nor end with `)`. */
  lemma StripParensExact(k: nat, json: string, m: nat)
    requires json == [] || (json[0] != '(' && json[|json| - 1] != ')')
    ensures StripParens(Opens(k) + json + Closes(m)) == json
  {
    var rest := json + Closes(m);
    assert Opens(k) + json + Closes(m) == Opens(k) + rest;
    LStripExact(Opens(k), rest, {'('});
    RStripExact(json, Closes(m), {')'});
  }

  /** Parentheses around a text with no whitespace at either end leave none at
      either end. */
  lemma FramedTextEnds(k: nat, json: string, m: nat)
    requires json == [] || (json[0] !in Whitespace && json[|json| - 1] !in Whitespace)
    ensures var p := Opens(k) + json + Closes(m);
      p == [] || (p[0] !in Whitespace && p[|p| - 1] !in Whitespace)
  {
    assert '(' !in Whitespace && ')' !in Whitespace;
    var p := Opens(k) + json + Closes(m);
    if p != [] {
      assert p[0] == (if k > 0 then '(' else if json != [] then json[0] else ')');
      assert p[|p| - 1] == (if m > 0 then ')' else if json != [] then json[|json| - 1] else '(');
    }
  }

  /** A reply `name` + `(`…`(` + JSON + `)`…`)` unwraps to exactly the JSON, when
      the JSON does not contain the name, has no surrounding whitespace, and does
      not itself start with `(` or end with `)`. */
  lemma UnwrapRecoversJson(name: string, k: nat, json: string, m: nat)
    requires name != [] && name[0] != '(' && name[|name| - 1] != ')'
    requires forall i: nat :: !OccursAt(json, name, i)
    requires json == [] || (json[0] !in Whitespace && json[|json| - 1] !in Whitespace)
    requires json == [] || (json[0] != '(' && json[|json| - 1] != ')')
    ensures Unwrap(name + Opens(k) + json + Closes(m), name) == json
  {
    var p := Opens(k) + json + Closes(m);
    assert name + Opens(k) + json + Closes(m) == name + p;
    RemoveAllLeading(name, p);
    NoOccurrenceAcrossParens(name, k, json, m);
    RemoveAllWithoutOccurrence(p, name);
    FramedTextEnds(k, json, m);
    StripUnchanged(p);
    StripParensExact(k, json, m);
  }

  /** Every callback name can be recovered around: it starts with `c` and ends in
      a digit. */
  lemma CallbackNameFramesJson(draws: seq<int>)
    requires ValidDraws(draws)
    ensures var name := CallbackName(draws);
      name != [] && name[0] != '(' && name[|name| - 1] != ')'
  {
    CallbackNameShape(draws);
  }

  /** The reply `callback_123(({"status":"ok"}))` with callback name
      `callback_123` unwraps to `{"status":"ok"}`. */
  lemma UnwrapExample()
    ensures Unwrap("callback_123(({\"status\":\"ok\"}))", "callback_123") == "{\"status\":\"ok\"}"
  {
    var name, json := "callback_123", "{\"status\":\"ok\"}";
    assert "callback_123(({\"status\":\"ok\"}))" == name + Opens(2) + json + Closes(2);
    forall i: nat ensures !OccursAt(json, name, i) {
      assert i <= 3 ==> json[i] != name[0];
    }
    UnwrapRecoversJson(name, 2, json, 2);
  }
}
