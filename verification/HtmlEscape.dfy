// `escapeHtml` (src/email/provider-link-email-template.service.ts).
module HtmlEscape {

  // `replace(/c/g, with)`.
  function ReplaceAll(s: string, c: char, with_: string): string {
    if s == "" then "" else (if s[0] == c then with_ else [s[0]]) + ReplaceAll(s[1..], c, with_)
  }

  function EscapeHtml(s: string): string {
    var s1 := ReplaceAll(s, '&', "&amp;");
    var s2 := ReplaceAll(s1, '<', "&lt;");
    var s3 := ReplaceAll(s2, '>', "&gt;");
    var s4 := ReplaceAll(s3, '"', "&quot;");
    ReplaceAll(s4, '\'', "&#39;")
  }

  // ---------- One pass ----------

  function Reference(c: char): string {
    match c
    case '&' => "&amp;"
    case '<' => "&lt;"
    case '>' => "&gt;"
    case '"' => "&quot;"
    case '\'' => "&#39;"
    case _ => [c]
  }

  function Substitute(s: string): string {
    if s == "" then "" else Reference(s[0]) + Substitute(s[1..])
  }

  lemma {:induction false} ReplaceAppend(s: string, t: string, c: char, with_: string)
    ensures ReplaceAll(s + t, c, with_) == ReplaceAll(s, c, with_) + ReplaceAll(t, c, with_)
  {
    if s == "" {
      assert s + t == t;
    } else {
      assert (s + t)[0] == s[0] && (s + t)[1..] == s[1..] + t;
      ReplaceAppend(s[1..], t, c, with_);
    }
  }

  lemma {:induction false} ReplaceAbsent(s: string, c: char, with_: string)
    requires c !in s
    ensures ReplaceAll(s, c, with_) == s
  {
    if s != "" {
      ReplaceAbsent(s[1..], c, with_);
    }
  }

  lemma EscapeAppend(s: string, t: string)
    ensures EscapeHtml(s + t) == EscapeHtml(s) + EscapeHtml(t)
  {
    ReplaceAppend(s, t, '&', "&amp;");
    var s1, t1 := ReplaceAll(s, '&', "&amp;"), ReplaceAll(t, '&', "&amp;");
    ReplaceAppend(s1, t1, '<', "&lt;");
    var s2, t2 := ReplaceAll(s1, '<', "&lt;"), ReplaceAll(t1, '<', "&lt;");
    ReplaceAppend(s2, t2, '>', "&gt;");
    var s3, t3 := ReplaceAll(s2, '>', "&gt;"), ReplaceAll(t2, '>', "&gt;");
    ReplaceAppend(s3, t3, '"', "&quot;");
    ReplaceAppend(ReplaceAll(s3, '"', "&quot;"), ReplaceAll(t3, '"', "&quot;"), '\'', "&#39;");
  }

  lemma ReplaceOne(c: char, d: char, with_: string)
    ensures ReplaceAll([d], c, with_) == if d == c then with_ else [d]
  {
    assert [d][1..] == "";
  }

  // No later replacement touches what an earlier one wrote: `&` goes first.
  lemma EscapeOne(c: char)
    ensures EscapeHtml([c]) == Reference(c)
  {
    ReplaceOne('&', c, "&amp;");
    ReplaceOne('<', c, "&lt;");
    ReplaceOne('>', c, "&gt;");
    ReplaceOne('"', c, "&quot;");
    ReplaceOne('\'', c, "&#39;");
    if c != Reference(c)[0] || c == '&' {
      Untouched(Reference(c));
    }
  }

  lemma Untouched(r: string)
    requires '<' !in r && '>' !in r && '"' !in r && '\'' !in r
    ensures ReplaceAll(r, '<', "&lt;") == ReplaceAll(r, '>', "&gt;") == r
    ensures ReplaceAll(r, '"', "&quot;") == ReplaceAll(r, '\'', "&#39;") == r
  {
    ReplaceAbsent(r, '<', "&lt;");
    ReplaceAbsent(r, '>', "&gt;");
    ReplaceAbsent(r, '"', "&quot;");
    ReplaceAbsent(r, '\'', "&#39;");
  }

  // The five sequential replacements are one simultaneous substitution.
  lemma {:induction false} EscapeIsOnePass(s: string)
    ensures EscapeHtml(s) == Substitute(s)
  {
    if s == "" {
    } else {
      assert s == [s[0]] + s[1..];
      EscapeAppend([s[0]], s[1..]);
      EscapeOne(s[0]);
      EscapeIsOnePass(s[1..]);
    }
  }

  // ---------- The output is inert ----------

  // The reference at the head of `s`, and the character it stands for (section 13.1.4 of the HTML Living
  // Standard).
  predicate StartsReference(s: string) {
    "&amp;" <= s || "&lt;" <= s || "&gt;" <= s || "&quot;" <= s || "&#39;" <= s
  }

  ghost predicate Inert(s: string) {
    && '<' !in s && '>' !in s && '"' !in s && '\'' !in s
    && forall i :: 0 <= i < |s| && s[i] == '&' ==> StartsReference(s[i..])
  }

  lemma {:induction false} EscapedIsInert(s: string)
    ensures Inert(EscapeHtml(s))
  {
    EscapeIsOnePass(s);
    if s != "" {
      EscapedIsInert(s[1..]);
      EscapeIsOnePass(s[1..]);
      ReferenceInert(s[0], Substitute(s[1..]));
    }
  }

  lemma ReferenceInert(c: char, t: string)
    requires Inert(t)
    ensures Inert(Reference(c) + t)
  {
    var r := Reference(c);
    forall i | 0 <= i < |r + t| && (r + t)[i] == '&'
      ensures StartsReference((r + t)[i..])
    {
      if i >= |r| {
        assert (r + t)[i..] == t[i - |r|..];
      } else {
        assert i == 0 && (r + t)[0..] == r + t && r <= r + t;
      }
    }
  }

  // ---------- Round trip ----------

  function Decode(s: string): string
    decreases |s|
  {
    if s == "" then ""
    else if "&amp;" <= s then "&" + Decode(s[5..])
    else if "&lt;" <= s then "<" + Decode(s[4..])
    else if "&gt;" <= s then ">" + Decode(s[4..])
    else if "&quot;" <= s then "\"" + Decode(s[6..])
    else if "&#39;" <= s then "'" + Decode(s[5..])
    else [s[0]] + Decode(s[1..])
  }

  lemma DecodeReference(c: char, t: string)
    ensures Decode(Reference(c) + t) == [c] + Decode(t)
  {
    var r := Reference(c);
    assert r <= r + t && (r + t)[|r|..] == t;
    if r == [c] {
      assert (r + t)[0] == c && c != '&';
    } else if c == '&' || c == '<' {
      assert (r + t)[1] == r[1];
    } else if c == '>' {
      assert (r + t)[1] == r[1];
    } else {
      assert (r + t)[1] == r[1];
    }
  }

  lemma {:induction false} DecodeEscape(s: string)
    ensures Decode(EscapeHtml(s)) == s
  {
    EscapeIsOnePass(s);
    if s != "" {
      DecodeEscape(s[1..]);
      EscapeIsOnePass(s[1..]);
      DecodeReference(s[0], Substitute(s[1..]));
    }
  }
}
