/**
 * `formatMessageContent`: two chained global replacements on the text of an
 * entry before it is shown. First every `http://` or `https://` URL, up to
 * the next whitespace, becomes a link; then every backslash followed by `n`
 * (the two characters, not a newline) becomes `<br>`.
 */
module Format {
  import opened Text

  /** The replacement `<a href="$1" target="_blank" rel="noopener noreferrer">$1</a>`. */
  function Anchor(url: string): string
  {
    "<a href=\"" + url + "\" target=\"_blank\" rel=\"noopener noreferrer\">" + url + "</a>"
  }

  /** Length of `https?://` at the start of `s`, or 0 when neither scheme is there. */
  function SchemeLength(s: string): (n: nat)
    ensures n == 0 || n == 7 || n == 8
    ensures n <= |s|
    ensures n == 8 <==> |s| >= 8 && s[..8] == "https://"
    ensures n == 7 <==> |s| >= 7 && s[..7] == "http://" && !(|s| >= 8 && s[..8] == "https://")
  {
    if |s| >= 8 && s[..8] == "https://" then 8
    else if |s| >= 7 && s[..7] == "http://" then 7
    else 0
  }

  /** Length of the run of non-whitespace characters, `[^\s]*`, at the start of `s`. */
  function RunLength(s: string): (n: nat)
    ensures n <= |s|
    ensures forall i :: 0 <= i < n ==> !IsJsSpace(s[i])
    ensures n < |s| ==> IsJsSpace(s[n])
  {
    if s == [] || IsJsSpace(s[0]) then 0 else 1 + RunLength(s[1..])
  }

  /**
   * Length of the match of `https?:\/\/[^\s]+` at the start of `s` (0 when
   * there is none). The run is greedy; when `https://` is followed by
   * whitespace, `http` cannot match either, because `s` is not a `:`.
   */
  function UrlMatchLength(s: string): (n: nat)
    ensures n <= |s|
  {
    var k := SchemeLength(s);
    if k > 0 && RunLength(s[k..]) > 0 then k + RunLength(s[k..]) else 0
  }

  /** The first replacement, scanning left to right and resuming after each match. */
  function LinkUrls(s: string): (r: string)
    ensures |r| >= |s|
    ensures s == [] <==> r == []
    decreases |s|
  {
    if s == [] then []
    else
      var n := UrlMatchLength(s);
      if n > 0 then Anchor(s[..n]) + LinkUrls(s[n..])
      else [s[0]] + LinkUrls(s[1..])
  }

  /** The text holds a backslash followed by `n` at position `i`. */
  predicate EscapedNewlineAt(s: string, i: int)
  {
    0 <= i && i + 1 < |s| && s[i] == '\\' && s[i + 1] == 'n'
  }

  predicate HasEscapedNewline(s: string)
  {
    exists i :: 0 <= i < |s| && EscapedNewlineAt(s, i)
  }

  /** The second replacement, `/\\n/g` to `<br>`. */
  function BreakLines(s: string): (r: string)
    ensures s == [] <==> r == []
    ensures s != [] ==> r[0] == s[0] || r[0] == '<'
    ensures !HasEscapedNewline(r)
    decreases |s|
  {
    if |s| >= 2 && s[0] == '\\' && s[1] == 'n' then
      var rest := BreakLines(s[2..]);
      assert forall i :: EscapedNewlineAt("<br>" + rest, i) ==> EscapedNewlineAt(rest, i - 4);
      "<br>" + rest
    else if s == [] then []
    else
      var rest := BreakLines(s[1..]);
      assert forall i :: EscapedNewlineAt([s[0]] + rest, i) ==> i == 0 || EscapedNewlineAt(rest, i - 1);
      [s[0]] + rest
  }

  function FormatMessageContent(content: string): (r: string)
    ensures content == [] <==> r == []
    ensures !HasEscapedNewline(r)
  {
    BreakLines(LinkUrls(content))
  }

  // ------------------------------------------------------------- properties

  /** Some position of the text starts with `http://` or `https://`. */
  predicate HasScheme(s: string)
  {
    exists i :: 0 <= i < |s| && SchemeLength(s[i..]) > 0
  }

  /** Text with no URL scheme in it goes through the first replacement unchanged. */
  lemma {:induction false} LinkUrlsPlain(s: string)
    requires !HasScheme(s)
    ensures LinkUrls(s) == s
    decreases |s|
  {
    if s != [] {
      assert SchemeLength(s[0..]) == 0;
      assert s[0..] == s;
      assert !HasScheme(s[1..]) by {
        forall i | 0 <= i < |s[1..]| ensures SchemeLength(s[1..][i..]) == 0 {
          assert s[1..][i..] == s[i + 1..];
        }
      }
      LinkUrlsPlain(s[1..]);
    }
  }

  /** A URL standing alone, scheme and a non-empty run of non-whitespace, becomes one link. */
  lemma LinkUrlsSingle(url: string)
    requires SchemeLength(url) > 0
    requires |url| > SchemeLength(url)
    requires forall i :: 0 <= i < |url| ==> !IsJsSpace(url[i])
    ensures LinkUrls(url) == Anchor(url)
  {
    UrlMatchWhole(url);
    LinkUrlsWholeMatch(url);
  }

  lemma UrlMatchWhole(url: string)
    requires SchemeLength(url) > 0
    requires |url| > SchemeLength(url)
    requires forall i :: 0 <= i < |url| ==> !IsJsSpace(url[i])
    ensures UrlMatchLength(url) == |url|
  {
    RunLengthAll(url[SchemeLength(url)..]);
  }

  lemma LinkUrlsWholeMatch(url: string)
    requires UrlMatchLength(url) == |url| > 0
    ensures LinkUrls(url) == Anchor(url)
  {
    var n := UrlMatchLength(url);
    var head := Anchor(url[..n]);
    assert LinkUrls(url) == head + LinkUrls(url[n..]);
    assert url[..n] == url && url[n..] == [];
  }

  /** A text free of whitespace is one run. */
  lemma {:induction false} RunLengthAll(s: string)
    requires forall i :: 0 <= i < |s| ==> !IsJsSpace(s[i])
    ensures RunLength(s) == |s|
    decreases |s|
  {
    if s != [] {
      RunLengthAll(s[1..]);
    }
  }

  /** A scheme literal is recognised the same with whitespace and more text after what precedes it. */
  lemma PrefixBeforeSpace(p: string, a: string, c: char, b: string)
    requires IsJsSpace(c)
    requires forall i :: 0 <= i < |p| ==> !IsJsSpace(p[i])
    ensures (|a + [c] + b| >= |p| && (a + [c] + b)[..|p|] == p) <==> (|a| >= |p| && a[..|p|] == p)
  {
    var s := a + [c] + b;
    if |a| >= |p| {
      assert s[..|p|] == a[..|p|];
    } else if |s| >= |p| {
      assert s[..|p|][|a|] == c;
      assert !IsJsSpace(p[|a|]);
    }
  }

  /** A whitespace character ends every run of non-whitespace before it. */
  lemma {:induction false} RunLengthBeforeSpace(a: string, c: char, b: string)
    requires IsJsSpace(c)
    ensures RunLength(a + [c] + b) == RunLength(a)
    decreases |a|
  {
    if a != [] {
      assert (a + [c] + b)[1..] == a[1..] + [c] + b;
      RunLengthBeforeSpace(a[1..], c, b);
    }
  }

  /** A match never reaches past a whitespace character. */
  lemma UrlMatchBeforeSpace(a: string, c: char, b: string)
    requires IsJsSpace(c)
    ensures UrlMatchLength(a + [c] + b) == UrlMatchLength(a)
  {
    var s := a + [c] + b;
    PrefixBeforeSpace("https://", a, c, b);
    PrefixBeforeSpace("http://", a, c, b);
    var k := SchemeLength(a);
    assert SchemeLength(s) == k;
    if k > 0 {
      assert s == a + [c] + b;
      assert (a + [c] + b)[k..] == a[k..] + [c] + b;
      RunLengthBeforeSpace(a[k..], c, b);
    }
  }

  /**
   * Links never span whitespace: the first replacement works on each side
   * of a whitespace character separately and keeps the character.
   */
  lemma {:induction false} LinkUrlsSplitsAtSpace(a: string, c: char, b: string)
    requires IsJsSpace(c)
    ensures LinkUrls(a + [c] + b) == LinkUrls(a) + [c] + LinkUrls(b)
    decreases |a|
  {
    if a == [] {
      LinkUrlsAtSpace(c, b);
    } else {
      var head, m := LinkUrlsStepBeforeSpace(a, c, b);
      LinkUrlsSplitsAtSpace(a[m..], c, b);
      Regroup(head, LinkUrls(a[m..]), c, LinkUrls(b));
    }
  }

  lemma Regroup(head: string, x: string, c: char, y: string)
    ensures head + (x + [c] + y) == (head + x) + [c] + y
  {
  }

  /** Text where no match starts is copied as it is, whatever follows it. */
  lemma {:induction false} LinkUrlsSkip(a: string, b: string)
    requires forall i :: 0 <= i < |a| ==> UrlMatchLength((a + b)[i..]) == 0
    ensures LinkUrls(a + b) == a + LinkUrls(b)
    decreases |a|
  {
    if a != [] {
      forall i | 0 <= i < |a[1..]|
        ensures UrlMatchLength((a[1..] + b)[i..]) == 0
      {
        assert (a[1..] + b)[i..] == (a + b)[i + 1..];
      }
      LinkUrlsSkip(a[1..], b);
      assert (a + b)[0..] == a + b;
      LinkUrlsUnmatched(a, b);
      Uncons(a, LinkUrls(b));
    }
  }

  /** A first character where no match starts is copied, and the scan moves on by one. */
  lemma LinkUrlsUnmatched(a: string, b: string)
    requires a != [] && UrlMatchLength(a + b) == 0
    ensures LinkUrls(a + b) == [a[0]] + LinkUrls(a[1..] + b)
  {
    var s := a + b;
    assert s[0] == a[0] && s[1..] == a[1..] + b;
    LinkUrlsStep(s);
  }

  /** Putting the first character back in front of the rest. */
  lemma Uncons(a: string, y: string)
    requires a != []
    ensures [a[0]] + (a[1..] + y) == a + y
  {
    assert a == [a[0]] + a[1..];
  }

  /** One step of the scan over a character where no match starts. */
  lemma LinkUrlsStep(s: string)
    requires s != [] && UrlMatchLength(s) == 0
    ensures LinkUrls(s) == [s[0]] + LinkUrls(s[1..])
  {
  }

  /** Where a match starts, it becomes a link and the scan resumes after it. */
  lemma LinkUrlsAtMatch(u: string, b: string)
    requires UrlMatchLength(u + b) == |u| > 0
    ensures LinkUrls(u + b) == Anchor(u) + LinkUrls(b)
  {
    var s := u + b;
    assert s[..|u|] == u;
    assert s[|u|..] == b;
  }

  /**
   * A URL that follows other text in the same word, as in `(https://x` or
   * after a backslash-`n`, is linked too: text before it with no `h` is
   * copied, and the URL becomes one link.
   */
  lemma LinkUrlsAfterText(a: string, url: string)
    requires forall i :: 0 <= i < |a| ==> a[i] != 'h'
    requires SchemeLength(url) > 0
    requires |url| > SchemeLength(url)
    requires forall i :: 0 <= i < |url| ==> !IsJsSpace(url[i])
    ensures LinkUrls(a + url) == a + Anchor(url)
  {
    forall i | 0 <= i < |a|
      ensures UrlMatchLength((a + url)[i..]) == 0
    {
      assert (a + url)[i..][0] == a[i];
    }
    LinkUrlsSkip(a, url);
    LinkUrlsSingle(url);
  }

  /** Text that starts with whitespace keeps it and links the rest. */
  lemma LinkUrlsAtSpace(c: char, b: string)
    requires IsJsSpace(c)
    ensures LinkUrls([] + [c] + b) == [] + [c] + LinkUrls(b)
  {
    var s := [c] + b;
    assert [] + [c] + b == s;
    if |s| >= 7 {
      assert s[..7][0] == c;
    }
    if |s| >= 8 {
      assert s[..8][0] == c;
    }
    assert SchemeLength(s) == 0;
    assert s[1..] == b;
  }

  /**
   * One step of the scan over `a + [c] + b` consumes the same characters of
   * `a` as the step over `a` alone.
   */
  lemma LinkUrlsStepBeforeSpace(a: string, c: char, b: string) returns (head: string, m: nat)
    requires IsJsSpace(c) && a != []
    ensures 0 < m <= |a|
    ensures LinkUrls(a + [c] + b) == head + LinkUrls(a[m..] + [c] + b)
    ensures LinkUrls(a) == head + LinkUrls(a[m..])
  {
    var s := a + [c] + b;
    UrlMatchBeforeSpace(a, c, b);
    var n := UrlMatchLength(a);
    if n > 0 {
      m, head := n, Anchor(a[..n]);
      assert s[..n] == a[..n];
    } else {
      m, head := 1, [a[0]];
      assert s[0] == a[0];
    }
    assert s[m..] == a[m..] + [c] + b;
  }

  /** Text without a backslash-`n` pair goes through the second replacement unchanged. */
  lemma {:induction false} BreakLinesPlain(s: string)
    requires !HasEscapedNewline(s)
    ensures BreakLines(s) == s
    decreases |s|
  {
    if s != [] {
      assert !EscapedNewlineAt(s, 0);
      assert !HasEscapedNewline(s[1..]) by {
        forall i | EscapedNewlineAt(s[1..], i) ensures false {
          assert EscapedNewlineAt(s, i + 1);
        }
      }
      BreakLinesPlain(s[1..]);
    }
  }

  /** Plain text, with no URL scheme and no backslash-`n`, is shown exactly as stored. */
  lemma FormatPlain(s: string)
    requires !HasScheme(s) && !HasEscapedNewline(s)
    ensures FormatMessageContent(s) == s
  {
    LinkUrlsPlain(s);
    BreakLinesPlain(s);
  }

  /** Every backslash-`n` pair becomes `<br>`, whatever stands around it. */
  lemma {:induction false} BreakLinesAtPair(a: string, b: string)
    ensures BreakLines(a + ['\\', 'n'] + b) == BreakLines(a) + "<br>" + BreakLines(b)
    decreases |a|
  {
    if a == [] {
      assert a + ['\\', 'n'] + b == ['\\', 'n'] + b;
      BreakLinesPair(b);
    } else if |a| >= 2 && a[0] == '\\' && a[1] == 'n' {
      BreakLinesAtPair(a[2..], b);
      PairBeforePair(a, b);
    } else {
      BreakLinesAtPair(a[1..], b);
      KeptBeforePair(a, b);
    }
  }

  lemma PairBeforePair(a: string, b: string)
    requires |a| >= 2 && a[0] == '\\' && a[1] == 'n'
    requires BreakLines(a[2..] + ['\\', 'n'] + b) == BreakLines(a[2..]) + "<br>" + BreakLines(b)
    ensures BreakLines(a + ['\\', 'n'] + b) == BreakLines(a) + "<br>" + BreakLines(b)
  {
    var s := a + ['\\', 'n'] + b;
    assert s[0] == '\\' && s[1] == 'n';
    assert s[2..] == a[2..] + ['\\', 'n'] + b;
    BreakLinesPairStep(s);
    BreakLinesPairStep(a);
    Regroup3("<br>", BreakLines(a[2..]), "<br>", BreakLines(b));
  }

  /** One step of the scan over a backslash-`n` pair. */
  lemma BreakLinesPairStep(s: string)
    requires |s| >= 2 && s[0] == '\\' && s[1] == 'n'
    ensures BreakLines(s) == "<br>" + BreakLines(s[2..])
  {
  }

  lemma KeptBeforePair(a: string, b: string)
    requires a != [] && !(|a| >= 2 && a[0] == '\\' && a[1] == 'n')
    requires BreakLines(a[1..] + ['\\', 'n'] + b) == BreakLines(a[1..]) + "<br>" + BreakLines(b)
    ensures BreakLines(a + ['\\', 'n'] + b) == BreakLines(a) + "<br>" + BreakLines(b)
  {
    var s := a + ['\\', 'n'] + b;
    assert s[0] == a[0] && s[1] == if |a| == 1 then '\\' else a[1];
    assert s[1..] == a[1..] + ['\\', 'n'] + b;
    BreakLinesStep(s);
    BreakLinesStep(a);
    Regroup3([a[0]], BreakLines(a[1..]), "<br>", BreakLines(b));
  }

  lemma Regroup3(head: string, x: string, m: string, y: string)
    ensures head + (x + m + y) == (head + x) + m + y
  {
  }

  /** One step of the scan over a character that does not start a pair. */
  lemma BreakLinesStep(s: string)
    requires s != [] && !(|s| >= 2 && s[0] == '\\' && s[1] == 'n')
    ensures BreakLines(s) == [s[0]] + BreakLines(s[1..])
  {
  }

  /** A pair at the front becomes `<br>`. */
  lemma BreakLinesPair(b: string)
    ensures BreakLines(['\\', 'n'] + b) == "<br>" + BreakLines(b)
  {
    assert (['\\', 'n'] + b)[2..] == b;
  }

  /** A character that does not start a backslash-`n` pair is kept as it is. */
  lemma BreakLinesKeeps(c: char, b: string)
    requires !(c == '\\' && b != [] && b[0] == 'n')
    ensures BreakLines([c] + b) == [c] + BreakLines(b)
  {
    assert ([c] + b)[1..] == b;
  }
}
