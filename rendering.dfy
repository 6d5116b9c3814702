/** How the macro turns syntax into text: a path's token rendering
    (`to_token_stream().to_string()`, modelled as a space between
    neighbouring tokens)
    and Rust's `{:?}` quoting of strings. The comparison against the
    accepted trait spellings and every diagnostic message are built from
    these. */
module Rendering {
  import opened Syntax

  /** A character that can occur in a Rust identifier, as far as the
      rendering needs to know: never a space, a colon or an opening
      bracket. */
  predicate IdentChar(c: char) {
    c != ' ' && c != ':' && c != '<' && c != '('
  }

  predicate WfIdent(s: string) {
    |s| > 0 && forall i :: 0 <= i < |s| ==> IdentChar(s[i])
  }

  /** Rendered generic arguments are empty, or open with an angle bracket
      (`< T >`, turbofish `:: < T >`) or a parenthesis (`(A) -> B`). */
  predicate WfArguments(a: string) {
    a == "" || '<' in a || '(' in a
  }

  predicate WfSegment(s: PathSegment) {
    WfIdent(s.ident) && WfArguments(s.arguments)
  }

  /** A path as the parser builds it: at least one segment, all well formed. */
  predicate WfPath(p: Path) {
    |p.segments| > 0 && forall i :: 0 <= i < |p.segments| ==> WfSegment(p.segments[i])
  }

  /** No segment has generic arguments. */
  predicate IsPlain(segs: seq<PathSegment>) {
    forall i :: 0 <= i < |segs| ==> segs[i].arguments == ""
  }

  /** Generic arguments are written after a space, when there are any. */
  function RenderArguments(a: string): string {
    if a == "" then "" else " " + a
  }

  /** The segments joined by ` :: `, written as the first identifier
      followed by the rest (`RenderTail`). */
  function RenderSegments(segs: seq<PathSegment>): string
    decreases |segs|, 1
  {
    if |segs| == 0 then "" else segs[0].ident + RenderTail(segs)
  }

  /** What follows the first segment's identifier: its arguments, then
      ` :: ` and the other segments. */
  function RenderTail(segs: seq<PathSegment>): string
    requires |segs| > 0
    decreases |segs|, 0
  {
    RenderArguments(segs[0].arguments)
      + (if |segs| == 1 then "" else " :: " + RenderSegments(segs[1..]))
  }

  /** `path.to_token_stream().to_string()`, modelled with tokens separated
      by single spaces, so `::std::str::FromStr` renders as
      `:: std :: str :: FromStr`. Parenthesised arguments also get a space
      before them (`Fn (u8)`), which the compiler's own printer omits. */
  function RenderPath(p: Path): (r: string)
    ensures WfPath(p) ==> |r| > 0 && (r[0] == ':' <==> p.leadingColon)
  {
    (if p.leadingColon then ":: " else "") + RenderSegments(p.segments)
  }

  /** The text after the first identifier is empty or starts with a space;
      it is empty only for a single segment without arguments. */
  lemma RenderTailShape(segs: seq<PathSegment>)
    requires |segs| > 0
    ensures RenderTail(segs) == "" || RenderTail(segs)[0] == ' '
    ensures RenderTail(segs) == "" <==> |segs| == 1 && segs[0].arguments == ""
  {
  }

  /** A single plain segment renders as its identifier. */
  lemma RenderOnePlainSegment(segs: seq<PathSegment>)
    requires |segs| == 1 && segs[0].arguments == ""
    ensures RenderSegments(segs) == segs[0].ident
  {
  }

  /** A plain first segment is followed directly by ` :: `. */
  lemma RenderPlainFirstSegment(segs: seq<PathSegment>)
    requires |segs| > 1 && segs[0].arguments == ""
    ensures RenderSegments(segs) == segs[0].ident + " :: " + RenderSegments(segs[1..])
  {
  }

  /** The index of the first space in `s`, or `|s|` when there is none. */
  function FirstSpace(s: string): (k: nat)
    ensures k <= |s|
  {
    if |s| == 0 || s[0] == ' ' then 0 else 1 + FirstSpace(s[1..])
  }

  /** A space-free word followed by nothing or by a space: the first space
      is right after the word. */
  lemma {:induction false} FirstSpaceAfterWord(a: string, b: string)
    requires forall i :: 0 <= i < |a| ==> a[i] != ' '
    requires b == "" || b[0] == ' '
    ensures FirstSpace(a + b) == |a|
  {
    if |a| > 0 {
      assert (a + b)[1..] == a[1..] + b;
      FirstSpaceAfterWord(a[1..], b);
    } else {
      assert a + b == b;
    }
  }

  /** Two space-free words followed by text that is empty or starts with a
      space can only be equal if the words are. */
  lemma SplitAtSpace(a: string, b: string, c: string, d: string)
    requires forall i :: 0 <= i < |a| ==> a[i] != ' '
    requires forall i :: 0 <= i < |c| ==> c[i] != ' '
    requires b == "" || b[0] == ' '
    requires d == "" || d[0] == ' '
    requires a + b == c + d
    ensures a == c && b == d
  {
    FirstSpaceAfterWord(a, b);
    FirstSpaceAfterWord(c, d);
    assert a == (a + b)[..|a|];
    assert c == (c + d)[..|c|];
    assert b == (a + b)[|a|..];
    assert d == (c + d)[|c|..];
  }

  /** Plain paths are rendered unambiguously: the rendering determines the
      segments. */
  lemma {:induction false} PlainRenderingInjective(ps: seq<PathSegment>, qs: seq<PathSegment>)
    requires |ps| > 0 && |qs| > 0
    requires forall i :: 0 <= i < |ps| ==> WfIdent(ps[i].ident)
    requires forall i :: 0 <= i < |qs| ==> WfIdent(qs[i].ident)
    requires IsPlain(ps) && IsPlain(qs)
    requires RenderSegments(ps) == RenderSegments(qs)
    ensures ps == qs
  {
    RenderTailShape(ps);
    RenderTailShape(qs);
    SplitAtSpace(ps[0].ident, RenderTail(ps), qs[0].ident, RenderTail(qs));
    assert ps[0] == qs[0];
    assert |ps| == 1 <==> |qs| == 1;
    if |ps| > 1 {
      assert RenderSegments(ps[1..]) == RenderTail(ps)[4..];
      assert RenderSegments(qs[1..]) == RenderTail(qs)[4..];
      PlainRenderingInjective(ps[1..], qs[1..]);
      assert ps == [ps[0]] + ps[1..];
      assert qs == [qs[0]] + qs[1..];
    }
  }

  /** A rendering without brackets comes from a path without generic
      arguments. */
  lemma {:induction false} NoBracketMeansPlain(segs: seq<PathSegment>)
    requires forall i :: 0 <= i < |segs| ==> WfArguments(segs[i].arguments)
    requires '<' !in RenderSegments(segs) && '(' !in RenderSegments(segs)
    ensures IsPlain(segs)
  {
    if |segs| > 0 {
      var s := segs[0];
      var a := RenderArguments(s.arguments);
      var rest := if |segs| == 1 then "" else " :: " + RenderSegments(segs[1..]);
      assert RenderSegments(segs) == s.ident + (a + rest);
      assert '<' !in a && '(' !in a;
      if |segs| > 1 {
        assert '<' !in rest && '(' !in rest;
        NoBracketMeansPlain(segs[1..]);
      }
      assert s.arguments != "" ==> a == " " + s.arguments;
      assert s.arguments == "";
      assert forall i :: 1 <= i < |segs| ==> segs[i] == segs[1..][i - 1];
    }
  }

  /** A plain path of well-formed identifiers renders without brackets. */
  lemma {:induction false} PlainHasNoBracket(segs: seq<PathSegment>)
    requires forall i :: 0 <= i < |segs| ==> WfIdent(segs[i].ident)
    requires IsPlain(segs)
    ensures '<' !in RenderSegments(segs) && '(' !in RenderSegments(segs)
  {
    if |segs| > 0 {
      var rest := if |segs| == 1 then "" else " :: " + RenderSegments(segs[1..]);
      assert RenderSegments(segs) == segs[0].ident + ("" + rest);
      if |segs| > 1 {
        PlainHasNoBracket(segs[1..]);
      }
    }
  }

  /** The rendering of a well-formed path against that of a plain one:
      equal text means the same leading `::` and the same segments, so the
      textual comparison in the macro is a structural one. */
  lemma RenderPathInjective(p: Path, q: Path)
    requires WfPath(p) && WfPath(q) && IsPlain(q.segments)
    requires RenderPath(p) == RenderPath(q)
    ensures p.leadingColon == q.leadingColon && p.segments == q.segments
  {
    var pre := if p.leadingColon then ":: " else "";
    assert RenderSegments(p.segments) == RenderPath(p)[|pre|..];
    assert RenderSegments(q.segments) == RenderPath(q)[|pre|..];
    PlainHasNoBracket(q.segments);
    NoBracketMeansPlain(p.segments);
    PlainRenderingInjective(p.segments, q.segments);
  }

  // ----- Rust's `{:?}` formatting of strings -----

  /** The letter `{:?}` writes after a backslash for `c`, for the
      characters it escapes: quotes, backslashes and the common control
      characters (a single quote is not escaped inside a string). */
  function EscapeCode(c: char): Option<char> {
    if c == '"' then Some('"')
    else if c == '\\' then Some('\\')
    else if c == '\n' then Some('n')
    else if c == '\r' then Some('r')
    else if c == '\t' then Some('t')
    else if c == '\0' then Some('0')
    else None
  }

  /** How `{:?}` writes one character of a string. */
  function EscapeChar(c: char): string {
    match EscapeCode(c)
    case Some(k) => ['\\', k]
    case None => [c]
  }

  /** `{:?}` writing of the inside of a string: never shorter than the
      string, and every quote in it comes right after a backslash. */
  function Escape(s: string): (r: string)
    ensures |r| >= |s|
    ensures forall i :: 0 <= i < |r| && r[i] == '"' ==> 0 < i && r[i - 1] == '\\'
  {
    if |s| == 0 then "" else EscapeChar(s[0]) + Escape(s[1..])
  }

  /** `format!("{:?}", s)` for a string `s`. */
  function DebugStr(s: string): (r: string)
    ensures |r| >= |s| + 2 && r[0] == '"' && r[|r| - 1] == '"'
    ensures forall i :: 0 < i < |r| - 1 && r[i] == '"' ==> r[i - 1] == '\\'
  {
    "\"" + Escape(s) + "\""
  }

  /** The elements' `{:?}` forms joined by `, `. */
  function DebugStrs(xs: seq<string>): (r: string)
    ensures r == "" <==> |xs| == 0
    ensures |xs| > 0 ==> r[0] == '"' && r[|r| - 1] == '"'
  {
    if |xs| == 0 then ""
    else if |xs| == 1 then DebugStr(xs[0])
    else DebugStr(xs[0]) + ", " + DebugStrs(xs[1..])
  }

  /** `format!("{:?}", xs)` for a slice of strings. */
  function DebugStrList(xs: seq<string>): (r: string)
    ensures |r| >= 2 && r[0] == '[' && r[|r| - 1] == ']'
    ensures r == "[]" <==> |xs| == 0
  {
    "[" + DebugStrs(xs) + "]"
  }

  /** The character an escape sequence `\c` stands for. */
  function UnescapeCode(c: char): Option<char> {
    if c == '"' then Some('"')
    else if c == '\\' then Some('\\')
    else if c == 'n' then Some('\n')
    else if c == 'r' then Some('\r')
    else if c == 't' then Some('\t')
    else if c == '0' then Some('\0')
    else None
  }

  /** Reads the inside of a `{:?}`-quoted string up to its closing quote:
      the text it stands for and what follows the quote. Fails on an
      unknown escape or when there is no closing quote. */
  function ReadEscaped(s: string): (r: Option<(string, string)>)
    ensures r.Some? ==> |r.value.1| < |s|
    decreases |s|
  {
    if |s| == 0 then None
    else if s[0] == '"' then Some(("", s[1..]))
    else if s[0] == '\\' then
      if |s| < 2 then None
      else match UnescapeCode(s[1])
        case None => None
        case Some(c) =>
          match ReadEscaped(s[2..])
          case None => None
          case Some((t, rest)) => Some(([c] + t, rest))
    else
      match ReadEscaped(s[1..])
      case None => None
      case Some((t, rest)) => Some(([s[0]] + t, rest))
  }

  /** Reads one `{:?}`-quoted string from the front of `s`: the string it
      stands for and what follows it. */
  function ReadQuoted(s: string): (r: Option<(string, string)>)
    ensures r.Some? ==> |r.value.1| < |s|
  {
    if |s| > 0 && s[0] == '"' then ReadEscaped(s[1..]) else None
  }

  /** Reads back a string written with `{:?}`, with nothing after it. */
  function Unquote(s: string): Option<string> {
    match ReadQuoted(s)
    case Some((t, rest)) => if rest == "" then Some(t) else None
    case None => None
  }

  /** Reads the entries of a non-empty `{:?}` list after its `[`: quoted
      strings separated by `, `, up to the closing `]`. */
  function ReadStrs(s: string): Option<(seq<string>, string)>
    decreases |s|
  {
    match ReadQuoted(s)
    case None => None
    case Some((x, rest)) =>
      if |rest| > 0 && rest[0] == ']' then Some(([x], rest[1..]))
      else if |rest| >= 2 && rest[..2] == ", " then
        match ReadStrs(rest[2..])
        case None => None
        case Some((xs, after)) => Some(([x] + xs, after))
      else None
  }

  /** Reads one `{:?}` list of strings from the front of `s`: the list and
      what follows it. */
  function ReadDebugStrList(s: string): Option<(seq<string>, string)> {
    if |s| >= 2 && s[..2] == "[]" then Some(([], s[2..]))
    else if |s| > 0 && s[0] == '[' then ReadStrs(s[1..])
    else None
  }

  lemma ReadEscapedChar(c: char, more: string, t: string, rest: string)
    requires ReadEscaped(more) == Some((t, rest))
    ensures ReadEscaped(EscapeChar(c) + more) == Some(([c] + t, rest))
  {
  }

  /** The escaped text followed by a quote reads back as the string, and
      reading stops at that quote. */
  lemma {:induction false} ReadEscapedEscape(s: string, rest: string)
    ensures ReadEscaped(Escape(s) + "\"" + rest) == Some((s, rest))
  {
    if |s| == 0 {
      assert Escape(s) + "\"" + rest == "\"" + rest;
    } else {
      ReadEscapedEscape(s[1..], rest);
      assert Escape(s) + "\"" + rest == EscapeChar(s[0]) + (Escape(s[1..]) + "\"" + rest);
      ReadEscapedChar(s[0], Escape(s[1..]) + "\"" + rest, s[1..], rest);
      assert s == [s[0]] + s[1..];
    }
  }

  /** A quoted string at the front of a text reads back as the string,
      leaving what follows it. */
  lemma ReadQuotedDebugStr(s: string, rest: string)
    ensures ReadQuoted(DebugStr(s) + rest) == Some((s, rest))
  {
    var d := DebugStr(s) + rest;
    assert d[1..] == Escape(s) + "\"" + rest;
    ReadEscapedEscape(s, rest);
  }

  /** `{:?}` loses nothing: the quoted text reads back as the original. */
  lemma DebugStrRoundTrip(s: string)
    ensures Unquote(DebugStr(s)) == Some(s)
  {
    ReadQuotedDebugStr(s, "");
    assert DebugStr(s) + "" == DebugStr(s);
  }

  lemma ReadStrsLast(x: string, rest: string)
    ensures ReadStrs(DebugStr(x) + ("]" + rest)) == Some(([x], rest))
  {
    ReadQuotedDebugStr(x, "]" + rest);
    assert ("]" + rest)[0] == ']' && ("]" + rest)[1..] == rest;
  }

  lemma ReadStrsNext(x: string, tail: string, xs: seq<string>, after: string)
    requires ReadStrs(tail) == Some((xs, after))
    ensures ReadStrs(DebugStr(x) + (", " + tail)) == Some(([x] + xs, after))
  {
    ReadQuotedDebugStr(x, ", " + tail);
    assert (", " + tail)[..2] == ", " && (", " + tail)[2..] == tail;
  }

  lemma {:induction false} ReadStrsDebugStrs(xs: seq<string>, rest: string)
    requires |xs| > 0
    ensures ReadStrs(DebugStrs(xs) + "]" + rest) == Some((xs, rest))
  {
    if |xs| == 1 {
      assert DebugStrs(xs) + "]" + rest == DebugStr(xs[0]) + ("]" + rest);
      ReadStrsLast(xs[0], rest);
      assert xs == [xs[0]];
    } else {
      var tail := DebugStrs(xs[1..]) + "]" + rest;
      assert DebugStrs(xs) + "]" + rest == DebugStr(xs[0]) + (", " + tail);
      ReadStrsDebugStrs(xs[1..], rest);
      ReadStrsNext(xs[0], tail, xs[1..], rest);
      assert xs == [xs[0]] + xs[1..];
    }
  }

  /** `{:?}` of a list of strings loses nothing: it reads back as the list,
      in order, leaving what follows it. */
  lemma DebugStrListRoundTrip(xs: seq<string>, rest: string)
    ensures ReadDebugStrList(DebugStrList(xs) + rest) == Some((xs, rest))
  {
    var d := DebugStrList(xs) + rest;
    if |xs| == 0 {
      assert d == "[]" + rest;
    } else {
      assert d[1..] == DebugStrs(xs) + "]" + rest;
      ReadStrsDebugStrs(xs, rest);
    }
  }
}
