/** Embedding a script into a JSON string on one line (`escapeSingleLine`). */
module Escape {
  import opened Text

  const BACKSLASH: string := "\\"
  const QUOTE: string := "\""
  const LF: string := "\n"
  const CRLF: string := "\r\n"
  const LF_ESCAPE: string := "\\n"

  // Four global replacements, one after the other.
  function EscapeSingleLine(s: string): string
  {
    var doubled := Replace(s, BACKSLASH, BACKSLASH + BACKSLASH);
    var noCrlf := Replace(doubled, CRLF, LF_ESCAPE);
    var noLf := Replace(noCrlf, LF, LF_ESCAPE);
    Replace(noLf, QUOTE, BACKSLASH + QUOTE)
  }

  // What a single left-to-right reader would write for each piece of the input. `stage` counts how
  // many of the four rules it already applies.
  function Scan(s: string, stage: nat): string
  {
    if s == [] then []
    else if s[0] == '\\' then (if stage >= 1 then "\\\\" else "\\") + Scan(s[1..], stage)
    else if CRLF <= s then (if stage >= 2 then LF_ESCAPE else CRLF) + Scan(s[2..], stage)
    else if s[0] == '\n' then (if stage >= 3 then LF_ESCAPE else LF) + Scan(s[1..], stage)
    else if s[0] == '\"' then (if stage >= 4 then "\\\"" else QUOTE) + Scan(s[1..], stage)
    else [s[0]] + Scan(s[1..], stage)
  }

  // The reader of a JSON string body: a raw line feed or quote ends it, a backslash takes one partner.
  function Unescape(t: string): Option<string>
  {
    if t == [] then Some([])
    else if t[0] == '\n' || t[0] == '\"' then None
    else if t[0] == '\\' then
      if |t| == 1 then None
      else
        match Unescape(t[2..])
        case None => None
        case Some(rest) =>
          if t[1] == 'n' then Some("\n" + rest)
          else if t[1] == '\\' || t[1] == '\"' then Some([t[1]] + rest)
          else None
    else
      match Unescape(t[1..])
      case None => None
      case Some(rest) => Some([t[0]] + rest)
  }

  // CRLF line ends become LF.
  function UnixLines(s: string): string
  {
    if s == [] then [] else if CRLF <= s then LF + UnixLines(s[2..]) else [s[0]] + UnixLines(s[1..])
  }

  lemma {:induction false} ScanNothing(s: string)
    ensures Scan(s, 0) == s
    decreases |s|
  {
    if s != [] {
      ScanNothing(s[1..]);
      if CRLF <= s {
        ScanNothing(s[2..]);
        ScanLineEnd(s);
      }
    }
  }

  lemma ScanLineEnd(s: string)
    requires CRLF <= s && Scan(s[2..], 0) == s[2..]
    ensures Scan(s, 0) == s
  {
    assert s == CRLF + s[2..];
  }

  lemma {:induction false} Stage1(s: string)
    ensures Replace(Scan(s, 0), BACKSLASH, BACKSLASH + BACKSLASH) == Scan(s, 1)
    decreases |s|
  {
    if s != [] {
      var from, to := BACKSLASH, BACKSLASH + BACKSLASH;
      Stage1(s[1..]);
      if s[0] == '\\' {
        ReplaceHit(from, Scan(s[1..], 0), to);
      } else if CRLF <= s {
        Stage1(s[2..]);
        ReplaceSkips(CRLF, Scan(s[2..], 0), from, to);
      } else {
        ReplaceSkips([s[0]], Scan(s[1..], 0), from, to);
      }
    }
  }

  // A CR that the input does not follow with LF is not followed by LF after doubling either.
  lemma LoneCarriageReturn(s: string)
    requires s != [] && s[0] != '\n'
    ensures Scan(s, 1)[0] != '\n'
  {
  }

  lemma {:induction false} Stage2(s: string)
    ensures Replace(Scan(s, 1), CRLF, LF_ESCAPE) == Scan(s, 2)
    decreases |s|
  {
    if s != [] {
      Stage2(s[1..]);
      var rest := Scan(s[1..], 1);
      if s[0] == '\\' {
        ReplaceSkips("\\\\", rest, CRLF, LF_ESCAPE);
      } else if CRLF <= s {
        Stage2(s[2..]);
        ReplaceHit(CRLF, Scan(s[2..], 1), LF_ESCAPE);
      } else {
        PrefixOfCons(CRLF, s[0], s[1..]);
        PrefixOfCons(CRLF, s[0], rest);
        assert s == [s[0]] + s[1..];
        if |s| > 1 && s[1] != '\n' {
          LoneCarriageReturn(s[1..]);
        }
        ReplaceMiss(s[0], rest, CRLF, LF_ESCAPE);
      }
    }
  }

  lemma {:induction false} Stage3(s: string)
    ensures Replace(Scan(s, 2), LF, LF_ESCAPE) == Scan(s, 3)
    decreases |s|
  {
    if s != [] {
      Stage3(s[1..]);
      var rest := Scan(s[1..], 2);
      if s[0] == '\\' {
        ReplaceSkips("\\\\", rest, LF, LF_ESCAPE);
      } else if CRLF <= s {
        Stage3(s[2..]);
        ReplaceSkips(LF_ESCAPE, Scan(s[2..], 2), LF, LF_ESCAPE);
      } else if s[0] == '\n' {
        ReplaceHit(LF, rest, LF_ESCAPE);
      } else {
        ReplaceSkips([s[0]], rest, LF, LF_ESCAPE);
      }
    }
  }

  lemma {:induction false} Stage4(s: string)
    ensures Replace(Scan(s, 3), QUOTE, BACKSLASH + QUOTE) == Scan(s, 4)
    decreases |s|
  {
    if s != [] {
      var from, to := QUOTE, BACKSLASH + QUOTE;
      Stage4(s[1..]);
      var rest := Scan(s[1..], 3);
      if s[0] == '\\' {
        ReplaceSkips("\\\\", rest, from, to);
      } else if CRLF <= s {
        Stage4(s[2..]);
        ReplaceSkips(LF_ESCAPE, Scan(s[2..], 3), from, to);
      } else if s[0] == '\n' {
        ReplaceSkips(LF_ESCAPE, rest, from, to);
      } else if s[0] == '\"' {
        ReplaceHit(from, rest, to);
      } else {
        ReplaceSkips([s[0]], rest, from, to);
      }
    }
  }

  /** The chain of global replacements is a single left-to-right pass. */
  lemma EscapeIsOnePass(s: string)
    ensures EscapeSingleLine(s) == Scan(s, 4)
  {
    ScanNothing(s);
    Stage1(s);
    Stage2(s);
    Stage3(s);
    Stage4(s);
  }

  /** A JSON reader gets the script back, with its line ends normalized. */
  lemma EscapeReadsBack(s: string)
    ensures Unescape(EscapeSingleLine(s)) == Some(UnixLines(s))
  {
    EscapeIsOnePass(s);
    ScanReadsBack(s);
  }

  lemma {:induction false} ScanReadsBack(s: string)
    ensures Unescape(Scan(s, 4)) == Some(UnixLines(s))
    decreases |s|
  {
    if s != [] {
      ScanReadsBack(s[1..]);
      var t, rest := Scan(s, 4), Scan(s[1..], 4);
      if s[0] != '\\' && CRLF <= s {
        ScanReadsBack(s[2..]);
        assert t[2..] == Scan(s[2..], 4);
      } else if s[0] == '\\' || s[0] == '\n' || s[0] == '\"' {
        assert t[2..] == rest;
      } else {
        assert t[1..] == rest;
      }
    }
  }

  // A raw line feed or an unescaped quote in `t`: a place where the reader stands at neither.
  ghost predicate Breaks(t: string)
  {
    t != [] && (
      t[0] == '\n' || t[0] == '\"' ||
      if t[0] == '\\' then |t| > 1 && (t[1] == '\n' || Breaks(t[2..])) else Breaks(t[1..]))
  }

  lemma {:induction false} ReadableDoesNotBreak(t: string)
    ensures Unescape(t).Some? ==> !Breaks(t) && '\n' !in t
    decreases |t|
  {
    if t != [] {
      if t[0] == '\\' && |t| > 1 {
        ReadableDoesNotBreak(t[2..]);
        assert t == [t[0], t[1]] + t[2..];
      } else {
        ReadableDoesNotBreak(t[1..]);
        assert t == [t[0]] + t[1..];
      }
    }
  }

  /** The escaped script stays on one line and inside its quotes. */
  lemma EscapedStaysInside(s: string)
    ensures !Breaks(EscapeSingleLine(s)) && '\n' !in EscapeSingleLine(s)
  {
    EscapeReadsBack(s);
    ReadableDoesNotBreak(EscapeSingleLine(s));
  }

  /** Two scripts embed alike exactly when they differ in line ends only. */
  lemma EscapeIdentifies(s: string, t: string)
    ensures EscapeSingleLine(s) == EscapeSingleLine(t) <==> UnixLines(s) == UnixLines(t)
  {
    EscapeReadsBack(s);
    EscapeReadsBack(t);
    EscapeIsOnePass(s);
    EscapeIsOnePass(t);
    ScanSeesUnixLines(s);
    ScanSeesUnixLines(t);
  }

  // Escaping character by character
  function EscapeEach(s: string): string
  {
    if s == [] then []
    else
      (if s[0] == '\\' then "\\\\" else if s[0] == '\n' then LF_ESCAPE else if s[0] == '\"' then "\\\"" else [s[0]])
      + EscapeEach(s[1..])
  }

  lemma {:induction false} ScanSeesUnixLines(s: string)
    ensures Scan(s, 4) == EscapeEach(UnixLines(s))
    decreases |s|
  {
    if s != [] {
      var u := UnixLines(s);
      if CRLF <= s {
        ScanSeesUnixLines(s[2..]);
        assert u[1..] == UnixLines(s[2..]);
      } else {
        ScanSeesUnixLines(s[1..]);
        assert u[1..] == UnixLines(s[1..]);
      }
    }
  }
}
