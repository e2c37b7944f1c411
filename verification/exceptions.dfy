/**
 * The error a configuration section raises for a missing option: it keeps
 * the option and the section, its `args` are that pair, and its message
 * (which `str` and `repr` both return) is
 * `"No option %r in section: %r" % (option, section)`.
 */
module Exceptions {
  import opened Wrappers

  datatype NoOptionError = NoOptionError(option: string, section: string)
  {
    function Message(): string
    {
      "No option " + PyRepr(option) + " in section: " + PyRepr(section)
    }

    /** `args`, set to `(option, section)` by the constructor. */
    function Args(): (string, string)
    {
      (option, section)
    }

    function Str(): string
    {
      Message()
    }

    function Repr(): string
    {
      Message()
    }
  }

  // ---------------------------------------------------------------------
  // repr() of a string, as `%r` formats it

  /** Python quotes with `"` only when the text holds `'` and no `"`. */
  function QuoteFor(s: string): char
  {
    if '\'' in s && '"' !in s then '"' else '\''
  }

  function HexDigit(n: nat): char
    requires n < 16
  {
    if n < 10 then ('0' as int + n) as char else ('a' as int + n - 10) as char
  }

  predicate IsControl(c: char)
  {
    c < ' ' || c == '\U{7f}'
  }

  function EscapeChar(c: char, q: char): string
  {
    if c == '\\' then "\\\\"
    else if c == q then ['\\', q]
    else if c == '\n' then "\\n"
    else if c == '\r' then "\\r"
    else if c == '\t' then "\\t"
    else if IsControl(c) then "\\x" + [HexDigit(c as int / 16), HexDigit(c as int % 16)]
    else [c]
  }

  function Escape(s: string, q: char): string
  {
    if s == [] then "" else EscapeChar(s[0], q) + Escape(s[1..], q)
  }

  function PyRepr(s: string): string
  {
    var q := QuoteFor(s);
    [q] + Escape(s, q) + [q]
  }

  // ---------------------------------------------------------------------
  // Reading a repr() back, to show that the message identifies the option
  // and the section

  function HexValue(c: char): Option<nat>
  {
    if '0' <= c <= '9' then Some(c as int - '0' as int)
    else if 'a' <= c <= 'f' then Some(c as int - 'a' as int + 10)
    else None
  }

  /** The character an escape sequence at the head of `t` stands for, and its length. */
  function ReadEscape(t: string, q: char): Option<(char, nat)>
    requires |t| >= 1 && t[0] == '\\'
  {
    if |t| < 2 then None
    else if t[1] == '\\' then Some(('\\', 2))
    else if t[1] == q then Some((q, 2))
    else if t[1] == 'n' then Some(('\n', 2))
    else if t[1] == 'r' then Some(('\r', 2))
    else if t[1] == 't' then Some(('\t', 2))
    else if t[1] == 'x' && |t| >= 4 && HexValue(t[2]).Some? && HexValue(t[3]).Some? then
      Some(((HexValue(t[2]).value * 16 + HexValue(t[3]).value) as char, 4))
    else None
  }

  /** Reads up to the closing quote `q`: the text it stood for and what follows. */
  function ReadBody(t: string, q: char): Option<(string, string)>
    decreases |t|
  {
    if t == [] then None
    else if t[0] == q then Some(("", t[1..]))
    else if t[0] == '\\' then
      match ReadEscape(t, q)
      case None => None
      case Some((c, n)) =>
        if n <= |t| then
          match ReadBody(t[n..], q)
          case None => None
          case Some((body, rest)) => Some(([c] + body, rest))
        else None
    else
      match ReadBody(t[1..], q)
      case None => None
      case Some((body, rest)) => Some(([t[0]] + body, rest))
  }

  function ReadQuoted(t: string): Option<(string, string)>
  {
    if t != [] && (t[0] == '\'' || t[0] == '"') then ReadBody(t[1..], t[0]) else None
  }

  /** The option and the section a NoOptionError message names. */
  function ParseMessage(m: string): Option<(string, string)>
  {
    var head := "No option ";
    var middle := " in section: ";
    if !(head <= m) then None
    else match ReadQuoted(m[|head|..])
      case None => None
      case Some((option, rest)) =>
        if !(middle <= rest) then None
        else match ReadQuoted(rest[|middle|..])
          case None => None
          case Some((section, tail)) => if tail == "" then Some((option, section)) else None
  }

  lemma ReadEscapedChar(c: char, q: char, more: string)
    requires q == '\'' || q == '"'
    ensures ReadBody(EscapeChar(c, q) + more, q) ==
            match ReadBody(more, q)
            case None => None
            case Some((body, rest)) => Some(([c] + body, rest))
  {
    if IsControl(c) && c != '\n' && c != '\r' && c != '\t' {
      ReadHexEscape(c, q, more);
    } else if |EscapeChar(c, q)| == 2 {
      ReadShortEscape(c, q, more);
    } else {
      ReadPlainChar(c, q, more);
    }
  }

  /** A control character without a short escape is read back from its `\xHH` form. */
  lemma ReadHexEscape(c: char, q: char, more: string)
    requires q == '\'' || q == '"'
    requires IsControl(c) && c != '\n' && c != '\r' && c != '\t'
    ensures ReadBody(EscapeChar(c, q) + more, q) ==
            match ReadBody(more, q)
            case None => None
            case Some((body, rest)) => Some(([c] + body, rest))
  {
    var hi, lo := c as int / 16, c as int % 16;
    var t := EscapeChar(c, q) + more;
    assert EscapeChar(c, q) == "\\x" + [HexDigit(hi), HexDigit(lo)];
    assert t[0] == '\\' && t[1] == 'x' && t[2] == HexDigit(hi) && t[3] == HexDigit(lo);
    assert HexValue(HexDigit(hi)) == Some(hi);
    assert HexValue(HexDigit(lo)) == Some(lo);
    assert ReadEscape(t, q) == Some((c, 4));
    assert t[4..] == more;
  }

  /** A backslash, the quote or a newline, carriage return or tab is read back from its two-character escape. */
  lemma ReadShortEscape(c: char, q: char, more: string)
    requires q == '\'' || q == '"'
    requires !(IsControl(c) && c != '\n' && c != '\r' && c != '\t') && |EscapeChar(c, q)| == 2
    ensures ReadBody(EscapeChar(c, q) + more, q) ==
            match ReadBody(more, q)
            case None => None
            case Some((body, rest)) => Some(([c] + body, rest))
  {
    assert (EscapeChar(c, q) + more)[2..] == more;
  }

  /** Any other character stands for itself. */
  lemma ReadPlainChar(c: char, q: char, more: string)
    requires q == '\'' || q == '"'
    requires !(IsControl(c) && c != '\n' && c != '\r' && c != '\t') && |EscapeChar(c, q)| != 2
    ensures ReadBody(EscapeChar(c, q) + more, q) ==
            match ReadBody(more, q)
            case None => None
            case Some((body, rest)) => Some(([c] + body, rest))
  {
    assert (EscapeChar(c, q) + more)[1..] == more;
  }

  lemma {:induction false} ReadEscaped(s: string, q: char, rest: string)
    requires q == '\'' || q == '"'
    ensures ReadBody(Escape(s, q) + [q] + rest, q) == Some((s, rest))
  {
    if s == [] {
      assert Escape(s, q) + [q] + rest == [q] + rest;
    } else {
      ReadEscaped(s[1..], q, rest);
      ReadEscapedStep(s[0], s[1..], q, rest);
      assert [s[0]] + s[1..] == s;
    }
  }

  /** The step of `ReadEscaped`: one more character in front. */
  lemma ReadEscapedStep(c: char, t: string, q: char, rest: string)
    requires q == '\'' || q == '"'
    requires ReadBody(Escape(t, q) + [q] + rest, q) == Some((t, rest))
    ensures ReadBody(Escape([c] + t, q) + [q] + rest, q) == Some(([c] + t, rest))
  {
    assert ([c] + t)[1..] == t;
    assert Escape([c] + t, q) + [q] + rest == EscapeChar(c, q) + (Escape(t, q) + [q] + rest);
    ReadEscapedChar(c, q, Escape(t, q) + [q] + rest);
  }

  /** A repr() read back gives the string and leaves what followed it. */
  lemma ReadRepr(s: string, rest: string)
    ensures ReadQuoted(PyRepr(s) + rest) == Some((s, rest))
  {
    var q := QuoteFor(s);
    ReadEscaped(s, q, rest);
    var t := PyRepr(s) + rest;
    assert t == [q] + (Escape(s, q) + [q] + rest);
    assert t[0] == q && t[1..] == Escape(s, q) + [q] + rest;
    assert ReadQuoted(t) == ReadBody(Escape(s, q) + [q] + rest, q);
  }

  /**
   * The message of a NoOptionError names its option and its section and
   * nothing else, `str` and `repr` both give that message, and `args` is
   * the pair the constructor was given.
   */
  lemma MessageRoundTrip(option: string, section: string)
    ensures NoOptionError(option, section).Args() == (option, section)
    ensures NoOptionError(option, section).Str() == NoOptionError(option, section).Message()
    ensures NoOptionError(option, section).Repr() == NoOptionError(option, section).Message()
    ensures ParseMessage(NoOptionError(option, section).Message()) == Some((option, section))
  {
    var head := "No option ";
    var middle := " in section: ";
    var tail := middle + PyRepr(section);
    var m := NoOptionError(option, section).Message();
    assert head <= m && m[|head|..] == PyRepr(option) + tail by {
      assert m == head + (PyRepr(option) + tail);
    }
    assert ReadQuoted(PyRepr(option) + tail) == Some((option, tail)) by {
      ReadRepr(option, tail);
    }
    assert middle <= tail && tail[|middle|..] == PyRepr(section) + "";
    assert ReadQuoted(PyRepr(section) + "") == Some((section, "")) by {
      ReadRepr(section, "");
    }
  }

  /** Two errors with the same message are the same error. */
  lemma MessageInjective(a: NoOptionError, b: NoOptionError)
    requires a.Message() == b.Message()
    ensures a == b
  {
    MessageRoundTrip(a.option, a.section);
    MessageRoundTrip(b.option, b.section);
  }

  /** A plain name (no quote, backslash or control character) is quoted as `'name'`. */
  lemma {:induction false} PlainRepr(s: string)
    requires forall i :: 0 <= i < |s| ==> s[i] != '\'' && s[i] != '\\' && !IsControl(s[i])
    ensures PyRepr(s) == "'" + s + "'"
  {
    assert QuoteFor(s) == '\'';
    PlainEscape(s);
  }

  lemma {:induction false} PlainEscape(s: string)
    requires forall i :: 0 <= i < |s| ==> s[i] != '\'' && s[i] != '\\' && !IsControl(s[i])
    ensures Escape(s, '\'') == s
  {
    if s != [] {
      PlainEscape(s[1..]);
      assert s == [s[0]] + s[1..];
    }
  }
}
