/** The line writer the serializer renders through: an append-only text buffer plus an
    indentation level. */
module Indenting {
  import opened Wrappers
  import opened Seqs

  /** `unit` written `count` times, as `String.repeat` does for a non-negative count. */
  function Indentation(unit: string, count: nat): (r: string)
    ensures |r| == count * |unit|
    ensures count > 0 ==> r[..|unit|] == unit
  {
    if count == 0 then "" else unit + Indentation(unit, count - 1)
  }

  /** A piece of text the builder appends: when it starts a line, the indentation depth
      written before it; the text; and whether a newline follows it. */
  datatype Piece = Piece(depth: Option<nat>, text: string, endsLine: bool)

  /** One whole line at indentation `level`. */
  function Line(level: nat, s: string): Piece {
    Piece(Some(level), s, true)
  }

  /** The characters of a piece, with `unit` as the indentation unit. */
  function PieceText(unit: string, p: Piece): string {
    (match p.depth case None => "" case Some(d) => Indentation(unit, d))
      + p.text + (if p.endsLine then "\n" else "")
  }

  /** A whole line is its indentation, its text and a newline. */
  lemma LineText(unit: string, level: nat, s: string)
    ensures PieceText(unit, Line(level, s)) == Indentation(unit, level) + s + "\n"
    ensures |PieceText(unit, Line(level, s))| == level * |unit| + |s| + 1
  {
  }

  function DigitChar(d: nat): char
    requires d < 10
  {
    ('0' as int + d) as char
  }

  /** The decimal text Java prints for an int: a leading '-' when negative, then the
      digits, most significant first, with no leading zeros. */
  function IntToString(i: int): string
    decreases if i < 0 then 1 - i else i
  {
    if i < 0 then "-" + IntToString(-i)
    else if i < 10 then [DigitChar(i)]
    else IntToString(i / 10) + [DigitChar(i % 10)]
  }

  /** The value of a string of decimal digits, most significant first. */
  function DigitsValue(s: string): int {
    if s == [] then 0 else 10 * DigitsValue(s[..|s| - 1]) + (s[|s| - 1] as int - '0' as int)
  }

  /** The value of a decimal text with an optional leading '-', as `Integer.parseInt`
      reads it. */
  function DecimalValue(s: string): int {
    if |s| > 0 && s[0] == '-' then -DigitsValue(s[1..]) else DigitsValue(s)
  }

  /** The text of a non-negative number is a non-empty run of digits without a leading zero
      (unless it is "0"), and reads back as the number. */
  lemma {:induction false} NatTextDigits(n: nat)
    ensures |IntToString(n)| > 0
    ensures forall k :: 0 <= k < |IntToString(n)| ==> '0' <= IntToString(n)[k] <= '9'
    ensures IntToString(n)[0] == '0' ==> n == 0
    ensures DigitsValue(IntToString(n)) == n
    decreases n
  {
    if n >= 10 {
      NatTextDigits(n / 10);
      var r := IntToString(n);
      assert r == IntToString(n / 10) + [DigitChar(n % 10)];
      assert r[..|r| - 1] == IntToString(n / 10);
    }
  }

  /** Printing an int and parsing the text back gives the int; the text starts with '-'
      exactly when the int is negative. */
  lemma IntTextRoundTrip(i: int)
    ensures |IntToString(i)| > 0
    ensures (IntToString(i)[0] == '-') <==> i < 0
    ensures DecimalValue(IntToString(i)) == i
  {
    if i < 0 {
      NatTextDigits(-i);
      assert IntToString(i)[1..] == IntToString(-i);
    } else {
      NatTextDigits(i);
    }
  }

  /** The text of the pieces written one after another. */
  function Concat(unit: string, parts: seq<Piece>): string {
    if parts == [] then "" else Concat(unit, parts[..|parts| - 1]) + PieceText(unit, parts[|parts| - 1])
  }

  /** Writing two runs of pieces one after the other writes both texts in order. */
  lemma {:induction false} ConcatAppend(unit: string, a: seq<Piece>, b: seq<Piece>)
    ensures Concat(unit, a + b) == Concat(unit, a) + Concat(unit, b)
    decreases |b|
  {
    if b == [] {
      assert a + b == a;
    } else {
      var init, last := b[..|b| - 1], b[|b| - 1];
      ConcatAppend(unit, a, init);
      assert (a + b)[..|a + b| - 1] == a + init;
      AppendAssoc(Concat(unit, a), Concat(unit, init), PieceText(unit, last));
    }
  }

  class IndentingStringBuilder {
    /** The pieces appended so far, in order; the text built is their concatenation. */
    var parts: seq<Piece>
    /** The text written once per indentation level. */
    const indent: string
    /** The current indentation level; `pop` decrements it without a check. */
    var level: int

    constructor (indent: string)
      ensures this.indent == indent
      ensures parts == [] && level == 0
    {
      this.indent := indent;
      parts := [];
      level := 0;
    }

    /** Writes `s` as a line at the current level, then opens one level deeper. */
    method Push(s: string)
      requires level >= 0
      modifies this
      ensures parts == old(parts) + [Line(old(level), s)]
      ensures level == old(level) + 1
    {
      Li(s);
      level := level + 1;
    }

    /** Closes one level, then writes `s` as a line at the new level. The level must stay
        non-negative, since the indentation is written with `String.repeat`. */
    method Pop(s: string)
      requires level >= 1
      modifies this
      ensures level == old(level) - 1
      ensures parts == old(parts) + [Line(level, s)]
    {
      level := level - 1;
      Li(s);
    }

    /** Writes `s` as one line at the current level. */
    method Li(s: string)
      requires level >= 0
      modifies this
      ensures level == old(level)
      ensures parts == old(parts) + [Line(level, s)]
    {
      parts := parts + [Line(level, s)];
    }

    /** Writes the indentation and `s`, leaving the line open. */
    method S(s: string)
      requires level >= 0
      modifies this
      ensures level == old(level)
      ensures parts == old(parts) + [Piece(Some(level), s, false)]
    {
      parts := parts + [Piece(Some(level), s, false)];
    }

    /** Appends `s` as it is. */
    method A(s: string)
      modifies this
      ensures level == old(level)
      ensures parts == old(parts) + [Piece(None, s, false)]
    {
      parts := parts + [Piece(None, s, false)];
    }

    /** Appends the decimal text of `i`. */
    method AInt(i: int)
      modifies this
      ensures level == old(level)
      ensures parts == old(parts) + [Piece(None, IntToString(i), false)]
    {
      parts := parts + [Piece(None, IntToString(i), false)];
    }

    /** Appends `s` and ends the line. */
    method E(s: string)
      modifies this
      ensures level == old(level)
      ensures parts == old(parts) + [Piece(None, s, true)]
    {
      parts := parts + [Piece(None, s, true)];
    }

    /** The text built so far. */
    function ToString(): string
      reads this
    {
      Concat(indent, parts)
    }
  }

  /** A push followed by a pop writes both lines at the same indentation and restores the
      level: the bracketing the serializer relies on for every `{ ... }` block. */
  method Bracket(sb: IndentingStringBuilder, open: string, close: string)
    requires sb.level >= 0
    modifies sb
    ensures sb.level == old(sb.level)
    ensures sb.parts == old(sb.parts) + [Line(sb.level, open), Line(sb.level, close)]
  {
    sb.Push(open);
    sb.Pop(close);
  }
}
