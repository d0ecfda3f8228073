/**
  `getIntsFromLine`: the integers found in one line of a `/proc` file.

  The line is put into a string stream and read token by token with `>>`,
  which skips C-locale whitespace and then takes the longest run of
  non-whitespace characters. Each token is handed to a fresh stream and read
  as a `long`: an optional sign followed by at least one decimal digit, whose
  value is that of the leading digit run; a token that does not start that
  way, or whose value does not fit in a `long`, is dropped. The width of
  `long` is a parameter: 32 bits on the ILP32 targets (the ARMv7 Odroid C1,
  32-bit Raspberry Pi OS), 64 bits on the LP64 ones. The loop tests for
  end of stream before reading, so when the line ends in whitespace the last
  read fails, leaves the previous token in place, and that token is parsed a
  second time.
*/
module LineParser {
  import opened Common

  /** `isspace` in the "C" locale. */
  predicate IsSpace(c: char) {
    c == ' ' || c == '\t' || c == '\n' || c == '\U{0B}' || c == '\U{0C}' || c == '\r'
  }

  predicate IsDigit(c: char) {
    '0' <= c <= '9'
  }

  /** The data model of the build target, which fixes the width of `long`. */
  datatype LongWidth = ILP32 | LP64

  /** The largest `long`: 2^31 - 1 or 2^63 - 1. */
  function LongMax(w: LongWidth): int {
    match w
    case ILP32 => 0x7FFF_FFFF
    case LP64 => 0x7FFF_FFFF_FFFF_FFFF
  }

  /** The smallest `long`, in two's complement. */
  function LongMin(w: LongWidth): (m: int)
    ensures m == -LongMax(w) - 1
  {
    match w
    case ILP32 => -0x8000_0000
    case LP64 => -0x8000_0000_0000_0000
  }

  /** `long` on target `w` is the two's complement range of 32 or 64 bits. */
  lemma LongRange(w: LongWidth)
    ensures var e: nat := if w.ILP32? then 31 else 63;
      LongMin(w) == -(Pow2(e) as int) && LongMax(w) == Pow2(e) - 1
  {
    assert Pow2(1) == 2;
    Pow2Add(1, 1);
    Pow2Add(2, 1);
    Pow2Add(2, 2);
    Pow2Add(4, 3);
    Pow2Add(4, 4);
    Pow2Add(8, 7);
    Pow2Add(8, 8);
    Pow2Add(16, 15);
    Pow2Add(16, 16);
    Pow2Add(32, 31);
  }

  // ----- tokens -----

  /** The first position at or after `pos` that is not whitespace, or the end of `s`. */
  function SpaceEnd(s: string, pos: nat): (r: nat)
    requires pos <= |s|
    ensures pos <= r <= |s|
    ensures r < |s| ==> !IsSpace(s[r])
    decreases |s| - pos
  {
    if pos < |s| && IsSpace(s[pos]) then SpaceEnd(s, pos + 1) else pos
  }

  /** The first position at or after `pos` that is whitespace, or the end of `s`. */
  function TokenEnd(s: string, pos: nat): (r: nat)
    requires pos <= |s|
    ensures pos <= r <= |s|
    ensures r < |s| ==> IsSpace(s[r])
    decreases |s| - pos
  {
    if pos < |s| && !IsSpace(s[pos]) then TokenEnd(s, pos + 1) else pos
  }

  /** The whitespace-separated tokens of `s` from position `pos` on, in order. */
  function WordsFrom(s: string, pos: nat): seq<string>
    requires pos <= |s|
    decreases |s| - pos
  {
    var b := SpaceEnd(s, pos);
    if b == |s| then [] else
      var e := TokenEnd(s, b);
      [s[b..e]] + WordsFrom(s, e)
  }

  /** The whitespace-separated tokens of `s`, in order. */
  function Words(s: string): seq<string> {
    WordsFrom(s, 0)
  }

  // ----- numbers -----

  /** Length of the leading run of decimal digits. */
  function DigitRun(s: string): (n: nat)
    ensures n <= |s|
    ensures forall k :: 0 <= k < n ==> IsDigit(s[k])
    ensures n < |s| ==> !IsDigit(s[n])
    decreases |s|
  {
    if |s| > 0 && IsDigit(s[0]) then 1 + DigitRun(s[1..]) else 0
  }

  function DigitValue(c: char): (d: nat)
    requires IsDigit(c)
    ensures d < 10
  {
    c as int - '0' as int
  }

  /** The value of a string of decimal digits, most significant first. */
  function DigitsValue(ds: string): nat
    requires forall k :: 0 <= k < |ds| ==> IsDigit(ds[k])
    decreases |ds|
  {
    if |ds| == 0 then 0
    else 10 * DigitsValue(ds[..|ds| - 1]) + DigitValue(ds[|ds| - 1])
  }

  /**
    `std::stringstream(tok) >> value` for a `long`: an optional sign, then the
    leading digit run; no digits, or a value outside the range of `long` on
    target `w`, fails.
  */
  function ParseLong(w: LongWidth, tok: string): (r: Option<int>)
    ensures r.Some? ==> LongMin(w) <= r.value <= LongMax(w)
    ensures r.Some? ==> |tok| > 0 && (IsDigit(tok[0]) || (|tok| > 1 && (tok[0] == '+' || tok[0] == '-') && IsDigit(tok[1])))
  {
    var signed := |tok| > 0 && (tok[0] == '+' || tok[0] == '-');
    var body := if signed then tok[1..] else tok;
    var n := DigitRun(body);
    if n == 0 then None
    else
      var magnitude: int := DigitsValue(body[..n]);
      var v: int := if signed && tok[0] == '-' then -magnitude else magnitude;
      if LongMin(w) <= v <= LongMax(w) then
        assert IsDigit(body[0]) && (signed ==> |tok| > 1 && tok[1] == body[0]);
        Some(v)
      else None
  }

  /** `ParseLong` rejects the empty string: a read that never succeeded contributes nothing. */
  lemma ParseLongEmpty(w: LongWidth)
    ensures LongParser(w)("") == None
  {
  }

  /*
    The token reader is a parameter below, `parse`, so that the tokenising
    loop is proved for any parser that rejects the empty string; the C++
    function uses `ParseLong` on its target.
  */

  /** `ParseLong` on target `w`, as a token parser. */
  function LongParser(w: LongWidth): string -> Option<int> {
    tok => ParseLong(w, tok)
  }

  /** A token parser that rejects the empty string, as every numeric extraction does. */
  predicate RejectsEmpty(parse: string -> Option<int>) {
    parse("").None?
  }

  /** What one token contributes: its value when it parses, nothing otherwise. */
  function Keep(tok: string, parse: string -> Option<int>): seq<int> {
    match parse(tok)
    case Some(v) => [v]
    case None => []
  }

  /** The values of the tokens that parse, in order. */
  function Values(words: seq<string>, parse: string -> Option<int>): seq<int>
    decreases |words|
  {
    if |words| == 0 then [] else Keep(words[0], parse) + Values(words[1..], parse)
  }

  /**
    What the failed final read adds: when the line ends in whitespace, the
    last token is parsed again.
  */
  function TrailingRepeat(s: string, parse: string -> Option<int>): seq<int> {
    var words := Words(s);
    if |s| > 0 && IsSpace(s[|s| - 1]) && |words| > 0 then Keep(words[|words| - 1], parse) else []
  }

  /** The values of two token lists side by side are the values of each, side by side. */
  lemma {:induction false} ValuesAppend(a: seq<string>, b: seq<string>, parse: string -> Option<int>)
    ensures Values(a + b, parse) == Values(a, parse) + Values(b, parse)
    decreases |a|
  {
    if |a| == 0 {
      assert a + b == b;
    } else {
      assert (a + b)[0] == a[0];
      assert (a + b)[1..] == a[1..] + b;
      ValuesAppend(a[1..], b, parse);
    }
  }

  /** A single token contributes what `Keep` says. */
  lemma ValuesSingle(tok: string, parse: string -> Option<int>)
    ensures Values([tok], parse) == Keep(tok, parse)
  {
    assert [tok][1..] == [];
  }

  /** The whitespace skip of `>>`: advance over whitespace from `pos`. */
  method SkipWhitespace(s: string, pos: nat) returns (p: nat)
    requires pos <= |s|
    ensures p == SpaceEnd(s, pos)
    ensures forall k :: pos <= k < p ==> IsSpace(s[k])
  {
    p := pos;
    while p < |s| && IsSpace(s[p])
      invariant pos <= p <= |s|
      invariant SpaceEnd(s, pos) == SpaceEnd(s, p)
      invariant forall k :: pos <= k < p ==> IsSpace(s[k])
    {
      p := p + 1;
    }
  }

  /** The token read of `>>`: advance over non-whitespace from `begin`. */
  method ScanToken(s: string, begin: nat) returns (p: nat)
    requires begin <= |s|
    ensures p == TokenEnd(s, begin)
  {
    p := begin;
    while p < |s| && !IsSpace(s[p])
      invariant begin <= p <= |s|
      invariant TokenEnd(s, begin) == TokenEnd(s, p)
    {
      p := p + 1;
    }
  }

  /** The line ends in whitespace, so the last token's value is repeated. */
  lemma EndInWhitespace(s: string, pos: nat, consumed: seq<string>, parse: string -> Option<int>)
    requires RejectsEmpty(parse)
    requires pos <= |s| && SpaceEnd(s, pos) == |s|
    requires Words(s) == consumed + WordsFrom(s, pos)
    requires |consumed| > 0 ==> pos < |s| && IsSpace(s[pos])
    ensures Values(consumed, parse) + Keep(if |consumed| == 0 then "" else consumed[|consumed| - 1], parse)
      == Values(Words(s), parse) + TrailingRepeat(s, parse)
  {
    assert WordsFrom(s, pos) == [];
    assert Words(s) == consumed;
    if |consumed| > 0 {
      assert IsSpace(s[|s| - 1]) by {
        if pos < |s| - 1 {
          SpaceEndSkips(s, pos, |s| - 1);
        }
      }
    } else {
      
    }
  }

  /** Every position between `pos` and `SpaceEnd(s, pos)` holds whitespace. */
  lemma {:induction false} SpaceEndSkips(s: string, pos: nat, k: nat)
    requires pos <= |s| && pos <= k < SpaceEnd(s, pos)
    ensures IsSpace(s[k])
    decreases k - pos
  {
    if pos < k {
      SpaceEndSkips(s, pos + 1, k);
    }
  }

  /** Every position between `pos` and `TokenEnd(s, pos)` holds a non-whitespace character. */
  lemma {:induction false} TokenEndKeeps(s: string, pos: nat, k: nat)
    requires pos <= |s| && pos <= k < TokenEnd(s, pos)
    ensures !IsSpace(s[k])
    decreases k - pos
  {
    if pos < k {
      TokenEndKeeps(s, pos + 1, k);
    }
  }

  /** The line ends inside a token, which is read once. */
  lemma EndInToken(s: string, e: nat, consumed: seq<string>, parse: string -> Option<int>)
    requires 0 < e == |s| && !IsSpace(s[e - 1])
    requires Words(s) == consumed + WordsFrom(s, e)
    ensures Values(consumed, parse) == Values(Words(s), parse) + TrailingRepeat(s, parse)
  {
    assert WordsFrom(s, |s|) == [];
    assert Words(s) == consumed;
    assert TrailingRepeat(s, parse) == [];
  }

  /** One successful read: the words from `pos` are the token read followed by the words after it. */
  lemma WordsFromStep(s: string, pos: nat, consumed: seq<string>)
    requires pos <= |s| && SpaceEnd(s, pos) < |s|
    requires Words(s) == consumed + WordsFrom(s, pos)
    ensures SpaceEnd(s, pos) < TokenEnd(s, SpaceEnd(s, pos))
    ensures Words(s) == (consumed + [s[SpaceEnd(s, pos)..TokenEnd(s, SpaceEnd(s, pos))]])
      + WordsFrom(s, TokenEnd(s, SpaceEnd(s, pos)))
  {
  }

  /** What holds between two passes of the loop that have not reached end of stream. */
  ghost predicate ReadState(s: string, pos: nat, last: string, consumed: seq<string>, output: seq<int>, parse: string -> Option<int>) {
    && pos <= |s|
    && Words(s) == consumed + WordsFrom(s, pos)
    && last == (if |consumed| == 0 then "" else consumed[|consumed| - 1])
    && output == Values(consumed, parse)
    && (|consumed| > 0 ==> pos < |s| && IsSpace(s[pos]))
  }

  /** A successful read of a token followed by whitespace keeps `ReadState`. */
  lemma TokenReadContinues(s: string, pos: nat, last: string, consumed: seq<string>, output: seq<int>, parse: string -> Option<int>)
    requires ReadState(s, pos, last, consumed, output, parse) && SpaceEnd(s, pos) < |s|
    requires TokenEnd(s, SpaceEnd(s, pos)) < |s|
    ensures
      var b := SpaceEnd(s, pos);
      var e := TokenEnd(s, b);
      ReadState(s, e, s[b..e], consumed + [s[b..e]], output + Keep(s[b..e], parse), parse)
  {
    var b := SpaceEnd(s, pos);
    var e := TokenEnd(s, b);
    WordsFromStep(s, pos, consumed);
    ValuesAppend(consumed, [s[b..e]], parse);
    ValuesSingle(s[b..e], parse);
  }

  /** A successful read of a token that ends the line completes the result. */
  lemma TokenReadEnds(s: string, pos: nat, last: string, consumed: seq<string>, output: seq<int>, parse: string -> Option<int>)
    requires ReadState(s, pos, last, consumed, output, parse) && SpaceEnd(s, pos) < |s|
    requires TokenEnd(s, SpaceEnd(s, pos)) == |s|
    ensures
      var b := SpaceEnd(s, pos);
      output + Keep(s[b..TokenEnd(s, b)], parse) == Values(Words(s), parse) + TrailingRepeat(s, parse)
  {
    var b := SpaceEnd(s, pos);
    var e := TokenEnd(s, b);
    var t := s[b..e];
    WordsFromStep(s, pos, consumed);
    TokenEndKeeps(s, b, e - 1);
    EndInToken(s, e, consumed + [t], parse);
    ValuesAppend(consumed, [t], parse);
    ValuesSingle(t, parse);
    assert output + Keep(t, parse) == Values(consumed + [t], parse);
  }

  /**
    One pass of the loop body: `ss >> temp_s`, which on failure keeps the
    previous token, then the parse of `temp_s`.
  */
  method ReadAndParse(s: string, pos: nat, last: string, ghost consumed: seq<string>, output: seq<int>, parse: string -> Option<int>)
    returns (pos': nat, eof: bool, last': string, ghost consumed': seq<string>, output': seq<int>)
    requires RejectsEmpty(parse)
    requires ReadState(s, pos, last, consumed, output, parse)
    ensures pos <= pos' <= |s| && (pos < pos' || eof)
    ensures !eof ==> ReadState(s, pos', last', consumed', output', parse)
    ensures eof ==> output' == Values(Words(s), parse) + TrailingRepeat(s, parse)
  {
    var begin := SkipWhitespace(s, pos);
    if begin == |s| {
      // the read fails at end of stream and `last` keeps the previous token
      EndInWhitespace(s, pos, consumed, parse);
      pos', eof, last', consumed' := begin, true, last, consumed;
      output' := output + Keep(last, parse);
    } else {
      pos' := ScanToken(s, begin);
      last' := s[begin..pos'];
      consumed' := consumed + [last'];
      eof := pos' == |s|;
      if eof {
        TokenReadEnds(s, pos, last, consumed, output, parse);
      } else {
        TokenReadContinues(s, pos, last, consumed, output, parse);
      }
      output' := output + Keep(last', parse);
    }
  }

  /**
    The C++ loop with token parser `parse`. `pos` is the read position of the
    outer stream, `eof` its end-of-file flag and `last` the string `temp_s`.
  */
  method ScanLine(s: string, parse: string -> Option<int>) returns (output: seq<int>)
    requires RejectsEmpty(parse)
    ensures output == Values(Words(s), parse) + TrailingRepeat(s, parse)
  {
    var pos := 0;
    var eof := false;
    var last := "";
    ghost var consumed: seq<string> := [];
    output := [];
    while !eof
      invariant !eof ==> ReadState(s, pos, last, consumed, output, parse)
      invariant eof ==> output == Values(Words(s), parse) + TrailingRepeat(s, parse)
      decreases |s| - pos, !eof
    {
      pos, eof, last, consumed, output := ReadAndParse(s, pos, last, consumed, output, parse);
    }
  }

  /**
    `getIntsFromLine`: the values of the tokens that read as a `long`, in
    order, with the last one repeated when the line ends in whitespace.
  */
  method GetIntsFromLine(w: LongWidth, s: string) returns (output: seq<int>)
    ensures output == Values(Words(s), LongParser(w)) + TrailingRepeat(s, LongParser(w))
  {
    ParseLongEmpty(w);
    output := ScanLine(s, LongParser(w));
  }

  /**
    One pass of the corrected loop body: `ss >> temp_s` as the loop
    condition, which ends the loop on failure, then the parse of `temp_s`.
  */
  method ReadOnceIntended(s: string, pos: nat, last: string, ghost consumed: seq<string>, output: seq<int>, parse: string -> Option<int>)
    returns (pos': nat, done: bool, last': string, ghost consumed': seq<string>, output': seq<int>)
    requires ReadState(s, pos, last, consumed, output, parse)
    ensures pos <= pos' <= |s| && (pos < pos' || done)
    ensures !done ==> ReadState(s, pos', last', consumed', output', parse)
    ensures done ==> output' == Values(Words(s), parse)
  {
    var begin := SkipWhitespace(s, pos);
    pos', last', consumed', output' := pos, last, consumed, output;
    if begin == |s| {
      // the read fails and the loop ends without parsing again
      assert WordsFrom(s, pos) == [];
      assert Words(s) == consumed;
      done := true;
    } else {
      var end := ScanToken(s, begin);
      done := end == |s|;
      if done {
        TokenReadEnds(s, pos, last, consumed, output, parse);
        TokenEndKeeps(s, begin, end - 1);
        assert TrailingRepeat(s, parse) == [];
        assert Values(Words(s), parse) + [] == Values(Words(s), parse);
      } else {
        TokenReadContinues(s, pos, last, consumed, output, parse);
      }
      pos', last' := end, s[begin..end];
      consumed' := consumed + [last'];
      output' := output + Keep(last', parse);
    }
  }

  /**
    The loop as `while (ss >> temp_s)` with token parser `parse`: it stops
    at the failed read instead of parsing the previous token again.
  */
  method ScanLineIntended(s: string, parse: string -> Option<int>) returns (output: seq<int>)
    ensures output == Values(Words(s), parse)
  {
    var pos := 0;
    var last := "";
    var done := false;
    ghost var consumed: seq<string> := [];
    output := [];
    while !done
      invariant !done ==> ReadState(s, pos, last, consumed, output, parse)
      invariant done ==> output == Values(Words(s), parse)
      decreases |s| - pos, !done
    {
      pos, done, last, consumed, output := ReadOnceIntended(s, pos, last, consumed, output, parse);
    }
  }

  /** `getIntsFromLine` with the corrected loop: each token is parsed exactly once. */
  method GetIntsFromLineIntended(w: LongWidth, s: string) returns (output: seq<int>)
    ensures output == Values(Words(s), LongParser(w))
  {
    output := ScanLineIntended(s, LongParser(w));
  }

  // ----- what the tokens and values are -----

  /** The characters of `s` from `pos` on that are not whitespace, in order. */
  function Squeeze(s: string, pos: nat): string
    requires pos <= |s|
    decreases |s| - pos
  {
    if pos == |s| then []
    else (if IsSpace(s[pos]) then [] else [s[pos]]) + Squeeze(s, pos + 1)
  }

  /** Strings laid end to end. */
  function Concat(words: seq<string>): string
    decreases |words|
  {
    if |words| == 0 then [] else words[0] + Concat(words[1..])
  }

  /** Whitespace contributes nothing to `Squeeze`. */
  lemma {:induction false} SqueezeSkipsSpace(s: string, pos: nat)
    requires pos <= |s|
    ensures Squeeze(s, pos) == Squeeze(s, SpaceEnd(s, pos))
    decreases |s| - pos
  {
    if pos < |s| && IsSpace(s[pos]) {
      SqueezeSkipsSpace(s, pos + 1);
    }
  }

  /** A token contributes itself to `Squeeze`. */
  lemma {:induction false} SqueezeKeepsToken(s: string, pos: nat)
    requires pos <= |s|
    ensures Squeeze(s, pos) == s[pos..TokenEnd(s, pos)] + Squeeze(s, TokenEnd(s, pos))
    decreases |s| - pos
  {
    if pos < |s| && !IsSpace(s[pos]) {
      SqueezeKeepsToken(s, pos + 1);
      assert s[pos..TokenEnd(s, pos)] == [s[pos]] + s[pos + 1..TokenEnd(s, pos + 1)];
    }
  }

  /**
    The tokens are non-empty, hold no whitespace, and laid end to end they
    give back every non-whitespace character of the line, in order.
  */
  lemma {:induction false} WordsFromSqueeze(s: string, pos: nat)
    requires pos <= |s|
    ensures Concat(WordsFrom(s, pos)) == Squeeze(s, pos)
    ensures forall k :: 0 <= k < |WordsFrom(s, pos)| ==>
      |WordsFrom(s, pos)[k]| > 0 && forall c :: c in WordsFrom(s, pos)[k] ==> !IsSpace(c)
    decreases |s| - pos
  {
    var b := SpaceEnd(s, pos);
    SqueezeSkipsSpace(s, pos);
    if b < |s| {
      var e := TokenEnd(s, b);
      SqueezeKeepsToken(s, b);
      WordsFromSqueeze(s, e);
      var words := WordsFrom(s, pos);
      assert words == [s[b..e]] + WordsFrom(s, e);
      assert words[1..] == WordsFrom(s, e);
      forall c | c in s[b..e]
        ensures !IsSpace(c)
      {
        var k :| b <= k < e && s[k] == c;
        TokenEndKeeps(s, b, k);
      }
    }
  }

  /** A run of non-whitespace ending at whitespace or at the end of the line is a whole token. */
  lemma {:induction false} TokenEndAt(s: string, b: nat, e: nat)
    requires b <= e <= |s|
    requires forall k :: b <= k < e ==> !IsSpace(s[k])
    requires e == |s| || IsSpace(s[e])
    ensures TokenEnd(s, b) == e
    decreases e - b
  {
    if b < e {
      TokenEndAt(s, b + 1, e);
    }
  }

  /** A run of whitespace ending at a non-whitespace character or at the end of the line is skipped whole. */
  lemma {:induction false} SpaceEndAt(s: string, b: nat, e: nat)
    requires b <= e <= |s|
    requires forall k :: b <= k < e ==> IsSpace(s[k])
    requires e == |s| || !IsSpace(s[e])
    ensures SpaceEnd(s, b) == e
    decreases e - b
  {
    if b < e {
      SpaceEndAt(s, b + 1, e);
    }
  }

  /** The leading digit run of a token is exactly the first `n` characters when they are digits and the next is not. */
  lemma {:induction false} DigitRunExact(tok: string, n: nat)
    requires n <= |tok| && (forall k :: 0 <= k < n ==> IsDigit(tok[k])) && (n == |tok| || !IsDigit(tok[n]))
    ensures DigitRun(tok) == n
    decreases n
  {
    if n > 0 {
      assert forall k :: 0 <= k < n - 1 ==> tok[1..][k] == tok[k + 1];
      DigitRunExact(tok[1..], n - 1);
    }
  }

  /**
    A token that starts with `n` digits, optionally after a sign, reads as
    their value, negated after a minus sign, whatever follows them, provided
    it fits in a `long`.
  */
  lemma ParseLongLeadingDigits(w: LongWidth, tok: string, start: nat, n: nat)
    requires start <= 1 && start + n <= |tok| && n > 0
    requires start == 1 <==> (tok[0] == '+' || tok[0] == '-')
    requires (forall k :: start <= k < start + n ==> IsDigit(tok[k])) && (start + n == |tok| || !IsDigit(tok[start + n]))
    requires var m := DigitsValue(tok[start..start + n]); if start == 1 && tok[0] == '-' then m <= -LongMin(w) else m <= LongMax(w)
    ensures var m: int := DigitsValue(tok[start..start + n]);
      ParseLong(w, tok) == Some(if start == 1 && tok[0] == '-' then -m else m)
  {
    var body := tok[start..];
    assert forall k :: 0 <= k < n ==> body[k] == tok[start + k];
    DigitRunExact(body, n);
    assert body[..n] == tok[start..start + n];
  }

  // ----- examples -----

  /** The digits of 2^31. */
  lemma DigitsOfTwoPow31()
    ensures DigitsValue("2147483648") == 2147483648
  {
    var t := "2147483648";
    assert t[..9] == "214748364";
    assert "214748364"[..8] == "21474836";
    assert "21474836"[..7] == "2147483";
    assert "2147483"[..6] == "214748";
    assert "214748"[..5] == "21474";
    assert "21474"[..4] == "2147";
    assert "2147"[..3] == "214";
    assert "214"[..2] == "21";
    assert "21"[..1] == "2";
    assert "2"[..0] == "";
    assert DigitsValue("2") == 2;
    assert DigitsValue("21") == 21;
    assert DigitsValue("214") == 214;
    assert DigitsValue("2147") == 2147;
    assert DigitsValue("21474") == 21474;
    assert DigitsValue("214748") == 214748;
    assert DigitsValue("2147483") == 2147483;
    assert DigitsValue("21474836") == 21474836;
    assert DigitsValue("214748364") == 214748364;
  }

  /**
    The token `2147483648` (2^31, a `/proc/stat` counter after long uptime)
    is dropped on an ILP32 target and read on an LP64 one.
  */
  lemma LongWidthDecides()
    ensures ParseLong(ILP32, "2147483648") == None
    ensures ParseLong(LP64, "2147483648") == Some(2147483648)
  {
    var t := "2147483648";
    DigitRunExact(t, 10);
    assert t[..10] == t;
    DigitsOfTwoPow31();
    ParseLongLeadingDigits(LP64, t, 0, 10);
    assert t[0..10] == t;
  }

  /** A `/proc/meminfo` line splits into three tokens. */
  lemma MemTotalWords(s: string)
    requires s == "MemTotal:  8000 kB"
    ensures Words(s) == ["MemTotal:", "8000", "kB"]
  {
    SpaceEndAt(s, 0, 0);
    TokenEndAt(s, 0, 9);
    SpaceEndAt(s, 9, 11);
    TokenEndAt(s, 11, 15);
    SpaceEndAt(s, 15, 16);
    TokenEndAt(s, 16, 18);
    SpaceEndAt(s, 18, 18);
    assert s[0..9] == "MemTotal:" && s[11..15] == "8000" && s[16..18] == "kB";
    assert WordsFrom(s, 18) == [];
    assert WordsFrom(s, 15) == ["kB"];
    assert WordsFrom(s, 9) == ["8000", "kB"];
  }
  /** The three tokens of a `/proc/meminfo` line. */
  lemma ParseExamples(w: LongWidth)
    ensures ParseLong(w, "MemTotal:") == None && ParseLong(w, "kB") == None
    ensures ParseLong(w, "8000") == Some(8000)
  {
    assert DigitRun("8000") == 4;
    assert "8000"[..4] == "8000" && "8000"[..3] == "800" && "800"[..2] == "80" && "80"[..1] == "8" && "8"[..0] == "";
    assert DigitsValue("8") == 8;
    assert DigitsValue("80") == 80;
    assert DigitsValue("800") == 800;
  }
  /** Of a `/proc/meminfo` line only the number survives. */
  lemma MemTotalLine(w: LongWidth, line: string)
    requires line == "MemTotal:  8000 kB"
    ensures Values(Words(line), LongParser(w)) + TrailingRepeat(line, LongParser(w)) == [8000]
  {
    var parse := LongParser(w);
    MemTotalWords(line);
    assert !IsSpace(line[|line| - 1]);
    assert TrailingRepeat(line, parse) == [];
    ParseExamples(w);
    assert Keep("MemTotal:", parse) == [] && Keep("8000", parse) == [8000] && Keep("kB", parse) == [];
    ValuesSingle("kB", parse);
    var ws := ["MemTotal:", "8000", "kB"];
    assert ws[1..] == ["8000", "kB"] && ws[1..][1..] == ["kB"];
    assert Values(ws[1..], parse) == [8000];
    assert Values(ws, parse) == [8000];
  }

  /**
    A line ending in whitespace: the intended result holds the number once,
    the loop as written yields it twice.
  */
  lemma TrailingSpaceRepeats(w: LongWidth, line: string)
    requires line == "7 "
    ensures Values(Words(line), LongParser(w)) == [7]
    ensures Values(Words(line), LongParser(w)) + TrailingRepeat(line, LongParser(w)) == [7, 7]
  {
    SpaceEndAt(line, 0, 0);
    TokenEndAt(line, 0, 1);
    SpaceEndAt(line, 1, 2);
    assert WordsFrom(line, 2) == [];
    assert line[0..1] == "7";
    assert WordsFrom(line, 0) == ["7"];
    ParseLongLeadingDigits(w, "7", 0, 1);
    assert "7"[0..1] == "7" && "7"[..0] == "";
    ValuesSingle("7", LongParser(w));
  }
}
