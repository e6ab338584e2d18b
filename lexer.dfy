/**
 * The lexer of zeta.c: a cursor over a NUL-terminated string that yields one
 * token per call of `get_next_token`.
 *
 * The functions describe one call of `get_next_token` on the characters not yet
 * read (`Scan`); the class `Lexer` is the in-place cursor, proved against them.
 */
module Lexing {
  import opened Tokens
  import opened Errors

  /** The most digits `number` accepts: the size of its `result` buffer in zeta.c. */
  const MaxDigits: nat := 32

  /** `isspace` in the C locale. */
  predicate IsSpace(c: char) {
    c == ' ' || c == '\t' || c == '\n' || c == '\r' || c == '\U{B}' || c == '\U{C}'
  }

  /** `isdigit`. */
  predicate IsDigit(c: char) {
    '0' <= c <= '9'
  }

  predicate AllDigits(s: seq<char>) {
    forall i | 0 <= i < |s| :: IsDigit(s[i])
  }

  /** The characters that form a token on their own. */
  predicate IsSymbol(c: char) {
    c == '+' || c == '-' || c == '*' || c == '/' || c == '(' || c == ')'
  }

  /** The token type of a single-character token (the `switch` of `get_next_token`). */
  function SymbolKind(c: char): TokenKind
    requires IsSymbol(c)
  {
    if c == '+' then Plus
    else if c == '-' then Minus
    else if c == '*' then Mul
    else if c == '/' then Div
    else if c == '(' then LParen
    else RParen
  }

  /** A C string holds no NUL before its terminator. */
  predicate CString(text: seq<char>) {
    forall i | 0 <= i < |text| :: text[i] != '\0'
  }

  /** The character at `pos`, or the terminator once `pos` has reached the end. */
  function CharAt(text: seq<char>, pos: nat): char {
    if pos < |text| then text[pos] else '\0'
  }

  /** `s` without its leading whitespace (what `skip_whitespace` steps over). */
  function SkipSpaces(s: seq<char>): (r: seq<char>)
    ensures |r| <= |s|
    ensures s != [] && IsSpace(s[0]) ==> |r| < |s|
    ensures r == [] || !IsSpace(r[0])
  {
    if s != [] && IsSpace(s[0]) then SkipSpaces(s[1..]) else s
  }

  /** Length of the maximal run of digits at the start of `s`. */
  function DigitRun(s: seq<char>): (n: nat)
    ensures n <= |s| && AllDigits(s[..n])
    ensures n == |s| || !IsDigit(s[n])
  {
    if s != [] && IsDigit(s[0]) then 1 + DigitRun(s[1..]) else 0
  }

  /** A digit run of length `m` at the start of `s` is part of the maximal one. */
  lemma DigitRunAtLeast(s: seq<char>, m: nat)
    requires m <= |s| && forall k | 0 <= k < m :: IsDigit(s[k])
    ensures DigitRun(s) >= m
  {
  }

  /** A digit run followed by a non-digit or by the end is the maximal one. */
  lemma DigitRunExactly(s: seq<char>, m: nat)
    requires m <= |s| && forall k | 0 <= k < m :: IsDigit(s[k])
    requires m == |s| || !IsDigit(s[m])
    ensures DigitRun(s) == m
  {
  }

  function DigitValue(c: char): nat
    requires IsDigit(c)
  {
    c as int - '0' as int
  }

  function DigitChar(d: nat): char
    requires d < 10
  {
    ('0' as int + d) as char
  }

  /** The number a string of decimal digits denotes (`atof` of a digit run). */
  function DecimalValue(ds: seq<char>): nat
    requires AllDigits(ds)
  {
    if ds == [] then 0 else DecimalValue(ds[..|ds| - 1]) * 10 + DigitValue(ds[|ds| - 1])
  }

  /** The decimal spelling of `n`, without leading zeros. */
  function Spell(n: nat): (s: seq<char>)
    ensures 0 < |s| && AllDigits(s)
  {
    if n < 10 then [DigitChar(n)] else Spell(n / 10) + [DigitChar(n % 10)]
  }

  /** What `atof` finds in a character buffer: the text before its first terminator. */
  datatype BufferRead = Text(chars: seq<char>) | RunsPast

  /**
   * The C string held by `buf`: the characters before the first terminator, or
   * `RunsPast` when the buffer holds none and a reader would run off its end.
   */
  function ReadBuffer(buf: seq<char>): (r: BufferRead)
    ensures r.Text? ==> |r.chars| < |buf| && buf[..|r.chars|] == r.chars
    ensures r.Text? ==> buf[|r.chars|] == '\0' && CString(r.chars)
    ensures r.RunsPast? <==> CString(buf)
  {
    if buf == [] then RunsPast
    else if buf[0] == '\0' then Text([])
    else match ReadBuffer(buf[1..])
      case Text(t) => Text([buf[0]] + t)
      case RunsPast => RunsPast
  }

  /** The buffer of `number` after `ds` is stored: the digits, then zero bytes up to `size`. */
  function DigitBuffer(ds: seq<char>, size: nat): (buf: seq<char>)
    requires |ds| <= size
    ensures |buf| == size && buf[..|ds|] == ds
    ensures forall k | |ds| <= k < size :: buf[k] == '\0'
  {
    ds + seq(size - |ds|, _ => '\0')
  }

  /**
   * As written, `number` declares a buffer of `MaxDigits` bytes and accepts up to
   * `MaxDigits` digits: a run of exactly that many leaves no terminator for `atof`.
   */
  lemma FullBufferUnterminated(ds: seq<char>)
    requires |ds| == MaxDigits && AllDigits(ds)
    ensures ReadBuffer(DigitBuffer(ds, MaxDigits)) == RunsPast
  {
  }

  /** The size `number` needs: room for `MaxDigits` digits and the terminator. */
  const BufferSize: nat := MaxDigits + 1

  /** A buffer larger than the digits stored in it reads back exactly those digits. */
  lemma {:induction false} ReadDigitBuffer(ds: seq<char>, size: nat)
    requires |ds| < size && AllDigits(ds)
    ensures ReadBuffer(DigitBuffer(ds, size)) == Text(ds)
    decreases |ds|
  {
    var buf := DigitBuffer(ds, size);
    if ds != [] {
      assert buf[1..] == DigitBuffer(ds[1..], size - 1);
      ReadDigitBuffer(ds[1..], size - 1);
      assert IsDigit(ds[0]);
      assert [ds[0]] + ds[1..] == ds;
    }
  }

  /**
   * One call of `get_next_token` on the unread characters `s`: the token and the
   * characters still unread after it. Whitespace is skipped first.
   */
  function Scan(s: seq<char>): (r: Result<(Token, seq<char>)>)
    ensures r.Ok? ==> |r.value.1| <= |s|
    ensures r.Ok? && r.value.0.kind == EofToken ==> r.value.1 == []
    ensures r.Ok? && r.value.0.kind != EofToken ==> |r.value.1| < |s|
  {
    ScanToken(SkipSpaces(s))
  }

  /**
   * The token at the start of `t`, which holds no leading whitespace: the end of
   * the text is END OF INPUT; a digit starts an INTEGER made of the maximal digit
   * run, refused when it is longer than the buffer; `+ - * / ( )` are tokens of
   * one character; anything else is an invalid character.
   */
  function ScanToken(t: seq<char>): (r: Result<(Token, seq<char>)>)
    ensures r.Ok? ==> |r.value.1| <= |t|
    ensures r.Ok? && r.value.0.kind == EofToken ==> t == [] && r.value.1 == []
    ensures r.Ok? && r.value.0.kind != EofToken ==> |r.value.1| < |t|
  {
    if t == [] then Ok((EofTok, t))
    else if IsDigit(t[0]) then
      var n := DigitRun(t);
      if n > MaxDigits then Err(NumberTooLong)
      else Ok((Token(Integer, DecimalValue(t[..n])), t[n..]))
    else if IsSymbol(t[0]) then Ok((Token(SymbolKind(t[0]), 0), t[1..]))
    else Err(InvalidCharacter(t[0]))
  }

  /** The decimal value of a number's spelling is the number. */
  lemma {:induction false} DecimalValueOfSpell(n: nat)
    ensures DecimalValue(Spell(n)) == n
  {
    if n >= 10 {
      var s := Spell(n);
      assert s[..|s| - 1] == Spell(n / 10);
      DecimalValueOfSpell(n / 10);
    }
  }

  /** END OF INPUT is returned exactly when nothing but whitespace is left. */
  lemma ScanEofIffBlank(s: seq<char>)
    ensures (Scan(s).Ok? && Scan(s).value.0.kind == EofToken) <==> (forall i | 0 <= i < |s| :: IsSpace(s[i]))
  {
    SkippedAreSpaces(s);
  }

  /** `SkipSpaces` drops a prefix of `s`, and everything it drops is whitespace. */
  lemma {:induction false} SkippedAreSpaces(s: seq<char>)
    ensures SkipSpaces(s) == s[|s| - |SkipSpaces(s)|..]
    ensures forall i | 0 <= i < |s| - |SkipSpaces(s)| :: IsSpace(s[i])
  {
    if s != [] && IsSpace(s[0]) {
      SkippedAreSpaces(s[1..]);
    }
  }

  /** Whitespace is skipped without producing a token. */
  lemma ScanSkipsSpace(c: char, s: seq<char>)
    requires IsSpace(c)
    ensures Scan([c] + s) == Scan(s)
  {
  }

  /**
   * A digit starts an INTEGER token: the maximal digit run is consumed, so the
   * next unread character is no digit, and the token's value is the run's
   * decimal value; a run of more than 32 digits is refused.
   */
  lemma ScanNumber(s: seq<char>)
    requires s != [] && IsDigit(s[0])
    ensures Scan(s).Err? <==> DigitRun(s) > MaxDigits
    ensures Scan(s).Ok? ==>
      var (tok, rest) := Scan(s).value;
      tok == Token(Integer, DecimalValue(s[..DigitRun(s)])) && rest == s[DigitRun(s)..]
      && (rest == [] || !IsDigit(rest[0]))
  {
  }

  /** Each of `+ - * / ( )` is a token of its own type and consumes exactly one character. */
  lemma ScanSymbol(c: char, s: seq<char>)
    requires IsSymbol(c)
    ensures Scan([c] + s) == Ok((Token(SymbolKind(c), 0), s))
  {
  }

  /** Any other character that is neither whitespace nor a digit is an invalid character. */
  lemma ScanInvalid(c: char, s: seq<char>)
    requires !IsSpace(c) && !IsDigit(c) && !IsSymbol(c)
    ensures Scan([c] + s) == Err(InvalidCharacter(c))
  {
  }

  /**
   * Scanning a spelled number followed by anything that does not start with a
   * digit gives that number back and leaves exactly the rest unread.
   */
  lemma {:induction false} ScanSpelled(n: nat, tail: seq<char>)
    requires |Spell(n)| <= MaxDigits
    requires tail == [] || !IsDigit(tail[0])
    ensures Scan(Spell(n) + tail) == Ok((Token(Integer, n), tail))
  {
    var sp := Spell(n);
    var s := sp + tail;
    DigitRunOfDigitsThen(sp, tail);
    assert s[..|sp|] == sp && s[|sp|..] == tail;
    DecimalValueOfSpell(n);
    assert SkipSpaces(s) == s;
  }

  /** A run of digits followed by a non-digit is exactly the maximal digit run. */
  lemma {:induction false} DigitRunOfDigitsThen(ds: seq<char>, tail: seq<char>)
    requires AllDigits(ds)
    requires tail == [] || !IsDigit(tail[0])
    ensures DigitRun(ds + tail) == |ds|
  {
    if ds != [] {
      assert (ds + tail)[1..] == ds[1..] + tail;
      DigitRunOfDigitsThen(ds[1..], tail);
    } else {
      assert ds + tail == tail;
    }
  }

  /**
   * The lexer of zeta.c. `text` is the C string it scans, `pos` the cursor and
   * `currentChar` the character under it.
   */
  class Lexer {
    const text: seq<char>
    var pos: nat
    var currentChar: char

    /**
     * `currentChar` is `text[pos]`, or the terminator once `pos` has reached the
     * end; the cursor never passes the terminator.
     */
    ghost predicate Valid()
      reads this
    {
      CString(text) && pos <= |text| && currentChar == CharAt(text, pos)
    }

    /** The characters not read yet. */
    ghost function Rest(): seq<char>
      reads this
      requires pos <= |text|
    {
      text[pos..]
    }

    /** `Lexer_Init`. */
    constructor (text: seq<char>)
      requires CString(text)
      ensures Valid() && this.text == text && pos == 0 && Rest() == text
    {
      this.text := text;
      pos := 0;
      currentChar := if 0 < |text| then text[0] else '\0';
    }

    /** `advance`: one step right; the character under the cursor follows. */
    method Advance()
      requires Valid() && currentChar != '\0'
      modifies this
      ensures Valid() && pos == old(pos) + 1
      ensures Rest() == old(Rest())[1..]
    {
      pos := pos + 1;
      currentChar := if pos < |text| then text[pos] else '\0';
    }

    /** `skip_whitespace`: the cursor moves past every whitespace character under it. */
    method SkipWhitespace()
      requires Valid()
      modifies this
      ensures Valid() && pos >= old(pos)
      ensures Rest() == SkipSpaces(old(Rest()))
      ensures !IsSpace(currentChar)
    {
      while currentChar != '\0' && IsSpace(currentChar)
        invariant Valid() && pos >= old(pos)
        invariant SkipSpaces(Rest()) == SkipSpaces(old(Rest()))
        decreases |Rest()|
      {
        Advance();
      }
    }

    /**
     * `number`: collects the maximal digit run under the cursor into a buffer,
     * failing before it would store a 33rd digit, and returns the value of the
     * C string in the buffer. The buffer has room for the terminator (see
     * `FullBufferUnterminated` for the 32-byte buffer of zeta.c).
     */
    method Number() returns (r: Result<nat>)
      requires Valid()
      modifies this
      ensures Valid() && pos >= old(pos)
      ensures r.Ok? <==> DigitRun(old(Rest())) <= MaxDigits
      ensures r == Err(NumberTooLong) || r.Ok?
      ensures r.Ok? ==> r.value == DecimalValue(old(Rest())[..DigitRun(old(Rest()))])
      ensures r.Ok? ==> Rest() == old(Rest())[DigitRun(old(Rest()))..] && !IsDigit(currentChar)
    {
      var result := new char[BufferSize](_ => '\0');
      var i := 0;
      ghost var s := Rest();
      while currentChar != '\0' && IsDigit(currentChar)
        invariant Valid() && pos == old(pos) + i
        invariant i <= MaxDigits && i <= |s|
        invariant Rest() == s[i..]
        invariant forall k | 0 <= k < i :: result[k] == s[k] && IsDigit(s[k])
        invariant forall k | i <= k < BufferSize :: result[k] == '\0'
        decreases |Rest()|
      {
        if i >= MaxDigits {
          DigitRunAtLeast(s, i + 1);
          return Err(NumberTooLong);
        }
        result[i] := currentChar;
        i := i + 1;
        Advance();
      }
      DigitRunExactly(s, i);
      assert result[..] == DigitBuffer(s[..i], BufferSize);
      ReadDigitBuffer(s[..i], BufferSize);
      r := Ok(DecimalValue(ReadBuffer(result[..]).chars));
    }

    /**
     * `get_next_token`: skips whitespace and reads one token; at the terminator
     * it returns END OF INPUT.
     */
    method GetNextToken() returns (r: Result<Token>)
      requires Valid()
      modifies this
      ensures Valid() && pos >= old(pos)
      ensures r.Ok? <==> Scan(old(Rest())).Ok?
      ensures r.Ok? ==> (r.value, Rest()) == Scan(old(Rest())).value
      ensures r.Err? ==> r.error == Scan(old(Rest())).error
      ensures r.Ok? && r.value.kind == EofToken ==> currentChar == '\0'
      ensures r.Ok? && r.value.kind != EofToken ==> pos > old(pos)
    {
      ghost var s0 := Rest();
      while currentChar != '\0'
        invariant Valid() && pos >= old(pos)
        invariant SkipSpaces(Rest()) == SkipSpaces(s0)
        decreases |Rest()|
      {
        if IsSpace(currentChar) {
          SkipWhitespace();
          continue;
        }
        ghost var s := Rest();
        assert SkipSpaces(s) == s;
        assert Scan(s0) == ScanToken(s);
        if IsDigit(currentChar) {
          var v := Number();
          if v.Err? {
            return Err(v.error);
          }
          return Ok(Token(Integer, v.value));
        }
        match currentChar
        case '+' =>
          Advance();
          return Ok(Token(Plus, 0));
        case '-' =>
          Advance();
          return Ok(Token(Minus, 0));
        case '*' =>
          Advance();
          return Ok(Token(Mul, 0));
        case '/' =>
          Advance();
          return Ok(Token(Div, 0));
        case '(' =>
          Advance();
          return Ok(Token(LParen, 0));
        case ')' =>
          Advance();
          return Ok(Token(RParen, 0));
        case _ =>
          return Err(InvalidCharacter(currentChar));
      }
      return Ok(EofTok);
    }
  }
}
