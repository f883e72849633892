/** The few pieces of Rust's standard string handling that the labyrinth's
    command interpreter relies on, written out so that their behaviour on odd
    input (surrounding whitespace, doubled spaces, a sign, an overflow) is part
    of the model rather than assumed:
    - `str::trim`, which strips Unicode White_Space from both ends;
    - `str::split(' ')`, which keeps the empty pieces between adjacent spaces;
    - `str::parse::<usize>()`, on a 64-bit target;
    - the decimal rendering of `format!("{}", n)` for an unsigned integer. */
module RustStr {

  datatype Option<+T> = None | Some(value: T)

  /** Rust's `char::is_whitespace`: the Unicode White_Space property. */
  predicate IsWhitespace(c: char) {
    ('\t' <= c <= '\r') || c == ' ' || c == '\U{0085}' || c == '\U{00A0}' ||
    c == '\U{1680}' || ('\U{2000}' <= c <= '\U{200A}') || c == '\U{2028}' ||
    c == '\U{2029}' || c == '\U{202F}' || c == '\U{205F}' || c == '\U{3000}'
  }

  /** `s.trim_start()`: `s` without its leading whitespace. */
  function TrimStart(s: string): (r: string)
    ensures |r| <= |s| && r == s[|s| - |r|..]
    ensures forall i :: 0 <= i < |s| - |r| ==> IsWhitespace(s[i])
    ensures r != [] ==> !IsWhitespace(r[0])
    decreases |s|
  {
    if s != [] && IsWhitespace(s[0]) then TrimStart(s[1..]) else s
  }

  /** `s.trim_end()`: `s` without its trailing whitespace. */
  function TrimEnd(s: string): (r: string)
    ensures |r| <= |s| && r == s[..|r|]
    ensures forall i :: |r| <= i < |s| ==> IsWhitespace(s[i])
    ensures r != [] ==> !IsWhitespace(r[|r| - 1])
    decreases |s|
  {
    if s != [] && IsWhitespace(s[|s| - 1]) then TrimEnd(s[..|s| - 1]) else s
  }

  /** `s.trim()`: the infix of `s` left after removing whitespace at both ends. */
  function Trim(s: string): (r: string)
    ensures var k := |s| - |TrimStart(s)|;
      k + |r| <= |s| && r == s[k..k + |r|] &&
      (forall i :: 0 <= i < k ==> IsWhitespace(s[i])) &&
      (forall i :: k + |r| <= i < |s| ==> IsWhitespace(s[i]))
    ensures r != [] ==> !IsWhitespace(r[0]) && !IsWhitespace(r[|r| - 1])
  {
    TrimEnd(TrimStart(s))
  }

  /** `s.split(sep).collect()`: the pieces between separators, empty ones
      included, so there is always at least one piece. */
  function Split(s: string, sep: char): (r: seq<string>)
    ensures |r| >= 1
    decreases |s|
  {
    if s == [] then [[]]
    else
      var rest := Split(s[1..], sep);
      assert s == [s[0]] + s[1..];
      if s[0] == sep then [[]] + rest
      else [[s[0]] + rest[0]] + rest[1..]
  }

  /** No piece of a split holds the separator. */
  lemma {:induction false} SplitPieces(s: string, sep: char)
    ensures forall i :: 0 <= i < |Split(s, sep)| ==> sep !in Split(s, sep)[i]
    decreases |s|
  {
    if s != [] {
      var r, rest := Split(s, sep), Split(s[1..], sep);
      SplitPieces(s[1..], sep);
      if s[0] == sep {
        assert r == [[]] + rest;
        assert forall i :: 1 <= i < |r| ==> r[i] == rest[i - 1];
      } else {
        assert r == [[s[0]] + rest[0]] + rest[1..];
        assert forall i :: 1 <= i < |r| ==> r[i] == rest[i];
      }
    }
  }

  /** `pieces.join(sep)`: the inverse of `Split`. */
  function Join(pieces: seq<string>, sep: char): string
    requires |pieces| >= 1
    decreases |pieces|
  {
    if |pieces| == 1 then pieces[0] else pieces[0] + [sep] + Join(pieces[1..], sep)
  }

  lemma {:induction false} JoinSplit(s: string, sep: char)
    ensures Join(Split(s, sep), sep) == s
    decreases |s|
  {
    if s != [] {
      var r, rest := Split(s, sep), Split(s[1..], sep);
      JoinSplit(s[1..], sep);
      assert s == [s[0]] + s[1..];
      if s[0] == sep {
        assert r == [[]] + rest && r[1..] == rest;
        assert Join(r, sep) == [] + [sep] + Join(rest, sep);
      } else if |rest| == 1 {
        assert r == [[s[0]] + rest[0]];
        assert Join(rest, sep) == rest[0];
      } else {
        assert r == [[s[0]] + rest[0]] + rest[1..] && r[1..] == rest[1..];
        assert Join(rest, sep) == rest[0] + [sep] + Join(rest[1..], sep);
        assert Join(r, sep) == ([s[0]] + rest[0]) + [sep] + Join(rest[1..], sep);
        assert ([s[0]] + rest[0]) + [sep] + Join(rest[1..], sep) == [s[0]] + Join(rest, sep);
      }
    }
  }

  /** Splitting after a character that is not the separator extends the
      first piece by that character. */
  lemma SplitCons(c: char, t: string, sep: char)
    requires c != sep
    ensures Split([c] + t, sep) == [[c] + Split(t, sep)[0]] + Split(t, sep)[1..]
  {
    assert ([c] + t)[1..] == t;
  }

  /** Splitting a word that holds no separator, followed by anything, keeps
      that word at the head of the first piece. */
  lemma {:induction false} SplitPrefix(w: string, t: string, sep: char)
    requires sep !in w
    ensures Split(w + t, sep) == [w + Split(t, sep)[0]] + Split(t, sep)[1..]
    decreases |w|
  {
    var r := Split(t, sep);
    if w == [] {
      assert w + t == t;
      assert w + r[0] == r[0];
      assert r == [r[0]] + r[1..];
    } else {
      var u := w[1..] + t;
      SplitPrefix(w[1..], t, sep);
      assert w + t == [w[0]] + u;
      SplitCons(w[0], u, sep);
      var ru := Split(u, sep);
      assert ru[0] == w[1..] + r[0] && ru[1..] == r[1..];
      assert [w[0]] + (w[1..] + r[0]) == w + r[0];
    }
  }

  lemma {:induction false} SplitJoin(pieces: seq<string>, sep: char)
    requires |pieces| >= 1
    requires forall i :: 0 <= i < |pieces| ==> sep !in pieces[i]
    ensures Split(Join(pieces, sep), sep) == pieces
    decreases |pieces|
  {
    if |pieces| == 1 {
      SplitPrefix(pieces[0], [], sep);
      assert pieces[0] + [] == pieces[0];
    } else {
      var j := Join(pieces[1..], sep);
      SplitJoin(pieces[1..], sep);
      assert Join(pieces, sep) == pieces[0] + ([sep] + j);
      SplitPrefix(pieces[0], [sep] + j, sep);
      assert ([sep] + j)[1..] == j;
      assert Split([sep] + j, sep) == [[]] + Split(j, sep);
      assert pieces[0] + [] == pieces[0];
      assert pieces == [pieces[0]] + pieces[1..];
    }
  }

  predicate IsDigit(c: char) {
    '0' <= c <= '9'
  }

  predicate AllDigits(s: string) {
    forall i :: 0 <= i < |s| ==> IsDigit(s[i])
  }

  /** The number a string of decimal digits denotes, leading zeros allowed. */
  function DecimalValue(s: string): nat
    requires AllDigits(s)
    decreases |s|
  {
    if s == [] then 0
    else DecimalValue(s[..|s| - 1]) * 10 + ((s[|s| - 1] as int) - ('0' as int))
  }

  /** `format!("{}", n)` for an unsigned integer: decimal, no leading zero. */
  function NatToString(n: nat): (r: string)
    ensures |r| >= 1 && AllDigits(r)
    ensures DecimalValue(r) == n
    ensures |r| > 1 ==> r[0] != '0'
    decreases n
  {
    var last := [(('0' as int) + n % 10) as char];
    if n < 10 then last
    else
      var r := NatToString(n / 10) + last;
      assert r[..|r| - 1] == NatToString(n / 10);
      r
  }

  /** One more than the largest `usize` on a 64-bit target. */
  const UsizeLimit: nat := 0x1_0000_0000_0000_0000

  type usize = n: nat | n < UsizeLimit

  /** `s.parse::<usize>()`: an optional `+`, then at least one decimal
      digit, and a value that fits in 64 bits; anything else is an error. */
  function ParseUsize(s: string): (r: Option<usize>)
    ensures var d := if s != [] && s[0] == '+' then s[1..] else s;
      r.Some? <==> d != [] && AllDigits(d) && DecimalValue(d) < UsizeLimit
    ensures var d := if s != [] && s[0] == '+' then s[1..] else s;
      r.Some? ==> AllDigits(d) && r.value == DecimalValue(d)
  {
    if s == [] || s == "+" then None
    else
      var digits := if s[0] == '+' then s[1..] else s;
      if AllDigits(digits) && DecimalValue(digits) < UsizeLimit then Some(DecimalValue(digits))
      else None
  }

  /** Parsing reads back every `usize` that formatting writes, with or
      without a leading `+`. */
  lemma ParseFormatted(n: usize)
    ensures ParseUsize(NatToString(n)) == Some(n)
    ensures ParseUsize("+" + NatToString(n)) == Some(n)
  {
    var s := NatToString(n);
    assert s[0] != '+';
    assert ("+" + s)[1..] == s;
  }

  /** A decimal numeral too large for `usize` is refused, not wrapped, with
      or without a leading `+`. */
  lemma ParseOverflow(n: nat)
    requires n >= UsizeLimit
    ensures ParseUsize(NatToString(n)) == None
    ensures ParseUsize("+" + NatToString(n)) == None
  {
    assert NatToString(n)[0] != '+';
    assert ("+" + NatToString(n))[1..] == NatToString(n);
  }

  /** `k` zero digits. */
  function Zeros(k: nat): (r: string)
    ensures |r| == k && forall i :: 0 <= i < k ==> r[i] == '0'
  {
    if k == 0 then [] else "0" + Zeros(k - 1)
  }

  lemma {:induction false} ZerosValue(k: nat)
    ensures AllDigits(Zeros(k)) && DecimalValue(Zeros(k)) == 0
    decreases k
  {
    if k > 0 {
      ZerosValue(k - 1);
      assert Zeros(k)[..k - 1] == Zeros(k - 1);
    }
  }

  /** Leading zeros do not change the value of a numeral. */
  lemma {:induction false} LeadingZeros(k: nat, s: string)
    requires AllDigits(s)
    ensures AllDigits(Zeros(k) + s) && DecimalValue(Zeros(k) + s) == DecimalValue(s)
    decreases |s|
  {
    var z := Zeros(k);
    if s == [] {
      ZerosValue(k);
      assert z + s == z;
    } else {
      var t := s[..|s| - 1];
      LeadingZeros(k, t);
      assert (z + s)[..|z + s| - 1] == z + t;
      assert (z + s)[|z + s| - 1] == s[|s| - 1];
    }
  }

  /** A non-empty string of digits parses, with or without a leading `+`,
      to its value when that fits in a `usize`. */
  lemma ParseDigits(d: string)
    requires d != [] && AllDigits(d)
    ensures ParseUsize(d) == (if DecimalValue(d) < UsizeLimit then Some(DecimalValue(d)) else None)
    ensures ParseUsize("+" + d) == ParseUsize(d)
  {
    assert d[0] != '+';
    assert ("+" + d)[1..] == d;
  }

  /** A numeral with leading zeros, with or without a leading `+`, parses to
      its value when that fits in a `usize`, and is refused otherwise. */
  lemma ParsePadded(k: nat, n: nat)
    ensures ParseUsize(Zeros(k) + NatToString(n)) == (if n < UsizeLimit then Some(n) else None)
    ensures ParseUsize("+" + Zeros(k) + NatToString(n)) == (if n < UsizeLimit then Some(n) else None)
  {
    var s := Zeros(k) + NatToString(n);
    LeadingZeros(k, NatToString(n));
    ParseDigits(s);
    assert "+" + Zeros(k) + NatToString(n) == "+" + s;
  }
}
