/** The number-reading step of the `ask!` macro (src/ask.rs:10-16): the line read from
    the player has every whitespace character removed, the rest is parsed as a `u32`,
    and a failed parse counts as 0. */
module Ask {
  import opened U32
  import opened Decimal

  /** The characters Rust's `char::is_whitespace` accepts: the Unicode White_Space
      property. */
  predicate IsWhitespace(c: char) {
    || '\t' <= c <= '\r'
    || c == ' '
    || c == '\U{0085}'
    || c == '\U{00A0}'
    || c == '\U{1680}'
    || '\U{2000}' <= c <= '\U{200A}'
    || c == '\U{2028}'
    || c == '\U{2029}'
    || c == '\U{202F}'
    || c == '\U{205F}'
    || c == '\U{3000}'
  }

  predicate AllWhitespace(s: string) {
    forall i :: 0 <= i < |s| ==> IsWhitespace(s[i])
  }

  /** What `buffer.retain(|c| !c.is_whitespace())` leaves: the non-whitespace
      characters of `s`, in their order. */
  function RemoveWhitespace(s: string): (r: string)
    ensures |r| <= |s|
    ensures forall i :: 0 <= i < |r| ==> !IsWhitespace(r[i])
  {
    if s == [] then []
    else (if IsWhitespace(s[0]) then [] else [s[0]]) + RemoveWhitespace(s[1..])
  }

  /** Removal works piecewise: it distributes over concatenation. */
  lemma {:induction false} RemoveWhitespaceAppend(a: string, b: string)
    ensures RemoveWhitespace(a + b) == RemoveWhitespace(a) + RemoveWhitespace(b)
  {
    if a == [] {
      assert a + b == b;
    } else {
      assert (a + b)[1..] == a[1..] + b;
      RemoveWhitespaceAppend(a[1..], b);
    }
  }

  /** A string without whitespace is left as it is; in particular removal is idempotent. */
  lemma {:induction false} RemoveWhitespaceNone(s: string)
    requires forall i :: 0 <= i < |s| ==> !IsWhitespace(s[i])
    ensures RemoveWhitespace(s) == s
  {
    if s != [] {
      RemoveWhitespaceNone(s[1..]);
    }
  }

  /** A string of whitespace disappears entirely. */
  lemma {:induction false} RemoveWhitespaceAll(s: string)
    requires AllWhitespace(s)
    ensures RemoveWhitespace(s) == []
  {
    if s != [] {
      RemoveWhitespaceAll(s[1..]);
    }
  }

  /** Every non-whitespace character of `s` survives the removal. */
  lemma {:induction false} RemoveWhitespaceKeeps(s: string, i: nat)
    requires i < |s| && !IsWhitespace(s[i])
    ensures s[i] in RemoveWhitespace(s)
  {
    if i > 0 {
      RemoveWhitespaceKeeps(s[1..], i - 1);
    }
  }

  /** Rust's `String::retain` on the line buffer, done in place: the kept characters
      are moved to the front and the new length is returned. */
  method RetainNonWhitespace(buf: array<char>) returns (len: nat)
    modifies buf
    ensures len <= buf.Length
    ensures buf[..len] == RemoveWhitespace(old(buf[..]))
  {
    ghost var original := buf[..];
    var i := 0;
    len := 0;
    while i < buf.Length
      invariant len <= i <= buf.Length
      invariant buf[..len] == RemoveWhitespace(original[..i])
      invariant forall k :: i <= k < buf.Length ==> buf[k] == original[k]
    {
      var c := buf[i];
      assert original[..i + 1] == original[..i] + [c];
      RemoveWhitespaceAppend(original[..i], [c]);
      if !IsWhitespace(c) {
        buf[len] := c;
        len := len + 1;
      }
      i := i + 1;
    }
    assert original[..buf.Length] == original;
  }

  /** The digits after the optional leading `+` that Rust's unsigned parser accepts. */
  function Unsigned(s: string): string {
    if |s| > 0 && s[0] == '+' then s[1..] else s
  }

  /** `s.parse::<u32>()`: an optional `+`, then at least one ASCII digit and nothing
      else, denoting a value that fits in a `u32`. The kind of error is not kept. */
  function ParseU32(s: string): (r: Option<u32>)
    ensures |Unsigned(s)| == 0 ==> r == None
    ensures r.Some? ==> forall i :: 0 <= i < |s| ==> IsDigit(s[i]) || (i == 0 && s[i] == '+')
    ensures r.Some? ==> AllDigits(Unsigned(s)) && r.value == ValueOf(Unsigned(s))
    ensures AllDigits(Unsigned(s)) && ValueOf(Unsigned(s)) > MAX ==> r == None
    ensures 0 < |Unsigned(s)| && AllDigits(Unsigned(s)) && ValueOf(Unsigned(s)) <= MAX ==> r == Some(ValueOf(Unsigned(s)))
  {
    var digits := Unsigned(s);
    if |digits| > 0 && AllDigits(digits) && ValueOf(digits) <= MAX then Some(ValueOf(digits)) else None
  }

  /** The value of `ask!`: the parse of the line with its whitespace removed, or 0. A
      non-zero value comes from a line whose every visible character is a digit or `+`. */
  function AskValue(line: string): (v: u32)
    ensures v != 0 ==> ParseU32(RemoveWhitespace(line)) == Some(v)
    ensures ParseU32(RemoveWhitespace(line)).None? ==> v == 0
    ensures ParseU32(RemoveWhitespace(line)).Some? ==> v == ParseU32(RemoveWhitespace(line)).value
    ensures v != 0 ==> forall i :: 0 <= i < |line| && !IsWhitespace(line[i]) ==> IsDigit(line[i]) || line[i] == '+'
  {
    var r := ParseU32(RemoveWhitespace(line));
    if r.Some? then
      assert forall i :: 0 <= i < |line| && !IsWhitespace(line[i]) ==> IsDigit(line[i]) || line[i] == '+' by {
        forall i | 0 <= i < |line| && !IsWhitespace(line[i]) {
          RemoveWhitespaceKeeps(line, i);
        }
      }
      r.value
    else
      0
  }

  /** The canonical numeral of a `u32` parses to that number. */
  lemma ParseToDecimal(n: u32)
    ensures ParseU32(ToDecimal(n)) == Some(n)
  {
    ValueOfToDecimal(n);
  }

  /** Whitespace anywhere in the line, not only at its ends, is ignored. */
  lemma AskIgnoresWhitespace(a: string, w: string, b: string)
    requires AllWhitespace(w)
    ensures AskValue(a + w + b) == AskValue(a + b)
  {
    calc {
      RemoveWhitespace(a + w + b);
      { RemoveWhitespaceAppend(a + w, b); }
      RemoveWhitespace(a + w) + RemoveWhitespace(b);
      { RemoveWhitespaceAppend(a, w); RemoveWhitespaceAll(w); }
      RemoveWhitespace(a) + RemoveWhitespace(b);
      { RemoveWhitespaceAppend(a, b); }
      RemoveWhitespace(a + b);
    }
  }

  /** A numeral surrounded by whitespace, such as a line ending in CR LF, reads as its
      number. */
  lemma AskNumeral(n: u32, before: string, after: string)
    requires AllWhitespace(before) && AllWhitespace(after)
    ensures AskValue(before + ToDecimal(n) + after) == n
  {
    var d := ToDecimal(n);
    calc {
      RemoveWhitespace(before + d + after);
      { RemoveWhitespaceAppend(before + d, after); }
      RemoveWhitespace(before + d) + RemoveWhitespace(after);
      { RemoveWhitespaceAppend(before, d); RemoveWhitespaceAll(before); RemoveWhitespaceAll(after); }
      RemoveWhitespace(d);
      { RemoveWhitespaceNone(d); }
      d;
    }
    ParseToDecimal(n);
  }

  /** A line of whitespace only, the empty line included, reads as 0. */
  lemma AskBlank(line: string)
    requires AllWhitespace(line)
    ensures AskValue(line) == 0
  {
    RemoveWhitespaceAll(line);
  }

  /** A line with any character that is neither whitespace, a digit nor `+` reads as 0. */
  lemma AskNonNumeric(line: string, i: nat)
    requires i < |line| && !IsWhitespace(line[i]) && !IsDigit(line[i]) && line[i] != '+'
    ensures AskValue(line) == 0
  {
  }

  /** A numeral too large for a `u32` reads as 0, not as a wrapped value. */
  lemma AskOverflow(digits: string)
    requires |digits| > 0 && AllDigits(digits) && ValueOf(digits) > MAX
    ensures AskValue(digits) == 0
  {
    RemoveWhitespaceNone(digits);
  }

  /** The numerals of the examples below. */
  lemma ExampleNumerals()
    ensures ToDecimal(1) == "1" && ToDecimal(12) == "12"
    ensures ToDecimal(200) == "200" && ToDecimal(999) == "999"
  {
  }

  /** The lines of src/ask.rs's tests: "1", "200" and "999\r\n". */
  lemma AskTestLines()
    ensures AskValue("1") == 1
    ensures AskValue("200") == 200
    ensures AskValue("999\r\n") == 999
  {
    ExampleNumerals();
    AskNumeral(1, "", "");
    assert "1" == "" + ToDecimal(1) + "";
    AskNumeral(200, "", "");
    assert "200" == "" + ToDecimal(200) + "";
    AskNumeral(999, "", "\r\n");
    assert "999\r\n" == "" + ToDecimal(999) + "\r\n";
  }

  /** Digits separated by a space are read as one numeral: "1 2" gives 12. */
  lemma AskJoinsDigits()
    ensures AskValue("1 2") == 12
  {
    ExampleNumerals();
    AskIgnoresWhitespace("1", " ", "2");
    assert "1 2" == "1" + " " + "2";
    AskNumeral(12, "", "");
    assert "12" == "" + ToDecimal(12) + "";
  }

  /** 2^32, one past `u32::MAX`, reads as 0. */
  lemma AskOverflowExample()
    ensures AskValue("4294967296") == 0
  {
    var big := "4294967296";
    assert ValueOf(big[..1]) == 4;
    assert big[..2][..1] == big[..1];
    assert ValueOf(big[..2]) == 42;
    assert big[..3][..2] == big[..2];
    assert ValueOf(big[..3]) == 429;
    assert big[..4][..3] == big[..3];
    assert ValueOf(big[..4]) == 4294;
    assert big[..5][..4] == big[..4];
    assert ValueOf(big[..5]) == 42949;
    assert big[..6][..5] == big[..5];
    assert ValueOf(big[..6]) == 429496;
    assert big[..7][..6] == big[..6];
    assert ValueOf(big[..7]) == 4294967;
    assert big[..8][..7] == big[..7];
    assert ValueOf(big[..8]) == 42949672;
    assert big[..9][..8] == big[..8];
    assert ValueOf(big[..9]) == 429496729;
    assert big[..10][..9] == big[..9];
    assert big[..10] == big;
    AskOverflow(big);
  }
}
