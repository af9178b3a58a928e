/** The text operations the service relies on: trimming white space and printing integers in decimal. */
module Text {

  /** Code points with the Unicode White_Space property, the ones that strings.TrimSpace removes. */
  predicate IsSpace(c: char) {
    || c in {'\t', '\n', '\U{000B}', '\U{000C}', '\r', ' ', '\U{0085}', '\U{00A0}', '\U{1680}'}
    || '\U{2000}' <= c <= '\U{200A}'
    || c in {'\U{2028}', '\U{2029}', '\U{202F}', '\U{205F}', '\U{3000}'}
  }

  predicate Blank(s: string) {
    forall i :: 0 <= i < |s| ==> IsSpace(s[i])
  }

  /** Neither end of s is white space. */
  predicate Trimmed(s: string) {
    s == "" || (!IsSpace(s[0]) && !IsSpace(s[|s| - 1]))
  }

  function TrimLeft(s: string): string {
    if s != "" && IsSpace(s[0]) then TrimLeft(s[1..]) else s
  }

  function TrimRight(s: string): string {
    if s != "" && IsSpace(s[|s| - 1]) then TrimRight(s[..|s| - 1]) else s
  }

  function Trim(s: string): string {
    TrimRight(TrimLeft(s))
  }

  lemma {:induction false} TrimLeftCut(s: string) returns (i: nat)
    ensures i <= |s| && TrimLeft(s) == s[i..] && Blank(s[..i])
    ensures i == |s| || !IsSpace(s[i])
  {
    if s != "" && IsSpace(s[0]) {
      var k := TrimLeftCut(s[1..]);
      i := k + 1;
      assert s[..i] == [s[0]] + s[1..][..k];
    } else {
      i := 0;
    }
  }

  lemma {:induction false} TrimRightCut(s: string) returns (j: nat)
    ensures j <= |s| && TrimRight(s) == s[..j] && Blank(s[j..])
    ensures j == 0 || !IsSpace(s[j - 1])
  {
    if s != "" && IsSpace(s[|s| - 1]) {
      j := TrimRightCut(s[..|s| - 1]);
      assert s[j..] == s[..|s| - 1][j..] + [s[|s| - 1]];
    } else {
      j := |s|;
    }
  }

  /** Trim drops a blank prefix and a blank suffix, and what remains has no blank end. */
  lemma TrimMeaning(s: string) returns (i: nat, j: nat)
    ensures i <= j <= |s| && Trim(s) == s[i..j]
    ensures Blank(s[..i]) && Blank(s[j..])
    ensures Trimmed(Trim(s))
  {
    i := TrimLeftCut(s);
    var k := TrimRightCut(s[i..]);
    j := i + k;
    assert s[i..][..k] == s[i..j] && s[i..][k..] == s[j..];
  }

  /** Trimming is idempotent, and it leaves alone exactly the strings that are trimmed already. */
  lemma TrimFixedPoint(s: string)
    ensures Trimmed(Trim(s)) && Trim(Trim(s)) == Trim(s)
    ensures Trim(s) == s <==> Trimmed(s)
  {
    var _, _ := TrimMeaning(s);
  }

  /** s without a blank prefix and a blank suffix is s[i..j], and that has no blank end. */
  predicate CutAt(s: string, i: nat, j: nat) {
    && i <= j <= |s| && Blank(s[..i]) && Blank(s[j..])
    && (i < j ==> !IsSpace(s[i]) && !IsSpace(s[j - 1]))
  }

  lemma BlankEnds(s: string, i: nat, j: nat)
    requires i <= j <= |s| && Blank(s[..i]) && Blank(s[j..])
    ensures forall x :: 0 <= x < i || j <= x < |s| ==> IsSpace(s[x])
  {
    forall x | 0 <= x < i ensures IsSpace(s[x]) {
      assert s[..i][x] == s[x];
    }
    forall x | j <= x < |s| ensures IsSpace(s[x]) {
      assert s[j..][x - j] == s[x];
    }
  }

  /** There is one way to cut, and it is Trim. */
  lemma TrimExact(s: string, i: nat, j: nat)
    requires CutAt(s, i, j)
    ensures s[i..j] == Trim(s)
  {
    var k, m := TrimMeaning(s);
    BlankEnds(s, i, j);
    BlankEnds(s, k, m);
    assert k < m ==> s[k..m][0] == s[k] && s[k..m][m - k - 1] == s[m - 1];
  }

  lemma TrimCuts(s: string) returns (i: nat, j: nat)
    ensures CutAt(s, i, j) && s[i..j] == Trim(s)
  {
    i, j := TrimMeaning(s);
    assert i < j ==> s[i..j][0] == s[i] && s[i..j][j - i - 1] == s[j - 1];
  }

  /** The white space of the Unicode standard, listed. */
  lemma SpacesListed(c: char)
    ensures IsSpace(c) <==>
            c in "\t\n\U{000B}\U{000C}\r \U{0085}\U{00A0}\U{1680}\U{2000}\U{2001}\U{2002}\U{2003}\U{2004}\U{2005}" +
                 "\U{2006}\U{2007}\U{2008}\U{2009}\U{200A}\U{2028}\U{2029}\U{202F}\U{205F}\U{3000}"
  {
  }

  function Digit(d: nat): char
    requires d < 10
  {
    ('0' as int + d) as char
  }

  function Digits(n: nat): string {
    if n < 10 then [Digit(n)] else Digits(n / 10) + [Digit(n % 10)]
  }

  /** Base-ten text of any integer, as strconv.FormatInt and %d print it. */
  function Decimal(n: int): string {
    if n < 0 then "-" + Digits(-n) else Digits(n)
  }

  function ValueOf(s: string): int {
    if s == "" then 0 else 10 * ValueOf(s[..|s| - 1]) + (s[|s| - 1] as int - '0' as int)
  }

  predicate DecimalChar(c: char) {
    c == '-' || '0' <= c <= '9'
  }

  lemma {:induction false} DigitsReadBack(n: nat)
    ensures ValueOf(Digits(n)) == n
    ensures Digits(n) != "" && Digits(n)[0] != '-'
    ensures forall i :: 0 <= i < |Digits(n)| ==> DecimalChar(Digits(n)[i])
  {
    if n < 10 {
      assert Digits(n)[..0] == "";
    } else {
      DigitsReadBack(n / 10);
      assert Digits(n)[..|Digits(n)| - 1] == Digits(n / 10);
    }
  }

  lemma DecimalChars(n: int)
    ensures Decimal(n) != ""
    ensures forall i :: 0 <= i < |Decimal(n)| ==> DecimalChar(Decimal(n)[i])
  {
    DigitsReadBack(if n < 0 then -n else n);
  }

  /** Two integers with the same decimal text are equal. */
  lemma DecimalInjective(m: int, n: int)
    requires Decimal(m) == Decimal(n)
    ensures m == n
  {
    DigitsReadBack(if m < 0 then -m else m);
    DigitsReadBack(if n < 0 then -n else n);
    assert Decimal(m)[0] == Decimal(n)[0];
    if m < 0 {
      assert Decimal(m)[1..] == Digits(-m) && Decimal(n)[1..] == Digits(-n);
    }
  }
}
