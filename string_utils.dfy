/**
 * The `String` helpers of the identity-pool operations: masking for logs, redaction, and the
 * two character-pattern checks used when validating a plugin key and version.
 */
module StringUtils {
  import opened Wrappers

  /** `Int.max` on a 64-bit platform: the default `interiorCount` of `masked`. */
  const IntMax: int := 0x7FFF_FFFF_FFFF_FFFF

  const MaskCharacter: char := '*'

  function Min(a: int, b: int): int {
    if a <= b then a else b
  }

  /** `String(repeating: c, count: n)`. */
  function Repeat(c: char, n: nat): (r: string)
    ensures |r| == n && forall i :: 0 <= i < n ==> r[i] == c
  {
    if n == 0 then [] else [c] + Repeat(c, n - 1)
  }

  /**
   * `masked(using:interiorCount:retainingCount:)`.  Swift traps on a negative repeat count or
   * prefix length, so the retained count is never negative, and neither is the interior count
   * when the mask is built from it.
   */
  function Masked(s: string, character: char := MaskCharacter, interiorCount: int := IntMax,
                  retainingCount: int := 2): (r: string)
    requires retainingCount >= 0
    requires |s| >= retainingCount * 2 ==> interiorCount >= 0
    ensures |r| <= |s|
  {
    if |s| < retainingCount * 2 then Repeat(character, |s|)
    else
      var maskSize := Min(|s| - retainingCount * 2, interiorCount);
      s[..retainingCount] + Repeat(character, maskSize) + s[|s| - retainingCount..]
  }

  /** A string shorter than twice the retained count is masked completely. */
  lemma MaskedShort(s: string, character: char, interiorCount: int, retainingCount: int)
    requires retainingCount >= 0 && |s| < retainingCount * 2
    ensures var r := Masked(s, character, interiorCount, retainingCount);
            |r| == |s| && forall i :: 0 <= i < |r| ==> r[i] == character
  {
  }

  /**
   * Otherwise the first and last `retainingCount` characters are kept, and between them stand
   * `min(count - 2 * retainingCount, interiorCount)` mask characters.
   */
  lemma MaskedLong(s: string, character: char, interiorCount: int, retainingCount: int)
    requires retainingCount >= 0 && interiorCount >= 0 && |s| >= retainingCount * 2
    ensures var r := Masked(s, character, interiorCount, retainingCount);
            var maskSize := Min(|s| - retainingCount * 2, interiorCount);
            && |r| == retainingCount * 2 + maskSize
            && r[..retainingCount] == s[..retainingCount]
            && r[|r| - retainingCount..] == s[|s| - retainingCount..]
            && forall i :: retainingCount <= i < retainingCount + maskSize ==> r[i] == character
  {
    var r := Masked(s, character, interiorCount, retainingCount);
    var maskSize := Min(|s| - retainingCount * 2, interiorCount);
    var mask := Repeat(character, maskSize);
    assert r == s[..retainingCount] + mask + s[|s| - retainingCount..];
    assert r[..retainingCount] == s[..retainingCount];
    assert r[|r| - retainingCount..] == s[|s| - retainingCount..];
    forall i | retainingCount <= i < retainingCount + maskSize
      ensures r[i] == character
    {
      assert r[i] == mask[i - retainingCount];
    }
  }

  /** With the default interior count the mask replaces the interior one for one. */
  lemma MaskedDefaultKeepsLength(s: string, character: char, retainingCount: int)
    requires retainingCount >= 0 && |s| <= IntMax
    ensures |Masked(s, character, IntMax, retainingCount)| == |s|
  {
  }

  /** A string of exactly twice the retained count has no interior: it comes back unchanged. */
  lemma MaskedWithoutInterior(s: string, character: char, interiorCount: int, retainingCount: int)
    requires retainingCount >= 0 && interiorCount >= 0 && |s| == retainingCount * 2
    ensures Masked(s, character, interiorCount, retainingCount) == s
  {
    assert s[..retainingCount] + s[|s| - retainingCount..] == s;
  }

  /** An interior count of zero drops the interior instead of masking it. */
  lemma MaskedZeroInterior(s: string, character: char, retainingCount: int)
    requires retainingCount >= 0 && |s| >= retainingCount * 2
    ensures Masked(s, character, 0, retainingCount) == s[..retainingCount] + s[|s| - retainingCount..]
  {
  }

  /** With every default, a four-character string is left as it is. */
  lemma MaskedFourCharacters(s: string)
    requires |s| == 4
    ensures Masked(s) == s
  {
    MaskedWithoutInterior(s, MaskCharacter, IntMax, 2);
  }

  /** The form used for credentials in logs (`interiorCount: 5`) is at most nine characters long. */
  lemma MaskedSecretBounded(s: string)
    ensures |Masked(s, MaskCharacter, 5, 2)| <= 9
    ensures |s| >= 4 ==> |Masked(s, MaskCharacter, 5, 2)| == 4 + Min(|s| - 4, 5)
  {
  }

  /** `t` occurs in `s` as a contiguous run of characters. */
  predicate Contains(s: string, t: string) {
    exists i :: 0 <= i <= |s| && t <= s[i..]
  }

  /** So a secret longer than nine characters never appears in its masked form. */
  lemma MaskedSecretHidesLongValues(s: string)
    requires |s| > 9
    ensures !Contains(Masked(s, MaskCharacter, 5, 2), s)
  {
    MaskedSecretBounded(s);
  }

  /** `masked` on `String?`: `nil` shows as "(nil)". */
  function MaskedOptional(o: Option<string>, character: char := MaskCharacter, interiorCount: int := IntMax,
                          retainingCount: int := 2): (r: string)
    requires retainingCount >= 0
    requires o.Some? && |o.value| >= retainingCount * 2 ==> interiorCount >= 0
    ensures o.None? ==> r == "(nil)"
    ensures o.Some? ==> r == Masked(o.value, character, interiorCount, retainingCount)
  {
    match o
    case None => "(nil)"
    case Some(value) => Masked(value, character, interiorCount, retainingCount)
  }

  /** `redacted()`: the value is never shown. */
  function Redacted(s: string): (r: string)
    ensures r == "<REDACTED>"
  {
    "<REDACTED>"
  }

  /** `redacted()` on `String?`. */
  function RedactedOptional(o: Option<string>): (r: string)
    ensures r == if o.None? then "(nil)" else "<REDACTED>"
  {
    match o
    case None => "(nil)"
    case Some(value) => Redacted(value)
  }

  /** Membership in `CharacterSet.alphanumerics`, restricted here to ASCII letters and digits. */
  predicate IsAlphanumericCharacter(c: char) {
    ('a' <= c <= 'z') || ('A' <= c <= 'Z') || ('0' <= c <= '9')
  }

  /**
   * `rangeOfCharacter(from: CharacterSet.alphanumerics.inverted)`: the position of the first
   * character that is not alphanumeric, if there is one.
   */
  function FirstNonAlphanumeric(s: string): (r: Option<nat>)
    ensures r.Some? ==> r.value < |s| && !IsAlphanumericCharacter(s[r.value])
    ensures r.Some? ==> forall i :: 0 <= i < r.value ==> IsAlphanumericCharacter(s[i])
    ensures r.None? ==> forall i :: 0 <= i < |s| ==> IsAlphanumericCharacter(s[i])
  {
    if s == [] then None
    else if !IsAlphanumericCharacter(s[0]) then Some(0)
    else match FirstNonAlphanumeric(s[1..])
      case None => None
      case Some(k) => Some(k + 1)
  }

  /** `isAlphaNumeric()`: non-empty, and made of alphanumeric characters only. */
  function IsAlphaNumeric(s: string): (r: bool)
    ensures r <==> |s| > 0 && forall i :: 0 <= i < |s| ==> IsAlphanumericCharacter(s[i])
  {
    FirstNonAlphanumeric(s).None? && s != ""
  }

  /** The `\d` of the version pattern, restricted here to ASCII digits. */
  predicate IsDigit(c: char) {
    '0' <= c <= '9'
  }

  /** The length of the run of digits at the start of `s`. */
  function DigitRun(s: string): (n: nat)
    ensures n <= |s|
    ensures forall i :: 0 <= i < n ==> IsDigit(s[i])
    ensures n < |s| ==> !IsDigit(s[n])
  {
    if s == [] || !IsDigit(s[0]) then 0 else 1 + DigitRun(s[1..])
  }

  /** The length of the match of `(0|[1-9]\d*)` at the start of `s`; 0 when it does not match. */
  function NumberPrefix(s: string): nat {
    if s == [] then 0
    else if s[0] == '0' then 1
    else if '1' <= s[0] <= '9' then 1 + DigitRun(s[1..])
    else 0
  }

  /**
   * `followsSemanticVersioning()`: the whole string matches
   * `^(0|[1-9]\d*)\.(0|[1-9]\d*)\.(0|[1-9]\d*)?$`.  Each number group is followed by a dot or by
   * the end of the string, neither of which is a digit, so its match is the one `NumberPrefix` finds.
   */
  function FollowsSemanticVersioning(s: string): (r: bool)
    ensures r ==> |s| >= 4 && IsDigit(s[0]) && '.' in s
  {
    var a := NumberPrefix(s);
    if a == 0 || a >= |s| || s[a] != '.' then false
    else
      var t := s[a + 1..];
      var b := NumberPrefix(t);
      if b == 0 || b >= |t| || t[b] != '.' then false
      else
        var u := t[b + 1..];
        u == [] || NumberPrefix(u) == |u|
  }

  /** A decimal number without leading zeros: what one group of the pattern stands for. */
  predicate IsNumeral(t: string) {
    t == "0" || (|t| >= 1 && '1' <= t[0] <= '9' && forall i :: 1 <= i < |t| ==> IsDigit(t[i]))
  }

  /** The pattern read as a grammar: numeral, dot, numeral, dot, optional numeral. */
  ghost predicate SemanticVersionShape(s: string) {
    exists i, j :: 0 < i < j < |s| && s[i] == '.' && s[j] == '.' && IsNumeral(s[..i])
      && IsNumeral(s[i + 1..j]) && (j + 1 == |s| || IsNumeral(s[j + 1..]))
  }

  /** A numeral ends where `NumberPrefix` says once a non-digit (or the end) follows it. */
  lemma NumberPrefixFindsNumeral(s: string, k: nat)
    requires 0 < k <= |s| && (k == |s| || !IsDigit(s[k]))
    ensures IsNumeral(s[..k]) <==> NumberPrefix(s) == k
  {
    if s[0] == '0' {
      if k > 1 {
        assert !IsNumeral(s[..k]);
      }
    } else if '1' <= s[0] <= '9' {
      var n := DigitRun(s[1..]);
      if IsNumeral(s[..k]) {
        assert forall i :: 0 <= i < k - 1 ==> IsDigit(s[1..][i]) by {
          forall i | 0 <= i < k - 1 ensures IsDigit(s[1..][i]) {
            assert s[1..][i] == s[..k][i + 1];
          }
        }
        assert n >= k - 1;
        assert n <= k - 1;
      }
    }
  }

  /** `NumberPrefix` only ever reports a numeral. */
  lemma NumberPrefixIsNumeral(s: string)
    requires NumberPrefix(s) > 0
    ensures NumberPrefix(s) <= |s| && IsNumeral(s[..NumberPrefix(s)])
  {
    var k := NumberPrefix(s);
    if s[0] != '0' {
      forall i | 1 <= i < k ensures IsDigit(s[..k][i]) {
        assert s[..k][i] == s[1..][i - 1];
      }
    }
  }

  /** Two dots at `i` and `j` with numerals around them witness the shape. */
  lemma ShapeAt(s: string, i: nat, j: nat)
    requires 0 < i < j < |s| && s[i] == '.' && s[j] == '.' && IsNumeral(s[..i])
    requires IsNumeral(s[i + 1..j]) && (j + 1 == |s| || IsNumeral(s[j + 1..]))
    ensures SemanticVersionShape(s)
  {
  }

  /** The pieces the recogniser found, put back together, have the shape of the grammar. */
  lemma PiecesHaveShape(s: string, a: nat, b: nat)
    requires 0 < a < |s| && s[a] == '.' && NumberPrefix(s) == a
    requires 0 < b < |s[a + 1..]| && s[a + 1..][b] == '.' && NumberPrefix(s[a + 1..]) == b
    requires var u := s[a + 1..][b + 1..]; u == [] || NumberPrefix(u) == |u|
    ensures SemanticVersionShape(s)
  {
    var t := s[a + 1..];
    var u := t[b + 1..];
    var i, j := a, a + 1 + b;
    assert IsNumeral(s[..i]) by { NumberPrefixIsNumeral(s); }
    assert IsNumeral(s[i + 1..j]) by {
      NumberPrefixIsNumeral(t);
      assert s[i + 1..j] == t[..b];
    }
    assert s[j] == '.' by { assert s[j] == t[b]; }
    assert j + 1 == |s| || IsNumeral(s[j + 1..]) by {
      assert s[j + 1..] == u;
      if u != [] {
        NumberPrefixIsNumeral(u);
        assert u[..|u|] == u;
      }
    }
    ShapeAt(s, i, j);
  }

  /** Whatever the recogniser accepts has the shape of the grammar. */
  lemma FollowsSemanticVersioningSound(s: string)
    requires FollowsSemanticVersioning(s)
    ensures SemanticVersionShape(s)
  {
    PiecesHaveShape(s, NumberPrefix(s), NumberPrefix(s[NumberPrefix(s) + 1..]));
  }

  /** Every string of the grammar is accepted. */
  lemma FollowsSemanticVersioningComplete(s: string, i: nat, j: nat)
    requires 0 < i < j < |s| && s[i] == '.' && s[j] == '.' && IsNumeral(s[..i])
    requires IsNumeral(s[i + 1..j]) && (j + 1 == |s| || IsNumeral(s[j + 1..]))
    ensures FollowsSemanticVersioning(s)
  {
    NumberPrefixFindsNumeral(s, i);
    var t := s[i + 1..];
    assert t[..j - i - 1] == s[i + 1..j];
    assert t[j - i - 1] == '.';
    NumberPrefixFindsNumeral(t, j - i - 1);
    var u := t[j - i..];
    assert u == s[j + 1..];
    if u != [] {
      assert u[..|u|] == u;
      NumberPrefixFindsNumeral(u, |u|);
    }
  }

  /** The recogniser accepts exactly the strings of the grammar. */
  lemma FollowsSemanticVersioningMeaning(s: string)
    ensures FollowsSemanticVersioning(s) <==> SemanticVersionShape(s)
  {
    if FollowsSemanticVersioning(s) {
      FollowsSemanticVersioningSound(s);
    }
    if SemanticVersionShape(s) {
      var i, j :| 0 < i < j < |s| && s[i] == '.' && s[j] == '.' && IsNumeral(s[..i])
        && IsNumeral(s[i + 1..j]) && (j + 1 == |s| || IsNumeral(s[j + 1..]));
      FollowsSemanticVersioningComplete(s, i, j);
    }
  }

  /** The pattern's third group is optional, so a version may end in its second dot. */
  lemma SemanticVersioningAccepts()
    ensures FollowsSemanticVersioning("1.0.0")
    ensures FollowsSemanticVersioning("1.0.")
    ensures FollowsSemanticVersioning("10.20.30")
  {
    assert NumberPrefix("1.0.0") == 1;
    assert NumberPrefix("0.0") == 1;
    assert NumberPrefix("0") == 1;
    assert NumberPrefix("1.0.") == 1;
    assert NumberPrefix("0.") == 1;
    assert DigitRun(".20.30") == 0;
    assert NumberPrefix("10.20.30") == 2;
    assert DigitRun(".30") == 0;
    assert NumberPrefix("20.30") == 2;
    assert DigitRun("") == 0;
    assert NumberPrefix("30") == 2;
  }

  lemma SemanticVersioningRejects()
    ensures !FollowsSemanticVersioning("1-2-3")
    ensures !FollowsSemanticVersioning("01.0.0")
    ensures !FollowsSemanticVersioning("pluginVersion")
    ensures !FollowsSemanticVersioning("1.0")
  {
    assert DigitRun("-2-3") == 0;
    assert NumberPrefix("1-2-3") == 1;
    assert NumberPrefix("01.0.0") == 1;
    assert NumberPrefix("pluginVersion") == 0;
    assert DigitRun(".0") == 0;
    assert NumberPrefix("1.0") == 1;
    assert NumberPrefix("0") == 1;
  }
}
