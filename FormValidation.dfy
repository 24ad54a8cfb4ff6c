/**
 * The string tests the registration and login forms apply
 * (client/pages/Register.tsx and client/pages/Login.tsx): JavaScript's
 * `trim`, the e-mail pattern `^[^\s@]+@[^\s@]+\.[^\s@]+$`, the phone test
 * `^[0-9-]{10,12}$` on the value with every '-' deleted, and the
 * case-sensitive `includes` the error handlers use.
 */
module FormValidation {
  import Seqs

  /** The characters `\s` matches and `trim` removes: the ECMAScript white
      space and line terminator characters. */
  predicate IsSpace(c: char)
  {
    var n := c as int;
    (0x09 <= n <= 0x0D) || n == 0x20 || n == 0xA0 || n == 0x1680 ||
    (0x2000 <= n <= 0x200A) || n == 0x2028 || n == 0x2029 || n == 0x202F ||
    n == 0x205F || n == 0x3000 || n == 0xFEFF
  }

  function TrimStart(s: string): (r: string)
    ensures r == [] || !IsSpace(r[0])
  {
    if s != [] && IsSpace(s[0]) then TrimStart(s[1..]) else s
  }

  function TrimEnd(s: string): (r: string)
    ensures r == [] || !IsSpace(r[|r| - 1])
  {
    if s != [] && IsSpace(s[|s| - 1]) then TrimEnd(s[..|s| - 1]) else s
  }

  /** `s.trim()`. */
  function Trim(s: string): string
  {
    TrimEnd(TrimStart(s))
  }

  /** How many white-space characters `s` starts with. */
  function LeadingSpaces(s: string): (n: nat)
    ensures n <= |s|
  {
    if s != [] && IsSpace(s[0]) then 1 + LeadingSpaces(s[1..]) else 0
  }

  /** How many white-space characters `s` ends with. */
  function TrailingSpaces(s: string): (n: nat)
    ensures n <= |s|
  {
    if s != [] && IsSpace(s[|s| - 1]) then 1 + TrailingSpaces(s[..|s| - 1]) else 0
  }

  lemma {:induction false} TrimStartDrops(s: string)
    ensures TrimStart(s) == s[LeadingSpaces(s)..]
    ensures forall k :: 0 <= k < LeadingSpaces(s) ==> IsSpace(s[k])
  {
    if s != [] && IsSpace(s[0]) {
      var t := s[1..];
      TrimStartDrops(t);
      assert t[LeadingSpaces(t)..] == s[LeadingSpaces(s)..];
      forall k | 1 <= k < LeadingSpaces(s) ensures IsSpace(s[k]) {
        assert s[k] == t[k - 1];
      }
    }
  }

  lemma {:induction false} TrimEndDrops(s: string)
    ensures TrimEnd(s) == s[..|s| - TrailingSpaces(s)]
    ensures forall k :: |s| - TrailingSpaces(s) <= k < |s| ==> IsSpace(s[k])
  {
    if s != [] && IsSpace(s[|s| - 1]) {
      var t := s[..|s| - 1];
      TrimEndDrops(t);
      assert t[..|t| - TrailingSpaces(t)] == s[..|s| - TrailingSpaces(s)];
      forall k | |s| - TrailingSpaces(s) <= k < |s| - 1 ensures IsSpace(s[k]) {
        assert s[k] == t[k];
      }
    }
  }

  /** `trim` removes exactly a run of leading and a run of trailing white
      space: the result is a slice of the input with only white space outside
      it, and it neither starts nor ends with white space. */
  lemma TrimSpec(s: string)
    ensures exists i, j ::
      && 0 <= i <= j <= |s| && Trim(s) == s[i..j]
      && (forall k :: 0 <= k < i ==> IsSpace(s[k]))
      && (forall k :: j <= k < |s| ==> IsSpace(s[k]))
    ensures Trim(s) == [] || (!IsSpace(Trim(s)[0]) && !IsSpace(Trim(s)[|Trim(s)| - 1]))
  {
    TrimStartDrops(s);
    var i := LeadingSpaces(s);
    var t := s[i..];
    TrimEndDrops(t);
    var j := i + |t| - TrailingSpaces(t);
    assert t[..|t| - TrailingSpaces(t)] == s[i..j];
    forall k | j <= k < |s| ensures IsSpace(s[k]) {
      assert s[k] == t[k - i];
    }
    if Trim(s) != [] {
      assert Trim(s)[0] == TrimStart(s)[0];
    }
  }

  /** `!s.trim()`: a value is blank iff it consists of white space only. */
  lemma BlankIffAllSpace(s: string)
    ensures Trim(s) == [] <==> forall k :: 0 <= k < |s| ==> IsSpace(s[k])
  {
    TrimSpec(s);
    var i, j :| 0 <= i <= j <= |s| && Trim(s) == s[i..j] &&
      (forall k :: 0 <= k < i ==> IsSpace(s[k])) && (forall k :: j <= k < |s| ==> IsSpace(s[k]));
    if Trim(s) != [] {
      assert s[i] == Trim(s)[0];
    }
  }

  // ----- the e-mail pattern -----

  /** A character `[^\s@]` matches. */
  predicate Plain(c: char)
  {
    !IsSpace(c) && c != '@'
  }

  /** A non-empty run of characters `[^\s@]+` matches. */
  predicate PlainRun(x: string)
  {
    x != [] && forall k :: 0 <= k < |x| ==> Plain(x[k])
  }

  ghost predicate EmailParts(s: string, a: string, b: string, c: string)
  {
    s == a + "@" + b + "." + c && PlainRun(a) && PlainRun(b) && PlainRun(c)
  }

  /** `^[^\s@]+@[^\s@]+\.[^\s@]+$` read as a grammar: three runs of plain
      characters joined by '@' and '.'. */
  ghost predicate EmailPattern(s: string)
  {
    exists a: string, b: string, c: string :: EmailParts(s, a, b, c)
  }

  /** The e-mail test as a direct check: no white space, exactly one '@', which
      is not first, and after it a '.' with text on both sides. */
  predicate EmailFormat(s: string)
  {
    (forall i :: 0 <= i < |s| ==> !IsSpace(s[i])) &&
    exists k :: 0 < k < |s| && s[k] == '@' &&
      (forall i :: 0 <= i < |s| && i != k ==> s[i] != '@') &&
      (exists j :: k + 1 < j < |s| - 1 && s[j] == '.')
  }

  lemma SplitAround(s: string, k: nat, j: nat)
    requires k < j < |s|
    ensures s == s[..k] + [s[k]] + s[k + 1..j] + [s[j]] + s[j + 1..]
  {
  }

  lemma EmailPatternFromFormat(s: string)
    requires EmailFormat(s)
    ensures EmailPattern(s)
  {
    var k :| 0 < k < |s| && s[k] == '@' &&
      (forall i :: 0 <= i < |s| && i != k ==> s[i] != '@') &&
      (exists j :: k + 1 < j < |s| - 1 && s[j] == '.');
    var j :| k + 1 < j < |s| - 1 && s[j] == '.';
    var a, b, c := s[..k], s[k + 1..j], s[j + 1..];
    SplitAround(s, k, j);
    assert [s[k]] == "@" && [s[j]] == ".";
    assert PlainRun(a) by {
      assert forall m :: 0 <= m < |a| ==> a[m] == s[m];
    }
    assert PlainRun(b) by {
      assert forall m :: 0 <= m < |b| ==> b[m] == s[k + 1 + m];
    }
    assert PlainRun(c) by {
      assert forall m :: 0 <= m < |c| ==> c[m] == s[j + 1 + m];
    }
    assert EmailParts(s, a, b, c);
  }

  lemma EmailFormatFromPattern(s: string)
    requires EmailPattern(s)
    ensures EmailFormat(s)
  {
    var a: string, b: string, c: string :| EmailParts(s, a, b, c);
    var k := |a|;
    var j := |a| + 1 + |b|;
    assert s[..k] == a;
    assert s[k + 1..j] == b;
    assert s[j + 1..] == c;
    assert s[k] == '@' && s[j] == '.';
    forall i | 0 <= i < |s| ensures !IsSpace(s[i]) && (i != k ==> s[i] != '@') {
      if i < k {
        assert s[i] == s[..k][i];
      } else if k < i < j {
        assert s[i] == s[k + 1..j][i - k - 1];
      } else if j < i {
        assert s[i] == s[j + 1..][i - j - 1];
      }
    }
  }

  /** The direct e-mail check accepts exactly the strings the pattern matches. */
  lemma EmailFormatIsPattern(s: string)
    ensures EmailFormat(s) <==> EmailPattern(s)
  {
    if EmailFormat(s) { EmailPatternFromFormat(s); }
    if EmailPattern(s) { EmailFormatFromPattern(s); }
  }

  // ----- the phone test -----

  predicate IsDigit(c: char) { '0' <= c <= '9' }

  predicate NotDash(c: char) { c != '-' }

  /** `s.replace(/-/g, "")`. */
  function RemoveDashes(s: string): string
  {
    Seqs.Filter(s, NotDash)
  }

  /** `/^[0-9-]{10,12}$/.test(RemoveDashes(s))`. */
  predicate PhoneFormat(s: string)
  {
    var d := RemoveDashes(s);
    10 <= |d| <= 12 && forall i :: 0 <= i < |d| ==> IsDigit(d[i]) || d[i] == '-'
  }

  /** Deleting the dashes leaves only digits iff the value holds only digits and dashes. */
  lemma DigitsAndDashes(s: string)
    ensures (forall i :: 0 <= i < |RemoveDashes(s)| ==> IsDigit(RemoveDashes(s)[i]))
       <==> (forall i :: 0 <= i < |s| ==> IsDigit(s[i]) || s[i] == '-')
  {
    var d := RemoveDashes(s);
    if forall i :: 0 <= i < |d| ==> IsDigit(d[i]) {
      forall i | 0 <= i < |s| && s[i] != '-' ensures IsDigit(s[i]) {
        Seqs.FilterMembership(s, NotDash, s[i]);
      }
    }
    if forall i :: 0 <= i < |s| ==> IsDigit(s[i]) || s[i] == '-' {
      forall i | 0 <= i < |d| ensures IsDigit(d[i]) {
        Seqs.FilterMembership(s, NotDash, d[i]);
      }
    }
  }

  /** The phone test accepts a value iff, with every '-' deleted, 10 to 12
      characters remain and all of them are digits; equivalently, iff the value
      holds only digits and dashes and 10 to 12 digits. */
  lemma PhoneFormatSpec(s: string)
    ensures PhoneFormat(s) <==>
      10 <= |RemoveDashes(s)| <= 12 && forall i :: 0 <= i < |RemoveDashes(s)| ==> IsDigit(RemoveDashes(s)[i])
    ensures PhoneFormat(s) <==>
      (forall i :: 0 <= i < |s| ==> IsDigit(s[i]) || s[i] == '-') && 10 <= |Seqs.Filter(s, IsDigit)| <= 12
  {
    var d := RemoveDashes(s);
    forall i | 0 <= i < |d| ensures d[i] != '-' {
      assert d[i] in d;
    }
    DigitsAndDashes(s);
    if forall i :: 0 <= i < |s| ==> IsDigit(s[i]) || s[i] == '-' {
      Seqs.FilterAgree(s, NotDash, IsDigit);
    }
  }

  /** A value holding white space anywhere fails both format tests. */
  lemma SpaceFailsFormats(s: string, k: nat)
    requires k < |s| && IsSpace(s[k])
    ensures !EmailFormat(s) && !PhoneFormat(s)
  {
    Seqs.FilterMembership(s, NotDash, s[k]);
  }

  // ----- includes -----

  /** `s.includes(sub)`: case-sensitive substring test, scanning start positions left to right. */
  predicate Contains(s: string, sub: string)
  {
    |sub| <= |s| && (s[..|sub|] == sub || Contains(s[1..], sub))
  }

  /** `sub` sits in `s` starting at index i. */
  predicate OccursAt(s: string, sub: string, i: int)
  {
    0 <= i <= |s| - |sub| && s[i..i + |sub|] == sub
  }

  /** `includes` holds iff `sub` sits at some position of `s`. */
  lemma {:induction false} ContainsAt(s: string, sub: string)
    ensures Contains(s, sub) <==> exists i :: OccursAt(s, sub, i)
  {
    if |sub| <= |s| {
      if s[..|sub|] == sub {
        assert OccursAt(s, sub, 0);
      } else {
        ContainsAt(s[1..], sub);
        forall i | OccursAt(s, sub, i) ensures OccursAt(s[1..], sub, i - 1) {
          assert i != 0;
          assert s[1..][i - 1..i - 1 + |sub|] == s[i..i + |sub|];
        }
        forall i | OccursAt(s[1..], sub, i) ensures OccursAt(s, sub, i + 1) {
          assert s[1..][i..i + |sub|] == s[i + 1..i + 1 + |sub|];
        }
      }
    }
  }

  /** A string lacking one of the characters of `sub` does not include it. */
  lemma {:induction false} MissingCharNotContained(s: string, sub: string, c: char)
    requires c in sub && c !in s
    ensures !Contains(s, sub)
  {
    if |sub| <= |s| {
      var m :| 0 <= m < |sub| && sub[m] == c;
      assert s[..|sub|][m] == s[m];
      MissingCharNotContained(s[1..], sub, c);
    }
  }

  lemma PrefixContained(s: string, sub: string, rest: string)
    requires s == sub + rest
    ensures Contains(s, sub)
  {
    assert s[..|sub|] == sub;
  }
}
