/** Helpers shared by the whole model: optional values, error outcomes,
    identifiers, and the few string operations the source relies on. */
module Common {

  /** A value that may be absent (C# null, JavaScript undefined). */
  datatype Option<T> = None | Some(value: T)

  /** The result of an operation that may throw: `Err` carries the message. */
  datatype Outcome<T> = Ok(value: T) | Err(message: string)

  /** GUIDs are modelled as natural numbers; 0 plays the part of Guid.Empty. */
  type Guid = nat
  const EmptyGuid: Guid := 0

  /** The upper-case ASCII letters. */
  predicate IsAsciiUpper(c: char) { 'A' <= c <= 'Z' }

  /** The lower-case ASCII letters. */
  predicate IsAsciiLower(c: char) { 'a' <= c <= 'z' }

  /** The ASCII digits. */
  predicate IsAsciiDigit(c: char) { '0' <= c <= '9' }

  /** toLowerCase()/ToLower() on one character, for the ASCII range. */
  function LowerChar(c: char): (r: char)
    ensures IsAsciiUpper(c) ==> IsAsciiLower(r) && r as int == c as int + 32
    ensures !IsAsciiUpper(c) ==> r == c
  {
    if IsAsciiUpper(c) then (c as int + 32) as char else c
  }

  /** toLowerCase()/ToLower() on a string, character by character. */
  function Lower(s: string): (r: string)
    ensures |r| == |s|
    ensures forall i :: 0 <= i < |s| ==> r[i] == LowerChar(s[i])
  {
    if s == [] then [] else [LowerChar(s[0])] + Lower(s[1..])
  }

  /** Ordinal substring test (String.Contains, String.prototype.includes). */
  predicate Contains(hay: string, needle: string)
    decreases |hay|
  {
    if |needle| <= |hay| && hay[..|needle|] == needle then true
    else if hay == [] then false
    else Contains(hay[1..], needle)
  }

  /** Char.IsWhiteSpace of .NET: the Unicode White_Space characters. */
  predicate IsDotNetWhiteSpace(c: char)
  {
    var n := c as int;
    || (0x09 <= n <= 0x0D) || n == 0x20 || n == 0x85 || n == 0xA0
    || n == 0x1680 || (0x2000 <= n <= 0x200A) || n == 0x2028 || n == 0x2029
    || n == 0x202F || n == 0x205F || n == 0x3000
  }

  /** string.IsNullOrWhiteSpace for a present string. */
  predicate IsBlank(s: string)
  {
    forall i :: 0 <= i < |s| ==> IsDotNetWhiteSpace(s[i])
  }

  /** String.Trim(): white space removed at both ends. */
  function Trim(s: string): (r: string)
    ensures |r| <= |s|
    decreases |s|
  {
    if s != [] && IsDotNetWhiteSpace(s[0]) then Trim(s[1..])
    else if s != [] && IsDotNetWhiteSpace(s[|s| - 1]) then Trim(s[..|s| - 1])
    else s
  }

  /** The trimmed string is the run s[i..j] with only white space around it. */
  lemma {:induction false} TrimSlice(s: string) returns (i: nat, j: nat)
    ensures i <= j <= |s| && Trim(s) == s[i..j]
    ensures IsBlank(s[..i]) && IsBlank(s[j..])
    decreases |s|
  {
    if s != [] && IsDotNetWhiteSpace(s[0]) {
      var t := s[1..];
      var i', j' := TrimSlice(t);
      i, j := i' + 1, j' + 1;
      assert Trim(s) == s[i..j] by {
        assert t[i'..j'] == s[i..j];
      }
      assert IsBlank(s[..i]) by {
        assert s[..i] == [s[0]] + t[..i'];
        BlankConcat([s[0]], t[..i']);
      }
      assert IsBlank(s[j..]) by {
        assert s[j..] == t[j'..];
      }
    } else if s != [] && IsDotNetWhiteSpace(s[|s| - 1]) {
      var t := s[..|s| - 1];
      i, j := TrimSlice(t);
      assert Trim(s) == s[i..j] by {
        assert t[i..j] == s[i..j];
      }
      assert IsBlank(s[..i]) by {
        assert s[..i] == t[..i];
      }
      assert IsBlank(s[j..]) by {
        assert s[j..] == t[j..] + [s[|s| - 1]];
        BlankConcat(t[j..], [s[|s| - 1]]);
      }
    } else {
      i, j := 0, |s|;
      assert s[..0] == [] && s[|s|..] == [];
    }
  }

  /** White space followed by white space is white space. */
  lemma BlankConcat(a: string, b: string)
    requires IsBlank(a) && IsBlank(b)
    ensures IsBlank(a + b)
  {
    assert forall k :: 0 <= k < |a + b| ==> (a + b)[k] == if k < |a| then a[k] else b[k - |a|];
  }

  /** The trimmed string neither starts nor ends with white space. */
  lemma {:induction false} TrimEnds(s: string)
    ensures Trim(s) == [] || (!IsDotNetWhiteSpace(Trim(s)[0]) && !IsDotNetWhiteSpace(Trim(s)[|Trim(s)| - 1]))
    decreases |s|
  {
    if s != [] && IsDotNetWhiteSpace(s[0]) {
      TrimEnds(s[1..]);
    } else if s != [] && IsDotNetWhiteSpace(s[|s| - 1]) {
      TrimEnds(s[..|s| - 1]);
    }
  }

  /** Trimming a trimmed string changes nothing. */
  lemma TrimIdempotent(s: string)
    ensures Trim(Trim(s)) == Trim(s)
  {
    TrimEnds(s);
  }

  /** Ordinal string order (StringComparer.Ordinal): a sorts strictly before
      b, comparing code units by number and a proper
      prefix first. */
  predicate OrdinalLess(a: string, b: string)
  {
    if a == [] then b != []
    else if b == [] then false
    else if a[0] != b[0] then a[0] as int < b[0] as int
    else OrdinalLess(a[1..], b[1..])
  }

  lemma {:induction false} OrdinalIrreflexive(a: string)
    ensures !OrdinalLess(a, a)
  {
    if a != [] {
      OrdinalIrreflexive(a[1..]);
    }
  }

  lemma {:induction false} OrdinalAsymmetric(a: string, b: string)
    requires OrdinalLess(a, b)
    ensures !OrdinalLess(b, a)
  {
    if a != [] && b != [] && a[0] == b[0] {
      OrdinalAsymmetric(a[1..], b[1..]);
    }
  }

  lemma {:induction false} OrdinalTotal(a: string, b: string)
    requires a != b
    ensures OrdinalLess(a, b) || OrdinalLess(b, a)
  {
    if a != [] && b != [] && a[0] == b[0] {
      assert a == [a[0]] + a[1..] && b == [b[0]] + b[1..];
      OrdinalTotal(a[1..], b[1..]);
    }
  }

  lemma {:induction false} OrdinalTransitive(a: string, b: string, c: string)
    requires OrdinalLess(a, b) && OrdinalLess(b, c)
    ensures OrdinalLess(a, c)
  {
    if a != [] && b != [] && c != [] && a[0] == b[0] && b[0] == c[0] {
      OrdinalTransitive(a[1..], b[1..], c[1..]);
    }
  }

  /** The cost of q units at the given unit price. */
  function Cost(price: int, q: int): int
  {
    price * q
  }
}
