/** The string operations the server applies to user input:
    `String.prototype.trim` and `String.prototype.toLowerCase`. */
module Text {

  /** The white-space characters `trim` removes that this model knows of. */
  predicate IsSpace(c: char) {
    c == ' ' || c == '\t' || c == '\n' || c == '\r' || c == '\U{000B}' || c == '\U{000C}'
    || c == '\U{00A0}' || c == '\U{FEFF}'
  }

  /** Every character of `s` is white space (vacuously true of ""). */
  predicate AllSpace(s: string) {
    forall k :: 0 <= k < |s| ==> IsSpace(s[k])
  }

  /** `s` with its leading white space removed. */
  function TrimStart(s: string): (r: string)
    ensures |r| <= |s| && r == s[|s| - |r|..]
    ensures AllSpace(s[..|s| - |r|])
    ensures r != [] ==> !IsSpace(r[0])
  {
    if s != [] && IsSpace(s[0]) then TrimStart(s[1..]) else s
  }

  /** `s` with its trailing white space removed. */
  function TrimEnd(s: string): (r: string)
    ensures |r| <= |s| && r == s[..|r|]
    ensures AllSpace(s[|r|..])
    ensures r != [] ==> !IsSpace(r[|r| - 1])
  {
    if s != [] && IsSpace(s[|s| - 1]) then TrimEnd(s[..|s| - 1]) else s
  }

  /** `s.trim()`: the slice of `s` between its leading and its trailing white space. */
  function Trim(s: string): (r: string)
    ensures exists i, j :: 0 <= i <= j <= |s| && r == s[i..j] && AllSpace(s[..i]) && AllSpace(s[j..])
    ensures r != [] ==> !IsSpace(r[0]) && !IsSpace(r[|r| - 1])
  {
    var a := TrimStart(s);
    var r := TrimEnd(a);
    var i := |s| - |a|;
    assert s[i..][..|r|] == s[i..i + |r|];
    assert s[i..][|r|..] == s[i + |r|..];
    r
  }

  /** `s.trim() === ""` exactly when `s` consists of white space only. */
  lemma {:induction false} TrimEmptyIffAllSpace(s: string)
    ensures Trim(s) == "" <==> AllSpace(s)
  {
    var r := Trim(s);
    var i, j :| 0 <= i <= j <= |s| && r == s[i..j] && AllSpace(s[..i]) && AllSpace(s[j..]);
    if r != "" {
      assert r[0] == s[i] && !IsSpace(s[i]);
      assert !AllSpace(s);
    } else {
      assert i == j;
      forall k | 0 <= k < |s| ensures IsSpace(s[k]) {
        if k < i { assert s[..i][k] == s[k]; } else { assert s[j..][k - j] == s[k]; }
      }
    }
  }

  /** Trimming an already trimmed string changes nothing. */
  lemma {:induction false} TrimIdempotent(s: string)
    ensures Trim(Trim(s)) == Trim(s)
  {
    var t := Trim(s);
    var i, j :| 0 <= i <= j <= |t| && Trim(t) == t[i..j] && AllSpace(t[..i]) && AllSpace(t[j..]);
    if t != [] {
      if i > 0 { assert t[..i][0] == t[0]; }
      if j < |t| { assert t[j..][|t| - 1 - j] == t[|t| - 1]; }
    }
  }

  predicate IsUpper(c: char) {
    'A' <= c <= 'Z'
  }

  /** `toLowerCase` of one character, for the ASCII letters. */
  function LowerChar(c: char): (d: char)
    ensures !IsUpper(d)
    ensures IsUpper(c) ==> d as int == c as int + 32
    ensures !IsUpper(c) ==> d == c
  {
    if IsUpper(c) then (c as int + 32) as char else c
  }

  /** `s.toLowerCase()`: every upper-case ASCII letter replaced by its lower-case
      letter, every other character kept, the length unchanged. */
  function ToLower(s: string): (r: string)
    ensures |r| == |s|
    ensures forall k :: 0 <= k < |s| ==> !IsUpper(r[k])
    ensures forall k :: 0 <= k < |s| && IsUpper(s[k]) ==> r[k] as int == s[k] as int + 32
    ensures forall k :: 0 <= k < |s| && !IsUpper(s[k]) ==> r[k] == s[k]
  {
    seq(|s|, k requires 0 <= k < |s| => LowerChar(s[k]))
  }

  /** Lower-casing twice is lower-casing once. */
  lemma ToLowerIdempotent(s: string)
    ensures ToLower(ToLower(s)) == ToLower(s)
  {
  }

  /** What the schema's `lowercase: true, trim: true` setters store for `s`:
      the lower-cased input with only its leading and trailing white space cut. */
  function Canonical(s: string): (r: string)
    ensures exists i, j :: 0 <= i <= j <= |s| && r == ToLower(s)[i..j]
                           && AllSpace(ToLower(s)[..i]) && AllSpace(ToLower(s)[j..])
    ensures forall k :: 0 <= k < |r| ==> !IsUpper(r[k])
    ensures r != [] ==> !IsSpace(r[0]) && !IsSpace(r[|r| - 1])
  {
    Trim(ToLower(s))
  }

  /** Lower-casing neither makes nor removes white space. */
  lemma ToLowerKeepsSpace(s: string)
    ensures AllSpace(ToLower(s)) <==> AllSpace(s)
  {
    var r := ToLower(s);
    forall k | 0 <= k < |s| ensures IsSpace(r[k]) <==> IsSpace(s[k]) {
      if IsUpper(s[k]) {
        assert 'a' as int <= r[k] as int <= 'z' as int;
      }
    }
  }

  /** The setters store "" exactly for a value that trims to "". */
  lemma CanonicalEmptyIffTrimEmpty(s: string)
    ensures Canonical(s) == "" <==> Trim(s) == ""
  {
    TrimEmptyIffAllSpace(s);
    TrimEmptyIffAllSpace(ToLower(s));
    ToLowerKeepsSpace(s);
  }

  /** The registration handler lower-cases the user name before the schema's own
      setters run; doing so does not change what is stored. */
  lemma CanonicalOfLower(s: string)
    ensures Canonical(ToLower(s)) == Canonical(s)
  {
    ToLowerIdempotent(s);
  }
}
