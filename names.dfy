/** The display names of the people: the `trim` applied to what was typed, the
    default names `Person 1`, `Person 2`, … (`sanitizeNames`), and the name
    list that setting the number of people produces (`updatePeople`). */
module Names {

  /** The characters that JavaScript's `String.prototype.trim` strips: the
      ECMAScript WhiteSpace and LineTerminator code points. */
  predicate IsWhitespace(c: char)
    ensures 0x20 <= c as int < 0x7F ==> (IsWhitespace(c) <==> c == ' ')
  {
    var k := c as int;
    k == 0x09 || k == 0x0A || k == 0x0B || k == 0x0C || k == 0x0D || k == 0x20 || k == 0xA0
    || k == 0x1680 || (0x2000 <= k <= 0x200A) || k == 0x2028 || k == 0x2029 || k == 0x202F
    || k == 0x205F || k == 0x3000 || k == 0xFEFF
  }

  /** Neither end of `s` is whitespace. */
  predicate IsTrimmed(s: string)
  {
    s == [] || (!IsWhitespace(s[0]) && !IsWhitespace(s[|s| - 1]))
  }

  /** `s` without its leading whitespace: a suffix of `s` whose dropped part
      is all whitespace and which does not itself start with whitespace. */
  function TrimStart(s: string): (r: string)
    ensures |r| <= |s| && r == s[|s| - |r|..]
    ensures forall j :: 0 <= j < |s| - |r| ==> IsWhitespace(s[j])
    ensures r == [] || !IsWhitespace(r[0])
  {
    if s != [] && IsWhitespace(s[0]) then TrimStart(s[1..]) else s
  }

  /** `s` without its trailing whitespace: a prefix of `s` whose dropped part
      is all whitespace and which does not itself end with whitespace. */
  function TrimEnd(s: string): (r: string)
    ensures |r| <= |s| && r == s[..|r|]
    ensures forall j :: |r| <= j < |s| ==> IsWhitespace(s[j])
    ensures r == [] || !IsWhitespace(r[|r| - 1])
  {
    if s != [] && IsWhitespace(s[|s| - 1]) then TrimEnd(s[..|s| - 1]) else s
  }

  /** `name.trim()`: both ends stripped; empty exactly when `s` is all whitespace. */
  function Trim(s: string): (r: string)
    ensures IsTrimmed(r)
    ensures |r| <= |s|
    ensures r == [] <==> forall j :: 0 <= j < |s| ==> IsWhitespace(s[j])
  {
    TrimEnd(TrimStart(s))
  }

  /** The character of a decimal digit. */
  function DigitChar(d: nat): (c: char)
    requires d < 10
    ensures '0' <= c <= '9'
  {
    ('0' as int + d) as char
  }

  /** The value of a digit character; other characters count as zero. */
  function DigitValue(c: char): nat
  {
    if '0' <= c <= '9' then c as int - '0' as int else 0
  }

  /** The number a string of decimal digits denotes, read left to right. */
  function DecimalValue(s: string): nat
  {
    if s == [] then 0 else 10 * DecimalValue(s[..|s| - 1]) + DigitValue(s[|s| - 1])
  }

  /** The decimal rendering of `n` that a template literal `${n}` produces:
      digits only, denoting `n`, with no leading zero unless `n` is zero. */
  function NatToString(n: nat): (r: string)
    ensures |r| > 0
    ensures forall j :: 0 <= j < |r| ==> '0' <= r[j] <= '9'
    ensures DecimalValue(r) == n
    ensures r[0] == '0' ==> n == 0
  {
    if n < 10 then [DigitChar(n)]
    else
      var prefix := NatToString(n / 10);
      assert (prefix + [DigitChar(n % 10)])[..|prefix|] == prefix;
      prefix + [DigitChar(n % 10)]
  }

  /** `Person ${i + 1}`: the name shown for person `i` when none is given. */
  function DefaultName(i: nat): (r: string)
    ensures |r| > 7 && IsTrimmed(r)
    ensures r[..7] == "Person "
  {
    "Person " + NatToString(i + 1)
  }

  /** The name shown for person `i`: never empty and never padded; the
      default name when `name` is all whitespace (or empty), the trimmed name
      otherwise. */
  function SanitizeName(name: string, i: nat): (r: string)
    ensures r != [] && IsTrimmed(r)
    ensures (forall j :: 0 <= j < |name| ==> IsWhitespace(name[j])) ==> r == DefaultName(i)
    ensures (exists j :: 0 <= j < |name| && !IsWhitespace(name[j])) ==> r == Trim(name)
  {
    var t := Trim(name);
    if t != [] then t else DefaultName(i)
  }

  /** `sanitizeNames`: one display name per entry, never empty and never
      padded with whitespace. */
  function SanitizeNames(names: seq<string>): (r: seq<string>)
    ensures |r| == |names|
    ensures forall i :: 0 <= i < |r| ==> r[i] != [] && IsTrimmed(r[i])
    ensures forall i :: 0 <= i < |r| && Trim(names[i]) != [] ==> r[i] == Trim(names[i])
    ensures forall i :: 0 <= i < |r| && Trim(names[i]) == [] ==> r[i] == DefaultName(i)
  {
    seq(|names|, i requires 0 <= i < |names| => SanitizeName(names[i], i))
  }

  /** The names `updatePeople(count)` installs: `Person 1`, …, `Person count`. */
  function DefaultNames(count: nat): (r: seq<string>)
    ensures |r| == count
    ensures forall i :: 0 <= i < count ==> r[i] == DefaultName(i)
  {
    seq(count, i requires 0 <= i < count => DefaultName(i))
  }

  /** Trimming a name that has no whitespace at either end leaves it alone. */
  lemma TrimOfTrimmed(s: string)
    requires IsTrimmed(s)
    ensures Trim(s) == s
  {
    assert TrimStart(s) == s;
  }

  /** Sanitising is idempotent: the displayed names are a fixed point. */
  lemma SanitizeIdempotent(names: seq<string>)
    ensures SanitizeNames(SanitizeNames(names)) == SanitizeNames(names)
  {
    var once := SanitizeNames(names);
    forall i | 0 <= i < |once| ensures SanitizeNames(once)[i] == once[i] {
      TrimOfTrimmed(once[i]);
    }
  }

  /** The names set by `updatePeople` survive sanitising unchanged. */
  lemma SanitizeDefaultNames(count: nat)
    ensures SanitizeNames(DefaultNames(count)) == DefaultNames(count)
  {
    var names := DefaultNames(count);
    forall i | 0 <= i < count ensures SanitizeNames(names)[i] == names[i] {
      TrimOfTrimmed(names[i]);
    }
  }

  /** `updatePeople` gives every person a different name. */
  lemma DefaultNamesDistinct(count: nat, i: nat, j: nat)
    requires i < count && j < count && i != j
    ensures DefaultNames(count)[i] != DefaultNames(count)[j]
  {
    assert DefaultName(i)[7..] == NatToString(i + 1);
    assert DefaultName(j)[7..] == NatToString(j + 1);
  }
}
