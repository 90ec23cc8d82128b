/**
 * Small building blocks shared by the dashboard's rules: optional values and
 * results (JavaScript's `undefined` and thrown errors), validation issues as
 * the schema library reports them, and the few string operations the
 * components call (`String.prototype.trim`, `startsWith`, decimal rendering
 * of a number inside a template literal).
 */
module Common {

  datatype Option<+T> = None | Some(value: T)

  /** A computation that either yields a value or throws an error with a message. */
  datatype Result<+T> = Ok(value: T) | Err(message: string)

  /** One validation issue: the field it is attached to and its message. */
  datatype Issue<F> = Issue(path: F, message: string)

  /** The message shown under field `f`: the first issue attached to it, if any. */
  function FirstError<F(==)>(issues: seq<Issue<F>>, f: F): (r: Option<string>)
    ensures r.None? <==> forall i :: 0 <= i < |issues| ==> issues[i].path != f
    ensures r.Some? ==> Issue(f, r.value) in issues
    ensures forall i :: FirstOn(issues, f, i) ==> r == Some(issues[i].message)
  {
    if issues == [] then None
    else if issues[0].path == f then Some(issues[0].message)
    else
      var r := FirstError(issues[1..], f);
      assert forall i :: FirstOn(issues, f, i) ==> r == Some(issues[i].message) by {
        forall i | FirstOn(issues, f, i) ensures r == Some(issues[i].message) {
          assert FirstOn(issues[1..], f, i - 1);
        }
      }
      r
  }

  /** Issue `i` is on field `f` and no earlier issue is. */
  ghost predicate FirstOn<F>(issues: seq<Issue<F>>, f: F, i: int)
  {
    0 <= i < |issues| && issues[i].path == f && forall j :: 0 <= j < i ==> issues[j].path != f
  }

  /**
   * The message a field shows for two lists of issues reported one after the
   * other: the first list's, unless it has none on that field.
   */
  lemma {:induction false} FirstErrorConcat<F>(a: seq<Issue<F>>, b: seq<Issue<F>>, f: F)
    ensures FirstError(a + b, f) == if FirstError(a, f).Some? then FirstError(a, f) else FirstError(b, f)
  {
    if a == [] {
      assert a + b == b;
    } else {
      assert (a + b)[1..] == a[1..] + b;
      FirstErrorConcat(a[1..], b, f);
    }
  }

  /** Every issue of `issues` is on field `f`. */
  predicate AllOn<F(==)>(issues: seq<Issue<F>>, f: F)
  {
    forall i :: 0 <= i < |issues| ==> issues[i].path == f
  }

  /**
   * When the last issue is the only one on field `f`, it is the one shown
   * there: a refinement checked after every field check wins on its field
   * when no field check failed on it.
   */
  lemma FirstErrorIsLast<F>(issues: seq<Issue<F>>, f: F)
    requires issues != [] && issues[|issues| - 1].path == f
    requires forall i :: 0 <= i < |issues| - 1 ==> issues[i].path != f
    ensures FirstError(issues, f) == Some(issues[|issues| - 1].message)
  {
    assert FirstOn(issues, f, |issues| - 1);
  }

  /** `Some(message)` when `ok` fails, as one schema check does. */
  function Check<F>(ok: bool, path: F, message: string): (r: seq<Issue<F>>)
    ensures r == [] <==> ok
  {
    if ok then [] else [Issue(path, message)]
  }

  // ---------------------------------------------------------------------
  // Strings

  /**
   * The characters `String.prototype.trim` removes: the ECMAScript
   * WhiteSpace code points (tab, vertical tab, form feed, space, no-break
   * space, byte-order mark and the Unicode space separators) and the line
   * terminators.
   */
  predicate IsJsWhitespace(c: char)
  {
    || c == '\t' || c == '\U{000B}' || c == '\U{000C}' || c == ' '
    || c == '\U{00A0}' || c == '\U{FEFF}'
    || c == '\n' || c == '\r' || c == '\U{2028}' || c == '\U{2029}'
    || c == '\U{1680}' || ('\U{2000}' <= c <= '\U{200A}')
    || c == '\U{202F}' || c == '\U{205F}' || c == '\U{3000}'
  }

  predicate AllWhitespace(s: string)
  {
    forall i :: 0 <= i < |s| ==> IsJsWhitespace(s[i])
  }

  /** Drops the leading whitespace of `s`. */
  function TrimStart(s: string): (r: string)
    ensures |r| <= |s| && r == s[|s| - |r|..]
    ensures AllWhitespace(s[..|s| - |r|])
    ensures r != [] ==> !IsJsWhitespace(r[0])
  {
    if s != [] && IsJsWhitespace(s[0]) then
      var r := TrimStart(s[1..]);
      assert s[..|s| - |r|] == [s[0]] + s[1..][..|s| - 1 - |r|];
      r
    else s
  }

  /** Drops the trailing whitespace of `s`. */
  function TrimEnd(s: string): (r: string)
    ensures |r| <= |s| && r == s[..|r|]
    ensures AllWhitespace(s[|r|..])
    ensures r != [] ==> !IsJsWhitespace(r[|r| - 1])
  {
    if s != [] && IsJsWhitespace(s[|s| - 1]) then
      var r := TrimEnd(s[..|s| - 1]);
      assert s[|r|..] == s[..|s| - 1][|r|..] + [s[|s| - 1]];
      r
    else s
  }

  /** `s.trim()`: both ends stripped of whitespace. */
  function Trim(s: string): string
  {
    TrimEnd(TrimStart(s))
  }

  /** A string is blank after trimming exactly when all its characters are whitespace. */
  lemma TrimBlankIff(s: string)
    ensures Trim(s) == "" <==> AllWhitespace(s)
  {
    var t := TrimStart(s);
    if Trim(s) == "" {
      assert t == [];
      assert s[..|s| - |t|] == s;
    } else {
      var r := Trim(s);
      assert !IsJsWhitespace(r[0]);
      assert r[0] == t[0];
      assert t[0] == s[|s| - |t|];
    }
  }

  /** JavaScript's `s.startsWith(p)`: `p` is a raw prefix of `s`. */
  predicate StartsWith(s: string, p: string)
  {
    |p| <= |s| && s[..|p|] == p
  }

  /** When one string starts with two prefixes, the shorter is a prefix of the longer. */
  lemma PrefixesNest(s: string, p: string, q: string)
    requires StartsWith(s, p) && StartsWith(s, q) && |p| <= |q|
    ensures StartsWith(q, p)
  {
    assert q[..|p|] == s[..|q|][..|p|] == s[..|p|];
  }

  /**
   * The decimal rendering of a natural number, as `${n}` prints it: digits
   * only, read back as `n`, with no leading zero.
   */
  function NatToString(n: nat): (r: string)
    ensures r != []
    ensures forall i :: 0 <= i < |r| ==> '0' <= r[i] <= '9'
    ensures DecimalValue(r) == n
    ensures r[0] == '0' ==> n == 0
  {
    if n < 10 then
      assert DecimalValue([DigitChar(n)]) == DecimalValue([]) * 10 + n;
      [DigitChar(n)]
    else
      var r := NatToString(n / 10) + [DigitChar(n % 10)];
      assert r[..|r| - 1] == NatToString(n / 10);
      r
  }

  /** The number a string of decimal digits denotes, read left to right. */
  function DecimalValue(s: string): int
  {
    if s == [] then 0 else DecimalValue(s[..|s| - 1]) * 10 + (s[|s| - 1] as int - '0' as int)
  }

  function DigitChar(d: nat): (c: char)
    requires d < 10
    ensures '0' <= c <= '9'
    ensures c as int - '0' as int == d
  {
    ('0' as int + d) as char
  }

  /** Distinct numbers print differently: each rendering reads back as its number. */
  lemma NatToStringInjective(m: nat, n: nat)
    requires NatToString(m) == NatToString(n)
    ensures m == n
  {
    assert m == DecimalValue(NatToString(m)) == DecimalValue(NatToString(n)) == n;
  }
}
