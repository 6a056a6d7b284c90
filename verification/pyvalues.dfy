/** The Python values the modelled code passes around: JSON-like values,
    string-keyed records (Python dicts), `str.strip`/`str.isspace`, and the
    `str()` rendering of the values that end up inside prompts. */
module PyValues {
  import opened Wrappers

  /** A JSON-like Python value. */
  datatype Value =
    | VNone
    | VBool(b: bool)
    | VInt(i: int)
    | VFloat(f: real)
    | VStr(s: string)
    | VList(items: seq<Value>)
    | VDict(fields: map<string, Value>)

  /** A Python dict with string keys. */
  type Record = map<string, Value>

  /** `d.get(key, default)` on a dict. */
  function GetOr(d: Record, key: string, default: Value): Value {
    if key in d then d[key] else default
  }

  /** `v.get(key, default)` where `v` must be a dict: any other value has no
      `get` method and raises AttributeError, modelled as `None`. */
  function DictGet(v: Value, key: string, default: Value): Option<Value> {
    match v
    case VDict(d) => Some(GetOr(d, key, default))
    case _ => None
  }

  /** Python truthiness (`if not v`). */
  predicate Truthy(v: Value) {
    match v
    case VNone => false
    case VBool(b) => b
    case VInt(i) => i != 0
    case VFloat(f) => f != 0.0
    case VStr(s) => s != ""
    case VList(xs) => xs != []
    case VDict(d) => d != map[]
  }

  /** `float(v)`: numbers and booleans convert; every other value raises,
      modelled as `None` (numeric strings are not parsed, see README). */
  function ToFloat(v: Value): Option<real> {
    match v
    case VFloat(f) => Some(f)
    case VInt(i) => Some(i as real)
    case VBool(b) => Some(if b then 1.0 else 0.0)
    case _ => None
  }

  /** `str.isspace()` for one character: the characters Python treats as
      whitespace (ASCII controls 9-13 and 28-31, space, NEL, NBSP and the
      Unicode space separators). */
  predicate IsSpace(c: char) {
    || c == ' ' || ('\t' <= c <= '\r') || ('\U{1C}' <= c <= '\U{1F}')
    || c == '\U{85}' || c == '\U{A0}' || c == '\U{1680}'
    || ('\U{2000}' <= c <= '\U{200A}') || c == '\U{2028}' || c == '\U{2029}'
    || c == '\U{202F}' || c == '\U{205F}' || c == '\U{3000}'
  }

  /** True when `s.strip()` is empty, i.e. `not s.strip()`. */
  predicate IsBlank(s: string) {
    forall i :: 0 <= i < |s| ==> IsSpace(s[i])
  }

  /** `s.lstrip()`: the suffix left after dropping leading whitespace. */
  function TrimLeft(s: string): (r: string)
    ensures |r| <= |s| && r == s[|s| - |r|..]
    ensures IsBlank(s[..|s| - |r|])
    ensures r == [] || !IsSpace(r[0])
    decreases |s|
  {
    if |s| > 0 && IsSpace(s[0]) then
      var r := TrimLeft(s[1..]);
      var k := |s| - |r|;
      BlankPrefixStep(s, k);
      r
    else s
  }

  /** A blank first character followed by a blank stretch is a blank
      prefix. */
  lemma BlankPrefixStep(s: string, k: nat)
    requires 0 < k <= |s| && IsSpace(s[0]) && IsBlank(s[1..][..k - 1])
    ensures s[1..][k - 1..] == s[k..]
    ensures IsBlank(s[..k])
  {
    forall i | 0 <= i < k ensures IsSpace(s[..k][i]) {
      if i > 0 { assert s[..k][i] == s[1..][..k - 1][i - 1]; }
    }
  }

  /** `s.rstrip()`: the prefix left after dropping trailing whitespace. */
  function TrimRight(s: string): (r: string)
    ensures |r| <= |s| && r == s[..|r|]
    ensures IsBlank(s[|r|..])
    ensures r == [] || !IsSpace(r[|r| - 1])
    decreases |s|
  {
    if |s| > 0 && IsSpace(s[|s| - 1]) then TrimRight(s[..|s| - 1]) else s
  }

  /** `s.strip()`: drops leading and trailing whitespace. */
  function Strip(s: string): (r: string)
    ensures |r| <= |s|
    ensures r == [] || (!IsSpace(r[0]) && !IsSpace(r[|r| - 1]))
    ensures r == [] <==> IsBlank(s)
    ensures BlankTrimmedSlice(s, r)
  {
    var l := TrimLeft(s);
    BlankSplit(s, |s| - |l|);
    var r := TrimRight(l);
    MiddleSlice(s, l, r, |s| - |l|);
    BlankEndsSlice(s, r, |s| - |l|);
    r
  }

  /** `r` is a slice of `s` with only blanks before it and after it. */
  predicate BlankTrimmedSlice(s: string, r: string) {
    exists i, j :: 0 <= i <= j <= |s| && r == s[i..j] && IsBlank(s[..i]) && IsBlank(s[j..])
  }

  /** A slice with blank ends on both sides is such a slice. */
  lemma BlankEndsSlice(s: string, r: string, i: nat)
    requires i + |r| <= |s| && r == s[i..i + |r|] && IsBlank(s[..i]) && IsBlank(s[i + |r|..])
    ensures BlankTrimmedSlice(s, r)
  {
  }

  /** A prefix `r` of the suffix `l` of `s` starting at `i` is the slice
      of `s` from `i`, and what `l` has after `r` is what `s` has. */
  lemma MiddleSlice(s: string, l: string, r: string, i: nat)
    requires i <= |s| && l == s[i..] && |r| <= |l| && r == l[..|r|]
    requires IsBlank(s[..i]) && IsBlank(l[|r|..])
    ensures i + |r| <= |s| && r == s[i..i + |r|] && IsBlank(s[i + |r|..])
  {
    assert l[|r|..] == s[i + |r|..];
  }

  /** A string is blank exactly when both halves of any split are blank. */
  lemma BlankSplit(s: string, k: nat)
    requires k <= |s|
    ensures IsBlank(s) <==> IsBlank(s[..k]) && IsBlank(s[k..])
  {
    if IsBlank(s[..k]) && IsBlank(s[k..]) {
      forall i | 0 <= i < |s| ensures IsSpace(s[i]) {
        if i < k { assert s[i] == s[..k][i]; } else { assert s[i] == s[k..][i - k]; }
      }
    }
  }

  /** The decimal digits of a natural number, most significant first. */
  function NatToString(n: nat): (r: string)
    ensures |r| >= 1
    ensures forall i :: 0 <= i < |r| ==> '0' <= r[i] <= '9'
    decreases n
  {
    var d := ['0' + (n % 10) as char];
    if n < 10 then d else NatToString(n / 10) + d
  }

  /** `str(i)` for a Python int. */
  function IntToString(i: int): string {
    if i < 0 then "-" + NatToString(-i) else NatToString(i)
  }

  /** `str(v)` (equivalently an f-string field `{v}`): strings render as
      themselves, ints in decimal, `None` and booleans by name. The text of
      floats, lists and dicts is not modelled; the caller supplies it as
      `render`. */
  function Show(v: Value, render: Value -> string): string {
    match v
    case VStr(s) => s
    case VInt(i) => IntToString(i)
    case VNone => "None"
    case VBool(b) => if b then "True" else "False"
    case _ => render(v)
  }
}
