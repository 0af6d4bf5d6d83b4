/**
 * The slice of Python's object model that the wallet demos touch: values as
 * the `json` module produces them (what every HTTP reply and every result
 * dict is made of), raised exceptions as values carrying `str(e)`, dict
 * access with `.get` and `[...]`, truthiness, f-string formatting and
 * environment lookups.
 */
module PyValue {

  datatype Option<+T> = None | Some(value: T) {
    function GetOr(default: T): T {
      if Some? then value else default
    }
  }

  /** A decoded JSON value. Objects are dicts with string keys. */
  datatype Json =
    | JNull
    | JBool(b: bool)
    | JInt(i: int)
    | JStr(s: string)
    | JList(items: seq<Json>)
    | JDict(fields: map<string, Json>)

  /** The outcome of evaluating Python code: a value, or an exception whose `str` is `message`. */
  datatype Py<+T> = Ok(value: T) | Raised(message: string)

  /** `type(v).__name__` */
  function TypeName(v: Json): string {
    match v
    case JNull => "NoneType"
    case JBool(_) => "bool"
    case JInt(_) => "int"
    case JStr(_) => "str"
    case JList(_) => "list"
    case JDict(_) => "dict"
  }

  /** `bool(v)`: None, False, 0, "" and empty containers are false. */
  predicate Truthy(v: Json) {
    match v
    case JNull => false
    case JBool(b) => b
    case JInt(i) => i != 0
    case JStr(s) => s != ""
    case JList(items) => items != []
    case JDict(fields) => fields != map[]
  }

  /** `str(KeyError(key))` for a string key. */
  function KeyErrorText(key: string): string {
    "'" + key + "'"
  }

  /** `v.get(key, default)`; any value that is not a dict has no `get` attribute. */
  function Get(v: Json, key: string, default: Json): Py<Json> {
    if v.JDict? then
      Ok(if key in v.fields then v.fields[key] else default)
    else
      Raised("'" + TypeName(v) + "' object has no attribute 'get'")
  }

  /** `v.get(k1, {}).get(k2, {}) ... .get(kn, default)`, evaluated left to right. */
  function GetChain(v: Json, keys: seq<string>, default: Json): Py<Json>
    requires |keys| > 0
    decreases |keys|
  {
    if |keys| == 1 then Get(v, keys[0], default)
    else
      match Get(v, keys[0], JDict(map[]))
      case Raised(m) => Raised(m)
      case Ok(next) => GetChain(next, keys[1..], default)
  }

  /** The `TypeError` of indexing a value that has no items. */
  function NotSubscriptable(v: Json): string {
    "'" + TypeName(v) + "' object is not subscriptable"
  }

  /** `v[key]` with a string key. */
  function Subscript(v: Json, key: string): Py<Json> {
    match v
    case JDict(fields) => if key in fields then Ok(fields[key]) else Raised(KeyErrorText(key))
    case JList(_) => Raised("list indices must be integers or slices, not str")
    case JStr(_) => Raised("string indices must be integers, not 'str'")
    case _ => Raised(NotSubscriptable(v))
  }

  /** `v[0]`. */
  function First(v: Json): Py<Json> {
    match v
    case JList(items) => if items == [] then Raised("list index out of range") else Ok(items[0])
    case JStr(s) => if s == "" then Raised("string index out of range") else Ok(JStr([s[0]]))
    case JDict(_) => Raised("0")
    case _ => Raised(NotSubscriptable(v))
  }

  /**
   * The value found by following `path` through nested dicts, if every key
   * on the way is present. This is the reference reading of a `.get` chain.
   */
  function At(v: Json, path: seq<string>): Option<Json>
    decreases |path|
  {
    if path == [] then Some(v)
    else if v.JDict? && path[0] in v.fields then At(v.fields[path[0]], path[1..])
    else None
  }

  /**
   * True when no key on `path` leads to a value that is present but not a
   * dict, i.e. every `.get` in the chain is called on a dict.
   */
  ghost predicate ChainOnDicts(v: Json, path: seq<string>) {
    forall i :: 0 <= i < |path| ==> (At(v, path[..i]).Some? ==> At(v, path[..i]).value.JDict?)
  }

  lemma {:induction false} AtStep(v: Json, path: seq<string>, i: nat)
    requires 0 < |path| && i < |path| && v.JDict? && path[0] in v.fields
    ensures At(v, path[..i + 1]) == At(v.fields[path[0]], path[1..][..i])
  {
    assert path[..i + 1][0] == path[0];
    assert path[..i + 1][1..] == path[1..][..i];
  }

  /**
   * A `.get` chain raises exactly when some value on the path is present but
   * not a dict; otherwise it yields the value at the path, or the default
   * when a key on the way is missing.
   */
  lemma {:induction false} GetChainMeaning(v: Json, keys: seq<string>, default: Json)
    requires |keys| > 0
    ensures GetChain(v, keys, default).Ok? <==> ChainOnDicts(v, keys)
    ensures GetChain(v, keys, default).Ok? ==> GetChain(v, keys, default).value == At(v, keys).GetOr(default)
    decreases |keys|
  {
    assert keys[..0] == [];
    if !v.JDict? {
      assert !ChainOnDicts(v, keys) by { assert At(v, keys[..0]) == Some(v); }
    } else if |keys| == 1 {
      assert ChainOnDicts(v, keys) by {
        forall i | 0 <= i < |keys| ensures (At(v, keys[..i]).Some? ==> At(v, keys[..i]).value.JDict?) {
          assert i == 0;
        }
      }
      assert At(v, keys) == (if keys[0] in v.fields then At(v.fields[keys[0]], keys[1..]) else None);
      assert keys[1..] == [];
    } else if keys[0] !in v.fields {
      GetChainDefaults(JDict(map[]), keys[1..], default);
      assert ChainOnDicts(v, keys) by {
        forall i | 0 <= i < |keys| ensures (At(v, keys[..i]).Some? ==> At(v, keys[..i]).value.JDict?) {
          if i > 0 {
            assert keys[..i][0] == keys[0];
          }
        }
      }
    } else {
      var next := v.fields[keys[0]];
      GetChainMeaning(next, keys[1..], default);
      assert At(v, keys) == At(next, keys[1..]);
      forall i | 0 <= i < |keys| - 1 ensures At(v, keys[..i + 1]) == At(next, keys[1..][..i]) {
        AtStep(v, keys, i);
      }
      if ChainOnDicts(next, keys[1..]) {
        forall i | 0 <= i < |keys| ensures (At(v, keys[..i]).Some? ==> At(v, keys[..i]).value.JDict?) {
          if i > 0 {
            assert At(v, keys[..i]) == At(next, keys[1..][..i - 1]);
          }
        }
      } else {
        var j :| 0 <= j < |keys[1..]| && At(next, keys[1..][..j]).Some? && !At(next, keys[1..][..j]).value.JDict?;
        assert At(v, keys[..j + 1]) == At(next, keys[1..][..j]);
      }
    }
  }

  /** A chain of `.get` calls on the empty dict always ends at the default. */
  lemma {:induction false} GetChainDefaults(v: Json, keys: seq<string>, default: Json)
    requires |keys| > 0 && v == JDict(map[])
    ensures GetChain(v, keys, default) == Ok(default)
    decreases |keys|
  {
    if |keys| > 1 {
      GetChainDefaults(v, keys[1..], default);
    }
  }

  /** Decimal digits of a non-negative integer, as `str(n)` prints them. */
  function NatToString(n: nat): (s: string)
    ensures |s| > 0
    ensures forall k :: 0 <= k < |s| ==> '0' <= s[k] <= '9'
    decreases n
  {
    if n < 10 then [(48 + n) as char]
    else NatToString(n / 10) + [(48 + n % 10) as char]
  }

  /** `str(i)` for an integer. */
  function IntToString(i: int): string {
    if i < 0 then "-" + NatToString(-i) else NatToString(i)
  }

  /**
   * `f"{v}"`: strings appear as they are, `None`, booleans and integers as
   * Python prints them; for lists and dicts `pyStr` gives Python's `str`,
   * whose text this model does not spell out.
   */
  function Format(v: Json, pyStr: Json -> string): string {
    match v
    case JStr(s) => s
    case JNull => "None"
    case JBool(b) => if b then "True" else "False"
    case JInt(i) => IntToString(i)
    case _ => pyStr(v)
  }

  /** `int(v)` of an int or a bool, as `==` compares them (`True == 1`). */
  function NumericValue(v: Json): int
    requires v.JBool? || v.JInt?
  {
    if v.JBool? then (if v.b then 1 else 0) else v.i
  }

  /**
   * Python's `a == b` on decoded values: booleans compare equal to the
   * integers 0 and 1, and containers compare element by element.
   */
  predicate PyEq(a: Json, b: Json)
    decreases a
  {
    if (a.JBool? || a.JInt?) && (b.JBool? || b.JInt?) then NumericValue(a) == NumericValue(b)
    else match a
      case JNull => b.JNull?
      case JStr(s) => b.JStr? && b.s == s
      case JList(xs) => b.JList? && |xs| == |b.items| && forall k :: 0 <= k < |xs| ==> PyEq(xs[k], b.items[k])
      case JDict(m) => b.JDict? && m.Keys == b.fields.Keys && forall k :: k in m ==> PyEq(m[k], b.fields[k])
      case _ => false
  }

  /** Comparing with a string is plain string equality. */
  lemma {:induction false} PyEqString(a: Json, s: string)
    ensures PyEq(a, JStr(s)) <==> a == JStr(s)
  {
  }

  /** The characters `str.strip()` removes in this model: ASCII whitespace and the separators 0x1c to 0x1f. */
  predicate IsSpace(c: char) {
    c == ' ' || (9 <= c as int <= 13) || (28 <= c as int <= 31)
  }

  predicate IsDigit(c: char) {
    '0' <= c <= '9'
  }

  /** The value of a non-empty string of decimal digits, most significant first; `None` otherwise. */
  function DigitsValue(s: string): (r: Option<nat>)
    ensures r.Some? ==> s != [] && IsDigit(s[0]) && IsDigit(s[|s| - 1])
    decreases |s|
  {
    if s == [] || !IsDigit(s[|s| - 1]) then None
    else
      var digit := s[|s| - 1] as int - '0' as int;
      if |s| == 1 then Some(digit)
      else
        match DigitsValue(s[..|s| - 1])
        case None => None
        case Some(v) => Some(v * 10 + digit)
  }

  /** `s.lstrip()` */
  function TrimStart(s: string): (t: string)
    ensures |t| <= |s| && t == s[|s| - |t|..]
    ensures t != [] ==> !IsSpace(t[0])
    decreases |s|
  {
    if s != [] && IsSpace(s[0]) then TrimStart(s[1..]) else s
  }

  /** `s.rstrip()` */
  function TrimEnd(s: string): (t: string)
    ensures |t| <= |s| && t == s[..|t|]
    ensures t != [] ==> !IsSpace(t[|t| - 1])
    decreases |s|
  {
    if s != [] && IsSpace(s[|s| - 1]) then TrimEnd(s[..|s| - 1]) else s
  }

  /** The digits after an optional sign, as `int` reads them. */
  function SignedValue(t: string): Option<int> {
    if t != [] && (t[0] == '-' || t[0] == '+') then
      match DigitsValue(t[1..])
      case None => None
      case Some(v) =>
        var magnitude: int := v;
        Some(if t[0] == '-' then -magnitude else magnitude)
    else
      match DigitsValue(t)
      case None => None
      case Some(v) => Some(v)
  }

  /**
   * `int(s)` on a string: surrounding whitespace, an optional sign, then
   * decimal digits; `None` where Python raises `ValueError`.
   */
  function ParseInt(s: string): Option<int> {
    SignedValue(TrimEnd(TrimStart(s)))
  }

  lemma {:induction false} DigitsOfNat(n: nat)
    ensures DigitsValue(NatToString(n)) == Some(n)
    decreases n
  {
    var s := NatToString(n);
    if n >= 10 {
      DigitsOfNat(n / 10);
      assert s[..|s| - 1] == NatToString(n / 10);
    }
  }

  /** A string with no whitespace at either end is left as it is by `strip`. */
  lemma {:induction false} Untrimmed(s: string)
    requires s != [] && !IsSpace(s[0]) && !IsSpace(s[|s| - 1])
    ensures TrimEnd(TrimStart(s)) == s
  {
    assert TrimStart(s) == s;
  }

  /** `int` reads a digit string as its value. */
  lemma {:induction false} ParseDigits(digits: string, n: nat)
    requires DigitsValue(digits) == Some(n)
    ensures ParseInt(digits) == Some(n)
  {
    Untrimmed(digits);
    assert SignedValue(digits) == Some(n);
  }

  lemma {:induction false} SignedMinus(t: string, n: nat)
    requires t != [] && t[0] == '-' && DigitsValue(t[1..]) == Some(n)
    ensures SignedValue(t) == Some(-(n as int))
  {
  }

  /** `int` reads a minus sign before a digit string as the negated value. */
  lemma {:induction false} ParseNegative(digits: string, n: nat)
    requires DigitsValue(digits) == Some(n)
    ensures ParseInt("-" + digits) == Some(-(n as int))
  {
    var t := "-" + digits;
    assert t[0] == '-' && t[1..] == digits && t[|t| - 1] == digits[|digits| - 1];
    Untrimmed(t);
    SignedMinus(t, n);
  }

  /** `int(str(i)) == i`: reading back a printed integer gives the integer. */
  lemma {:induction false} ParseIntOfIntToString(i: int)
    ensures ParseInt(IntToString(i)) == Some(i)
  {
    if i < 0 {
      DigitsOfNat(-i);
      ParseNegative(NatToString(-i), -i);
    } else {
      DigitsOfNat(i);
      ParseDigits(NatToString(i), i);
    }
  }

  /** `{"status": status, "message": message}`, the shape of the demos' own error results. */
  function StatusMessage(status: string, message: string): Json {
    JDict(map["status" := JStr(status), "message" := JStr(message)])
  }

  /** `os.getenv(name)` over the process environment. */
  function GetEnv(env: map<string, string>, name: string): Option<string> {
    if name in env then Some(env[name]) else None
  }

  /** Truthiness of an optional string: neither None nor empty. */
  predicate IsSet(v: Option<string>) {
    v.Some? && v.value != ""
  }

  /** Python's `a or b` on optional strings. */
  function Or(a: Option<string>, b: Option<string>): (r: Option<string>)
    ensures IsSet(r) <==> IsSet(a) || IsSet(b)
    ensures IsSet(a) ==> r == a
    ensures !IsSet(a) ==> r == b
  {
    if IsSet(a) then a else b
  }
}
