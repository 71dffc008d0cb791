/** The JavaScript values the CLI handles (parsed JSON, flag values, request
    bodies), JavaScript's truthiness and String() conversion, plain objects as
    ordered key/value lists, and the string operations the source uses
    (padEnd, repeat, join, startsWith, toLowerCase). */
module Js {
  import opened Wrappers

  /** A JavaScript value. Numbers are integers: the model has no floating point. */
  datatype Value =
    | Undefined
    | Null
    | Bool(b: bool)
    | Num(n: int)
    | Str(s: string)
    | Arr(items: seq<Value>)
    | Obj(fields: seq<(string, Value)>)

  /** The own enumerable properties of a plain object, in enumeration order. */
  type Fields = seq<(string, Value)>

  /** JavaScript truthiness: undefined, null, false, 0 and "" are falsy. */
  predicate Truthy(v: Value)
    ensures Truthy(v) <==> v !in {Undefined, Null, Bool(false), Num(0), Str("")}
  {
    match v
    case Undefined | Null => false
    case Bool(b) => b
    case Num(n) => n != 0
    case Str(s) => s != ""
    case Arr(_) | Obj(_) => true
  }

  /** An optional string flag or variable counts as given when it is truthy:
      supplied and not the empty string. */
  predicate Present(o: Option<string>) {
    o.Some? && o.value != ""
  }

  function Keys(fs: Fields): set<string> {
    if fs == [] then {} else {fs[0].0} + Keys(fs[1..])
  }

  /** No key occurs twice, as in every JavaScript object. */
  predicate UniqueKeys(fs: Fields) {
    fs == [] || (fs[0].0 !in Keys(fs[1..]) && UniqueKeys(fs[1..]))
  }

  /** The value stored under key k, if k is a key. */
  function Lookup(fs: Fields, k: string): (r: Option<Value>)
    ensures r.Some? <==> k in Keys(fs)
  {
    if fs == [] then None
    else if fs[0].0 == k then Some(fs[0].1)
    else Lookup(fs[1..], k)
  }

  /** Property access v[k]: undefined for a missing key and for anything that
      is not a plain object. */
  function Member(v: Value, k: string): Value {
    if v.Obj? then Lookup(v.fields, k).GetOr(Undefined) else Undefined
  }

  /** The assignment obj[k] = v: overwrite the key in place, or append it. */
  function Assign(fs: Fields, k: string, v: Value): (r: Fields)
    ensures Keys(r) == Keys(fs) + {k}
    ensures Lookup(r, k) == Some(v)
    ensures forall j :: j != k ==> Lookup(r, j) == Lookup(fs, j)
    ensures UniqueKeys(fs) ==> UniqueKeys(r)
  {
    if fs == [] then [(k, v)]
    else if fs[0].0 == k then [(k, v)] + fs[1..]
    else [fs[0]] + Assign(fs[1..], k, v)
  }

  lemma {:induction false} KeysAppend(a: Fields, b: Fields)
    ensures Keys(a + b) == Keys(a) + Keys(b)
  {
    if a == [] {
      assert a + b == b;
    } else {
      assert (a + b)[1..] == a[1..] + b;
      KeysAppend(a[1..], b);
    }
  }

  /** In a concatenation the first list's entries shadow the second's. */
  lemma {:induction false} LookupAppend(a: Fields, b: Fields, k: string)
    ensures Lookup(a + b, k) == if k in Keys(a) then Lookup(a, k) else Lookup(b, k)
  {
    if a == [] {
      assert a + b == b;
    } else {
      assert (a + b)[1..] == a[1..] + b;
      LookupAppend(a[1..], b, k);
    }
  }

  /** Two objects with disjoint keys concatenate to an object. */
  lemma {:induction false} UniqueAppend(a: Fields, b: Fields)
    requires UniqueKeys(a) && UniqueKeys(b) && Keys(a) !! Keys(b)
    ensures UniqueKeys(a + b)
  {
    if a == [] {
      assert a + b == b;
    } else {
      assert (a + b)[1..] == a[1..] + b;
      KeysAppend(a[1..], b);
      UniqueAppend(a[1..], b);
    }
  }

  /** In an object every entry is what a lookup of its key finds. */
  lemma {:induction false} LookupEntry(fs: Fields, k: string, v: Value)
    requires UniqueKeys(fs) && (k, v) in fs
    ensures Lookup(fs, k) == Some(v)
  {
    if fs[0] != (k, v) {
      if fs[0].0 == k {
        KeyOfEntry(fs[1..], k, v);
      }
      LookupEntry(fs[1..], k, v);
    }
  }

  lemma {:induction false} KeyOfEntry(fs: Fields, k: string, v: Value)
    requires (k, v) in fs
    ensures k in Keys(fs)
  {
    if fs[0] != (k, v) {
      KeyOfEntry(fs[1..], k, v);
    }
  }

  /** Assigning a key the object does not have appends it at the end. */
  lemma {:induction false} AssignFresh(fs: Fields, k: string, v: Value)
    requires k !in Keys(fs)
    ensures Assign(fs, k, v) == fs + [(k, v)]
  {
    if fs != [] {
      AssignFresh(fs[1..], k, v);
    }
  }

  // ---------------------------------------------------------------------
  // Strings

  function Repeat(c: char, n: nat): (r: string)
    ensures |r| == n
    ensures forall i :: 0 <= i < n ==> r[i] == c
  {
    seq(n, _ => c)
  }

  /** String.prototype.padEnd with spaces: never shortens its argument. */
  function PadEnd(s: string, n: int): (r: string)
    ensures |r| == if |s| < n then n else |s|
    ensures r[..|s|] == s
    ensures forall i :: |s| <= i < |r| ==> r[i] == ' '
  {
    if |s| < n then s + Repeat(' ', n - |s|) else s
  }

  /** Array.prototype.join. */
  function Join(sep: string, parts: seq<string>): string {
    if |parts| == 0 then ""
    else if |parts| == 1 then parts[0]
    else parts[0] + sep + Join(sep, parts[1..])
  }

  function TotalLength(parts: seq<string>): nat {
    if parts == [] then 0 else |parts[0]| + TotalLength(parts[1..])
  }

  /** A joined string is as long as its parts plus one separator between each pair. */
  lemma {:induction false} JoinLength(sep: string, parts: seq<string>)
    requires |parts| >= 1
    ensures |Join(sep, parts)| == TotalLength(parts) + (|parts| - 1) * |sep|
  {
    if |parts| > 1 {
      JoinLength(sep, parts[1..]);
    }
  }

  predicate StartsWith(s: string, prefix: string) {
    |prefix| <= |s| && s[..|prefix|] == prefix
  }

  function LowerChar(c: char): char {
    if 'A' <= c <= 'Z' then (c as int + 32) as char else c
  }

  /** String.prototype.toLowerCase on ASCII letters. */
  function LowerAscii(s: string): (r: string)
    ensures |r| == |s|
    ensures forall i :: 0 <= i < |s| ==> r[i] == LowerChar(s[i])
  {
    seq(|s|, i requires 0 <= i < |s| => LowerChar(s[i]))
  }

  predicate IsDigit(c: char) {
    '0' <= c <= '9'
  }

  function NatToString(n: nat): (r: string)
    ensures |r| >= 1
    ensures forall i :: 0 <= i < |r| ==> IsDigit(r[i])
  {
    var d := ["0123456789"[n % 10]];
    if n < 10 then d else NatToString(n / 10) + d
  }

  /** String(n) for an integer number. */
  function IntToString(n: int): (r: string)
    ensures r != ""
  {
    if n < 0 then "-" + NatToString(-n) else NatToString(n)
  }

  /** String(v): the conversion `new Error(v)` applies to a non-string message. */
  function JsString(v: Value): (r: string)
    ensures v.Str? ==> r == v.s
    ensures !v.Str? && !v.Arr? ==> r != ""
    ensures v == Arr([]) ==> r == ""
  {
    match v
    case Undefined => "undefined"
    case Null => "null"
    case Bool(b) => if b then "true" else "false"
    case Num(n) => IntToString(n)
    case Str(s) => s
    case Arr(items) =>
      // Array.prototype.toString joins with "," and shows null and undefined as ""
      Join(",", seq(|items|, i requires 0 <= i < |items| =>
        if items[i].Null? || items[i].Undefined? then "" else JsString(items[i])))
    case Obj(_) => "[object Object]"
  }
}
