/** Decoded Graph API responses: the value `json_decode($body, true)` yields,
    where JSON objects become string-keyed PHP arrays. A response is the
    member list of its top-level object. */
module JsonValue {
  import opened Maybe
  import opened Strings
  import opened Assoc

  datatype Json =
    | JNull
    | JBool(b: bool)
    | JNum(n: int)
    | JStr(s: string)
    | JList(items: seq<Json>)
    | JObj(members: seq<(string, Json)>)

  type Members = seq<(string, Json)>

  /** `$v[k]` for a string key `k`: only objects have string keys. */
  function Member(v: Json, k: string): Option<Json> {
    if v.JObj? then Get(v.members, k) else None
  }

  /** `$m[k1][k2]…`: the value at the end of `path`, if every step exists. */
  function Lookup(m: Members, path: seq<string>): Option<Json>
    decreases |path|
  {
    if |path| == 0 then Some(JObj(m))
    else match Get(m, path[0])
      case None => None
      case Some(v) =>
        if |path| == 1 then Some(v)
        else if v.JObj? then Lookup(v.members, path[1..])
        else None
  }

  /** `isset($m[k1][k2]…)`: the path exists and does not end in null. */
  predicate Isset(m: Members, path: seq<string>) {
    Lookup(m, path).Some? && !Lookup(m, path).value.JNull?
  }

  /** `isset($m[…]) ? $m[…] : $default`. */
  function IssetOr(m: Members, path: seq<string>, default: Json): (r: Json)
    ensures Isset(m, path) ==> Some(r) == Lookup(m, path)
    ensures !Isset(m, path) ==> r == default
  {
    if Isset(m, path) then Lookup(m, path).value else default
  }

  /** Decimal digits of a natural number. */
  function NatToString(n: nat): (s: string)
    ensures |s| > 0
    ensures forall k :: 0 <= k < |s| ==> '0' <= s[k] <= '9'
    decreases n
  {
    if n < 10 then [('0' as int + n) as char]
    else NatToString(n / 10) + [('0' as int + n % 10) as char]
  }

  /** The value of a string of decimal digits. */
  function DigitsValue(s: string): nat
    requires forall k :: 0 <= k < |s| ==> '0' <= s[k] <= '9'
    decreases |s|
  {
    if |s| == 0 then 0
    else DigitsValue(s[..|s| - 1]) * 10 + (s[|s| - 1] as int - '0' as int)
  }

  /** Reading the digits back gives the number. */
  lemma {:induction false} DigitsValueOf(n: nat)
    ensures DigitsValue(NatToString(n)) == n
    decreases n
  {
    if n >= 10 {
      var s := NatToString(n);
      DigitsValueOf(n / 10);
      assert s[..|s| - 1] == NatToString(n / 10);
    }
  }

  /** PHP's conversion of a scalar to string, used where a value is
      concatenated: integers in decimal, `true` as "1", `false` and null as
      "", and an array as "Array". */
  function PhpString(v: Json): string {
    match v
    case JNull => ""
    case JBool(b) => if b then "1" else ""
    case JNum(n) => if n < 0 then "-" + NatToString(-n) else NatToString(n)
    case JStr(s) => s
    case JList(_) => "Array"
    case JObj(_) => "Array"
  }

  /** PHP's truthiness of a decoded value: null, `false`, 0, "", "0" and
      the empty array are false; everything else is true. */
  predicate JsonTruthy(v: Json) {
    match v
    case JNull => false
    case JBool(b) => b
    case JNum(n) => n != 0
    case JStr(s) => Truthy(s)
    case JList(items) => |items| > 0
    case JObj(members) => |members| > 0
  }

  lemma NatToStringNonZero(n: nat)
    requires n != 0
    ensures NatToString(n) != "0"
  {
    if n >= 10 {
      assert |NatToString(n)| >= 2;
    }
  }

  /** Only an array changes its truth when cast to a string: the empty
      array is false but its text "Array" is true. For every other value
      the cast keeps the truth. */
  lemma PhpStringTruthy(v: Json)
    ensures !v.JList? && !v.JObj? ==> (Truthy(PhpString(v)) <==> JsonTruthy(v))
    ensures v.JList? || v.JObj? ==> Truthy(PhpString(v))
  {
    if v.JNum? && v.n != 0 {
      if v.n < 0 {
        assert PhpString(v)[0] == '-';
      } else {
        NatToStringNonZero(v.n);
      }
    }
  }

  /** The text `http_build_query` writes for a scalar value: `true` as "1"
      and `false` as "0", integers in decimal, strings as they are. It
      differs from the string cast only at `false`. An array has no single
      text (the query expands it into bracketed keys); its string cast
      stands in for it. Null, which the query drops, has no text. */
  function QueryText(v: Json): (t: string)
    requires !v.JNull?
    ensures v.JBool? ==> t == (if v.b then "1" else "0")
    ensures v.JStr? ==> t == v.s
    ensures t == PhpString(v) <==> v != JBool(false)
    ensures !v.JList? && !v.JObj? ==> (Truthy(t) <==> JsonTruthy(v))
  {
    PhpStringTruthy(v);
    if v == JBool(false) then "0" else PhpString(v)
  }

  /** The array `$m[k1]` holds when it is one, and the empty array that PHP
      starts from otherwise. */
  function InnerOf(m: Members, k1: string): Members {
    match Get(m, k1)
    case Some(v) => if v.JObj? then v.members else []
    case None => []
  }

  /** `$m[k1][k2] = v`: the nested member is set, creating the inner array
      when the outer key holds nothing (PHP fills in a missing or null
      array). Every other nested member reads as before, including the
      absent ones under an outer key that held no array. */
  function PutNested(m: Members, k1: string, k2: string, v: Json): (r: Members)
    ensures Lookup(r, [k1, k2]) == Some(v)
    ensures forall j :: j != k1 ==> Get(r, j) == Get(m, j)
    ensures Keys(r) == if HasKey(m, k1) then Keys(m) else Keys(m) + [k1]
    ensures forall j :: j != k2 ==> Lookup(r, [k1, j]) == Lookup(m, [k1, j])
  {
    PutNestedFacts(m, k1, k2, v);
    Put(m, k1, JObj(Put(InnerOf(m, k1), k2, v)))
  }

  lemma PutNestedFacts(m: Members, k1: string, k2: string, v: Json)
    ensures var r := Put(m, k1, JObj(Put(InnerOf(m, k1), k2, v)));
      && Lookup(r, [k1, k2]) == Some(v)
      && (forall j :: j != k1 ==> Get(r, j) == Get(m, j))
      && Keys(r) == (if HasKey(m, k1) then Keys(m) else Keys(m) + [k1])
      && (forall j :: j != k2 ==> Lookup(r, [k1, j]) == Lookup(m, [k1, j]))
  {
    var inner := InnerOf(m, k1);
    var r := Put(m, k1, JObj(Put(inner, k2, v)));
    GetPut(m, k1, JObj(Put(inner, k2, v)), k1);
    GetPut(inner, k2, v, k2);
    forall j | j != k1 ensures Get(r, j) == Get(m, j) {
      GetPut(m, k1, JObj(Put(inner, k2, v)), j);
    }
    forall j | j != k2
      ensures Lookup(r, [k1, j]) == Lookup(m, [k1, j])
    {
      GetPut(inner, k2, v, j);
      assert [k1, j][1..] == [j];
    }
    assert [k1, k2][1..] == [k2];
    KeysPut(m, k1, JObj(Put(inner, k2, v)));
  }
  /** The rest `q` of a path read from the value the first part led to. */
  function Descend(v: Option<Json>, q: seq<string>): Option<Json> {
    if |q| == 0 then v
    else if v.Some? && v.value.JObj? then Lookup(v.value.members, q)
    else None
  }

  /** A path may be followed in two legs. */
  lemma {:induction false} LookupAppend(m: Members, p: seq<string>, q: seq<string>)
    requires |p| > 0
    ensures Lookup(m, p + q) == Descend(Lookup(m, p), q)
    decreases |p|
  {
    assert (p + q)[0] == p[0];
    if |p| > 1 {
      assert (p + q)[1..] == p[1..] + q;
      match Get(m, p[0])
      case None =>
      case Some(v) =>
        if v.JObj? {
          LookupAppend(v.members, p[1..], q);
        }
    } else if |q| > 0 {
      assert (p + q)[1..] == q;
    } else {
      assert p + q == p;
    }
  }

  /** Two responses that agree on a path agree on every path extending it. */
  lemma LookupSamePrefix(m1: Members, m2: Members, p: seq<string>, q: seq<string>)
    requires |p| > 0 && Lookup(m1, p) == Lookup(m2, p)
    ensures Lookup(m1, p + q) == Lookup(m2, p + q)
  {
    LookupAppend(m1, p, q);
    LookupAppend(m2, p, q);
  }
}
