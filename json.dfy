/** JSON values as `JSON.parse` hands them to the visualizer, and the views of
    them that the tree builder needs: the kind test behind `typeof`, the entry
    list behind `Object.entries`, the text behind `String(...)` and the
    truthiness test behind `if (parsedData)`. */
module JsonValue {

  datatype Option<+T> = None | Some(value: T)

  /** A parsed JSON value. A number is kept as the text JavaScript's `String`
      gives it (`"3"`, `"0.5"`, `"1e+21"`), since only that text is ever shown.
      An object is its ordered list of entries. */
  datatype Json =
    | Null
    | Bool(b: bool)
    | Num(text: string)
    | Str(s: string)
    | Arr(items: seq<Json>)
    | Obj(entries: seq<(string, Json)>)

  /** `typeof v === "object"`: arrays, objects and also `null`. */
  predicate IsObjectType(v: Json) {
    v.Null? || v.Arr? || v.Obj?
  }

  /** `typeof v === "object" && v !== null`: the values that have entries. */
  predicate IsContainer(v: Json) {
    v.Arr? || v.Obj?
  }

  /** JavaScript truthiness of a parsed value: `null`, `false`, `0` (and `-0`,
      whose text is also `"0"`) and `""` are falsy; arrays and objects,
      even empty ones, are truthy. */
  predicate Truthy(v: Json)
    ensures v.Null? ==> !Truthy(v)
    ensures IsContainer(v) ==> Truthy(v)
  {
    match v
    case Null => false
    case Bool(b) => b
    case Num(t) => t != "0"
    case Str(s) => s != ""
    case Arr(_) => true
    case Obj(_) => true
  }

  /** The decimal digit for `d`. */
  function Digit(d: nat): (c: char)
    requires d < 10
    ensures '0' <= c <= '9'
  {
    "0123456789"[d]
  }

  /** `String(n)` for a non-negative integer: decimal digits, no leading zero. */
  function NatToString(n: nat): (s: string)
    ensures |s| > 0
  {
    if n < 10 then [Digit(n)] else NatToString(n / 10) + [Digit(n % 10)]
  }

  predicate AllDigits(s: string) {
    forall i :: 0 <= i < |s| ==> '0' <= s[i] <= '9'
  }

  /** The numeric value of a string of decimal digits. */
  function DigitsValue(s: string): nat
    requires AllDigits(s)
  {
    if s == [] then 0 else 10 * DigitsValue(s[..|s| - 1]) + (s[|s| - 1] - '0') as nat
  }

  /** The decimal text of an index is made of digits and has no leading zero,
      and reading it back gives the index. */
  lemma {:induction false} NatToStringValue(n: nat)
    ensures AllDigits(NatToString(n))
    ensures NatToString(n)[0] == '0' ==> n == 0
    ensures DigitsValue(NatToString(n)) == n
  {
    var s := NatToString(n);
    if n < 10 {
      assert s == [Digit(n)];
      assert s[..0] == [];
    } else {
      NatToStringValue(n / 10);
      assert s[..|s| - 1] == NatToString(n / 10);
      assert s[|s| - 1] == Digit(n % 10);
    }
  }

  /** Different array indices get different keys. */
  lemma NatToStringInjective(m: nat, n: nat)
    requires NatToString(m) == NatToString(n)
    ensures m == n
  {
    NatToStringValue(m);
    NatToStringValue(n);
  }

  /** The number of entries `Object.entries(v)` lists for an array or an
      object; a value of any other kind is never asked for its entries. */
  function EntryCount(v: Json): (n: nat)
    ensures n > 0 ==> IsContainer(v)
  {
    match v
    case Arr(items) => |items|
    case Obj(entries) => |entries|
    case _ => 0
  }

  /** The `i`-th entry of `Object.entries(v)`: for an array the element keyed by
      its index written in decimal, for an object its `i`-th key and value, in
      the order the object lists them. */
  function Entry(v: Json, i: nat): (e: (string, Json))
    requires i < EntryCount(v)
    ensures e.1 == Child(v, i)
    ensures v.Arr? ==> e.1 in v.items && e.0 == NatToString(i)
    ensures v.Obj? ==> e in v.entries
  {
    match v
    case Arr(items) => (NatToString(i), items[i])
    case Obj(entries) => entries[i]
  }

  /** The `i`-th direct sub-value of `v`, without its key. */
  function Child(v: Json, i: nat): Json
    requires i < EntryCount(v)
  {
    match v
    case Arr(items) => items[i]
    case Obj(entries) => entries[i].1
  }

  /** Distinct entries of an array have distinct keys. */
  lemma ArrayKeysDistinct(v: Json, i: nat, j: nat)
    requires v.Arr? && i < EntryCount(v) && j < EntryCount(v) && i != j
    ensures Entry(v, i).0 != Entry(v, j).0
  {
    if Entry(v, i).0 == Entry(v, j).0 {
      NatToStringInjective(i, j);
    }
  }

  /** The number of values strictly below `v`, counted one per child and
      recursively below each child. */
  function Descendants(v: Json): nat
    decreases v, 1
  {
    DescendantsUpTo(v, EntryCount(v))
  }

  /** The descendants contributed by the first `k` children of `v`. */
  function DescendantsUpTo(v: Json, k: nat): nat
    requires k <= EntryCount(v)
    decreases v, 0, k
  {
    if k == 0 then 0
    else DescendantsUpTo(v, k - 1) + 1 + Descendants(Child(v, k - 1))
  }

  /** One more entry adds its child and everything below it. */
  lemma DescendantsStep(v: Json, k: nat)
    requires 0 < k <= EntryCount(v)
    ensures DescendantsUpTo(v, k) == DescendantsUpTo(v, k - 1) + 1 + Descendants(Entry(v, k - 1).1)
  {
  }

  /** A value has descendants exactly when it has children. */
  lemma {:induction false} NoDescendantsIffNoChildren(v: Json)
    ensures Descendants(v) == 0 <==> EntryCount(v) == 0
  {
    if EntryCount(v) != 0 {
      assert DescendantsUpTo(v, EntryCount(v)) >= 1;
    }
  }
}
