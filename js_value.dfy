/**
 * The slice of JavaScript values the task touches: the options object, the
 * `files` map it holds, the inputs handed to `process`, the error and result
 * values passed to completion callbacks.
 *
 * An object lists its own properties in `Object.keys` enumeration order
 * (integer-like keys first, ascending, then the others in insertion order);
 * a list that repeats a key, or lists keys in another order, stands for no
 * JavaScript object. Arrays and strings expose their indices as decimal keys,
 * and numbers are integers.
 */
module JsValue {

  datatype Value =
    | Undefined
    | Null
    | Bool(b: bool)
    | Num(n: int)
    | Str(s: string)
    | Arr(elems: seq<Value>)
    | Obj(props: seq<(string, Value)>)

  /** JavaScript's `!!v`: the test behind `if (err)` and `!this.options.files`. */
  predicate Truthy(v: Value)
    ensures Truthy(v) ==> !Nullish(v)
    ensures (v.Obj? || v.Arr?) ==> Truthy(v)
  {
    match v
    case Undefined => false
    case Null => false
    case Bool(b) => b
    case Num(n) => n != 0
    case Str(s) => s != ""
    case Arr(_) => true
    case Obj(_) => true
  }

  /** Reading a property of these throws a TypeError. */
  predicate Nullish(v: Value) {
    v.Undefined? || v.Null?
  }

  function DigitChar(d: nat): char
    requires d < 10
  {
    "0123456789"[d]
  }

  /** The canonical decimal spelling of an array or string index. */
  function Decimal(n: nat): (s: string)
    ensures |s| >= 1
    ensures n >= 10 ==> |s| >= 2
  {
    if n < 10 then [DigitChar(n)] else Decimal(n / 10) + [DigitChar(n % 10)]
  }

  /** Distinct indices are spelled differently. */
  lemma {:induction false} DecimalInjective(a: nat, b: nat)
    requires Decimal(a) == Decimal(b)
    ensures a == b
  {
    if a >= 10 && b >= 10 {
      var sa, sb := Decimal(a), Decimal(b);
      assert sa[|sa| - 1] == DigitChar(a % 10) && sb[|sb| - 1] == DigitChar(b % 10);
      assert a % 10 == b % 10;
      assert sa[..|sa| - 1] == Decimal(a / 10) && sb[..|sb| - 1] == Decimal(b / 10);
      DecimalInjective(a / 10, b / 10);
    }
  }

  /** The own enumerable properties, in the order `Object.keys` lists them. */
  function OwnEntries(v: Value): seq<(string, Value)>
  {
    match v
    case Obj(props) => props
    case Arr(elems) => seq(|elems|, i requires 0 <= i < |elems| => (Decimal(i), elems[i]))
    case Str(s) => seq(|s|, i requires 0 <= i < |s| => (Decimal(i), Str([s[i]])))
    case _ => []
  }

  predicate DistinctKeys(entries: seq<(string, Value)>) {
    forall i, j | 0 <= i < j < |entries| :: entries[i].0 != entries[j].0
  }

  /**
   * `Object.keys(v)`: it lists each own key once, for arrays and strings
   * (one decimal index each) and for every object that is a JavaScript object.
   */
  function Keys(v: Value): (keys: seq<string>)
    ensures (v.Obj? ==> DistinctKeys(v.props)) ==>
      forall i, j | 0 <= i < j < |keys| :: keys[i] != keys[j]
  {
    var entries := OwnEntries(v);
    var keys := seq(|entries|, i requires 0 <= i < |entries| => entries[i].0);
    assert (v.Arr? || v.Str?) ==> forall i, j | 0 <= i < j < |keys| :: keys[i] != keys[j] by {
      if v.Arr? || v.Str? {
        forall i, j | 0 <= i < j < |keys| ensures keys[i] != keys[j] {
          assert keys[i] == Decimal(i) && keys[j] == Decimal(j);
          if Decimal(i) == Decimal(j) {
            DecimalInjective(i, j);
          }
        }
      }
    }
    keys
  }

  /** The value listed under `key`, or undefined when no entry has that key. */
  function Lookup(entries: seq<(string, Value)>, key: string): Value
  {
    if entries == [] then Undefined
    else if entries[0].0 == key then entries[0].1
    else Lookup(entries[1..], key)
  }

  /** Property access `v[key]` on a value that is not null or undefined. */
  function Get(v: Value, key: string): Value
    requires !Nullish(v)
  {
    Lookup(OwnEntries(v), key)
  }

  /** A lookup finds nothing but a listed entry, and undefined for an unlisted key. */
  lemma {:induction false} LookupReadsListedEntry(entries: seq<(string, Value)>, key: string)
    ensures (key, Lookup(entries, key)) in entries || Lookup(entries, key) == Undefined
    ensures (forall e | e in entries :: e.0 != key) ==> Lookup(entries, key) == Undefined
  {
    if entries != [] && entries[0].0 != key {
      LookupReadsListedEntry(entries[1..], key);
      assert forall e | e in entries[1..] :: e in entries;
    }
  }

  /**
   * Only own properties are read: a key `Object.keys` does not list reads as
   * undefined, and any other value read is one of `v`'s own entries.
   */
  lemma GetReadsOwnProperty(v: Value, key: string)
    requires !Nullish(v)
    ensures key !in Keys(v) ==> Get(v, key) == Undefined
    ensures Get(v, key) != Undefined ==> (key, Get(v, key)) in OwnEntries(v)
  {
    var entries := OwnEntries(v);
    LookupReadsListedEntry(entries, key);
    if key !in Keys(v) {
      forall e | e in entries ensures e.0 != key {
        var i :| 0 <= i < |entries| && entries[i] == e;
        assert Keys(v)[i] == e.0;
      }
    }
  }

  /** A key that `Object.keys` reported reads back the value stored under it. */
  lemma {:induction false} LookupFindsOwnProperty(entries: seq<(string, Value)>, i: nat)
    requires i < |entries| && DistinctKeys(entries)
    ensures Lookup(entries, entries[i].0) == entries[i].1
  {
    if i > 0 {
      assert entries[0].0 != entries[i].0;
      assert DistinctKeys(entries[1..]) by {
        forall a, b | 0 <= a < b < |entries[1..]|
          ensures entries[1..][a].0 != entries[1..][b].0
        {
          assert entries[1..][a] == entries[a + 1] && entries[1..][b] == entries[b + 1];
        }
      }
      LookupFindsOwnProperty(entries[1..], i - 1);
      assert entries[1..][i - 1] == entries[i];
    }
  }
}
