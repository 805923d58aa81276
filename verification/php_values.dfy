/**
 * PHP values as the SDK manipulates them: scalars and ordered arrays.
 *
 * A PHP array is an ORDERED dictionary: `json_encode` and `http_build_query`
 * emit its entries in insertion order. It is modelled as the list of its
 * keys in that order together with a map from each key to its value.
 * Integer keys are represented by their decimal strings (PHP itself turns a
 * decimal string key into the integer key, so both spellings name the same
 * slot).
 */
module PhpValues {

  datatype Option<+T> = None | Some(value: T)

  /** A PHP value. `Float(whole)` is a float holding the whole number `whole`:
      the only floats this SDK produces are the results of `round()`. */
  datatype Value =
    | Null
    | Bool(b: bool)
    | Int(i: int)
    | Float(whole: int)
    | Str(s: string)
    | Arr(arr: PhpArray)

  /** An array: its keys in insertion order, and the value stored under each. */
  datatype PhpArray = PhpArray(keys: seq<string>, vals: map<string, Value>)
  {
    /** Every key is listed once, and the listed keys are exactly the keys
        that hold a value; every array PHP builds is of this form. */
    predicate Valid()
    {
      && Distinct(keys)
      && (forall k :: k in vals ==> k in keys)
      && (forall i :: 0 <= i < |keys| ==> keys[i] in vals)
    }
  }

  predicate Distinct(ks: seq<string>)
  {
    forall i, j :: 0 <= i < j < |ks| ==> ks[i] != ks[j]
  }

  /** `[]`. */
  const EmptyArray: PhpArray := PhpArray([], map[])

  /** `$a[$k]`: the value stored under `k`, or None when the key is absent. */
  function Lookup(a: PhpArray, k: string): Option<Value>
  {
    if k in a.vals then Some(a.vals[k]) else None
  }

  /** `$a[$k] ?? null`. */
  function Get(a: PhpArray, k: string): Value
  {
    if k in a.vals then a.vals[k] else Null
  }

  /** `isset($a[$k])`: the key is present and its value is not null. */
  predicate Isset(a: PhpArray, k: string)
  {
    k in a.vals && a.vals[k] != Null
  }

  /** `$a[$k] = $v`: an existing key keeps its position, a new key goes last. */
  function Put(a: PhpArray, k: string, v: Value): (r: PhpArray)
    ensures Lookup(r, k) == Some(v)
    ensures forall j :: j != k ==> Lookup(r, j) == Lookup(a, j)
    ensures r.keys == if k in a.vals then a.keys else a.keys + [k]
  {
    PhpArray(if k in a.vals then a.keys else a.keys + [k], a.vals[k := v])
  }

  /** Storing into a proper array gives a proper array. */
  lemma PutValid(a: PhpArray, k: string, v: Value)
    ensures a.Valid() ==> Put(a, k, v).Valid()
    ensures a.Valid() ==> (k in a.vals <==> k in a.keys)
  {
  }

  /** The key list with `k` taken out, the others in their order. */
  function RemoveKey(ks: seq<string>, k: string): (r: seq<string>)
    ensures forall x :: x in r <==> x in ks && x != k
    ensures Distinct(ks) ==> Distinct(r)
  {
    if ks == [] then []
    else
      var rest := RemoveKey(ks[1..], k);
      if ks[0] == k then rest
      else
        assert Distinct(ks) ==> ks[0] !in ks[1..];
        [ks[0]] + rest
  }

  /** Removing a key a list does not hold leaves the list as it is. */
  lemma {:induction false} RemoveAbsentKey(ks: seq<string>, k: string)
    requires k !in ks
    ensures RemoveKey(ks, k) == ks
  {
    if ks != [] {
      RemoveAbsentKey(ks[1..], k);
      assert [ks[0]] + ks[1..] == ks;
    }
  }

  /** Removing the key at position `p` of a list without repeats closes the
      gap: the keys before `p`, then the keys after it. */
  lemma {:induction false} RemoveKeyAt(ks: seq<string>, k: string, p: nat)
    requires Distinct(ks) && p < |ks| && ks[p] == k
    ensures RemoveKey(ks, k) == ks[..p] + ks[p + 1..]
  {
    assert Distinct(ks[1..]);
    if p == 0 {
      RemoveAbsentKey(ks[1..], k);
    } else {
      assert ks[0] != k;
      RemoveKeyAt(ks[1..], k, p - 1);
      assert ks[1..][..p - 1] == ks[1..p] && ks[1..][p..] == ks[p + 1..];
      assert [ks[0]] + ks[1..p] == ks[..p];
    }
  }

  /** The key list `unset` leaves, in its order. */
  lemma RemoveKeyOrder(ks: seq<string>, k: string)
    ensures k !in ks ==> RemoveKey(ks, k) == ks
    ensures Distinct(ks) ==>
      forall p :: 0 <= p < |ks| && ks[p] == k ==> RemoveKey(ks, k) == ks[..p] + ks[p + 1..]
  {
    if k !in ks {
      RemoveAbsentKey(ks, k);
    }
    if Distinct(ks) {
      forall p | 0 <= p < |ks| && ks[p] == k
        ensures RemoveKey(ks, k) == ks[..p] + ks[p + 1..]
      {
        RemoveKeyAt(ks, k, p);
      }
    }
  }

  /** `unset($a[$k])`: drops the key, the other entries keep their order. */
  function Remove(a: PhpArray, k: string): (r: PhpArray)
    ensures Lookup(r, k) == None
    ensures forall j :: j != k ==> Lookup(r, j) == Lookup(a, j)
    ensures a.Valid() ==> r.Valid()
    ensures forall x :: x in r.keys <==> x in a.keys && x != k
    ensures k !in a.keys ==> r.keys == a.keys
    ensures a.Valid() ==>
      forall p :: 0 <= p < |a.keys| && a.keys[p] == k ==> r.keys == a.keys[..p] + a.keys[p + 1..]
  {
    var r := PhpArray(RemoveKey(a.keys, k), a.vals - {k});
    assert a.Valid() ==> forall i :: 0 <= i < |r.keys| ==> r.keys[i] in r.keys;
    RemoveKeyOrder(a.keys, k);
    r
  }

  /** PHP's conversion to boolean: `""`, `"0"`, `0`, `0.0`, `null`, `false`
      and the empty array are falsy. */
  predicate Truthy(v: Value)
  {
    match v
    case Null => false
    case Bool(b) => b
    case Int(i) => i != 0
    case Float(w) => w != 0
    case Str(s) => s != "" && s != "0"
    case Arr(a) => |a.keys| > 0
  }

  /** Truthiness of a string. */
  predicate TruthyString(s: string)
  {
    Truthy(Str(s))
  }

  /** The array a value denotes where PHP goes on to index it: the array
      itself, or `[]` for the falsy values `$x ? $x : []` replaces. */
  function ArrayOrEmpty(v: Value): PhpArray
  {
    if v.Arr? then v.arr else EmptyArray
  }
}
