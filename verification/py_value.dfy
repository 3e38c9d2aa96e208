/**
 * Decoded JSON values as the Python code manipulates them, and the few Python
 * operations on them that the action-plan service relies on: truthiness,
 * `dict.get`, `key in container`, `len`, subscripting, iteration and
 * `str.capitalize`. Each operation that can raise returns an `Outcome`.
 */
module PyValue {
  import opened Wrappers

  /** The Python exceptions the modelled operations can raise. */
  datatype Exception = TypeError | AttributeError | KeyError | IndexError

  /** The result of evaluating a Python expression: a value, or a raised exception. */
  datatype Outcome<+T> = Returned(value: T) | Raised(error: Exception) {

    predicate IsFailure() {
      Raised?
    }

    function PropagateFailure<U>(): Outcome<U>
      requires Raised?
    {
      Raised(error)
    }

    function Extract(): T
      requires Returned?
    {
      value
    }

    /** The returned value, or None for a raised exception. */
    function ToOption(): Option<T> {
      match this
      case Returned(v) => Some(v)
      case Raised(_) => None
    }
  }

  /**
   * A `for` loop that evaluates `f` on each element in order and collects the
   * results; the first element whose evaluation raises aborts the loop.
   */
  function MapOutcome<A, B>(xs: seq<A>, f: A -> Outcome<B>): (r: Outcome<seq<B>>)
    ensures r.Returned? <==> forall i :: 0 <= i < |xs| ==> f(xs[i]).Returned?
    ensures r.Returned? ==> |r.value| == |xs|
    ensures r.Returned? ==> forall i :: 0 <= i < |xs| ==> f(xs[i]) == Returned(r.value[i])
  {
    if |xs| == 0 then Returned([])
    else
      var first :- f(xs[0]);
      var rest :- MapOutcome(xs[1..], f);
      assert forall i :: 1 <= i < |xs| ==> xs[i] == xs[1..][i - 1];
      Returned([first] + rest)
  }

  /**
   * A value produced by decoding JSON. Objects are kept as a list of entries in
   * insertion order, which is the order a Python dict iterates in.
   */
  datatype Value =
    | Null
    | Bool(b: bool)
    | Num(n: real)
    | Str(s: string)
    | List(items: seq<Value>)
    | Dict(entries: seq<Entry>)

  datatype Entry = Entry(key: string, val: Value)

  /** Python's truth value of a decoded JSON value. */
  predicate Truthy(v: Value) {
    match v
    case Null => false
    case Bool(b) => b
    case Num(n) => n != 0.0
    case Str(s) => |s| > 0
    case List(items) => |items| > 0
    case Dict(entries) => |entries| > 0
  }

  /** The keys of a dict, in insertion order. */
  function Keys(entries: seq<Entry>): (ks: seq<string>)
    ensures |ks| == |entries|
    ensures forall i :: 0 <= i < |entries| ==> ks[i] == entries[i].key
  {
    if |entries| == 0 then [] else [entries[0].key] + Keys(entries[1..])
  }

  /** A dict as Python builds it: no key occurs twice. */
  predicate DistinctKeys(entries: seq<Entry>) {
    forall i, j :: 0 <= i < j < |entries| ==> entries[i].key != entries[j].key
  }

  /** `d[key]` for a dict, or None when the key is absent. */
  function Lookup(entries: seq<Entry>, key: string): (r: Option<Value>)
    ensures r.Some? <==> key in Keys(entries)
    ensures r.Some? ==> Entry(key, r.value) in entries
  {
    if |entries| == 0 then None
    else if entries[0].key == key then Some(entries[0].val)
    else Lookup(entries[1..], key)
  }

  /** `key in d` for a dict. */
  predicate HasKey(entries: seq<Entry>, key: string) {
    key in Keys(entries)
  }

  /** `d.get(key, default)`. */
  function Get(entries: seq<Entry>, key: string, default: Value): (r: Value)
    ensures HasKey(entries, key) ==> Some(r) == Lookup(entries, key)
    ensures !HasKey(entries, key) ==> r == default
  {
    Lookup(entries, key).GetOr(default)
  }

  /**
   * `if key not in d: d[key] = v`. Assigning a new key to a Python dict appends
   * it after the existing ones.
   */
  function SetDefault(entries: seq<Entry>, key: string, v: Value): (r: seq<Entry>)
    ensures HasKey(r, key)
    ensures !HasKey(entries, key) ==> Lookup(r, key) == Some(v)
    ensures entries <= r
  {
    if HasKey(entries, key) then entries
    else
      var r := entries + [Entry(key, v)];
      LookupAppend(entries, key, v);
      r
  }

  /** `setdefault` leaves the value of a key already there alone. */
  lemma SetDefaultKeeps(entries: seq<Entry>, key: string, v: Value, k: string)
    requires HasKey(entries, k)
    ensures Lookup(SetDefault(entries, key, v), k) == Lookup(entries, k)
  {
    if !HasKey(entries, key) {
      LookupAppend(entries, key, v);
    }
  }

  /** `setdefault` adds no key but its own. */
  lemma SetDefaultOthers(entries: seq<Entry>, key: string, v: Value, k: string)
    requires k != key
    ensures HasKey(SetDefault(entries, key, v), k) <==> HasKey(entries, k)
  {
    if !HasKey(entries, key) {
      LookupAppend(entries, key, v);
    }
  }

  /** `setdefault` on a dict without repeated keys keeps it so. */
  lemma SetDefaultDistinct(entries: seq<Entry>, key: string, v: Value)
    requires DistinctKeys(entries)
    ensures DistinctKeys(SetDefault(entries, key, v))
  {
    if !HasKey(entries, key) {
      assert forall i :: 0 <= i < |entries| ==> Keys(entries)[i] == entries[i].key;
    }
  }

  lemma LookupAppend(entries: seq<Entry>, key: string, v: Value)
    requires !HasKey(entries, key)
    ensures Keys(entries + [Entry(key, v)]) == Keys(entries) + [key]
    ensures Lookup(entries + [Entry(key, v)], key) == Some(v)
    ensures forall k :: k != key ==> Lookup(entries + [Entry(key, v)], k) == Lookup(entries, k)
  {
    var longer := entries + [Entry(key, v)];
    assert forall i :: 0 <= i < |longer| ==> Keys(longer)[i] == (Keys(entries) + [key])[i];
    LookupAppendNew(entries, key, v);
    forall k | k != key
      ensures Lookup(entries + [Entry(key, v)], k) == Lookup(entries, k)
    {
      LookupAppendOther(entries, key, v, k);
    }
  }

  /** An appended key that was absent looks up its new value. */
  lemma {:induction false} LookupAppendNew(entries: seq<Entry>, key: string, v: Value)
    requires !HasKey(entries, key)
    ensures Lookup(entries + [Entry(key, v)], key) == Some(v)
  {
    if |entries| > 0 {
      assert (entries + [Entry(key, v)])[1..] == entries[1..] + [Entry(key, v)];
      assert Keys(entries) == [entries[0].key] + Keys(entries[1..]);
      LookupAppendNew(entries[1..], key, v);
    }
  }

  /** Appending a key changes the lookup of no other key. */
  lemma {:induction false} LookupAppendOther(entries: seq<Entry>, key: string, v: Value, k: string)
    requires k != key
    ensures Lookup(entries + [Entry(key, v)], k) == Lookup(entries, k)
  {
    if |entries| > 0 {
      assert (entries + [Entry(key, v)])[1..] == entries[1..] + [Entry(key, v)];
      LookupAppendOther(entries[1..], key, v, k);
    }
  }

  /** In a dict without repeated keys, each entry is what its key looks up. */
  lemma {:induction false} LookupDistinct(entries: seq<Entry>, i: nat)
    requires DistinctKeys(entries) && i < |entries|
    ensures Lookup(entries, entries[i].key) == Some(entries[i].val)
  {
    if i > 0 {
      assert entries[0].key != entries[i].key;
      assert entries[1..][i - 1] == entries[i];
      LookupDistinct(entries[1..], i - 1);
    }
  }
  /** `d.get(k, default)` on a dict without repeated keys gives the entry stored under `k`. */
  lemma GetDistinct(entries: seq<Entry>, i: nat, default: Value)
    requires DistinctKeys(entries) && i < |entries|
    ensures Get(entries, entries[i].key, default) == entries[i].val
  {
    LookupDistinct(entries, i);
  }


  /** A subscript: `x[i]` with a non-negative integer, or `x[k]` with a string. */
  datatype Index = At(i: nat) | Key(k: string)

  /**
   * Python subscripting of a decoded value. Lists and strings take integer
   * indices; dicts decoded from JSON have only string keys, so an integer
   * subscript of a dict is a missing key; anything else is not subscriptable.
   */
  function Subscript(v: Value, ix: Index): (r: Outcome<Value>)
    ensures v.List? && ix.At? && ix.i < |v.items| ==> r == Returned(v.items[ix.i])
    ensures v.Dict? && ix.Key? ==> (r.Returned? <==> HasKey(v.entries, ix.k))
    ensures v.Dict? && ix.Key? && r.Returned? ==> Some(r.value) == Lookup(v.entries, ix.k)
    ensures r.Returned? ==> v.List? || v.Str? || v.Dict?
  {
    match v
    case List(items) =>
      (match ix
       case At(i) => if i < |items| then Returned(items[i]) else Raised(IndexError)
       case Key(_) => Raised(TypeError))
    case Str(s) =>
      (match ix
       case At(i) => if i < |s| then Returned(Str([s[i]])) else Raised(IndexError)
       case Key(_) => Raised(TypeError))
    case Dict(entries) =>
      (match ix
       case At(_) => Raised(KeyError)
       case Key(k) => if HasKey(entries, k) then Returned(Get(entries, k, Null)) else Raised(KeyError))
    case _ => Raised(TypeError)
  }

  /** `len(v)`. */
  function Len(v: Value): (r: Outcome<nat>)
    ensures r.Returned? <==> v.List? || v.Str? || v.Dict?
    ensures v.List? ==> r == Returned(|v.items|)
  {
    match v
    case List(items) => Returned(|items|)
    case Str(s) => Returned(|s|)
    case Dict(entries) => Returned(|entries|)
    case _ => Raised(TypeError)
  }

  /** `t` occurs as a contiguous piece of `s`. */
  predicate IsSubstring(t: string, s: string)
    decreases |s|
  {
    t <= s || (|s| > 0 && IsSubstring(t, s[1..]))
  }

  /**
   * `key in container` with a string on the left: a key test for a dict, an
   * element test for a list, a substring test for a string, and a TypeError for
   * anything else.
   */
  function Contains(container: Value, key: string): (r: Outcome<bool>)
    ensures container.Dict? ==> r == Returned(HasKey(container.entries, key))
    ensures r.Returned? <==> container.Dict? || container.List? || container.Str?
  {
    match container
    case Dict(entries) => Returned(HasKey(entries, key))
    case List(items) => Returned(Str(key) in items)
    case Str(s) => Returned(IsSubstring(key, s))
    case _ => Raised(TypeError)
  }

  /**
   * The values a `for` loop over `v` visits: list elements, the one-character
   * strings of a string, the keys of a dict. Other values are not iterable.
   */
  function Iterate(v: Value): (r: Outcome<seq<Value>>)
    ensures r.Returned? <==> v.List? || v.Str? || v.Dict?
    ensures v.List? ==> r == Returned(v.items)
    ensures r.Returned? ==> (|r.value| > 0 <==> Truthy(v))
  {
    match v
    case List(items) => Returned(items)
    case Str(s) => Returned(seq(|s|, i requires 0 <= i < |s| => Str([s[i]])))
    case Dict(entries) => Returned(seq(|entries|, i requires 0 <= i < |entries| => Str(entries[i].key)))
    case _ => Raised(TypeError)
  }

  function UpperAscii(c: char): char {
    if 'a' <= c <= 'z' then (c as int - 32) as char else c
  }

  function LowerAscii(c: char): char {
    if 'A' <= c <= 'Z' then (c as int + 32) as char else c
  }

  /**
   * `str.capitalize()` restricted to ASCII letters: the first character in upper
   * case, every other one in lower case.
   */
  function Capitalize(s: string): (r: string)
    ensures |r| == |s|
    ensures |s| > 0 ==> r[0] == UpperAscii(s[0])
    ensures forall i :: 0 < i < |s| ==> r[i] == LowerAscii(s[i])
  {
    if |s| == 0 then "" else [UpperAscii(s[0])] + seq(|s| - 1, i requires 0 <= i < |s| - 1 => LowerAscii(s[i + 1]))
  }

  /** `v.capitalize()`: only strings have the method. */
  function CapitalizeValue(v: Value): (r: Outcome<string>)
    ensures r.Returned? <==> v.Str?
  {
    match v
    case Str(s) => Returned(Capitalize(s))
    case _ => Raised(AttributeError)
  }
}
