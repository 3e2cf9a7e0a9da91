/**
 * The content key of an event (`hash_dict`, `hash_event_data`): a hash of the
 * event's attributes that ignores their order, ignores timestamp and provenance
 * fields, and hashes nested dictionaries first.
 *
 * Python's `hash` is taken to be collision free, so the hash of a frozenset of
 * pairs is represented by the frozenset itself.
 */
module Lib {
  import opened Wrappers
  import opened Python

  /** A hashed value: a plain value, or the frozenset of (key, hashed value) pairs of a dictionary. */
  datatype Key = Scalar(v: PyValue) | Nested(pairs: set<(string, Key)>)

  /** True when entry `i` is the binding a dictionary built from `entries` keeps for its key. */
  predicate Live(entries: seq<(string, PyValue)>, i: int)
    requires 0 <= i < |entries|
  {
    Lookup(entries, entries[i].0) == Some(entries[i].1)
  }

  /**
   * A plain value as Python's `==` sees it inside a frozenset: `True` and
   * `False` equal the integers 1 and 0, inside tuples too.
   */
  function Normal(v: PyValue): PyValue {
    match v
    case PyBool(b) => PyInt(if b then 1 else 0)
    case PyList(items) => PyList(seq(|items|, i requires 0 <= i < |items| => Normal(items[i])))
    case _ => v
  }

  /** A value as it enters the frozenset: dictionaries are replaced by their own `hash_dict`. */
  function HashValue(v: PyValue): Key {
    match v
    case PyDict(entries) =>
      Nested(set i | 0 <= i < |entries| && Live(entries, i) :: (entries[i].0, HashValue(entries[i].1)))
    case _ => Scalar(Normal(v))
  }

  /** `hash_dict`: the hash of the frozenset of the dictionary's items. */
  function HashDict(entries: seq<(string, PyValue)>): Key {
    HashValue(PyDict(entries))
  }

  /** Two binding lists denote the same dictionary. */
  ghost predicate SameDict(a: seq<(string, PyValue)>, b: seq<(string, PyValue)>) {
    forall n :: Lookup(a, n) == Lookup(b, n)
  }

  /** `excluded_attributes`. */
  const Excluded: set<string> :=
    {"display_name", "filename", "inode", "pathspec", "store_index", "parser",
     "store_number", "tag", "timestamp", "timestamp_desc", "uuid"}

  /** The `event_dict` the filtering loop builds from `event.GetAttributes()`. */
  function Kept(attrs: seq<(string, PyValue)>): seq<(string, PyValue)> {
    if attrs == [] then []
    else
      var last := attrs[|attrs| - 1];
      Kept(attrs[..|attrs| - 1]) + (if last.0 in Excluded then [] else [last])
  }

  /** `hash_event_data` on the attribute list of an event. */
  function ContentKey(attrs: seq<(string, PyValue)>): Key {
    HashDict(Kept(attrs))
  }

  /** `hash_event_data`: filters the attributes into a dictionary, then hashes it. */
  method HashEventData(attrs: seq<(string, PyValue)>) returns (key: Key)
    ensures key == ContentKey(attrs)
  {
    var eventDict: seq<(string, PyValue)> := [];
    for i := 0 to |attrs|
      invariant eventDict == Kept(attrs[..i])
    {
      var (name, value) := attrs[i];
      assert attrs[..i + 1][..i] == attrs[..i];
      if name !in Excluded {
        eventDict := eventDict + [(name, value)];
      }
    }
    assert attrs[..|attrs|] == attrs;
    key := HashDict(eventDict);
  }

  // ----- properties -----

  lemma HashDictIncluded(a: seq<(string, PyValue)>, b: seq<(string, PyValue)>)
    requires SameDict(a, b)
    ensures HashDict(a).pairs <= HashDict(b).pairs
  {
    forall x | x in HashDict(a).pairs ensures x in HashDict(b).pairs {
      var i :| 0 <= i < |a| && Live(a, i) && x == (a[i].0, HashValue(a[i].1));
      assert Lookup(b, a[i].0) == Some(a[i].1);
      var j :| 0 <= j < |b| && b[j] == (a[i].0, a[i].1);
      assert Live(b, j);
    }
  }

  /**
   * `hash_dict` depends only on the dictionary, not on the order in which its
   * items were inserted; in particular equal dictionaries get equal keys.
   */
  lemma HashDictOrderFree(a: seq<(string, PyValue)>, b: seq<(string, PyValue)>)
    requires SameDict(a, b)
    ensures HashDict(a) == HashDict(b)
  {
    HashDictIncluded(a, b);
    HashDictIncluded(b, a);
  }

  /** A nested dictionary enters the key as its own `hash_dict`. */
  lemma NestedDictHashed(entries: seq<(string, PyValue)>, k: string, inner: seq<(string, PyValue)>)
    requires Lookup(entries, k) == Some(PyDict(inner))
    ensures (k, HashDict(inner)) in HashDict(entries).pairs
  {
    var i :| 0 <= i < |entries| && entries[i] == (k, PyDict(inner));
    assert Live(entries, i);
  }

  /** The filtered dictionary holds exactly the event's attributes minus the excluded names. */
  lemma {:induction false} KeptDict(attrs: seq<(string, PyValue)>)
    ensures forall n :: Lookup(Kept(attrs), n) == if n in Excluded then None else Lookup(attrs, n)
  {
    if attrs != [] {
      var init, last := attrs[..|attrs| - 1], attrs[|attrs| - 1];
      KeptDict(init);
      forall n ensures Lookup(Kept(attrs), n) == if n in Excluded then None else Lookup(attrs, n) {
        if last.0 !in Excluded {
          assert Kept(attrs) == Kept(init) + [last];
          assert (Kept(init) + [last])[..|Kept(init) + [last]| - 1] == Kept(init);
        } else {
          assert Kept(attrs) == Kept(init) + [] == Kept(init);
        }
      }
    }
  }

  /** Two events whose attributes differ only in excluded names get the same content key. */
  lemma ExcludedIgnored(a: seq<(string, PyValue)>, b: seq<(string, PyValue)>)
    requires forall n :: n !in Excluded ==> Lookup(a, n) == Lookup(b, n)
    ensures ContentKey(a) == ContentKey(b)
  {
    KeptDict(a);
    KeptDict(b);
    HashDictOrderFree(Kept(a), Kept(b));
  }

  /** The binding after which no other binding of the same name follows is the one a lookup finds. */
  lemma LookupLast(a: seq<(string, PyValue)>, i: int)
    requires 0 <= i < |a| && forall j :: i < j < |a| ==> a[j].0 != a[i].0
    ensures Lookup(a, a[i].0) == Some(a[i].1)
  {
    var r := Lookup(a, a[i].0);
    var k :| 0 <= k < |a| && a[k] == (a[i].0, r.value) && forall j :: k < j < |a| ==> a[j].0 != a[i].0;
    assert !(k < i);
    assert !(i < k);
  }

  lemma PairsIncluded(a: seq<(string, PyValue)>, b: seq<(string, PyValue)>)
    requires |a| == |b| && forall i :: 0 <= i < |a| ==> a[i].0 == b[i].0 && HashValue(a[i].1) == HashValue(b[i].1)
    ensures HashDict(a).pairs <= HashDict(b).pairs
  {
    forall x | x in HashDict(a).pairs ensures x in HashDict(b).pairs {
      var i :| 0 <= i < |a| && Live(a, i) && x == (a[i].0, HashValue(a[i].1));
      LiveItemIncluded(a, b, i);
    }
  }

  /** The pair a live item of `a` contributes is also contributed by `b`. */
  lemma LiveItemIncluded(a: seq<(string, PyValue)>, b: seq<(string, PyValue)>, i: int)
    requires |a| == |b| && forall i :: 0 <= i < |a| ==> a[i].0 == b[i].0 && HashValue(a[i].1) == HashValue(b[i].1)
    requires 0 <= i < |a| && Live(a, i)
    ensures (a[i].0, HashValue(a[i].1)) in HashDict(b).pairs
  {
    var k :| 0 <= k < |a| && a[k] == (a[i].0, a[i].1) && forall j :: k < j < |a| ==> a[j].0 != a[i].0;
    LookupLast(b, k);
    assert Live(b, k);
    assert (b[k].0, HashValue(b[k].1)) in HashDict(b).pairs;
  }

  /**
   * Binding lists that agree on their names and on their values as Python's
   * `==` sees them get the same key, as their frozensets are equal.
   */
  lemma EqualValuesShareKey(a: seq<(string, PyValue)>, b: seq<(string, PyValue)>)
    requires |a| == |b| && forall i :: 0 <= i < |a| ==> a[i].0 == b[i].0 && HashValue(a[i].1) == HashValue(b[i].1)
    ensures HashDict(a) == HashDict(b)
  {
    PairsIncluded(a, b);
    PairsIncluded(b, a);
  }

  /** An attribute holding `True` or `False` keys an event as 1 or 0 would: `('x', True) == ('x', 1)`. */
  lemma BoolKeyedAsInt(entries: seq<(string, PyValue)>, name: string, b: bool)
    ensures HashDict(entries + [(name, PyBool(b))]) == HashDict(entries + [(name, PyInt(if b then 1 else 0))])
  {
    EqualValuesShareKey(entries + [(name, PyBool(b))], entries + [(name, PyInt(if b then 1 else 0))]);
  }
}
