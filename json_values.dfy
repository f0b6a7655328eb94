/**
  Decoded JSON values as the scripts see them after `json.loads` / `json.load`.
  Objects keep their members in insertion order, as Python dicts do; the dict
  operations the scripts use (`k in d`, `d[k] = v`, `d.get(k, default)`) are
  written out over that ordered member list.
 */
module JsonValues {
  import opened Wrappers
  import opened Strings

  datatype Json =
    | JNull
    | JBool(b: bool)
    | JNumber(n: int)
    | JString(s: string)
    | JArray(elems: seq<Json>)
    | JObject(entries: seq<(string, Json)>)

  /** The members of a dict, in insertion order. */
  type Entries = seq<(string, Json)>

  /** The position of the first member named `k`. */
  function KeyIndex(e: Entries, k: string): (r: Option<nat>)
    ensures r.Some? ==> r.value < |e| && e[r.value].0 == k
    ensures r.Some? ==> forall j :: 0 <= j < r.value ==> e[j].0 != k
    ensures r.None? ==> forall j :: 0 <= j < |e| ==> e[j].0 != k
  {
    if |e| == 0 then None
    else if e[0].0 == k then Some(0)
    else match KeyIndex(e[1..], k)
      case None => None
      case Some(i) => Some(i + 1)
  }

  /** Python's `k in d`. */
  predicate HasKey(e: Entries, k: string) {
    KeyIndex(e, k).Some?
  }

  function KeySet(e: Entries): set<string> {
    set i | 0 <= i < |e| :: e[i].0
  }

  lemma HasKeyIff(e: Entries, k: string)
    ensures HasKey(e, k) <==> k in KeySet(e)
  {
    if k in KeySet(e) {
      var i :| 0 <= i < |e| && e[i].0 == k;
    }
  }

  /** Python's `d[k]` when the key is present, None when `d[k]` would raise KeyError. */
  function Lookup(e: Entries, k: string): Option<Json> {
    match KeyIndex(e, k)
    case Some(i) => Some(e[i].1)
    case None => None
  }

  /** Python's `d.get(k, default)`. */
  function Get(e: Entries, k: string, default: Json): Json {
    match Lookup(e, k)
    case Some(v) => v
    case None => default
  }

  /** Python's `d[k] = v`: an existing key keeps its place, a new key goes last. */
  function SetKey(e: Entries, k: string, v: Json): (r: Entries)
    ensures Lookup(r, k) == Some(v)
    ensures forall k' :: k' != k ==> Lookup(r, k') == Lookup(e, k')
    ensures KeySet(r) == KeySet(e) + {k}
  {
    match KeyIndex(e, k)
    case Some(i) =>
      var r := e[i := (k, v)];
      KeyIndexIs(r, k, i);
      forall k' | k' != k ensures Lookup(r, k') == Lookup(e, k') {
        KeyIndexSameKeys(e, r, k');
      }
      assert KeySet(r) == KeySet(e) by {
        forall x ensures x in KeySet(r) <==> x in KeySet(e) {
          if x in KeySet(r) {
            var j :| 0 <= j < |r| && r[j].0 == x;
            assert e[j].0 == x;
          }
          if x in KeySet(e) {
            var j :| 0 <= j < |e| && e[j].0 == x;
            assert r[j].0 == x;
          }
        }
      }
      r
    case None =>
      var r := e + [(k, v)];
      KeyIndexAppend(e, k, v, k);
      forall k' | k' != k ensures Lookup(r, k') == Lookup(e, k') {
        KeyIndexAppend(e, k, v, k');
      }
      assert KeySet(r) == KeySet(e) + {k} by {
        forall x ensures x in KeySet(r) <==> x in KeySet(e) + {k} {
          if x in KeySet(r) {
            var j :| 0 <= j < |r| && r[j].0 == x;
            if j < |e| {
              assert e[j].0 == x;
            }
          }
          if x in KeySet(e) {
            var j :| 0 <= j < |e| && e[j].0 == x;
            assert r[j].0 == x;
          }
          if x == k {
            assert r[|e|].0 == x;
          }
        }
      }
      r
  }

  /** The first member named `k` is the one at `i` when `i` holds `k` and no earlier member does. */
  lemma KeyIndexIs(e: Entries, k: string, i: nat)
    requires i < |e| && e[i].0 == k
    requires forall j :: 0 <= j < i ==> e[j].0 != k
    ensures KeyIndex(e, k) == Some(i)
  {
  }

  lemma KeyIndexNone(e: Entries, k: string)
    requires forall j :: 0 <= j < |e| ==> e[j].0 != k
    ensures KeyIndex(e, k) == None
  {
  }

  lemma KeyIndexSameKeys(e: Entries, r: Entries, k: string)
    requires |r| == |e|
    requires forall j :: 0 <= j < |e| ==> r[j].0 == e[j].0
    requires forall j :: 0 <= j < |e| && e[j].0 == k ==> r[j] == e[j]
    ensures Lookup(r, k) == Lookup(e, k)
  {
    match KeyIndex(e, k)
    case Some(i) =>
      KeyIndexIs(r, k, i);
    case None =>
      KeyIndexNone(r, k);
  }

  lemma KeyIndexAppend(e: Entries, k: string, v: Json, q: string)
    requires !HasKey(e, k)
    ensures KeyIndex(e + [(k, v)], q) == if q == k then Some(|e|) else KeyIndex(e, q)
  {
    var r := e + [(k, v)];
    assert forall j :: 0 <= j < |e| ==> r[j] == e[j];
    if q == k {
      KeyIndexIs(r, q, |e|);
    } else {
      match KeyIndex(e, q)
      case Some(i) =>
        KeyIndexIs(r, q, i);
      case None =>
        KeyIndexNone(r, q);
    }
  }

  /** Assigning the same value to the same key twice leaves the dict as after the first time. */
  lemma SetKeyIdempotent(e: Entries, k: string, v: Json)
    ensures SetKey(SetKey(e, k, v), k, v) == SetKey(e, k, v)
  {
    var r := SetKey(e, k, v);
    var i := KeyIndex(r, k).value;
    assert r[i] == (k, v);
    assert r[i := (k, v)] == r;
  }

  /** Python's `x in v` for a string `x`: membership of a key, of an element, or of a substring; None when Python raises TypeError. */
  function PyIn(x: string, v: Json): (r: Option<bool>)
    ensures r.None? <==> !(v.JObject? || v.JArray? || v.JString?)
  {
    match v
    case JObject(e) => Some(HasKey(e, x))
    case JArray(xs) => Some(JString(x) in xs)
    case JString(s) => Some(Contains(s, x))
    case _ => None
  }
}
