/**
 * A metrics report: Python's insertion-ordered `dict` from a metric name to a
 * list of values, modelled as a value (the source builds each report in a
 * local variable and never shares it).
 */
module Reports {

  /** A float as NumPy computes it here: an exact ratio, or the NaN of 0/0. */
  datatype Num = Finite(value: real) | NaN

  /** One element of a report list: a scalar, or a NumPy vector such as the per-class accuracies. */
  datatype Value = Scalar(n: Num) | Vector(items: seq<Num>)

  ghost predicate Distinct<T>(s: seq<T>) {
    forall i, j :: 0 <= i < j < |s| ==> s[i] != s[j]
  }

  /** `keys` is the insertion order of the dictionary, `entries` its contents. */
  datatype Report = Report(keys: seq<string>, entries: map<string, seq<Value>>) {

    ghost predicate Valid() {
      && Distinct(keys)
      && (forall i :: 0 <= i < |keys| ==> keys[i] in entries)
      && (forall k :: k in entries ==> k in keys)
    }

    /** `report[k] = v`: an existing key keeps its position, a new key goes last. */
    function Set(k: string, v: seq<Value>): (r: Report)
      requires Valid()
      ensures r.Valid()
      ensures r.keys == AppendNew(keys, k)
      ensures r.entries == entries[k := v]
    {
      Report(if k in entries then keys else keys + [k], entries[k := v])
    }
  }

  const EmptyReport := Report([], map[])

  /** The key order after one assignment: a new key goes last. */
  function AppendNew(keys: seq<string>, k: string): seq<string> {
    if k in keys then keys else keys + [k]
  }

  /** The key order after assigning each of `ks` in turn. */
  function AppendAllNew(keys: seq<string>, ks: seq<string>): seq<string> {
    if ks == [] then keys else AppendNew(AppendAllNew(keys, ks[..|ks| - 1]), ks[|ks| - 1])
  }

  /** The elements of `ks`, in order, that do not occur in `present`. */
  function Absent(ks: seq<string>, present: seq<string>): (r: seq<string>)
    ensures forall k :: k in r <==> k in ks && k !in present
  {
    if ks == [] then []
    else Absent(ks[..|ks| - 1], present) + (if ks[|ks| - 1] in present then [] else [ks[|ks| - 1]])
  }

  lemma {:induction false} AbsentOfDisjoint(ks: seq<string>, present: seq<string>)
    requires forall k :: k in ks ==> k !in present
    ensures Absent(ks, present) == ks
  {
    if ks != [] {
      AbsentOfDisjoint(ks[..|ks| - 1], present);
      assert ks[..|ks| - 1] + [ks[|ks| - 1]] == ks;
    }
  }

  /** The keys `ks` written into `d` one after another, with their values taken from `vals`. */
  function UpdateWith(d: Report, ks: seq<string>, vals: map<string, seq<Value>>): (r: Report)
    requires d.Valid()
    requires forall i :: 0 <= i < |ks| ==> ks[i] in vals
    ensures r.Valid()
    ensures r.keys == AppendAllNew(d.keys, ks)
    decreases |ks|
  {
    if ks == [] then d
    else UpdateWith(d, ks[..|ks| - 1], vals).Set(ks[|ks| - 1], vals[ks[|ks| - 1]])
  }

  /** After the update every written key holds its new value and every other key its old one. */
  lemma {:induction false} UpdateWithEntries(d: Report, ks: seq<string>, vals: map<string, seq<Value>>)
    requires d.Valid()
    requires forall i :: 0 <= i < |ks| ==> ks[i] in vals
    ensures var r := UpdateWith(d, ks, vals);
      && (forall k :: k in r.entries <==> k in d.entries || k in ks)
      && (forall k :: k in ks ==> r.entries[k] == vals[k])
      && (forall k :: k in d.entries && k !in ks ==> r.entries[k] == d.entries[k])
    decreases |ks|
  {
    if ks != [] {
      var init, last := ks[..|ks| - 1], ks[|ks| - 1];
      assert ks == init + [last];
      UpdateWithEntries(d, init, vals);
    }
  }

  /** Keys already present keep their place; the others are appended in the order of `ks`. */
  lemma {:induction false} AppendAllNewIsAbsent(keys: seq<string>, ks: seq<string>)
    requires Distinct(ks)
    ensures AppendAllNew(keys, ks) == keys + Absent(ks, keys)
  {
    if ks != [] {
      var init, last := ks[..|ks| - 1], ks[|ks| - 1];
      assert last !in init by {
        forall i | 0 <= i < |init| ensures init[i] != last {
          assert init[i] == ks[i];
        }
      }
      AppendAllNewIsAbsent(keys, init);
      var added := Absent(init, keys);
      assert last !in added;
      if last !in keys {
        assert keys + added + [last] == keys + (added + [last]);
      }
    }
  }

  /**
   * `d.update(other)`: every key of `other` is written into `d` in `other`'s
   * order, overwriting in place or appending.
   */
  function Merge(d: Report, other: Report): (r: Report)
    requires d.Valid() && other.Valid()
    ensures r.Valid()
    ensures r.keys == d.keys + Absent(other.keys, d.keys)
    ensures forall k :: k in r.entries <==> k in d.entries || k in other.entries
    ensures forall k :: k in other.entries ==> r.entries[k] == other.entries[k]
    ensures forall k :: k in d.entries && k !in other.entries ==> r.entries[k] == d.entries[k]
  {
    AppendAllNewIsAbsent(d.keys, other.keys);
    UpdateWithEntries(d, other.keys, other.entries);
    UpdateWith(d, other.keys, other.entries)
  }
}
