/** Dictionaries with string keys, and the key-sorted member list that prints them. */
module Dictionary {
  import opened Json

  type Dict = map<string, Json>

  // ------------------------------------------------------------------
  // The key order is total
  // ------------------------------------------------------------------

  lemma {:induction false} LessTransitive(a: string, b: string, c: string)
    requires Less(a, b) && Less(b, c)
    ensures Less(a, c)
  {
    if a != "" && a[0] == b[0] && b[0] == c[0] {
      LessTransitive(a[1..], b[1..], c[1..]);
    }
  }

  lemma {:induction false} LessIsStrict(a: string, b: string)
    requires Less(a, b)
    ensures a != b && !Less(b, a)
  {
    if a != "" && a[0] == b[0] {
      LessIsStrict(a[1..], b[1..]);
    }
  }

  lemma {:induction false} LessTotal(a: string, b: string)
    ensures a == b || Less(a, b) || Less(b, a)
  {
    if a != "" && b != "" && a[0] == b[0] {
      LessTotal(a[1..], b[1..]);
      assert a == [a[0]] + a[1..] && b == [b[0]] + b[1..];
    }
  }

  ghost predicate IsLeastKey(keys: set<string>, k: string) {
    k in keys && forall j :: j in keys ==> j == k || Less(k, j)
  }

  lemma {:induction false} LeastKeyExists(keys: set<string>)
    requires keys != {}
    ensures exists k :: IsLeastKey(keys, k)
  {
    var x :| x in keys;
    var others := keys - {x};
    if others == {} {
      assert forall j :: j in keys ==> j == x || j in others;
      assert IsLeastKey(keys, x);
    } else {
      LeastKeyExists(others);
      var y :| IsLeastKey(others, y);
      LessTotal(x, y);
      var k := if Less(x, y) then x else y;
      forall j | j in keys
        ensures j == k || Less(k, j)
      {
        if k == x && j != x && j != y {
          LessTransitive(x, y, j);
        }
      }
      assert IsLeastKey(keys, k);
    }
  }

  // ------------------------------------------------------------------
  // Sorting the keys
  // ------------------------------------------------------------------

  ghost function LeastKey(keys: set<string>): (k: string)
    requires keys != {}
    ensures k in keys && IsLeastKey(keys, k)
  {
    LeastKeyExists(keys);
    var k :| IsLeastKey(keys, k);
    k
  }

  /** The members in key order (`sort_keys`). */
  ghost function FieldsOf(d: Dict): Fields
    decreases |d|
  {
    if d == map[] then []
    else
      var k := LeastKey(d.Keys);
      assert |d - {k}| < |d| by { assert (d - {k}).Keys == d.Keys - {k}; }
      [Field(k, d[k])] + FieldsOf(d - {k})
  }

  function DictOf(fields: Fields): Dict {
    if fields == [] then map[] else DictOf(fields[1..])[fields[0].key := fields[0].value]
  }

  lemma {:induction false} DictOfFieldsOf(d: Dict)
    ensures DictOf(FieldsOf(d)) == d
    decreases |d|
  {
    hide IsLeastKey;
    if d != map[] {
      var k := LeastKey(d.Keys);
      assert |d - {k}| < |d| by { assert (d - {k}).Keys == d.Keys - {k}; }
      DictOfFieldsOf(d - {k});
      assert FieldsOf(d)[1..] == FieldsOf(d - {k});
    }
  }

  ghost predicate Holds(d: Dict, f: Field) {
    f.key in d && d[f.key] == f.value
  }

  lemma {:induction false} FieldsOfMembers(d: Dict, f: Field)
    ensures f in FieldsOf(d) <==> Holds(d, f)
    decreases |d|
  {
    hide IsLeastKey;
    if d != map[] {
      var k := LeastKey(d.Keys);
      var rest := d - {k};
      assert |rest| < |d| by { assert rest.Keys == d.Keys - {k}; }
      FieldsOfMembers(rest, f);
      assert FieldsOf(d) == [Field(k, d[k])] + FieldsOf(rest);
    }
  }

  lemma {:induction false} FieldsOfSorted(d: Dict)
    ensures Sorted(FieldsOf(d))
    decreases |d|
  {
    hide Less;
    if d != map[] {
      var k := LeastKey(d.Keys);
      var rest := d - {k};
      assert rest.Keys == d.Keys - {k};
      assert |rest| < |d|;
      FieldsOfSorted(rest);
      var fields, others := FieldsOf(d), FieldsOf(rest);
      assert fields == [Field(k, d[k])] + others;
      forall i, j | 0 <= i < j < |fields|
        ensures Less(fields[i].key, fields[j].key)
      {
        assert fields[j] == others[j - 1] && others[j - 1] in others;
        FieldsOfMembers(rest, others[j - 1]);
        assert i > 0 ==> fields[i] == others[i - 1];
      }
    }
  }

  // ------------------------------------------------------------------
  // Nesting
  // ------------------------------------------------------------------

  /** No more than d levels of children below the value. */
  predicate Within(v: Json, d: int) {
    d >= 0 &&
    match v
    case Arr(items) => forall k :: 0 <= k < |items| ==> Within(items[k], d - 1)
    case Obj(fields) => forall k :: 0 <= k < |fields| ==> Within(fields[k].value, d - 1)
    case _ => true
  }

  lemma {:induction false} WithinMore(v: Json, d: int, e: int)
    requires Within(v, d) && d <= e
    ensures Within(v, e)
    decreases v
  {
    match v {
      case Arr(items) =>
        forall k | 0 <= k < |items|
          ensures Within(items[k], e - 1)
        {
          WithinMore(items[k], d - 1, e - 1);
        }
      case Obj(fields) =>
        forall k | 0 <= k < |fields|
          ensures Within(fields[k].value, e - 1)
        {
          WithinMore(fields[k].value, d - 1, e - 1);
        }
      case _ =>
    }
  }

  ghost function ObjOf(d: Dict): Json {
    Obj(FieldsOf(d))
  }

  lemma ObjOfWithin(d: Dict, n: int)
    requires n >= 0
    ensures Within(ObjOf(d), n) <==> forall k :: k in d ==> Within(d[k], n - 1)
  {
    var fields := FieldsOf(d);
    if Within(ObjOf(d), n) {
      forall k | k in d
        ensures Within(d[k], n - 1)
      {
        FieldsOfMembers(d, Field(k, d[k]));
        var i :| 0 <= i < |fields| && fields[i] == Field(k, d[k]);
        assert Within(fields[i].value, n - 1);
      }
    } else {
      var i :| 0 <= i < |fields| && !Within(fields[i].value, n - 1);
      FieldsOfMembers(d, fields[i]);
      assert fields[i] in fields;
    }
  }

  lemma ObjOfCanonical(d: Dict)
    requires forall k :: k in d ==> Canonical(d[k])
    ensures Canonical(ObjOf(d))
  {
    FieldsOfSorted(d);
    var fields := FieldsOf(d);
    forall i | 0 <= i < |fields|
      ensures Canonical(fields[i].value)
    {
      FieldsOfMembers(d, fields[i]);
      assert fields[i] in fields;
    }
  }
}
