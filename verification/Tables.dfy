/** Stored tables are lists. This module holds the list operations that the repositories use. */
module Tables {
  datatype Option<+T> = None | Some(value: T)

  datatype Result<+T> = Ok(value: T) | Err(error: string)

  /** JavaScript truthiness of an optional string: present and not empty. */
  predicate Truthy(s: Option<string>) {
    s.Some? && s.value != ""
  }

  /** `Array.find`: the first row that satisfies `p`. */
  function Find<T>(rows: seq<T>, p: T -> bool): (r: Option<T>)
    ensures r.Some? ==> r.value in rows && p(r.value)
    ensures r.None? ==> forall x :: x in rows ==> !p(x)
  {
    if rows == [] then None
    else if p(rows[0]) then Some(rows[0])
    else Find(rows[1..], p)
  }

  /** `Array.filter`. */
  function Filter<T(!new)>(rows: seq<T>, p: T -> bool): (r: seq<T>)
    ensures forall x :: x in r <==> x in rows && p(x)
  {
    if rows == [] then []
    else if p(rows[0]) then [rows[0]] + Filter(rows[1..], p)
    else Filter(rows[1..], p)
  }

  /** `Array.map`. */
  function MapRows<T, U>(rows: seq<T>, f: T -> U): (r: seq<U>)
    ensures |r| == |rows|
    ensures forall i :: 0 <= i < |rows| ==> r[i] == f(rows[i])
  {
    if rows == [] then [] else [f(rows[0])] + MapRows(rows[1..], f)
  }

  /** The row that `find` returns for key `k`. */
  function Lookup<T>(rows: seq<T>, key: T -> string, k: string): (r: Option<T>)
    ensures r.Some? ==> r.value in rows && key(r.value) == k
    ensures r.None? ==> forall x :: x in rows ==> key(x) != k
  {
    Find(rows, x => key(x) == k)
  }

  /** `upsertByKey`: drop every row with the key of `row`, then push `row`. */
  function Upsert<T(!new)>(rows: seq<T>, key: T -> string, row: T): (r: seq<T>)
    ensures forall x :: x in r <==> (x in rows && key(x) != key(row)) || x == row
  {
    Filter(rows, x => key(x) != key(row)) + [row]
  }

  /** A `map` that rewrites the rows chosen by `p` and keeps the others. */
  function UpdateWhere<T>(rows: seq<T>, p: T -> bool, f: T -> T): (r: seq<T>)
    ensures |r| == |rows|
    ensures forall i :: 0 <= i < |rows| ==> r[i] == if p(rows[i]) then f(rows[i]) else rows[i]
  {
    MapRows(rows, x => if p(x) then f(x) else x)
  }

  /** No two rows share a key. */
  ghost predicate UniqueKeys<T>(rows: seq<T>, key: T -> string) {
    forall i, j :: 0 <= i < j < |rows| ==> key(rows[i]) != key(rows[j])
  }

  lemma {:induction false} FindAppend<T>(a: seq<T>, b: seq<T>, p: T -> bool)
    ensures Find(a + b, p) == if Find(a, p).Some? then Find(a, p) else Find(b, p)
  {
    if a == [] {
      assert a + b == b;
    } else {
      assert (a + b)[1..] == a[1..] + b;
      FindAppend(a[1..], b, p);
    }
  }

  /** Rows that `keep` drops do not matter to a search whose hits are all kept. */
  lemma {:induction false} FindFilter<T(!new)>(rows: seq<T>, keep: T -> bool, p: T -> bool)
    requires forall x :: p(x) ==> keep(x)
    ensures Find(Filter(rows, keep), p) == Find(rows, p)
  {
    if rows != [] {
      FindFilter(rows[1..], keep, p);
      if keep(rows[0]) {
        assert Filter(rows, keep)[1..] == Filter(rows[1..], keep);
      }
    }
  }

  /** A saved row is what its key returns from then on; every other key is untouched. */
  lemma {:induction false} LookupUpsert<T(!new)>(rows: seq<T>, key: T -> string, row: T, k: string)
    ensures Lookup(Upsert(rows, key, row), key, k) == if k == key(row) then Some(row) else Lookup(rows, key, k)
  {
    var keep := x => key(x) != key(row);
    var hit := x => key(x) == k;
    FindAppend(Filter(rows, keep), [row], hit);
    if k != key(row) {
      FindFilter(rows, keep, hit);
    }
  }

  /** Rewriting rows without changing keys rewrites what each key returns. */
  lemma {:induction false} LookupUpdate<T(!new)>(rows: seq<T>, key: T -> string, p: T -> bool, f: T -> T, k: string)
    requires forall x :: key(f(x)) == key(x)
    ensures Lookup(UpdateWhere(rows, p, f), key, k)
            == match Lookup(rows, key, k)
               case None => None
               case Some(x) => Some(if p(x) then f(x) else x)
  {
    if rows != [] {
      var u := UpdateWhere(rows, p, f);
      assert u[1..] == UpdateWhere(rows[1..], p, f);
      LookupUpdate(rows[1..], key, p, f, k);
    }
  }

  lemma {:induction false} FilterUnique<T(!new)>(rows: seq<T>, key: T -> string, keep: T -> bool)
    requires UniqueKeys(rows, key)
    ensures UniqueKeys(Filter(rows, keep), key)
  {
    if rows != [] {
      FilterUnique(rows[1..], key, keep);
      assert forall x :: x in rows[1..] ==> key(x) != key(rows[0]);
      var rest := Filter(rows[1..], keep);
      assert forall i :: 0 <= i < |rest| ==> rest[i] in rows[1..];
    }
  }

  lemma UpsertUnique<T(!new)>(rows: seq<T>, key: T -> string, row: T)
    requires UniqueKeys(rows, key)
    ensures UniqueKeys(Upsert(rows, key, row), key)
  {
    FilterUnique(rows, key, x => key(x) != key(row));
  }

  lemma {:induction false} FilterAll<T(!new)>(rows: seq<T>, keep: T -> bool)
    requires forall x :: x in rows ==> keep(x)
    ensures Filter(rows, keep) == rows
  {
    if rows != [] {
      FilterAll(rows[1..], keep);
      assert [rows[0]] + rows[1..] == rows;
    }
  }

  /** Saving a row under a new key appends it. */
  lemma UpsertAppends<T(!new)>(rows: seq<T>, key: T -> string, row: T)
    requires forall x :: x in rows ==> key(x) != key(row)
    ensures Upsert(rows, key, row) == rows + [row]
  {
    FilterAll(rows, x => key(x) != key(row));
  }
}
