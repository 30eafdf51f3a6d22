/**
 * What the three in-memory record services share: the next id on create,
 * the lookup by id that fails with "... not found", and the removal of one
 * record by position (`splice(index, 1)`).
 */
module Tables {
  import opened Results
  import opened Seqs

  /** `Math.max(...records.map(key)) + 1`, on a non-empty table. */
  function NextId<T>(records: seq<T>, key: T -> int): (id: int)
    requires |records| > 0
    ensures forall i :: 0 <= i < |records| ==> key(records[i]) < id
    ensures exists i :: 0 <= i < |records| && key(records[i]) == id - 1
  {
    MaxOf(records, key) + 1
  }

  /** `records.find(r => key(r) === id)`, failing with `notFound` when no record matches. */
  function Find<T>(records: seq<T>, key: T -> int, id: int, notFound: string): (r: Result<T>)
    ensures r.Failure? <==> forall i :: 0 <= i < |records| ==> key(records[i]) != id
    ensures r.Failure? ==> r.message == notFound
    ensures r.Success? ==> exists i :: 0 <= i < |records| && records[i] == r.value && key(r.value) == id
                                       && forall j :: 0 <= j < i ==> key(records[j]) != id
  {
    match IndexOf(records, key, id)
    case None => Failure(notFound)
    case Some(i) => Success(records[i])
  }

  /** `splice(index, 1)`: the table without the record at `index`, the others in their order. */
  function RemoveAt<T>(records: seq<T>, index: nat): (rest: seq<T>)
    requires index < |records|
    ensures |rest| == |records| - 1
    ensures forall j :: 0 <= j < index ==> rest[j] == records[j]
    ensures forall j :: index <= j < |rest| ==> rest[j] == records[j + 1]
    ensures multiset(rest) + multiset{records[index]} == multiset(records)
  {
    assert records == records[..index] + [records[index]] + records[index + 1..];
    records[..index] + records[index + 1..]
  }

  /** A record appended under a fresh id is found by that id. */
  lemma FindAppended<T>(records: seq<T>, key: T -> int, x: T, notFound: string)
    requires forall i :: 0 <= i < |records| ==> key(records[i]) != key(x)
    ensures Find(records + [x], key, key(x), notFound) == Success(x)
  {
    var s := records + [x];
    var r := Find(s, key, key(x), notFound);
    assert key(s[|records|]) == key(x);
    var i :| 0 <= i < |s| && s[i] == r.value && key(r.value) == key(x)
             && forall j :: 0 <= j < i ==> key(s[j]) != key(x);
    assert i == |records|;
  }

  /** A record written over the first one with its id, keeping that id, is what the lookup then finds. */
  lemma FindReplaced<T>(records: seq<T>, key: T -> int, index: nat, x: T, notFound: string)
    requires IndexOf(records, key, key(x)) == Some(index)
    ensures Find(records[index := x], key, key(x), notFound) == Success(x)
  {
    var s := records[index := x];
    var r := Find(s, key, key(x), notFound);
    assert key(s[index]) == key(x);
    var i :| 0 <= i < |s| && s[i] == r.value && key(r.value) == key(x)
             && forall j :: 0 <= j < i ==> key(s[j]) != key(x);
    assert i == index;
  }

  /** With ids unique, the lookup of a removed record's id fails. */
  lemma FindRemoved<T>(records: seq<T>, key: T -> int, index: nat, notFound: string)
    requires index < |records|
    requires forall i, j :: 0 <= i < j < |records| ==> key(records[i]) != key(records[j])
    ensures Find(RemoveAt(records, index), key, key(records[index]), notFound) == Failure(notFound)
  {
    var rest := RemoveAt(records, index);
    forall j | 0 <= j < |rest| ensures key(rest[j]) != key(records[index]) {
      if j < index {
        assert rest[j] == records[j];
      } else {
        assert rest[j] == records[j + 1];
      }
    }
  }

  /**
   * `records.map(r => key(r) === id ? change(r) : r)`: every record with the id
   * changed, every other record and the order kept.
   */
  function UpdateWhere<T>(records: seq<T>, key: T -> int, id: int, change: T -> T): (r: seq<T>)
    ensures |r| == |records|
    ensures forall i :: 0 <= i < |records| && key(records[i]) != id ==> r[i] == records[i]
    ensures forall i :: 0 <= i < |records| && key(records[i]) == id ==> r[i] == change(records[i])
  {
    seq(|records|, i requires 0 <= i < |records| => if key(records[i]) == id then change(records[i]) else records[i])
  }

  /** With no record under the id, the update changes nothing. */
  lemma UpdateWhereAbsent<T>(records: seq<T>, key: T -> int, id: int, change: T -> T)
    requires forall i :: 0 <= i < |records| ==> key(records[i]) != id
    ensures UpdateWhere(records, key, id, change) == records
  {
  }

  /**
   * A change that keeps the key keeps every key in place, and two updates of
   * the same id are one update by the composed change.
   */
  lemma UpdateWhereTwice<T>(records: seq<T>, key: T -> int, id: int, first: T -> T, second: T -> T)
    requires forall x :: key(first(x)) == key(x)
    ensures forall i :: 0 <= i < |records| ==> key(UpdateWhere(records, key, id, first)[i]) == key(records[i])
    ensures UpdateWhere(UpdateWhere(records, key, id, first), key, id, second)
         == UpdateWhere(records, key, id, x => second(first(x)))
  {
  }
}
