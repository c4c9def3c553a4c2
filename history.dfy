/**
 * The client's assessment history: newest first, at most ten entries, and at
 * most one entry per patient name and identical input record.
 */
module History {
  import opened Patient
  import opened Payload

  /** How many entries the history keeps. */
  const Capacity := 10

  /**
   * One past assessment.  `id` and `date` come from the clock and are opaque;
   * `data` and `result` are copies taken when the entry was made.
   */
  datatype HistoryEntry = HistoryEntry(
    id: int, date: string, name: string, age: string,
    data: PatientRecord, result: PredictionResult)

  /** The entry recorded for input `data` and response `res` at clock reading `now`. */
  function MakeEntry(now: int, date: string, data: PatientRecord, res: PredictionResult): (e: HistoryEntry)
    ensures e.id == now && e.date == date
    ensures e.name == data.patientName && e.age == data.age
    ensures e.data == data && e.result == res
  {
    HistoryEntry(now, date, data.patientName, data.age, data, res)
  }

  /** The dedup key: same name and the same serialised input record. */
  predicate SameKey(h: HistoryEntry, name: string, data: PatientRecord) {
    h.name == name && h.data == data
  }

  /** An entry whose name is the name in its own record, as every entry built by `MakeEntry` is. */
  predicate SelfNamed(h: HistoryEntry) {
    h.name == h.data.patientName
  }

  /** The entries of `prev`, in order, except those with key (`name`, `data`). */
  function Without(prev: seq<HistoryEntry>, name: string, data: PatientRecord): (r: seq<HistoryEntry>)
    ensures |r| <= |prev|
    ensures forall h :: h in r <==> h in prev && !SameKey(h, name, data)
  {
    if prev == [] then []
    else (if SameKey(prev[0], name, data) then [] else [prev[0]]) + Without(prev[1..], name, data)
  }

  /** The first `n` elements of `s`, or all of them when there are fewer. */
  function Take<T>(s: seq<T>, n: nat): (r: seq<T>)
    ensures |r| == if |s| <= n then |s| else n
    ensures forall i :: 0 <= i < |r| ==> r[i] == s[i]
  {
    if |s| <= n then s else s[..n]
  }

  /**
   * The history after recording `entry`: earlier entries with the same key
   * removed, the new entry in front, cut to the capacity.
   */
  function Updated(prev: seq<HistoryEntry>, entry: HistoryEntry): (r: seq<HistoryEntry>)
    ensures 1 <= |r| <= Capacity && r[0] == entry
    ensures forall i :: 1 <= i < |r| ==> !SameKey(r[i], entry.name, entry.data)
  {
    Take([entry] + Without(prev, entry.name, entry.data), Capacity)
  }

  /** No two entries share a key. */
  ghost predicate KeysUnique(hs: seq<HistoryEntry>) {
    forall i, j :: 0 <= i < j < |hs| ==> !SameKey(hs[j], hs[i].name, hs[i].data)
  }

  /** Removal commutes with concatenation: the survivors keep their relative order. */
  lemma {:induction false} WithoutAppend(a: seq<HistoryEntry>, b: seq<HistoryEntry>, name: string, data: PatientRecord)
    ensures Without(a + b, name, data) == Without(a, name, data) + Without(b, name, data)
  {
    if a == [] {
      assert a + b == b;
    } else {
      assert (a + b)[1..] == a[1..] + b;
      WithoutAppend(a[1..], b, name, data);
    }
  }

  /** With nothing to remove, removal is the identity. */
  lemma {:induction false} WithoutNoMatch(prev: seq<HistoryEntry>, name: string, data: PatientRecord)
    requires forall h :: h in prev ==> !SameKey(h, name, data)
    ensures Without(prev, name, data) == prev
  {
    if prev != [] {
      assert prev == [prev[0]] + prev[1..];
      WithoutNoMatch(prev[1..], name, data);
    }
  }

  /** Removing the prefix of a list loses nothing that removal from the whole list keeps in that prefix. */
  lemma {:induction false} WithoutTake(prev: seq<HistoryEntry>, n: nat, name: string, data: PatientRecord)
    requires forall h :: h in prev ==> !SameKey(h, name, data)
    ensures Without(Take(prev, n), name, data) == Take(prev, n)
  {
    WithoutNoMatch(Take(prev, n), name, data);
  }

  /** Every entry after recording is either the new one or a survivor of the old list. */
  lemma UpdatedMembers(prev: seq<HistoryEntry>, entry: HistoryEntry, h: HistoryEntry)
    requires h in Updated(prev, entry)
    ensures h == entry || (h in prev && !SameKey(h, entry.name, entry.data))
  {
    var r := Updated(prev, entry);
    var i :| 0 <= i < |r| && r[i] == h;
    var s := [entry] + Without(prev, entry.name, entry.data);
    assert r[i] == s[i];
    if i > 0 {
      assert s[i] in Without(prev, entry.name, entry.data);
    }
  }

  /**
   * An entry whose key differs from the new one's (same name with other data,
   * or another name) is kept, as long as the list is not full.
   */
  lemma DifferentKeyKept(prev: seq<HistoryEntry>, entry: HistoryEntry, h: HistoryEntry)
    requires h in prev && !SameKey(h, entry.name, entry.data)
    requires |prev| < Capacity
    ensures h in Updated(prev, entry)
  {
    var w := Without(prev, entry.name, entry.data);
    var s := [entry] + w;
    assert h in w;
    var k :| 0 <= k < |w| && w[k] == h;
    assert s[k + 1] == h;
    assert Updated(prev, entry)[k + 1] == h;
  }

  /**
   * Recording a new key into a full list whose entries all have other keys:
   * the eleventh distinct entry pushes the oldest out.
   */
  lemma EleventhEvictsOldest(prev: seq<HistoryEntry>, entry: HistoryEntry)
    requires |prev| == Capacity
    requires forall h :: h in prev ==> !SameKey(h, entry.name, entry.data)
    ensures Updated(prev, entry) == [entry] + prev[..Capacity - 1]
  {
    WithoutNoMatch(prev, entry.name, entry.data);
    assert ([entry] + prev)[..Capacity] == [entry] + prev[..Capacity - 1];
  }

  /**
   * Recording the same name and input twice is the same as recording only
   * the second time: one entry for that key, holding the newer result.
   */
  lemma ReinsertIdentical(prev: seq<HistoryEntry>, first: HistoryEntry, second: HistoryEntry)
    requires first.name == second.name && first.data == second.data
    ensures Updated(Updated(prev, first), second) == Updated(prev, second)
  {
    var name, data := second.name, second.data;
    var w := Without(prev, name, data);
    var once := Updated(prev, first);
    assert once == [first] + Take(w, Capacity - 1);
    assert forall h :: h in Take(w, Capacity - 1) ==> h in w;
    WithoutAppend([first], Take(w, Capacity - 1), name, data);
    assert Without([first], name, data) == [];
    WithoutTake(w, Capacity - 1, name, data);
    assert Without(once, name, data) == Take(w, Capacity - 1);
    assert Take([second] + Take(w, Capacity - 1), Capacity) == Take([second] + w, Capacity);
  }

  /** Recording keeps keys unique. */
  lemma UpdatedKeepsKeysUnique(prev: seq<HistoryEntry>, entry: HistoryEntry)
    requires KeysUnique(prev)
    ensures KeysUnique(Updated(prev, entry))
  {
    var r := Updated(prev, entry);
    var w := Without(prev, entry.name, entry.data);
    WithoutKeysUnique(prev, entry.name, entry.data);
    forall i, j | 0 <= i < j < |r|
      ensures !SameKey(r[j], r[i].name, r[i].data)
    {
      if i > 0 {
        assert r[i] == w[i - 1] && r[j] == w[j - 1];
      }
    }
  }

  /** Removal keeps keys unique. */
  lemma {:induction false} WithoutKeysUnique(prev: seq<HistoryEntry>, name: string, data: PatientRecord)
    requires KeysUnique(prev)
    ensures KeysUnique(Without(prev, name, data))
  {
    if prev != [] {
      assert KeysUnique(prev[1..]) by {
        forall i, j | 0 <= i < j < |prev[1..]|
          ensures !SameKey(prev[1..][j], prev[1..][i].name, prev[1..][i].data)
        {
          assert prev[1..][i] == prev[i + 1] && prev[1..][j] == prev[j + 1];
        }
      }
      WithoutKeysUnique(prev[1..], name, data);
      var rest := Without(prev[1..], name, data);
      if !SameKey(prev[0], name, data) {
        var r := [prev[0]] + rest;
        forall i, j | 0 <= i < j < |r|
          ensures !SameKey(r[j], r[i].name, r[i].data)
        {
          if i == 0 {
            assert r[j] in rest;
            assert r[j] in prev[1..];
            var k :| 0 <= k < |prev[1..]| && prev[1..][k] == r[j];
            assert prev[k + 1] == r[j];
          } else {
            assert r[i] == rest[i - 1] && r[j] == rest[j - 1];
          }
        }
      }
    }
  }

  /**
   * For entries built by `MakeEntry`, the name half of the key is redundant:
   * equal records already carry equal names.
   */
  lemma SelfNamedKeyIsData(h: HistoryEntry, entry: HistoryEntry)
    requires SelfNamed(h) && SelfNamed(entry)
    ensures SameKey(h, entry.name, entry.data) <==> h.data == entry.data
  {
  }
}
