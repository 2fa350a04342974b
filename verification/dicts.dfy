/** Python dictionaries from strings to strings, as the source uses them for
    tags: insertion-ordered, one entry per key, `d[k] = v` overwriting in
    place and `d.update(e)` writing the entries of `e` in order. `None` and
    `{}` are the same value here, since every use in the source is `tags or {}`
    or `if tags`. */
module Dicts {
  import opened Outcomes

  /** No key occurs twice. */
  predicate DistinctKeys(d: seq<(string, string)>) {
    forall i, j :: 0 <= i < j < |d| ==> d[i].0 != d[j].0
  }

  /** An insertion-ordered dictionary. */
  type Dict = d: seq<(string, string)> | DistinctKeys(d) witness []

  /** The keys, in insertion order (`list(d)`). */
  function Keys(d: Dict): (ks: seq<string>)
    ensures |ks| == |d|
    ensures forall i :: 0 <= i < |d| ==> ks[i] == d[i].0
  {
    seq(|d|, i requires 0 <= i < |d| => d[i].0)
  }

  /** Where `k` sits, or `|d|` when it is absent. */
  function IndexOf(d: seq<(string, string)>, k: string): (i: nat)
    ensures i <= |d|
    ensures i < |d| ==> d[i].0 == k
    ensures forall j :: 0 <= j < i ==> d[j].0 != k
  {
    if |d| == 0 then 0
    else if d[0].0 == k then 0
    else 1 + IndexOf(d[1..], k)
  }

  /** `d.get(k)`. */
  function Get(d: Dict, k: string): (r: Option<string>)
    ensures r.Some? <==> k in Keys(d)
    ensures r.Some? ==> (k, r.value) in d
  {
    var i := IndexOf(d, k);
    if i < |d| then Some(d[i].1) else None
  }

  /** The three facts that pin down `IndexOf` pin it down uniquely. */
  lemma IndexOfUnique(d: seq<(string, string)>, k: string, i: nat)
    requires i <= |d|
    requires i < |d| ==> d[i].0 == k
    requires forall j :: 0 <= j < i ==> d[j].0 != k
    ensures IndexOf(d, k) == i
  {
  }

  /** An entry of a dictionary is what `Get` finds for its key. */
  lemma GetEntry(d: Dict, i: nat)
    requires i < |d|
    ensures Get(d, d[i].0) == Some(d[i].1)
  {
    IndexOfUnique(d, d[i].0, i);
  }

  /** `d[k] = v`: an existing key keeps its position, a new key goes last. */
  function Put(d: Dict, k: string, v: string): (r: Dict)
    ensures Get(r, k) == Some(v)
    ensures forall k' :: k' != k ==> Get(r, k') == Get(d, k')
    ensures k in Keys(d) ==> Keys(r) == Keys(d)
    ensures k !in Keys(d) ==> Keys(r) == Keys(d) + [k]
  {
    var i := IndexOf(d, k);
    if i < |d| then
      var r := d[i := (k, v)];
      assert Keys(r) == Keys(d);
      IndexOfUnique(r, k, i);
      forall k' | k' != k ensures Get(r, k') == Get(d, k') {
        IndexOfUnique(r, k', IndexOf(d, k'));
      }
      r
    else
      var r := d + [(k, v)];
      assert Keys(r) == Keys(d) + [k];
      IndexOfUnique(r, k, i);
      forall k' | k' != k ensures Get(r, k') == Get(d, k') {
        var j := IndexOf(d, k');
        IndexOfUnique(r, k', if j < |d| then j else |r|);
      }
      r
  }

  /** `d.update(e)`: the entries of `e` written into `d` one by one. */
  function Update(d: Dict, e: Dict): (r: Dict)
    decreases |e|
  {
    if |e| == 0 then d
    else Put(Update(d, e[..|e| - 1]), e[|e| - 1].0, e[|e| - 1].1)
  }

  /** After `d.update(e)` a key has its value from `e` when `e` has it, and
      from `d` otherwise. */
  lemma {:induction false} GetUpdate(d: Dict, e: Dict, k: string)
    ensures Get(Update(d, e), k) == if k in Keys(e) then Get(e, k) else Get(d, k)
    decreases |e|
  {
    if |e| > 0 {
      var init: Dict := e[..|e| - 1];
      var last := e[|e| - 1];
      GetUpdate(d, init, k);
      KeysSnoc(e);
      if k == last.0 {
        GetEntry(e, |e| - 1);
      } else if k in Keys(init) {
        var i := IndexOf(init, k);
        IndexOfUnique(e, k, i);
      } else {
        assert k !in Keys(e);
      }
    }
  }

  /** The keys of a dictionary are those of all but its last entry, then
      the last entry's. */
  lemma KeysSnoc(e: Dict)
    requires |e| > 0
    ensures Keys(e) == Keys(e[..|e| - 1]) + [e[|e| - 1].0]
  {
    var init: Dict := e[..|e| - 1];
    assert forall i :: 0 <= i < |e| - 1 ==> Keys(e)[i] == Keys(init)[i];
  }

  /** The keys of `d.update(e)`: those of `d` in their order, then the new
      keys of `e` in theirs. */
  lemma {:induction false} KeysUpdate(d: Dict, e: Dict)
    ensures forall k :: k in Keys(Update(d, e)) <==> k in Keys(d) || k in Keys(e)
    ensures |d| <= |Update(d, e)| && Keys(Update(d, e))[..|d|] == Keys(d)
    decreases |e|
  {
    if |e| > 0 {
      var init: Dict := e[..|e| - 1];
      KeysUpdate(d, init);
      var before := Keys(Update(d, init));
      KeysSnoc(e);
      assert (before + [e[|e| - 1].0])[..|d|] == before[..|d|];
    }
  }

  /** One `{'Key': k, 'Value': v}` record. */
  datatype Tag = Tag(key: string, value: string)

  /** The AWS tag list of a tag dictionary (`_get_tagdict`). */
  function Records(d: Dict): (r: seq<Tag>)
    ensures |r| == |d|
    ensures forall i :: 0 <= i < |d| ==> r[i].key == d[i].0 && r[i].value == d[i].1
  {
    seq(|d|, i requires 0 <= i < |d| => Tag(d[i].0, d[i].1))
  }

  /** Rebuilding a dictionary from its records gives it back: the records
      lose neither an entry nor the order. */
  function FromRecords(r: seq<Tag>): seq<(string, string)> {
    seq(|r|, i requires 0 <= i < |r| => (r[i].key, r[i].value))
  }

  lemma RecordsRoundTrip(d: Dict)
    ensures FromRecords(Records(d)) == d
  {
  }
}
