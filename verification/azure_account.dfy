/** How the Azure reconciler authenticates to a storage account
    (`cloudimg/ms_azure.py`): the parser and validator of storage connection
    strings, the account URL, and the read-only SAS URI handed out for a
    published blob. Generating the SAS token itself is the SDK's business
    and is a parameter here. */
module AzureAccount {
  import opened Outcomes
  import opened Strings
  import opened Dicts

  datatype Error = ValueError(message: string)

  // The pieces of a connection string.

  /** The tag a piece assigns: the text before its first '=' and everything
      after it, or nothing when the piece has no '='. */
  function Assignment(piece: string): (r: Option<(string, string)>)
    ensures r.None? <==> Find(piece, '=') == |piece|
    ensures r.Some? ==> Free(r.value.0, '=') && piece == r.value.0 + "=" + r.value.1
  {
    if Find(piece, '=') < |piece| then Some(SplitOnce(piece, '=')) else None
  }

  /** The dictionary the pieces build, read left to right: each assigning
      piece writes its key, so a later piece overwrites an earlier one with
      the same key; a piece without '=' is skipped. */
  function Pairs(pieces: seq<string>): (d: Dict)
    decreases |pieces|
  {
    if |pieces| == 0 then []
    else
      var d := Pairs(pieces[..|pieces| - 1]);
      var a := Assignment(pieces[|pieces| - 1]);
      if a.Some? then Put(d, a.value.0, a.value.1) else d
  }

  /** `piece` assigns key `k`. */
  predicate AssignsKey(piece: string, k: string) {
    Assignment(piece).Some? && Assignment(piece).value.0 == k
  }

  /** The value of a key is the one its last assigning piece gives it. */
  lemma {:induction false} PairsLast(pieces: seq<string>, i: nat, k: string, v: string)
    requires i < |pieces| && Assignment(pieces[i]) == Some((k, v))
    requires forall j :: i < j < |pieces| ==> !AssignsKey(pieces[j], k)
    ensures Get(Pairs(pieces), k) == Some(v)
    decreases |pieces|
  {
    var n := |pieces| - 1;
    var init := pieces[..n];
    if i < n {
      assert !AssignsKey(pieces[n], k);
      assert init[i] == pieces[i];
      assert forall j :: i < j < |init| ==> init[j] == pieces[j];
      PairsLast(init, i, k, v);
    }
  }

  /** A key no piece assigns is absent. */
  lemma {:induction false} PairsAbsent(pieces: seq<string>, k: string)
    requires forall j :: 0 <= j < |pieces| ==> !AssignsKey(pieces[j], k)
    ensures Get(Pairs(pieces), k) == None
    decreases |pieces|
  {
    if |pieces| > 0 {
      var init := pieces[..|pieces| - 1];
      assert forall j :: 0 <= j < |init| ==> init[j] == pieces[j];
      PairsAbsent(init, k);
    }
  }

  // Validation.

  const ErrPrefix := "Invalid connection string:"

  /** The keys a connection string must give a non-empty value. */
  const MandatoryKeys: seq<string> := ["AccountName", "AccountKey"]

  /** `k` has a non-empty value in `d`. */
  predicate Filled(d: Dict, k: string) {
    Get(d, k).Some? && Get(d, k).value != ""
  }

  function MissingKey(k: string): Error {
    ValueError(ErrPrefix + " Missing key " + k)
  }

  function MissingValue(k: string): Error {
    ValueError(ErrPrefix + " Missing value for " + k)
  }

  /** The mandatory keys are checked in order; the first one missing or
      empty names the error. */
  function CheckKeys(d: Dict, keys: seq<string>): (r: Result<Dict, Error>)
    ensures r.Ok? <==> forall i :: 0 <= i < |keys| ==> Filled(d, keys[i])
    ensures r.Ok? ==> r.value == d
    ensures |keys| > 0 && Get(d, keys[0]).None? ==> r == Fail(MissingKey(keys[0]))
    ensures |keys| > 0 && Get(d, keys[0]) == Some("") ==> r == Fail(MissingValue(keys[0]))
    ensures |keys| > 0 && Filled(d, keys[0]) ==> r == CheckKeys(d, keys[1..])
  {
    if |keys| == 0 then Ok(d)
    else
      var g := Get(d, keys[0]);
      if g.None? then Fail(MissingKey(keys[0]))
      else if g.value == "" then Fail(MissingValue(keys[0]))
      else
        var r := CheckKeys(d, keys[1..]);
        assert forall i :: 1 <= i < |keys| ==> keys[i] == keys[1..][i - 1];
        r
  }

  /** `_get_values_from_connection_string`: the pairs of the ';'-separated
      pieces, refused when there is none or when `AccountName` or
      `AccountKey` is missing or empty, checked in that order. */
  function ParseConnectionString(s: string): (r: Result<Dict, Error>)
    ensures var d := Pairs(Split(s, ';'));
      && (r.Ok? <==> Filled(d, "AccountName") && Filled(d, "AccountKey"))
      && (r.Ok? ==> r.value == d)
      && (|d| == 0 ==> r == Fail(ValueError(ErrPrefix + " No keyword elements found.")))
      && (|d| > 0 && Get(d, "AccountName").None? ==> r == Fail(MissingKey("AccountName")))
      && (Get(d, "AccountName") == Some("") ==> r == Fail(MissingValue("AccountName")))
      && (Filled(d, "AccountName") && Get(d, "AccountKey").None? ==> r == Fail(MissingKey("AccountKey")))
      && (Filled(d, "AccountName") && Get(d, "AccountKey") == Some("") ==> r == Fail(MissingValue("AccountKey")))
  {
    var d := Pairs(Split(s, ';'));
    if |d| == 0 then Fail(ValueError(ErrPrefix + " No keyword elements found."))
    else
      var r := CheckKeys(d, MandatoryKeys);
      assert MandatoryKeys[0] == "AccountName" && MandatoryKeys[1] == "AccountKey";
      assert MandatoryKeys[1..][1..] == [];
      r
  }

  // Writing a connection string.

  /** One `key=value` piece per entry. */
  function Pieces(d: seq<(string, string)>): (r: seq<string>)
    ensures |r| == |d|
    ensures forall i :: 0 <= i < |d| ==> r[i] == d[i].0 + "=" + d[i].1
  {
    seq(|d|, i requires 0 <= i < |d| => d[i].0 + "=" + d[i].1)
  }

  /** An entry a connection string can carry: no '=' or ';' in the key, no
      ';' in the value. */
  predicate Writable(kv: (string, string)) {
    Free(kv.0, '=') && Free(kv.0, ';') && Free(kv.1, ';')
  }

  /** The connection string of a dictionary. */
  function ConnectionString(d: Dict): string {
    Join(Pieces(d), ";")
  }

  /** A piece `k=v` with `k` free of '=' assigns `v` to `k`. */
  lemma AssignmentOfPiece(k: string, v: string)
    requires Free(k, '=')
    ensures Assignment(k + "=" + v) == Some((k, v))
  {
    FindAfterPrefix(k, '=', v);
  }

  /** A key absent from a dictionary is written at its end. */
  lemma PutNew(d: Dict, k: string, v: string)
    requires k !in Keys(d)
    ensures Put(d, k, v) == d + [(k, v)]
  {
    assert forall j :: 0 <= j < |d| ==> Keys(d)[j] != k;
  }

  /** The pieces of a dictionary rebuild it entry by entry. */
  lemma {:induction false} PairsOfPieces(d: Dict)
    requires forall i :: 0 <= i < |d| ==> Free(d[i].0, '=')
    ensures Pairs(Pieces(d)) == d
    decreases |d|
  {
    if |d| > 0 {
      var n := |d| - 1;
      var init: Dict := d[..n];
      assert Pieces(d)[..n] == Pieces(init);
      PairsOfPieces(init);
      AssignmentOfPiece(d[n].0, d[n].1);
      assert d[n].0 !in Keys(init);
      PutNew(init, d[n].0, d[n].1);
      assert init + [(d[n].0, d[n].1)] == d;
    }
  }

  /** Writing a dictionary out and parsing it gives it back, provided it
      holds a non-empty `AccountName` and `AccountKey` and every entry is
      writable. */
  lemma ConnectionStringRoundTrip(d: Dict)
    requires forall i :: 0 <= i < |d| ==> Writable(d[i])
    requires Filled(d, "AccountName") && Filled(d, "AccountKey")
    ensures ParseConnectionString(ConnectionString(d)) == Ok(d)
  {
    assert |d| >= 1;
    assert forall i :: 0 <= i < |Pieces(d)| ==> Free(Pieces(d)[i], ';') by {
      forall i | 0 <= i < |Pieces(d)|
        ensures Free(Pieces(d)[i], ';')
      {
        assert Writable(d[i]);
        var p := Pieces(d)[i];
        assert p == d[i].0 + "=" + d[i].1;
        assert forall j :: 0 <= j < |p| ==> p[j] == (if j < |d[i].0| then d[i].0[j] else if j == |d[i].0| then '=' else d[i].1[j - |d[i].0| - 1]);
      }
    }
    SplitJoin(Pieces(d), ';');
    PairsOfPieces(d);
  }

  /** Without a single '=' there is nothing to read. */
  lemma NoAssignmentRefused(s: string)
    requires Free(s, '=')
    ensures ParseConnectionString(s).Fail?
  {
    forall j | 0 <= j < |Split(s, ';')|
      ensures !AssignsKey(Split(s, ';')[j], "AccountName")
    {
      SplitFree(s, ';', '=', j);
    }
    PairsAbsent(Split(s, ';'), "AccountName");
  }

  /** Every piece of a split of `s` is free of whatever `s` is free of. */
  lemma {:induction false} SplitFree(s: string, c: char, x: char, j: nat)
    requires Free(s, x)
    requires j < |Split(s, c)|
    ensures Free(Split(s, c)[j], x)
    decreases |s|
  {
    var i := Find(s, c);
    if i < |s| {
      if j > 0 {
        SplitFree(s[i + 1..], c, x, j - 1);
      }
    }
  }

  // Addresses.

  /** The endpoint suffix after `https://<account>.`. */
  const DefaultEndpointSuffix := "blob.core.windows.net"

  /** Days a generated SAS token stays valid: three years. */
  const DefaultSasExpiryDays := 365 * 3

  /** The account URL the storage-account factory connects to. */
  function AccountUrl(account: string, suffix: string): (r: string)
    ensures StartsWith(r, "https://")
  {
    "https://" + account + "." + suffix
  }

  /** `get_blob_sas_uri`: the blob's address under the account URL, with the
      SAS token as its query. */
  function SasUri(account: string, suffix: string, container: string, name: string, token: string): (r: string)
    ensures StartsWith(r, AccountUrl(account, suffix) + "/")
  {
    AccountUrl(account, suffix) + "/" + container + "/" + name + "?" + token
  }

  /** Gluing two texts free of `x` with a character other than `x` keeps
      the result free of `x`. */
  lemma FreeGlue(a: string, c: char, b: string, x: char)
    requires Free(a, x) && Free(b, x) && c != x
    ensures Free(a + [c] + b, x)
  {
    var s := a + [c] + b;
    assert forall j :: |a| < j < |s| ==> s[j] == b[j - |a| - 1];
  }

  /** Two texts free of `x`, glued with `x`, split back into the two. */
  lemma SplitTwo(b: string, c: string, x: char)
    requires Free(b, x) && Free(c, x)
    ensures Split(b + [x] + c, x) == [b, c]
  {
    FindAfterPrefix(b, x, c);
    assert Split(c, x) == [c];
  }

  /** Three texts free of `x`, glued with `x`, split back into the three. */
  lemma SplitThree(a: string, b: string, c: string, x: char)
    requires Free(a, x) && Free(b, x) && Free(c, x)
    ensures Split(a + [x] + b + [x] + c, x) == [a, b, c]
  {
    var tail := b + [x] + c;
    assert a + [x] + b + [x] + c == a + [x] + tail;
    FindAfterPrefix(a, x, tail);
    SplitTwo(b, c, x);
  }

  /** Past the scheme, the '/' pieces of the SAS URI are the host, the
      container and the name with its query. */
  lemma SasUriSlashes(account: string, suffix: string, container: string, name: string, token: string)
    requires Free(account, '/') && Free(suffix, '/') && Free(container, '/')
    requires Free(name, '/') && Free(token, '/')
    ensures var r := SasUri(account, suffix, container, name, token);
      Split(r[|"https://"|..], '/') == [account + "." + suffix, container, name + "?" + token]
  {
    var host := account + "." + suffix;
    var last := name + "?" + token;
    var r := SasUri(account, suffix, container, name, token);
    assert r[|"https://"|..] == host + ['/'] + container + ['/'] + last;
    FreeGlue(account, '.', suffix, '/');
    FreeGlue(name, '?', token, '/');
    SplitThree(host, container, last, '/');
  }

  /** The query of the last piece is the token. */
  lemma SasUriQuery(name: string, token: string)
    requires Free(name, '?')
    ensures Find(name + "?" + token, '?') == |name|
    ensures SplitOnce(name + "?" + token, '?') == (name, token)
  {
    FindAfterPrefix(name, '?', token);
  }

  /** The address the tests expect for account "foo", container "foo", blob
      "bar" and token "Foo=Bar". */
  lemma SasUriExample()
    ensures SasUri("foo", DefaultEndpointSuffix, "foo", "bar", "Foo=Bar") ==
      "https://foo.blob.core.windows.net/foo/bar?Foo=Bar"
  {
  }
}
