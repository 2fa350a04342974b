/** `_get_tags_filter_expression` of `cloudimg/ms_azure.py`: the blob-tag
    query the Azure reconciler sends to find blobs carrying a set of tags,
    `"k1"='v1' and "k2"='v2' ...` in dictionary order, together with a
    reader for such expressions that shows the serialisation loses nothing. */
module AzureTags {
  import opened Outcomes
  import opened Strings
  import opened Dicts

  /** The separator between two clauses. */
  const And := " and "

  /** One tag as a clause: the key in double quotes, the value in single
      quotes. */
  function Clause(k: string, v: string): (r: string)
    ensures |r| == |k| + |v| + 5
    ensures r[0] == '"' && r[|r| - 1] == '\''
  {
    "\"" + k + "\"='" + v + "'"
  }

  /** The clauses of the tags, in order. */
  function Clauses(tags: seq<(string, string)>): (r: seq<string>)
    ensures |r| == |tags|
    ensures forall i :: 0 <= i < |tags| ==> r[i] == Clause(tags[i].0, tags[i].1)
  {
    seq(|tags|, i requires 0 <= i < |tags| => Clause(tags[i].0, tags[i].1))
  }

  /** The filter expression of a tag dictionary. */
  function FilterExpression(tags: Dict): (r: string)
    ensures |tags| == 0 <==> r == ""
    ensures |tags| > 0 ==> StartsWith(r, Clause(tags[0].0, tags[0].1))
  {
    var cs := Clauses(tags);
    if |cs| == 0 then ""
    else if |cs| == 1 then cs[0]
    else
      assert Join(cs, And) == cs[0] + And + Join(cs[1..], And);
      assert (cs[0] + And + Join(cs[1..], And))[..|cs[0]|] == cs[0];
      Join(cs, And)
  }

  // Reading an expression back.

  /** Reads one clause off the front of `s`: the key up to the next '"', then
      `='`, then the value up to the next '\''. Answers the tag and what
      follows the clause. */
  function ReadClause(s: string): (r: Option<((string, string), string)>)
    ensures r.Some? ==> |r.value.1| < |s|
  {
    if |s| == 0 || s[0] != '"' then None
    else
      var t := s[1..];
      var i := Find(t, '"');
      if i == |t| then None
      else
        var u := t[i + 1..];
        if !StartsWith(u, "='") then None
        else
          var w := u[2..];
          var j := Find(w, '\'');
          if j == |w| then None
          else Some(((t[..i], w[..j]), w[j + 1..]))
  }

  /** Reads a non-empty run of clauses separated by " and ". */
  function ReadClauses(s: string): (r: Option<seq<(string, string)>>)
    ensures r.Some? ==> |r.value| >= 1
    decreases |s|
  {
    match ReadClause(s)
    case None => None
    case Some(read) =>
      var rest := read.1;
      if rest == "" then Some([read.0])
      else if !StartsWith(rest, And) then None
      else
        match ReadClauses(rest[|And|..])
        case None => None
        case Some(more) => Some([read.0] + more)
  }

  /** Reads a whole filter expression; the empty text is the empty query. */
  function ReadFilter(s: string): Option<seq<(string, string)>> {
    if s == "" then Some([]) else ReadClauses(s)
  }

  /** A tag the expression can carry unambiguously: no '"' in the key and no
      '\'' in the value. */
  predicate Quotable(kv: (string, string)) {
    Free(kv.0, '"') && Free(kv.1, '\'')
  }

  /** A clause is read back as its own tag, leaving what follows it. */
  lemma ReadClauseOf(k: string, v: string, rest: string)
    requires Quotable((k, v))
    ensures ReadClause(Clause(k, v) + rest) == Some(((k, v), rest))
  {
    var s := Clause(k, v) + rest;
    var b := "='" + v + "'" + rest;
    assert s[1..] == k + ['"'] + b;
    FindAfterPrefix(k, '"', b);
    var u := s[1..][|k| + 1..];
    assert u == b;
    assert u[..2] == "='";
    assert u[2..] == v + ['\''] + rest;
    FindAfterPrefix(v, '\'', rest);
  }

  /** The clauses after the first are the clauses of the tail. */
  lemma ClausesTail(tags: seq<(string, string)>)
    requires |tags| >= 1
    ensures Clauses(tags)[1..] == Clauses(tags[1..])
  {
  }

  /** A clause followed by " and " and a readable run reads as that tag
      followed by the run. */
  lemma ReadClausesCons(k: string, v: string, j: string)
    requires Quotable((k, v))
    requires ReadClauses(j).Some?
    ensures ReadClauses(Clause(k, v) + (And + j)) == Some([(k, v)] + ReadClauses(j).value)
  {
    ReadClauseOf(k, v, And + j);
    assert (And + j)[..|And|] == And;
    assert (And + j)[|And|..] == j;
  }

  /** The expression of two or more tags: the first clause, " and ", the
      expression of the rest. */
  lemma JoinClausesCons(tags: seq<(string, string)>)
    requires |tags| >= 2
    ensures Join(Clauses(tags), And) ==
      Clause(tags[0].0, tags[0].1) + (And + Join(Clauses(tags[1..]), And))
  {
    var c := Clause(tags[0].0, tags[0].1);
    var j := Join(Clauses(tags[1..]), And);
    ClausesTail(tags);
    assert Clauses(tags) == [c] + Clauses(tags[1..]);
    JoinCons(c, Clauses(tags[1..]), And);
    assert c + And + j == c + (And + j);
  }

  /** One step of the induction: a readable join of the tail, with a
      quotable head in front. */
  lemma ReadClausesOfJoinStep(tags: seq<(string, string)>)
    requires |tags| >= 2
    requires Quotable(tags[0])
    requires ReadClauses(Join(Clauses(tags[1..]), And)) == Some(tags[1..])
    ensures ReadClauses(Join(Clauses(tags), And)) == Some(tags)
  {
    JoinClausesCons(tags);
    ReadClausesCons(tags[0].0, tags[0].1, Join(Clauses(tags[1..]), And));
    assert [(tags[0].0, tags[0].1)] + tags[1..] == tags;
  }

  lemma {:induction false} ReadClausesOfJoin(tags: seq<(string, string)>)
    requires |tags| >= 1
    requires forall i :: 0 <= i < |tags| ==> Quotable(tags[i])
    ensures ReadClauses(Join(Clauses(tags), And)) == Some(tags)
    decreases |tags|
  {
    assert Quotable(tags[0]);
    if |tags| == 1 {
      assert Join(Clauses(tags), And) == Clause(tags[0].0, tags[0].1) + "";
      ReadClauseOf(tags[0].0, tags[0].1, "");
      assert [tags[0]] == tags;
    } else {
      var tail := tags[1..];
      assert forall i :: 0 <= i < |tail| ==> tail[i] == tags[i + 1];
      ReadClausesOfJoin(tail);
      ReadClausesOfJoinStep(tags);
    }
  }

  /** The filter expression reads back as the tags it was built from, in
      order, whenever no key holds '"' and no value holds '\''. */
  lemma FilterRoundTrip(tags: Dict)
    requires forall i :: 0 <= i < |tags| ==> Quotable(tags[i])
    ensures ReadFilter(FilterExpression(tags)) == Some(tags)
  {
    if |tags| == 1 {
      ReadClausesOfJoin(tags);
    } else if |tags| > 1 {
      ReadClausesOfJoin(tags);
    }
  }

  /** The expression of the single tag `tag: tag`. */
  lemma SingleTagExpression()
    ensures FilterExpression([("tag", "tag")]) == "\"tag\"='tag'"
  {
  }
}
