/** Uploading group data as documents: each group's data becomes a fresh
    document and its collection name is mapped to a reference to that
    document. The i-th document created answers the id `docId(i)`. */
module Documents {

  /** `'#' + doc_id`: the reference to a document. */
  function DocRef(id: string): string {
    "#" + id
  }

  /** `for i, c in enumerate(names): collections[c] = '#' + create_doc(...)`:
      every name is mapped, to the document of its last occurrence. */
  function Collect(names: seq<string>, docId: nat -> string): (r: map<string, string>)
    ensures forall c :: c in r <==> c in names
    ensures forall i :: 0 <= i < |names| && names[i] !in names[i + 1..] ==> r[names[i]] == DocRef(docId(i))
    decreases |names|
  {
    if |names| == 0 then map[]
    else
      var n := |names| - 1;
      LastInPrefix(names);
      Collect(names[..n], docId)[names[n] := DocRef(docId(n))]
  }

  /** An occurrence that is last in `names` is last in the prefix without
      the final name too, and differs from the final name. */
  lemma LastInPrefix(names: seq<string>)
    requires |names| > 0
    ensures var n := |names| - 1;
      && (forall c :: c in names <==> c in names[..n] || c == names[n])
      && forall i :: 0 <= i < n && names[i] !in names[i + 1..] ==>
           names[i] != names[n] && names[..n][i] !in names[..n][i + 1..]
  {
    var n := |names| - 1;
    assert names == names[..n] + [names[n]];
    forall i | 0 <= i < n && names[i] !in names[i + 1..]
      ensures names[i] != names[n] && names[..n][i] !in names[..n][i + 1..]
    {
      assert names[n] == names[i + 1..][n - i - 1];
      assert names[..n][i + 1..] == names[i + 1..][..n - i - 1];
    }
  }
}
