/** Namespace-scoped names (crates/core/src/namespace.rs). */
module Names {
  import Text

  function Scoped(namespace: string, name: string): string {
    if namespace == "" then name else namespace + "/" + name
  }

  function Split(scoped: string): (string, string) {
    var i := Text.Find(scoped, '/');
    if i < |scoped| then (scoped[..i], scoped[i + 1..]) else ("", scoped)
  }

  lemma SplitAtFirst(a: string, b: string)
    requires '/' !in a
    ensures Split(a + "/" + b) == (a, b)
  {
    assert a + "/" + b == a + ("/" + b);
    Text.FindAppend(a, "/" + b, '/');
  }

  // Joining again always gives the scoped name back, unless it begins with the slash.
  lemma ScopedOfSplitIff(scoped: string)
    ensures Scoped(Split(scoped).0, Split(scoped).1) == scoped <==> scoped == "" || scoped[0] != '/'
  {
    var i := Text.Find(scoped, '/');
    if i < |scoped| { assert scoped == scoped[..i] + "/" + scoped[i + 1..]; }
  }

  // Splitting undoes joining exactly if the namespace has no slash, and an unscoped name has none.
  lemma SplitOfScopedIff(namespace: string, name: string)
    ensures Split(Scoped(namespace, name)) == (namespace, name)
        <==> '/' !in namespace && (namespace == "" ==> '/' !in name)
  {
    var i := Text.Find(name, '/');
    if namespace == "" {
      if i < |name| && i == 0 { assert name[..0] == ""; assert name[1..] != name; }
    } else if '/' !in namespace {
      SplitAtFirst(namespace, name);
    } else {
      assert '/' !in Split(Scoped(namespace, name)).0;
    }
  }
}
