/** The backend's snippet registry (core/dsCore.py): a dictionary from names to
    snippets whose edits report a DSStatus. */
module DsCore {
  import opened Wrappers
  import opened DsTypes
  import SnippetCore

  function AddedMessage(name: string): string { "Added Snippet: " + name }
  function AddFailedMessage(name: string): string
  {
    "Failed to add Snippet with name " + name + ". Snippet already exists."
  }
  function DeletedMessage(name: string): string { "Deleted Snippet: " + name }
  function DeleteFailedMessage(name: string): string
  {
    "Failed to delete Snippet with name " + name + ". Snippet does not exist."
  }

  /** `addSnippet` on a registry: a new name is inserted with code 0; an
      existing one is kept as it is and the call reports -1. */
  function Add<V>(m: map<string, V>, name: string, newValue: V): (r: (map<string, V>, DSStatus))
    ensures name !in m ==> r.0 == m[name := newValue] && r.1 == DSStatus(0, AddedMessage(name))
    ensures name in m ==> r.0 == m && r.1 == DSStatus(-1, AddFailedMessage(name))
    ensures r.1.code == 0 <==> name !in m
  {
    if name !in m then (m[name := newValue], DSStatus(0, AddedMessage(name)))
    else (m, DSStatus(-1, AddFailedMessage(name)))
  }

  /** `deleteSnippet`: a present name is removed with code 0; an absent one
      leaves the registry unchanged and reports -1. */
  function Delete<V>(m: map<string, V>, name: string): (r: (map<string, V>, DSStatus))
    ensures name in m ==> r.0 == m - {name} && r.1 == DSStatus(0, DeletedMessage(name))
    ensures name !in m ==> r.0 == m && r.1 == DSStatus(-1, DeleteFailedMessage(name))
    ensures r.1.code == 0 <==> name in m
  {
    if name in m then (m - {name}, DSStatus(0, DeletedMessage(name)))
    else (m, DSStatus(-1, DeleteFailedMessage(name)))
  }

  /** `getSnippet`: the stored value iff the name is present. */
  function Get<V>(m: map<string, V>, name: string): (r: Option<V>)
    ensures r.Some? <==> name in m
    ensures r.Some? ==> r.value == m[name]
  {
    if name in m then Some(m[name]) else None
  }

  /** Adding a new name and deleting it again restores the registry, and both
      calls succeed. */
  lemma AddThenDelete<V>(m: map<string, V>, name: string, newValue: V)
    requires name !in m
    ensures var (m1, s1) := Add(m, name, newValue);
      var (m2, s2) := Delete(m1, name);
      s1.code == 0 && s2.code == 0 && m2 == m
  {
    var (m1, _) := Add(m, name, newValue);
    assert m1 - {name} == m;
  }

  /** The second add of a name fails and the first snippet survives. */
  lemma SecondAddFails<V>(m: map<string, V>, name: string, first: V, second: V)
    ensures var (m1, _) := Add(m, name, first);
      var (m2, s2) := Add(m1, name, second);
      s2.code == -1 && m2 == m1 && name in m2 && Get(m2, name) == Get(m1, name)
  {
  }

  /** A success and a failure never render alike, so the status string alone
      tells the caller which happened. */
  lemma OutcomesDistinguishable(name: string)
    ensures StatusString(DSStatus(0, AddedMessage(name))) != StatusString(DSStatus(-1, AddFailedMessage(name)))
    ensures StatusString(DSStatus(0, DeletedMessage(name))) != StatusString(DSStatus(-1, DeleteFailedMessage(name)))
  {
    if StatusString(DSStatus(0, AddedMessage(name))) == StatusString(DSStatus(-1, AddFailedMessage(name))) {
      StatusStringInjective(DSStatus(0, AddedMessage(name)), DSStatus(-1, AddFailedMessage(name)));
    }
    if StatusString(DSStatus(0, DeletedMessage(name))) == StatusString(DSStatus(-1, DeleteFailedMessage(name))) {
      StatusStringInjective(DSStatus(0, DeletedMessage(name)), DSStatus(-1, DeleteFailedMessage(name)));
    }
  }

  /** The names of a registry in some order, each once (`list(d.keys())`; the
      dictionary's insertion order is not modelled). */
  method KeyList<V>(m: map<string, V>) returns (names: seq<string>)
    ensures forall x :: x in names <==> x in m
    ensures forall i, j | 0 <= i < j < |names| :: names[i] != names[j]
    ensures |names| == |m|
  {
    names := [];
    var todo := m.Keys;
    while todo != {}
      invariant todo <= m.Keys
      invariant forall x :: x in names <==> x in m && x !in todo
      invariant forall i, j | 0 <= i < j < |names| :: names[i] != names[j]
      invariant |names| + |todo| == |m.Keys|
      decreases todo
    {
      var x :| x in todo;
      names := names + [x];
      todo := todo - {x};
    }
  }

  class SnippetServer {
    var snippets: map<string, SnippetCore.Snippet>

    constructor ()
      ensures snippets == map[]
    {
      snippets := map[];
    }

    method AddSnippet(name: string) returns (status: DSStatus)
      modifies this
      ensures name in snippets
      ensures name !in old(snippets) ==>
        && fresh(snippets[name]) && snippets[name].name == name
        && snippets[name].data == [] && snippets[name].filter == []
      ensures (snippets, status) == Add(old(snippets), name, snippets[name])
    {
      if name !in snippets {
        var s := new SnippetCore.Snippet(name);
        snippets := snippets[name := s];
        return DSStatus(0, AddedMessage(name));
      } else {
        return DSStatus(-1, AddFailedMessage(name));
      }
    }

    method DeleteSnippet(name: string) returns (status: DSStatus)
      modifies this
      ensures (snippets, status) == Delete(old(snippets), name)
    {
      if name in snippets {
        snippets := snippets - {name};
        return DSStatus(0, DeletedMessage(name));
      } else {
        return DSStatus(-1, DeleteFailedMessage(name));
      }
    }

    method GetSnippet(name: string) returns (r: Option<SnippetCore.Snippet>)
      ensures r == Get(snippets, name)
    {
      if name in snippets {
        return Some(snippets[name]);
      }
      return None;
    }

    method ListSnippets() returns (names: seq<string>)
      ensures forall x :: x in names <==> x in snippets
      ensures forall i, j | 0 <= i < j < |names| :: names[i] != names[j]
    {
      names := KeyList(snippets);
    }

    method DeleteAllSnippets()
      modifies this
      ensures snippets == map[]
    {
      snippets := map[];
    }
  }
}
