/** The installed plugins of the host, in load order, and the first-match
    class lookup over them. */
module Plugins {
  import opened Wrappers
  import opened Analysis

  /** One entry of the host's plugin list (a Tuple<PluginInfo, Plugin>): the
      plugin's name and the classes its class loader can load. A name missing
      from `loader` is a ClassNotFoundException. */
  datatype Plugin = Plugin(info: string, loader: map<ClassName, JavaClass>)

  /** The host's plugin list; its order is the plugins' load order. */
  type Directory = seq<Plugin>

  /** The class loaded by the first plugin, in load order, whose loader knows
      `name`; None when no plugin knows it, in particular when there are no
      plugins. */
  function LoadClass(dir: Directory, name: ClassName): (r: Option<JavaClass>)
    ensures r.None? <==> forall i :: 0 <= i < |dir| ==> name !in dir[i].loader
    ensures r.Some? ==> exists i :: 0 <= i < |dir| && name in dir[i].loader && r.value == dir[i].loader[name]
    decreases |dir|
  {
    if dir == [] then None
    else if name in dir[0].loader then Some(dir[0].loader[name])
    else
      var r := LoadClass(dir[1..], name);
      assert forall i :: 1 <= i < |dir| ==> dir[i] == dir[1..][i - 1];
      r
  }

  /** The plugin that answers is the first one whose loader knows the name:
      any plugin after it is never consulted. */
  lemma {:induction false} LoadClassFirstWins(dir: Directory, name: ClassName, i: nat)
    requires i < |dir| && name in dir[i].loader
    requires forall j :: 0 <= j < i ==> name !in dir[j].loader
    ensures LoadClass(dir, name) == Some(dir[i].loader[name])
  {
    if i > 0 {
      forall j | 0 <= j < i - 1 ensures name !in dir[1..][j].loader {
        assert dir[1..][j] == dir[j + 1];
      }
      LoadClassFirstWins(dir[1..], name, i - 1);
    }
  }

  /** Plugins loaded after one that provides the name do not change the answer. */
  lemma {:induction false} LoadClassIgnoresLaterPlugins(dir: Directory, later: Directory, name: ClassName)
    requires LoadClass(dir, name).Some?
    ensures LoadClass(dir + later, name) == LoadClass(dir, name)
  {
    assert dir != [];
    assert (dir + later)[0] == dir[0];
    if name !in dir[0].loader {
      assert (dir + later)[1..] == dir[1..] + later;
      LoadClassIgnoresLaterPlugins(dir[1..], later, name);
    }
  }

  /** A ClassNotFoundException is swallowed: plugins that do not know the
      name are skipped and the search goes on with the next plugin. */
  lemma {:induction false} LoadClassSkipsMisses(skipped: Directory, rest: Directory, name: ClassName)
    requires forall j :: 0 <= j < |skipped| ==> name !in skipped[j].loader
    ensures LoadClass(skipped + rest, name) == LoadClass(rest, name)
  {
    if skipped != [] {
      assert (skipped + rest)[0] == skipped[0];
      assert (skipped + rest)[1..] == skipped[1..] + rest;
      forall j | 0 <= j < |skipped| - 1 ensures name !in skipped[1..][j].loader {
        assert skipped[1..][j] == skipped[j + 1];
      }
      LoadClassSkipsMisses(skipped[1..], rest, name);
    } else {
      assert skipped + rest == rest;
    }
  }
}
