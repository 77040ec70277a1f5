/**
 * The hover-toolbar plugin manager: a map from plugin id to plugin and a map
 * from group to the plugins registered in it, both kept in insertion order as
 * JavaScript `Map`s are, plus the `createPlugin` helper.
 */
module HoverToolbarPlugins {
  import opened Wrappers

  datatype Group = Format | Insert | Block | Custom

  /** The click handler of a plugin: the helper's default message, or a caller's callback. */
  datatype Action = DefaultInfoMessage | Callback(handle: nat)

  datatype Plugin = Plugin(
    id: string,
    icon: string,
    title: string,
    action: Action,
    shortcut: Option<string>,
    group: Option<Group>)

  /** `plugin.group || 'custom'`. */
  function GroupKey(p: Plugin): Group { p.group.GetOr(Custom) }

  // ---------------------------------------------------------------------------
  // Insertion-ordered keys

  predicate NoDup<K(==)>(s: seq<K>) {
    forall i, j :: 0 <= i < j < |s| ==> s[i] != s[j]
  }

  /** The key order after `Map.set(k, ...)`: a new key goes last, an existing one keeps its place. */
  function SetKey<K(==,!new)>(keys: seq<K>, k: K): (r: seq<K>)
    ensures NoDup(keys) ==> NoDup(r)
    ensures forall x :: x in r <==> x in keys || x == k
  {
    if k in keys then keys else keys + [k]
  }

  /** The key order after `Map.delete(k)`. */
  function RemoveKey<K(==,!new)>(keys: seq<K>, k: K): (r: seq<K>)
    ensures forall x :: x in r <==> x in keys && x != k
    ensures NoDup(keys) ==> NoDup(r)
  {
    if keys == [] then []
    else if keys[0] == k then RemoveKey(keys[1..], k)
    else
      var rest := RemoveKey(keys[1..], k);
      assert NoDup(keys) ==> keys[0] !in keys[1..];
      [keys[0]] + rest
  }

  // ---------------------------------------------------------------------------
  // Group lists

  /** `findIndex(p => p.id === id)`. */
  function FindById(ps: seq<Plugin>, id: string): (i: int)
    ensures -1 <= i < |ps|
    ensures i >= 0 ==> ps[i].id == id
    ensures forall j :: 0 <= j < |ps| && (i == -1 || j < i) ==> ps[j].id != id
  {
    if ps == [] then -1
    else if ps[|ps| - 1].id == id && FindById(ps[..|ps| - 1], id) == -1 then |ps| - 1
    else FindById(ps[..|ps| - 1], id)
  }

  /** `splice(index, 1)` at the first plugin with the id, when there is one. */
  function RemoveFirst(ps: seq<Plugin>, id: string): seq<Plugin> {
    var i := FindById(ps, id);
    if i == -1 then ps else ps[..i] + ps[i + 1..]
  }

  /**
   * Only the first plugin with the id goes: the list is unchanged when there
   * is none, and otherwise loses exactly that one entry, the rest in order.
   */
  lemma RemoveFirstSpec(ps: seq<Plugin>, id: string)
    ensures (forall j :: 0 <= j < |ps| ==> ps[j].id != id) ==> RemoveFirst(ps, id) == ps
    ensures forall i :: 0 <= i < |ps| && ps[i].id == id && (forall j :: 0 <= j < i ==> ps[j].id != id) ==>
      ps == ps[..i] + [ps[i]] + ps[i + 1..] && RemoveFirst(ps, id) == ps[..i] + ps[i + 1..]
    ensures multiset(RemoveFirst(ps, id)) <= multiset(ps)
  {
    var i := FindById(ps, id);
    if i >= 0 {
      assert ps == ps[..i] + [ps[i]] + ps[i + 1..];
    }
    forall k | 0 <= k < |ps| && ps[k].id == id && (forall j :: 0 <= j < k ==> ps[j].id != id)
      ensures ps == ps[..k] + [ps[k]] + ps[k + 1..] && RemoveFirst(ps, id) == ps[..k] + ps[k + 1..]
    {
      FindByIdUnique(ps, id, k);
      assert ps == ps[..k] + [ps[k]] + ps[k + 1..];
    }
  }

  /** Removing by one id keeps every plugin with another id. */
  lemma RemoveFirstKeepsOthers(ps: seq<Plugin>, id: string, p: Plugin)
    requires p in ps && p.id != id
    ensures p in RemoveFirst(ps, id)
  {
    var i := FindById(ps, id);
    if i >= 0 {
      assert ps == ps[..i] + [ps[i]] + ps[i + 1..];
    }
    forall k | 0 <= k < |ps| && ps[k].id == id && (forall j :: 0 <= j < k ==> ps[j].id != id)
      ensures ps == ps[..k] + [ps[k]] + ps[k + 1..] && RemoveFirst(ps, id) == ps[..k] + ps[k + 1..]
    {
      FindByIdUnique(ps, id, k);
      assert ps == ps[..k] + [ps[k]] + ps[k + 1..];
    }
  }

  // ---------------------------------------------------------------------------
  // The registry as a value

  datatype Registry = Registry(
    pluginKeys: seq<string>,
    plugins: map<string, Plugin>,
    groupKeys: seq<Group>,
    groups: map<Group, seq<Plugin>>)

  const Empty := Registry([], map[], [], map[])

  /**
   * The key sequences list the maps' keys once each; every plugin is filed
   * under its own id and appears in the list of its group.
   */
  ghost predicate Valid(r: Registry) {
    && NoDup(r.pluginKeys) && (forall k :: k in r.plugins <==> k in r.pluginKeys)
    && NoDup(r.groupKeys) && (forall g :: g in r.groups <==> g in r.groupKeys)
    && (forall k :: k in r.plugins ==>
          && r.plugins[k].id == k
          && GroupKey(r.plugins[k]) in r.groups
          && r.plugins[k] in r.groups[GroupKey(r.plugins[k])])
  }

  /** `getByGroup`: the group's list, or empty for a group never created. */
  function ByGroup(r: Registry, g: Group): seq<Plugin> {
    if g in r.groups then r.groups[g] else []
  }

  /** `register`: file the plugin under its id and append it to its group, creating the group. */
  function AfterRegister(r: Registry, p: Plugin): (r': Registry)
    ensures Valid(r) ==> Valid(r')
  {
    var g := GroupKey(p);
    Registry(SetKey(r.pluginKeys, p.id), r.plugins[p.id := p],
             SetKey(r.groupKeys, g), r.groups[g := ByGroup(r, g) + [p]])
  }

  /** `registerMany`: `register` on each plugin in order. */
  function RegisterAll(r: Registry, ps: seq<Plugin>): Registry
    decreases |ps|
  {
    if ps == [] then r else RegisterAll(AfterRegister(r, ps[0]), ps[1..])
  }

  /** `unregister`: false and no change for an unknown id; otherwise drop it from the map and from its group's list. */
  function AfterUnregister(r: Registry, id: string): (res: (bool, Registry))
    ensures Valid(r) ==> Valid(res.1)
  {
    if id !in r.plugins then (false, r)
    else
      var p := r.plugins[id];
      var g := GroupKey(p);
      var r' := Registry(RemoveKey(r.pluginKeys, id), r.plugins - {id}, r.groupKeys,
                         if g in r.groups then r.groups[g := RemoveFirst(r.groups[g], id)] else r.groups);
      assert Valid(r) ==> Valid(r') by {
        if Valid(r) {
          forall k | k in r'.plugins
            ensures r'.plugins[k] in r'.groups[GroupKey(r'.plugins[k])]
          {
            if GroupKey(r.plugins[k]) == g {
              RemoveFirstKeepsOthers(r.groups[g], id, r.plugins[k]);
            }
          }
        }
      }
      (true, r')
  }

  /** `getAll`: the plugins in the order their ids were first registered. */
  function Values(keys: seq<string>, plugins: map<string, Plugin>): (vs: seq<Plugin>)
    requires forall k :: k in keys ==> k in plugins
    ensures |vs| == |keys|
    ensures forall i :: 0 <= i < |keys| ==> vs[i] == plugins[keys[i]]
  {
    if keys == [] then [] else [plugins[keys[0]]] + Values(keys[1..], plugins)
  }

  /** After `register(p)`, `get(p.id)` is `p` and every other id looks up as before. */
  lemma RegisterThenGet(r: Registry, p: Plugin, id: string)
    ensures p.id in AfterRegister(r, p).plugins && AfterRegister(r, p).plugins[p.id] == p
    ensures id != p.id ==> (id in AfterRegister(r, p).plugins <==> id in r.plugins)
    ensures id != p.id && id in r.plugins ==> AfterRegister(r, p).plugins[id] == r.plugins[id]
  {
  }

  /** `register` appends to the plugin's group, creating it if needed, and leaves other groups alone. */
  lemma RegisterGroups(r: Registry, p: Plugin, g: Group)
    ensures ByGroup(AfterRegister(r, p), GroupKey(p)) == ByGroup(r, GroupKey(p)) + [p]
    ensures GroupKey(p) in AfterRegister(r, p).groupKeys
    ensures g != GroupKey(p) ==> ByGroup(AfterRegister(r, p), g) == ByGroup(r, g)
    ensures g in r.groupKeys ==> g in AfterRegister(r, p).groupKeys
  {
  }

  /** A new id is listed last by `getAll`; an existing id keeps its place. */
  lemma RegisterOrder(r: Registry, p: Plugin)
    requires Valid(r)
    ensures p.id !in r.plugins ==> AfterRegister(r, p).pluginKeys == r.pluginKeys + [p.id]
    ensures p.id in r.plugins ==> AfterRegister(r, p).pluginKeys == r.pluginKeys
  {
  }

  /** Registering a list and then one more plugin is registering the longer list. */
  lemma {:induction false} RegisterAllSnoc(r: Registry, ps: seq<Plugin>, p: Plugin)
    ensures RegisterAll(r, ps + [p]) == AfterRegister(RegisterAll(r, ps), p)
    decreases |ps|
  {
    if ps == [] {
      assert [p][1..] == [];
    } else {
      assert (ps + [p])[1..] == ps[1..] + [p];
      RegisterAllSnoc(AfterRegister(r, ps[0]), ps[1..], p);
    }
  }

  /** A prefix one longer is the prefix and the next element. */
  lemma TakeSnoc(ps: seq<Plugin>, i: nat)
    requires i < |ps|
    ensures ps[..i + 1] == ps[..i] + [ps[i]]
  {
  }

  /** Registration keeps the registry consistent whatever the list. */
  lemma {:induction false} RegisterAllValid(r: Registry, ps: seq<Plugin>)
    requires Valid(r)
    ensures Valid(RegisterAll(r, ps))
    decreases |ps|
  {
    if ps != [] {
      RegisterAllValid(AfterRegister(r, ps[0]), ps[1..]);
    }
  }

  /** `unregister` on an unknown id reports false and changes nothing. */
  lemma UnregisterUnknown(r: Registry, id: string)
    requires id !in r.plugins
    ensures AfterUnregister(r, id) == (false, r)
  {
  }

  /**
   * `unregister` on a known id reports true, forgets the id, removes the first
   * entry with that id from its group (one entry shorter, in a consistent
   * registry) and keeps every group key and every other plugin.
   */
  lemma UnregisterKnown(r: Registry, id: string)
    requires Valid(r) && id in r.plugins
    ensures var (ok, r') := AfterUnregister(r, id);
            var g := GroupKey(r.plugins[id]);
            && ok && id !in r'.plugins && id !in r'.pluginKeys
            && r'.groupKeys == r.groupKeys
            && ByGroup(r', g) == RemoveFirst(ByGroup(r, g), id)
            && |ByGroup(r', g)| == |ByGroup(r, g)| - 1
            && (forall h :: h != g ==> ByGroup(r', h) == ByGroup(r, h))
            && (forall k :: k in r.plugins && k != id ==> k in r'.plugins && r'.plugins[k] == r.plugins[k])
  {
    var g := GroupKey(r.plugins[id]);
    RemoveFirstShrinks(r.groups[g], r.plugins[id]);
  }

  /** A plugin in the list guarantees something to remove. */
  lemma RemoveFirstShrinks(ps: seq<Plugin>, p: Plugin)
    requires p in ps
    ensures |RemoveFirst(ps, p.id)| == |ps| - 1
  {
    var i :| 0 <= i < |ps| && ps[i] == p;
    assert FindById(ps, p.id) != -1;
  }

  /**
   * Registering one id twice under different groups and then unregistering it
   * leaves the first registration in its old group: `unregister` only looks in
   * the group of the plugin currently filed under the id.
   */
  lemma ReRegisteredIdLeavesStaleEntry(a: Plugin, b: Plugin)
    requires a.id == b.id && GroupKey(a) != GroupKey(b)
    ensures var r := AfterUnregister(AfterRegister(AfterRegister(Empty, a), b), a.id).1;
            a.id !in r.plugins && ByGroup(r, GroupKey(a)) == [a]
  {
    var r2 := AfterRegister(AfterRegister(Empty, a), b);
    assert r2.groups[GroupKey(b)] == [b];
    assert FindById([b], a.id) == 0;
  }

  /** `getByGroup` on a group that was never created is empty. */
  lemma ByGroupUnknown(r: Registry, g: Group)
    requires g !in r.groupKeys && Valid(r)
    ensures ByGroup(r, g) == []
  {
  }

  // ---------------------------------------------------------------------------
  // createPlugin

  /**
   * The optional fields of a `createPlugin` config. A field is `None` when the
   * config does not have the key; a key present with the value `undefined`
   * is `Some(None)` and, being spread last, overrides the default.
   */
  datatype PluginConfig = PluginConfig(
    id: string,
    title: string,
    icon: Option<string>,
    action: Option<Action>,
    shortcut: Option<Option<string>>,
    group: Option<Option<Group>>)

  const DefaultIcon := "GiftOutlined"

  /** `{ icon: Gift, group: 'custom', action: info message, ...config }`. */
  function CreatePlugin(config: PluginConfig): Plugin {
    Plugin(config.id,
           config.icon.GetOr(DefaultIcon),
           config.title,
           config.action.GetOr(DefaultInfoMessage),
           config.shortcut.GetOr(None),
           config.group.GetOr(Some(Custom)))
  }

  /** Each key the config has wins over the default; the id and title always come from the config. */
  lemma CreatePluginOverrides(config: PluginConfig)
    ensures var p := CreatePlugin(config);
      && p.id == config.id && p.title == config.title
      && (config.icon.Some? ==> p.icon == config.icon.value)
      && (config.action.Some? ==> p.action == config.action.value)
      && (config.shortcut.Some? ==> p.shortcut == config.shortcut.value)
      && (config.group.Some? ==> p.group == config.group.value)
  {
  }

  /** Without those keys the defaults hold; without a group the plugin lands in the custom group. */
  lemma CreatePluginDefaults(config: PluginConfig)
    ensures var p := CreatePlugin(config);
      && (config.icon.None? ==> p.icon == DefaultIcon)
      && (config.action.None? ==> p.action == DefaultInfoMessage)
      && (config.shortcut.None? ==> p.shortcut.None?)
      && (config.group.None? ==> p.group == Some(Custom))
      && (config.group.None? || config.group.value.None? ==> GroupKey(p) == Custom)
  {
  }

  // ---------------------------------------------------------------------------
  // The manager object

  /** `HoverToolbarPluginManager`: the two maps are fields updated in place. */
  class PluginManager {
    var pluginKeys: seq<string>
    var plugins: map<string, Plugin>
    var groupKeys: seq<Group>
    var groups: map<Group, seq<Plugin>>

    function Model(): Registry
      reads this
    {
      Registry(pluginKeys, plugins, groupKeys, groups)
    }

    ghost predicate Consistent()
      reads this
    {
      Valid(Model())
    }

    constructor ()
      ensures Model() == Empty && Consistent()
    {
      pluginKeys, plugins, groupKeys, groups := [], map[], [], map[];
    }

    method Register(p: Plugin)
      requires Consistent()
      modifies this
      ensures Consistent()
      ensures Model() == AfterRegister(old(Model()), p)
    {
      pluginKeys := SetKey(pluginKeys, p.id);
      plugins := plugins[p.id := p];
      var g := GroupKey(p);
      var list := if g in groups then groups[g] else [];
      groupKeys := SetKey(groupKeys, g);
      groups := groups[g := list + [p]];
    }

    method RegisterMany(ps: seq<Plugin>)
      requires Consistent()
      modifies this
      ensures Consistent()
      ensures Model() == RegisterAll(old(Model()), ps)
    {
      ghost var start := Model();
      var i := 0;
      while i < |ps|
        invariant 0 <= i <= |ps|
        invariant Model() == RegisterAll(start, ps[..i])
      {
        RegisterAllValid(start, ps[..i]);
        var p := ps[i];
        Register(p);
        TakeSnoc(ps, i);
        RegisterAllSnoc(start, ps[..i], p);
        i := i + 1;
      }
      assert ps[..i] == ps;
      RegisterAllValid(start, ps);
    }

    method Get(id: string) returns (r: Option<Plugin>)
      ensures r.Some? <==> id in plugins
      ensures r.Some? ==> r.value == plugins[id]
    {
      r := if id in plugins then Some(plugins[id]) else None;
    }

    /** `Array.from(plugins.values())`. */
    method GetAll() returns (all: seq<Plugin>)
      requires Consistent()
      ensures all == Values(pluginKeys, plugins)
    {
      all := [];
      var i := 0;
      while i < |pluginKeys|
        invariant 0 <= i <= |pluginKeys|
        invariant all == Values(pluginKeys[..i], plugins)
      {
        ValuesSnoc(pluginKeys[..i], pluginKeys[i], plugins);
        assert pluginKeys[..i + 1] == pluginKeys[..i] + [pluginKeys[i]];
        all := all + [plugins[pluginKeys[i]]];
        i := i + 1;
      }
      assert pluginKeys[..i] == pluginKeys;
    }

    method GetByGroup(g: Group) returns (ps: seq<Plugin>)
      ensures ps == ByGroup(Model(), g)
      ensures g !in groups ==> ps == []
    {
      ps := if g in groups then groups[g] else [];
    }

    method GetGroups() returns (gs: seq<Group>)
      requires Consistent()
      ensures gs == groupKeys && NoDup(gs)
      ensures forall g :: g in gs <==> g in groups
    {
      gs := groupKeys;
    }

    /** `findIndex` over the group list, as a loop. */
    static method FindIndex(ps: seq<Plugin>, id: string) returns (index: int)
      ensures index == FindById(ps, id)
    {
      index := 0;
      while index < |ps| && ps[index].id != id
        invariant 0 <= index <= |ps|
        invariant forall j :: 0 <= j < index ==> ps[j].id != id
      {
        index := index + 1;
      }
      if index == |ps| {
        index := -1;
      }
      FindByIdUnique(ps, id, index);
    }

    method Unregister(id: string) returns (removed: bool)
      requires Consistent()
      modifies this
      ensures Consistent()
      ensures (removed, Model()) == AfterUnregister(old(Model()), id)
    {
      ghost var before := Model();
      ghost var after := AfterUnregister(before, id);
      if id !in plugins {
        return false;
      }
      var p := plugins[id];
      var g := GroupKey(p);
      var newGroups := groups;
      if g in groups {
        var list := groups[g];
        var index := FindIndex(list, id);
        if index > -1 {
          newGroups := groups[g := list[..index] + list[index + 1..]];
        }
        assert newGroups == groups[g := RemoveFirst(list, id)];
      }
      plugins, pluginKeys, groups := plugins - {id}, RemoveKey(pluginKeys, id), newGroups;
      removed := true;
      assert Model() == after.1;
    }

    method Clear()
      modifies this
      ensures Model() == Empty && Consistent()
    {
      pluginKeys, plugins, groupKeys, groups := [], map[], [], map[];
    }
  }

  lemma {:induction false} ValuesSnoc(keys: seq<string>, k: string, plugins: map<string, Plugin>)
    requires forall x :: x in keys ==> x in plugins
    requires k in plugins
    ensures Values(keys + [k], plugins) == Values(keys, plugins) + [plugins[k]]
  {
  }

  /** The first index with the id is the one `FindById` names. */
  lemma FindByIdUnique(ps: seq<Plugin>, id: string, i: int)
    requires -1 <= i < |ps|
    requires i >= 0 ==> ps[i].id == id
    requires forall j :: 0 <= j < |ps| && (i == -1 || j < i) ==> ps[j].id != id
    ensures FindById(ps, id) == i
  {
  }
}
