/** The plugin registry of a plugin manager: plugin types found in the core
    assembly are instantiated and kept in a list sorted by priority, one plugin
    per priority. */
module Plugins {
  import opened Common

  /** A plugin type as the registry sees it: its name, the value of its
      priority attribute if it has one, and whether the dependency resolver
      can create an instance of it. */
  datatype PluginType = PluginType(name: string, priority: Option<int>, resolvable: bool)

  /** One entry of the sorted list: a priority and the plugin created for it
      (identified by its type name). */
  datatype Registration = Registration(priority: int, plugin: string)

  datatype LoadError = CreationFailed(typeName: string) | DuplicatePriority(typeName: string, priority: int)

  /** The attribute's priority, 0 for a type without one. */
  function PriorityOf(t: PluginType): int {
    t.priority.GetOr(0)
  }

  function RegistrationOf(t: PluginType): Registration {
    Registration(PriorityOf(t), t.name)
  }

  /** Sorted by priority, which also makes the priorities unique. */
  predicate Sorted(regs: seq<Registration>) {
    forall j, k :: 0 <= j < k < |regs| ==> regs[j].priority < regs[k].priority
  }

  function Priorities(regs: seq<Registration>): set<int> {
    set r | r in regs :: r.priority
  }

  /** `SortedList.Add` for a key that is not yet present. */
  function Insert(regs: seq<Registration>, r: Registration): seq<Registration>
  {
    if regs == [] then [r]
    else if r.priority < regs[0].priority then [r] + regs
    else [regs[0]] + Insert(regs[1..], r)
  }

  lemma {:induction false} InsertContents(regs: seq<Registration>, r: Registration)
    ensures |Insert(regs, r)| == |regs| + 1
    ensures forall x :: x in Insert(regs, r) <==> x in regs || x == r
  {
    if regs != [] && r.priority >= regs[0].priority {
      InsertContents(regs[1..], r);
      assert forall x :: x in regs <==> x == regs[0] || x in regs[1..];
    }
  }

  lemma {:induction false} InsertKeepsSorted(regs: seq<Registration>, r: Registration)
    requires Sorted(regs) && r.priority !in Priorities(regs)
    ensures Sorted(Insert(regs, r))
  {
    if regs != [] && r.priority >= regs[0].priority {
      assert regs[0] in regs;
      assert r.priority > regs[0].priority;
      assert Priorities(regs[1..]) <= Priorities(regs) by {
        forall x | x in regs[1..] ensures x in regs { }
      }
      InsertKeepsSorted(regs[1..], r);
      InsertContents(regs[1..], r);
      var t := Insert(regs[1..], r);
      forall k | 0 <= k < |t| ensures regs[0].priority < t[k].priority {
        assert t[k] in t;
      }
    }
  }

  /** Inserting at the first position whose priority is larger is `Insert`. */
  lemma {:induction false} InsertAt(regs: seq<Registration>, r: Registration, i: nat)
    requires i <= |regs|
    requires forall j :: 0 <= j < i ==> regs[j].priority < r.priority
    requires i < |regs| ==> r.priority < regs[i].priority
    ensures Insert(regs, r) == regs[..i] + [r] + regs[i..]
  {
    if i > 0 {
      InsertAt(regs[1..], r, i - 1);
      assert regs[..i] == [regs[0]] + regs[1..][..i - 1];
      assert regs[i..] == regs[1..][i - 1..];
    }
  }

  /** `AddPlugin`: create the plugin and add it under its priority. */
  function Add(regs: seq<Registration>, t: PluginType): Result<seq<Registration>, LoadError> {
    if !t.resolvable then Err(CreationFailed(t.name))
    else if PriorityOf(t) in Priorities(regs) then Err(DuplicatePriority(t.name, PriorityOf(t)))
    else Ok(Insert(regs, RegistrationOf(t)))
  }

  /** `Contains(name, InvariantCultureIgnoreCase)` on the disabled-plugin setting. */
  predicate IsDisabled(name: string, disabled: seq<string>) {
    exists k :: 0 <= k < |disabled| && EqualsIgnoreCase(disabled[k], name)
  }

  /** `LoadDefaultPlugins` over the discovered types, in discovery order: the
      first failing `AddPlugin` aborts with its error. */
  function Load(regs: seq<Registration>, types: seq<PluginType>, disabled: seq<string>)
    : Result<seq<Registration>, LoadError>
    decreases |types|
  {
    if types == [] then Ok(regs)
    else if IsDisabled(types[0].name, disabled) then Load(regs, types[1..], disabled)
    else match Add(regs, types[0])
      case Err(e) => Err(e)
      case Ok(next) => Load(next, types[1..], disabled)
  }

  /** The types that are not disabled, in order. */
  function Enabled(types: seq<PluginType>, disabled: seq<string>): (r: seq<PluginType>)
    ensures forall t :: t in r <==> t in types && !IsDisabled(t.name, disabled)
    decreases |types|
  {
    if types == [] then []
    else
      assert forall t :: t in types <==> t == types[0] || t in types[1..];
      (if IsDisabled(types[0].name, disabled) then [] else [types[0]]) + Enabled(types[1..], disabled)
  }

  /** What loading needs: every enabled type can be created and their priorities
      differ from each other and from those already registered. */
  predicate Loadable(regs: seq<Registration>, ts: seq<PluginType>) {
    && (forall k :: 0 <= k < |ts| ==> ts[k].resolvable)
    && (forall k :: 0 <= k < |ts| ==> PriorityOf(ts[k]) !in Priorities(regs))
    && (forall j, k :: 0 <= j < k < |ts| ==> PriorityOf(ts[j]) != PriorityOf(ts[k]))
  }

  lemma LoadableCons(regs: seq<Registration>, t: PluginType, ts: seq<PluginType>)
    requires t.resolvable && PriorityOf(t) !in Priorities(regs)
    ensures Loadable(regs, [t] + ts) <==> Loadable(Insert(regs, RegistrationOf(t)), ts)
  {
    var next := Insert(regs, RegistrationOf(t));
    InsertContents(regs, RegistrationOf(t));
    assert Priorities(next) == Priorities(regs) + {PriorityOf(t)} by {
      assert RegistrationOf(t) in next;
      forall x | x in regs ensures x.priority in Priorities(next) {
        assert x in next;
      }
    }
    var all := [t] + ts;
    assert forall k :: 0 <= k < |ts| ==> ts[k] == all[k + 1];
    if Loadable(next, ts) {
      forall j, k | 0 <= j < k < |all| ensures PriorityOf(all[j]) != PriorityOf(all[k]) {
        if j == 0 {
          assert PriorityOf(all[k]) !in Priorities(next);
        }
      }
    }
    if Loadable(regs, all) {
      forall k | 0 <= k < |ts| ensures PriorityOf(ts[k]) !in Priorities(next) {
        assert PriorityOf(all[0]) != PriorityOf(all[k + 1]);
      }
    }
  }

  /** Loading succeeds exactly when every enabled type can be created and no two
      of them (nor an already registered plugin) share a priority. */
  lemma {:induction false} LoadSucceedsIff(regs: seq<Registration>, types: seq<PluginType>, disabled: seq<string>)
    ensures Load(regs, types, disabled).Ok? <==> Loadable(regs, Enabled(types, disabled))
    decreases |types|
  {
    if types != [] {
      var t, rest := types[0], types[1..];
      LoadSucceedsIff(regs, rest, disabled);
      if IsDisabled(t.name, disabled) {
        assert Enabled(types, disabled) == Enabled(rest, disabled);
      } else {
        var ts := Enabled(rest, disabled);
        assert Enabled(types, disabled) == [t] + ts;
        if !t.resolvable || PriorityOf(t) in Priorities(regs) {
          assert ([t] + ts)[0] == t;
        } else {
          LoadSucceedsIff(Insert(regs, RegistrationOf(t)), rest, disabled);
          LoadableCons(regs, t, ts);
        }
      }
    }
  }

  /** A successful load keeps the list sorted and holds exactly the plugins
      registered before plus one per enabled type, at its priority: a disabled
      type is never added. */
  lemma {:induction false} LoadedContents(regs: seq<Registration>, types: seq<PluginType>, disabled: seq<string>)
    requires Sorted(regs) && Load(regs, types, disabled).Ok?
    ensures Sorted(Load(regs, types, disabled).value)
    ensures forall x :: x in Load(regs, types, disabled).value <==>
              x in regs || exists t :: t in types && !IsDisabled(t.name, disabled) && x == RegistrationOf(t)
    decreases |types|
  {
    if types != [] {
      var t, rest := types[0], types[1..];
      assert forall u :: u in types <==> u == t || u in rest;
      if IsDisabled(t.name, disabled) {
        LoadedContents(regs, rest, disabled);
      } else {
        var next := Insert(regs, RegistrationOf(t));
        InsertKeepsSorted(regs, RegistrationOf(t));
        InsertContents(regs, RegistrationOf(t));
        LoadedContents(next, rest, disabled);
      }
    }
  }

  /** The first enabled type whose priority is already taken stops the load
      with that error, whatever follows it. */
  lemma DuplicatePriorityAborts(regs: seq<Registration>, t: PluginType, rest: seq<PluginType>, disabled: seq<string>)
    requires t.resolvable && !IsDisabled(t.name, disabled) && PriorityOf(t) in Priorities(regs)
    ensures Load(regs, [t] + rest, disabled) == Err(DuplicatePriority(t.name, PriorityOf(t)))
  {
    assert ([t] + rest)[0] == t;
  }

  /** A type the resolver cannot create stops the load with that error. */
  lemma CreationFailureAborts(regs: seq<Registration>, t: PluginType, rest: seq<PluginType>, disabled: seq<string>)
    requires !t.resolvable && !IsDisabled(t.name, disabled)
    ensures Load(regs, [t] + rest, disabled) == Err(CreationFailed(t.name))
  {
    assert ([t] + rest)[0] == t;
  }

  /** `_metricPrefix`: the lower-cased manager type name and a dot. */
  function MetricPrefix(typeName: string): (r: string)
    ensures |r| == |typeName| + 1 && r[|typeName|] == '.'
    ensures forall i :: 0 <= i < |typeName| ==> r[i] == ToLowerChar(typeName[i])
  {
    ToLower(typeName) + "."
  }

  class PluginManager {
    const metricPrefix: string
    /** `Settings.Current.DisabledPlugins`. */
    const disabledPlugins: seq<string>
    /** `Plugins`, the sorted list. */
    var plugins: seq<Registration>

    constructor Init(typeName: string, disabledPlugins: seq<string>)
      ensures metricPrefix == MetricPrefix(typeName) && this.disabledPlugins == disabledPlugins
      ensures plugins == []
    {
      metricPrefix := MetricPrefix(typeName);
      this.disabledPlugins := disabledPlugins;
      plugins := [];
    }

    /** `AddPlugin`: the list is left alone when creation fails or the
        priority is taken. */
    method AddPlugin(t: PluginType) returns (error: Option<LoadError>)
      requires Sorted(plugins)
      modifies this`plugins
      ensures Sorted(plugins)
      ensures Add(old(plugins), t).Ok? ==> error.None? && plugins == Add(old(plugins), t).value
      ensures Add(old(plugins), t).Err? ==> error == Some(Add(old(plugins), t).error) && plugins == old(plugins)
    {
      if !t.resolvable {
        return Some(CreationFailed(t.name));
      }
      var r := RegistrationOf(t);
      var i := 0;
      while i < |plugins| && plugins[i].priority < r.priority
        invariant 0 <= i <= |plugins|
        invariant forall j :: 0 <= j < i ==> plugins[j].priority < r.priority
      {
        i := i + 1;
      }
      if i < |plugins| && plugins[i].priority == r.priority {
        assert plugins[i] in plugins;
        return Some(DuplicatePriority(t.name, r.priority));
      }
      assert r.priority !in Priorities(plugins) by {
        forall x | x in plugins ensures x.priority != r.priority {
          var k :| 0 <= k < |plugins| && plugins[k] == x;
          if k > i {
            assert plugins[i].priority < plugins[k].priority;
          }
        }
      }
      InsertAt(plugins, r, i);
      InsertKeepsSorted(plugins, r);
      plugins := plugins[..i] + [r] + plugins[i..];
      return None;
    }

    /** `LoadDefaultPlugins`: skip disabled types, add the others, stop at the
        first failure. */
    method LoadDefaultPlugins(types: seq<PluginType>) returns (error: Option<LoadError>)
      requires Sorted(plugins)
      modifies this`plugins
      ensures Sorted(plugins)
      ensures Load(old(plugins), types, disabledPlugins).Ok? ==>
                error.None? && plugins == Load(old(plugins), types, disabledPlugins).value
      ensures Load(old(plugins), types, disabledPlugins).Err? ==>
                error == Some(Load(old(plugins), types, disabledPlugins).error)
    {
      for i := 0 to |types|
        invariant Sorted(plugins)
        invariant Load(old(plugins), types, disabledPlugins) == Load(plugins, types[i..], disabledPlugins)
      {
        assert types[i..][1..] == types[i + 1..];
        if IsDisabled(types[i].name, disabledPlugins) {
          continue;
        }
        error := AddPlugin(types[i]);
        if error.Some? {
          return;
        }
      }
      assert types[|types|..] == [];
      error := None;
    }
  }

  /** Constructing a manager: a failed load aborts construction (null here). */
  method NewPluginManager(typeName: string, types: seq<PluginType>, disabledPlugins: seq<string>)
    returns (m: PluginManager?)
    ensures m == null <==> Load([], types, disabledPlugins).Err?
    ensures m != null ==> m.plugins == Load([], types, disabledPlugins).value
                          && m.metricPrefix == MetricPrefix(typeName)
                          && Sorted(m.plugins)
  {
    m := new PluginManager.Init(typeName, disabledPlugins);
    var error := m.LoadDefaultPlugins(types);
    if error.Some? {
      m := null;
    }
  }
}
