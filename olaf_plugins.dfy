// Which plugins apply to a route, and in which order they run: the scope
// precedence of findAppliedPlugins and the OrderAfter chains of
// sortPluginsByOrderAfter.
//
// Go leaves the iteration order of its maps unspecified.  Here the input plugin
// map is given as the sequence of its values in iteration order, and the
// internal `typedPlugins` map is iterated in the order its keys were inserted.
module OlafPlugins {
  import opened Wrappers
  import opened OlafEntity

  // ------------------------------------------------------------------ scopes

  datatype Scope = RouteService | RouteOnly | ServiceOnly | Global

  /** The bucket a plugin falls into, by which of its scope fields are set. */
  function ScopeOf(p: Plugin): Scope {
    if p.routeName != "" && p.serviceName != "" then RouteService
    else if p.routeName != "" then RouteOnly
    else if p.serviceName != "" then ServiceOnly
    else Global
  }

  /** The name a bucket is keyed by. */
  function ScopeKey(p: Plugin): string {
    match ScopeOf(p)
    case RouteService => p.routeName
    case RouteOnly => p.routeName
    case ServiceOnly => p.serviceName
    case Global => ""
  }

  /** The enabled plugins of scope `sc` keyed by `key`, in input order. */
  function Bucket(plugins: seq<Plugin>, sc: Scope, key: string): (b: seq<Plugin>)
    ensures forall i | 0 <= i < |b| :: !b[i].disabled && ScopeOf(b[i]) == sc && ScopeKey(b[i]) == key
    ensures forall i | 0 <= i < |b| :: b[i] in plugins
    decreases |plugins|
  {
    if plugins == [] then []
    else
      var last := plugins[|plugins| - 1];
      var init := Bucket(plugins[..|plugins| - 1], sc, key);
      if !last.disabled && ScopeOf(last) == sc && ScopeKey(last) == key then init + [last] else init
  }

  /** The candidates for route `r`, in precedence order: route+service, route, service, global. */
  function Candidates(plugins: seq<Plugin>, r: Route): seq<Plugin> {
    Bucket(plugins, RouteService, r.name) + Bucket(plugins, RouteOnly, r.name)
    + Bucket(plugins, ServiceOnly, r.serviceName) + Bucket(plugins, Global, "")
  }

  // ----------------------------------------------------- one plugin per type

  /** The `typedPlugins` map with its keys in insertion order. */
  datatype Typed = Typed(byType: map<string, Plugin>, order: seq<string>)

  /** addPlugin: the first plugin seen of each Type wins. */
  function AddPlugin(st: Typed, p: Plugin): Typed {
    if p.typ in st.byType then st else Typed(st.byType[p.typ := p], st.order + [p.typ])
  }

  function AddPlugins(st: Typed, ps: seq<Plugin>): Typed
    decreases |ps|
  {
    if ps == [] then st else AddPlugin(AddPlugins(st, ps[..|ps| - 1]), ps[|ps| - 1])
  }

  lemma {:induction false} AddPluginsConcat(st: Typed, a: seq<Plugin>, b: seq<Plugin>)
    ensures AddPlugins(st, a + b) == AddPlugins(AddPlugins(st, a), b)
    decreases |b|
  {
    if b == [] {
      assert a + b == a;
    } else {
      assert (a + b)[..|a + b| - 1] == a + b[..|b| - 1];
      AddPluginsConcat(st, a, b[..|b| - 1]);
    }
  }

  /** Every key maps to a plugin of that Type. */
  ghost predicate Keyed(typed: map<string, Plugin>) {
    forall t | t in typed :: typed[t].typ == t
  }

  /** `order` lists every key of the map exactly once. */
  ghost predicate IsOrderOf(order: seq<string>, keys: set<string>) {
    (forall i, j | 0 <= i < j < |order| :: order[i] != order[j])
    && (forall i | 0 <= i < |order| :: order[i] in keys)
    && (forall k | k in keys :: k in order)
  }

  /** The index of the first plugin of type `t` in `ps`, if any. */
  function FirstOfType(ps: seq<Plugin>, t: string): (k: int)
    ensures -1 <= k < |ps|
    ensures k >= 0 ==> ps[k].typ == t && forall j | 0 <= j < k :: ps[j].typ != t
    ensures k < 0 ==> forall j | 0 <= j < |ps| :: ps[j].typ != t
    decreases |ps|
  {
    if ps == [] then -1
    else if ps[0].typ == t then 0
    else var k := FirstOfType(ps[1..], t); if k < 0 then -1 else k + 1
  }

  /** The typed map is keyed by Type and its key order lists each key once. */
  lemma {:induction false} AddPluginsKeyed(ps: seq<Plugin>)
    ensures var st := AddPlugins(Typed(map[], []), ps);
      Keyed(st.byType) && IsOrderOf(st.order, st.byType.Keys)
    decreases |ps|
  {
    if ps != [] {
      AddPluginsKeyed(ps[..|ps| - 1]);
    }
  }

  /** Every Type among the candidates gets a plugin. */
  lemma {:induction false} AddPluginsCovers(ps: seq<Plugin>)
    ensures var st := AddPlugins(Typed(map[], []), ps);
      forall i | 0 <= i < |ps| :: ps[i].typ in st.byType
    decreases |ps|
  {
    if ps != [] {
      AddPluginsCovers(ps[..|ps| - 1]);
    }
  }

  /** The typed map holds, for each of its Types, the first candidate of that Type. */
  lemma {:induction false} AddPluginsFirstWins(ps: seq<Plugin>)
    ensures var st := AddPlugins(Typed(map[], []), ps);
      forall t | t in st.byType :: FirstOfType(ps, t) >= 0 && st.byType[t] == ps[FirstOfType(ps, t)]
    decreases |ps|
  {
    if ps != [] {
      var init := ps[..|ps| - 1];
      var p := ps[|ps| - 1];
      assert ps == init + [p];
      AddPluginsFirstWins(init);
      var st0 := AddPlugins(Typed(map[], []), init);
      var st := AddPlugins(Typed(map[], []), ps);
      forall t | t in st.byType
        ensures FirstOfType(ps, t) >= 0 && st.byType[t] == ps[FirstOfType(ps, t)]
      {
        FirstOfTypeSnoc(init, p, t);
        if t in st0.byType {
          assert st.byType[t] == st0.byType[t];
        } else {
          assert t == p.typ;
          FirstOfTypeAbsent(init, t, st0);
        }
      }
    }
  }

  /** A Type that got no plugin from `init` does not occur in `init`. */
  lemma FirstOfTypeAbsent(init: seq<Plugin>, t: string, st0: Typed)
    requires st0 == AddPlugins(Typed(map[], []), init) && t !in st0.byType
    ensures FirstOfType(init, t) < 0
  {
    AddPluginsCovers(init);
  }

  lemma {:induction false} FirstOfTypeSnoc(init: seq<Plugin>, p: Plugin, t: string)
    ensures FirstOfType(init, t) >= 0 ==> FirstOfType(init + [p], t) == FirstOfType(init, t)
    ensures FirstOfType(init, t) < 0 && t == p.typ ==> FirstOfType(init + [p], t) == |init|
    decreases |init|
  {
    if init != [] {
      assert (init + [p])[1..] == init[1..] + [p];
      FirstOfTypeSnoc(init[1..], p, t);
    }
  }

  // -------------------------------------------------------- OrderAfter chains

  function TypesOf(s: seq<Plugin>): set<string> {
    set i | 0 <= i < |s| :: s[i].typ
  }

  ghost predicate DistinctTypes(s: seq<Plugin>) {
    forall i, j | 0 <= i < j < |s| :: s[i].typ != s[j].typ
  }

  /** Every element is the plugin the typed map holds for its Type. */
  ghost predicate FromTyped(typed: map<string, Plugin>, s: seq<Plugin>) {
    forall i | 0 <= i < |s| :: s[i].typ in typed && typed[s[i].typ] == s[i]
  }

  /** Each element names the Type of the next one as its OrderAfter. */
  ghost predicate Linked(s: seq<Plugin>) {
    forall k | 0 <= k < |s| - 1 :: s[k].orderAfter == s[k + 1].typ
  }

  /** Element i comes after the plugin of its OrderAfter Type. */
  ghost predicate FollowsAt(s: seq<Plugin>, i: int)
    requires 0 <= i < |s|
  {
    s[i].orderAfter == "" || exists j :: 0 <= j < i && s[j].typ == s[i].orderAfter
  }

  /** Every plugin follows the plugin it is ordered after. */
  ghost predicate Ordered(s: seq<Plugin>) {
    forall i | 0 <= i < |s| :: FollowsAt(s, i)
  }

  /** Some plugin of the map is ordered after Type t. */
  ghost predicate Pointed(typed: map<string, Plugin>, t: string) {
    exists u :: u in typed && typed[u].orderAfter == t
  }

  /** Every reached Type has an OrderAfter of its own or is the OrderAfter of another plugin. */
  ghost predicate Reached(typed: map<string, Plugin>, processed: set<string>)
    requires processed <= typed.Keys
  {
    forall t | t in processed :: typed[t].orderAfter != "" || Pointed(typed, t)
  }

  /**
   * The inner loop of sortPluginsByOrderAfter: walk from `p` along OrderAfter,
   * pushing every Type not yet processed, until an empty OrderAfter or an already
   * processed Type; a Type processed in this very walk is a cycle.
   */
  function Walk(typed: map<string, Plugin>, p: Plugin, processed: set<string>, pending: set<string>,
                stack: seq<Plugin>): (r: Result<(set<string>, seq<Plugin>), BuildError>)
    requires Keyed(typed) && p.typ in typed && typed[p.typ] == p && processed <= typed.Keys
    ensures r.Ok? ==> processed <= r.value.0 <= typed.Keys && p.typ in r.value.0
    decreases |typed.Keys - processed|
  {
    if p.typ in processed then
      if p.typ in pending then Err(CircularOrder(p.name, p.typ)) else Ok((processed, stack))
    else
      var processed' := processed + {p.typ};
      var stack' := stack + [p];
      if p.orderAfter == "" then Ok((processed', stack'))
      else if p.orderAfter !in typed then Err(OrderAfterNotFound(p.orderAfter, p.name))
      else
        assert typed.Keys - processed' < typed.Keys - processed by {
          assert p.typ in typed.Keys - processed;
        }
        Walk(typed, typed[p.orderAfter], processed', pending + {p.typ}, stack')
  }

  /** The reverse of a sequence. */
  function Reversed(s: seq<Plugin>): (r: seq<Plugin>)
    ensures |r| == |s|
    decreases |s|
  {
    if s == [] then [] else Reversed(s[1..]) + [s[0]]
  }

  lemma {:induction false} ReversedAt(s: seq<Plugin>, k: int)
    requires 0 <= k < |s|
    ensures Reversed(s)[k] == s[|s| - 1 - k]
    decreases |s|
  {
    if k < |s| - 1 {
      ReversedAt(s[1..], k);
    }
  }

  /** The plugins still to check for having been reached. */
  function CheckEmpties(empties: seq<Plugin>, processed: set<string>, out: seq<Plugin>): (r: Result<seq<Plugin>, BuildError>)
    ensures r.Ok? ==> r.value == out && forall i | 0 <= i < |empties| :: empties[i].typ in processed
    decreases |empties|
  {
    if empties == [] then Ok(out)
    else if empties[0].typ !in processed then Err(Unordered(empties[0].name, empties[0].typ))
    else CheckEmpties(empties[1..], processed, out)
  }

  /** The outer loop of sortPluginsByOrderAfter from position i of the key order. */
  function SortFrom(typed: map<string, Plugin>, order: seq<string>, i: nat, processed: set<string>,
                    empties: seq<Plugin>, out: seq<Plugin>): Result<seq<Plugin>, BuildError>
    requires Keyed(typed) && i <= |order| && (forall j | 0 <= j < |order| :: order[j] in typed)
    requires processed <= typed.Keys
    decreases |order| - i
  {
    if i == |order| then CheckEmpties(empties, processed, out)
    else
      var p := typed[order[i]];
      if p.orderAfter == "" then SortFrom(typed, order, i + 1, processed, empties + [p], out)
      else
        match Walk(typed, p, processed, {}, [])
        case Err(e) => Err(e)
        case Ok((processed', stack)) => SortFrom(typed, order, i + 1, processed', empties, out + Reversed(stack))
  }

  /** sortPluginsByOrderAfter over the typed map iterated in `order`. */
  function SortPlugins(typed: map<string, Plugin>, order: seq<string>): (r: Result<seq<Plugin>, BuildError>)
    requires Keyed(typed) && IsOrderOf(order, typed.Keys)
    ensures |typed| == 1 ==> r == Ok([typed[order[0]]])
  {
    if |typed| == 1 then
      assert order != [] by {
        var t :| t in typed;
      }
      Ok([typed[order[0]]])
    else SortFrom(typed, order, 0, {}, [], [])
  }

  // ------------------------------------------------- what a sorted list is

  lemma TypesOfConcat(a: seq<Plugin>, b: seq<Plugin>)
    ensures TypesOf(a + b) == TypesOf(a) + TypesOf(b)
  {
    forall t | t in TypesOf(a + b) ensures t in TypesOf(a) + TypesOf(b) {
      var i :| 0 <= i < |a + b| && (a + b)[i].typ == t;
      if i >= |a| { assert b[i - |a|].typ == t; }
    }
    forall t | t in TypesOf(a) + TypesOf(b) ensures t in TypesOf(a + b) {
      if t in TypesOf(a) {
        var i :| 0 <= i < |a| && a[i].typ == t;
        assert (a + b)[i].typ == t;
      } else {
        var i :| 0 <= i < |b| && b[i].typ == t;
        assert (a + b)[|a| + i].typ == t;
      }
    }
  }

  lemma TypesOfOne(p: Plugin)
    ensures TypesOf([p]) == {p.typ}
  {
    assert [p][0].typ == p.typ;
  }

  lemma ReversedKeeps(typed: map<string, Plugin>, s: seq<Plugin>)
    ensures TypesOf(Reversed(s)) == TypesOf(s)
    ensures DistinctTypes(s) ==> DistinctTypes(Reversed(s))
    ensures FromTyped(typed, s) ==> FromTyped(typed, Reversed(s))
  {
    var r := Reversed(s);
    forall k | 0 <= k < |s| ensures r[k] == s[|s| - 1 - k] { ReversedAt(s, k); }
    forall t | t in TypesOf(s) ensures t in TypesOf(r) {
      var i :| 0 <= i < |s| && s[i].typ == t;
      assert r[|s| - 1 - i] == s[i];
    }
  }

  /** The state of the chain walk: what is processed is output or on the stack. */
  ghost predicate WalkState(typed: map<string, Plugin>, processed: set<string>, pending: set<string>,
                            stack: seq<Plugin>, out: seq<Plugin>) {
    processed <= typed.Keys
    && processed == TypesOf(out) + TypesOf(stack) && pending == TypesOf(stack)
    && DistinctTypes(out) && DistinctTypes(stack) && TypesOf(out) !! TypesOf(stack)
    && FromTyped(typed, out) && FromTyped(typed, stack) && Linked(stack)
    && Reached(typed, processed)
  }

  /** A finished chain ends at an empty OrderAfter or at a Type already output. */
  ghost predicate EndsWell(stack: seq<Plugin>, out: seq<Plugin>) {
    stack == [] || stack[|stack| - 1].orderAfter == "" || stack[|stack| - 1].orderAfter in TypesOf(out)
  }

  lemma {:induction false} WalkSound(typed: map<string, Plugin>, p: Plugin, processed: set<string>,
                                     pending: set<string>, stack: seq<Plugin>, out: seq<Plugin>)
    requires Keyed(typed) && p.typ in typed && typed[p.typ] == p
    requires WalkState(typed, processed, pending, stack, out)
    requires stack == [] ==> p.orderAfter != ""
    requires stack != [] ==> stack[|stack| - 1].orderAfter == p.typ
    ensures var r := Walk(typed, p, processed, pending, stack);
      r.Ok? ==> WalkState(typed, r.value.0, TypesOf(r.value.1), r.value.1, out) && EndsWell(r.value.1, out)
    decreases |typed.Keys - processed|
  {
    if p.typ !in processed {
      var processed' := processed + {p.typ};
      var stack' := stack + [p];
      TypesOfConcat(stack, [p]);
      TypesOfOne(p);
      assert DistinctTypes(stack') by {
        forall i, j | 0 <= i < j < |stack'| ensures stack'[i].typ != stack'[j].typ {
          if j == |stack| { assert stack[i].typ in TypesOf(stack); }
        }
      }
      assert Reached(typed, processed') by {
        if stack != [] {
          var last := stack[|stack| - 1];
          assert last.typ in typed && typed[last.typ].orderAfter == p.typ;
        }
      }
      assert WalkState(typed, processed', pending + {p.typ}, stack', out);
      if p.orderAfter != "" && p.orderAfter in typed {
        assert typed.Keys - processed' < typed.Keys - processed by {
          assert p.typ in typed.Keys - processed;
        }
        WalkSound(typed, typed[p.orderAfter], processed', pending + {p.typ}, stack', out);
      }
    }
  }

  /** Appending a finished chain in reverse keeps the output ordered. */
  lemma AppendChain(typed: map<string, Plugin>, processed: set<string>, stack: seq<Plugin>, out: seq<Plugin>)
    requires WalkState(typed, processed, TypesOf(stack), stack, out) && EndsWell(stack, out) && Ordered(out)
    ensures var out' := out + Reversed(stack);
      WalkState(typed, processed, {}, [], out') && Ordered(out')
  {
    var r := Reversed(stack);
    var out' := out + r;
    ReversedKeeps(typed, stack);
    TypesOfConcat(out, r);
    assert TypesOf([]) == {};
    forall k | 0 <= k < |r| ensures r[k] == stack[|stack| - 1 - k] { ReversedAt(stack, k); }
    assert DistinctTypes(out') by {
      forall i, j | 0 <= i < j < |out'| ensures out'[i].typ != out'[j].typ {
        if i < |out| && j >= |out| {
          assert out'[i].typ in TypesOf(out);
          assert out'[j].typ in TypesOf(r);
        }
      }
    }
    forall i | 0 <= i < |out'| ensures FollowsAt(out', i) {
      if i < |out| {
        assert FollowsAt(out, i);
        if out[i].orderAfter != "" {
          var j :| 0 <= j < i && out[j].typ == out[i].orderAfter;
          assert out'[j] == out[j];
        }
      } else {
        var k := i - |out|;
        var m := |stack|;
        if k == 0 {
          assert out'[i] == stack[m - 1];
          if stack[m - 1].orderAfter != "" {
            var j :| 0 <= j < |out| && out[j].typ == stack[m - 1].orderAfter;
            assert out'[j] == out[j];
          }
        } else {
          assert out'[i] == stack[m - 1 - k];
          assert stack[m - 1 - k].orderAfter == stack[m - k].typ;
          assert out'[i - 1] == stack[m - k];
        }
      }
    }
  }

  lemma {:induction false} SortFromSound(typed: map<string, Plugin>, order: seq<string>, i: nat,
                                         processed: set<string>, empties: seq<Plugin>, out: seq<Plugin>)
    requires Keyed(typed) && IsOrderOf(order, typed.Keys) && i <= |order|
    requires WalkState(typed, processed, {}, [], out) && Ordered(out)
    requires forall k | 0 <= k < |empties| :: empties[k].orderAfter == "" && empties[k].typ in typed
    requires forall k | 0 <= k < i :: order[k] in processed || order[k] in TypesOf(empties)
    ensures var r := SortFrom(typed, order, i, processed, empties, out);
      r.Ok? ==> (TypesOf(r.value) == typed.Keys && DistinctTypes(r.value) && FromTyped(typed, r.value)
                 && Ordered(r.value) && Reached(typed, typed.Keys))
    decreases |order| - i
  {
    assert TypesOf([]) == {};
    if i == |order| {
      forall t | t in typed.Keys ensures t in processed || t in TypesOf(empties) {
        var k :| 0 <= k < |order| && order[k] == t;
      }
    } else {
      var p := typed[order[i]];
      if p.orderAfter == "" {
        var empties' := empties + [p];
        TypesOfConcat(empties, [p]);
        TypesOfOne(p);
        SortFromSound(typed, order, i + 1, processed, empties', out);
      } else {
        WalkSound(typed, p, processed, {}, [], out);
        var w := Walk(typed, p, processed, {}, []);
        if w.Ok? {
          AppendChain(typed, w.value.0, w.value.1, out);
          SortFromSound(typed, order, i + 1, w.value.0, empties, out + Reversed(w.value.1));
        }
      }
    }
  }

  /**
   * A successful sort is a permutation of the typed plugins (each exactly once) in
   * which every plugin comes after the plugin of its OrderAfter Type; with more than
   * one plugin, every plugin without OrderAfter is the OrderAfter of another one.
   */
  lemma SortPluginsSound(typed: map<string, Plugin>, order: seq<string>)
    requires Keyed(typed) && IsOrderOf(order, typed.Keys)
    ensures var r := SortPlugins(typed, order);
      r.Ok? && |typed| != 1 ==>
        TypesOf(r.value) == typed.Keys && DistinctTypes(r.value) && FromTyped(typed, r.value)
        && Ordered(r.value)
        && forall t | t in typed && typed[t].orderAfter == "" :: Pointed(typed, t)
  {
    if |typed| != 1 {
      assert TypesOf([]) == {};
      SortFromSound(typed, order, 0, {}, [], []);
    }
  }

  /** The position of a Type in an output without repeated Types. */
  ghost function PosOf(out: seq<Plugin>, t: string): (k: nat)
    requires t in TypesOf(out)
    ensures k < |out| && out[k].typ == t
  {
    var k :| 0 <= k < |out| && out[k].typ == t; k
  }

  /** In an ordered output, a plugin's OrderAfter Type sits strictly before it. */
  lemma PosBefore(typed: map<string, Plugin>, out: seq<Plugin>, t: string)
    requires TypesOf(out) == typed.Keys && DistinctTypes(out) && FromTyped(typed, out) && Ordered(out)
    requires t in typed && typed[t].orderAfter != ""
    ensures typed[t].orderAfter in typed && PosOf(out, typed[t].orderAfter) < PosOf(out, t)
  {
    var i := PosOf(out, t);
    assert FollowsAt(out, i);
    var j :| 0 <= j < i && out[j].typ == out[i].orderAfter;
    assert out[j].typ in TypesOf(out);
    assert PosOf(out, typed[t].orderAfter) == j;
  }

  /** A plugin ordered after a Type that is not among the plugins makes the sort fail. */
  lemma SortPluginsRejectsDangling(typed: map<string, Plugin>, order: seq<string>, t: string)
    requires Keyed(typed) && IsOrderOf(order, typed.Keys) && |typed| != 1
    requires t in typed && typed[t].orderAfter != "" && typed[t].orderAfter !in typed
    ensures SortPlugins(typed, order).Err?
  {
    SortPluginsSound(typed, order);
    if SortPlugins(typed, order).Ok? {
      PosBefore(typed, SortPlugins(typed, order).value, t);
    }
  }

  /** Types c[0], c[1], ..., each ordered after the next and the last after the first. */
  ghost predicate IsCycle(typed: map<string, Plugin>, c: seq<string>) {
    |c| > 0
    && (forall k | 0 <= k < |c| :: c[k] in typed)
    && (forall k | 0 <= k < |c| - 1 :: typed[c[k]].orderAfter == c[k + 1])
    && typed[c[|c| - 1]].orderAfter == c[0]
    && (forall k | 0 <= k < |c| :: c[k] != "")
  }

  /** Any OrderAfter cycle makes the sort fail. */
  lemma SortPluginsRejectsCycle(typed: map<string, Plugin>, order: seq<string>, c: seq<string>)
    requires Keyed(typed) && IsOrderOf(order, typed.Keys) && |typed| != 1
    requires IsCycle(typed, c)
    ensures SortPlugins(typed, order).Err?
  {
    SortPluginsSound(typed, order);
    var r := SortPlugins(typed, order);
    if r.Ok? {
      var out := r.value;
      CycleDescends(typed, out, c, |c| - 1);
      PosBefore(typed, out, c[|c| - 1]);
      assert false;
    }
  }

  lemma {:induction false} CycleDescends(typed: map<string, Plugin>, out: seq<Plugin>, c: seq<string>, k: nat)
    requires TypesOf(out) == typed.Keys && DistinctTypes(out) && FromTyped(typed, out) && Ordered(out)
    requires IsCycle(typed, c) && k < |c|
    ensures PosOf(out, c[k]) + k <= PosOf(out, c[0])
  {
    if k > 0 {
      CycleDescends(typed, out, c, k - 1);
      assert typed[c[k - 1]].orderAfter == c[k] && c[k] != "";
      PosBefore(typed, out, c[k - 1]);
    }
  }

  /** With two or more plugins, one without OrderAfter that nothing is ordered after is rejected. */
  lemma SortPluginsRejectsUnordered(typed: map<string, Plugin>, order: seq<string>, t: string)
    requires Keyed(typed) && IsOrderOf(order, typed.Keys) && |typed| != 1
    requires t in typed && typed[t].orderAfter == "" && !Pointed(typed, t)
    ensures SortPlugins(typed, order).Err?
  {
    SortPluginsSound(typed, order);
  }

  // ---------------------------------------------------------- the method

  /** sortPluginsByOrderAfter, step by step with the processed/pending sets and the stack. */
  method SortPluginsByOrderAfter(typed: map<string, Plugin>, order: seq<string>)
    returns (res: Result<seq<Plugin>, BuildError>)
    requires Keyed(typed) && IsOrderOf(order, typed.Keys)
    ensures res == SortPlugins(typed, order)
  {
    if |typed| == 1 {
      assert order != [] by {
        var t :| t in typed;
      }
      return Ok([typed[order[0]]]);
    }
    var processed: set<string> := {};
    var empties: seq<Plugin> := [];
    var plugins: seq<Plugin> := [];
    var i := 0;
    while i < |order|
      invariant 0 <= i <= |order| && processed <= typed.Keys
      invariant SortFrom(typed, order, i, processed, empties, plugins) == SortPlugins(typed, order)
    {
      var p := typed[order[i]];
      if p.orderAfter == "" {
        empties := empties + [p];
        i := i + 1;
        continue;
      }
      var walked := WalkChain(typed, p, processed);
      if walked.Err? {
        return Err(walked.error);
      }
      processed := walked.value.0;
      plugins := AppendReversed(plugins, walked.value.1);
      i := i + 1;
    }
    var j := 0;
    while j < |empties|
      invariant 0 <= j <= |empties|
      invariant CheckEmpties(empties[j..], processed, plugins) == SortPlugins(typed, order)
    {
      if empties[j].typ !in processed {
        return Err(Unordered(empties[j].name, empties[j].typ));
      }
      assert empties[j..][1..] == empties[j + 1..];
      j := j + 1;
    }
    return Ok(plugins);
  }

  /** The chain walk of one plugin, with its pending set and stack. */
  method WalkChain(typed: map<string, Plugin>, start: Plugin, processed0: set<string>)
    returns (res: Result<(set<string>, seq<Plugin>), BuildError>)
    requires Keyed(typed) && start.typ in typed && typed[start.typ] == start && processed0 <= typed.Keys
    ensures res == Walk(typed, start, processed0, {}, [])
  {
    var p := start;
    var processed := processed0;
    var pending: set<string> := {};
    var stack: seq<Plugin> := [];
    while true
      invariant p.typ in typed && typed[p.typ] == p && processed <= typed.Keys
      invariant Walk(typed, p, processed, pending, stack) == Walk(typed, start, processed0, {}, [])
      decreases |typed.Keys - processed|
    {
      if p.typ in processed {
        if p.typ in pending {
          return Err(CircularOrder(p.name, p.typ));
        }
        break;
      }
      assert typed.Keys - (processed + {p.typ}) < typed.Keys - processed by {
        assert p.typ in typed.Keys - processed;
      }
      processed := processed + {p.typ};
      pending := pending + {p.typ};
      stack := stack + [p];
      if p.orderAfter == "" {
        break;
      }
      if p.orderAfter !in typed {
        return Err(OrderAfterNotFound(p.orderAfter, p.name));
      }
      p := typed[p.orderAfter];
    }
    return Ok((processed, stack));
  }

  /** Appending the stack in reverse order. */
  method AppendReversed(plugins0: seq<Plugin>, stack: seq<Plugin>) returns (plugins: seq<Plugin>)
    ensures plugins == plugins0 + Reversed(stack)
  {
    plugins := plugins0;
    var k := |stack|;
    while k > 0
      invariant 0 <= k <= |stack|
      invariant plugins == plugins0 + Reversed(stack[k..])
    {
      assert stack[k - 1..][1..] == stack[k..];
      plugins := plugins + [stack[k - 1]];
      k := k - 1;
    }
    assert stack[0..] == stack;
  }

  // ------------------------------------------------- findAppliedPlugins

  /** A plugin applies to route r through one of its four scopes. */
  predicate InScope(p: Plugin, r: Route) {
    match ScopeOf(p)
    case RouteService => p.routeName == r.name
    case RouteOnly => p.routeName == r.name
    case ServiceOnly => p.serviceName == r.serviceName
    case Global => true
  }

  /** findAppliedPlugins: at most one plugin per Type by scope precedence, then sorted. */
  function AppliedPlugins(plugins: seq<Plugin>, r: Route): Result<seq<Plugin>, BuildError> {
    var cands := Candidates(plugins, r);
    var st := AddPlugins(Typed(map[], []), cands);
    AddPluginsKeyed(cands);
    SortPlugins(st.byType, st.order)
  }

  lemma CandidatesInScope(plugins: seq<Plugin>, r: Route)
    ensures var c := Candidates(plugins, r);
      forall i | 0 <= i < |c| :: c[i] in plugins && !c[i].disabled && InScope(c[i], r)
  { }

  /** Whatever the number of plugins, a successful sort lists each typed plugin once. */
  lemma SortPluginsPermutes(typed: map<string, Plugin>, order: seq<string>)
    requires Keyed(typed) && IsOrderOf(order, typed.Keys)
    ensures var r := SortPlugins(typed, order);
      r.Ok? ==> TypesOf(r.value) == typed.Keys && DistinctTypes(r.value) && FromTyped(typed, r.value)
  {
    SortPluginsSound(typed, order);
    if |typed| == 1 {
      var t := order[0];
      TypesOfOne(typed[t]);
      var rest := typed.Keys - {t};
      assert typed.Keys == rest + {t};
      assert |rest| == 0;
    }
  }

  /** Each element of `out` is the first candidate of its Type. */
  ghost predicate FirstCandidates(c: seq<Plugin>, out: seq<Plugin>) {
    forall i | 0 <= i < |out| :: FirstOfType(c, out[i].typ) >= 0 && out[i] == c[FirstOfType(c, out[i].typ)]
  }

  /**
   * The applied plugins are enabled plugins in scope of the route, one per Type,
   * each the first candidate of its Type in the order route+service, route,
   * service, global, and every Type among the candidates is represented; with
   * more than one, each comes after the plugin of its OrderAfter Type.
   */
  lemma AppliedPluginsSound(plugins: seq<Plugin>, r: Route)
    ensures var res := AppliedPlugins(plugins, r); var c := Candidates(plugins, r);
      res.Ok? ==>
        (forall i | 0 <= i < |res.value| :: res.value[i] in plugins && !res.value[i].disabled && InScope(res.value[i], r))
        && DistinctTypes(res.value)
        && FirstCandidates(c, res.value)
        && (forall i | 0 <= i < |c| :: c[i].typ in TypesOf(res.value))
        && (|res.value| != 1 ==> Ordered(res.value))
  {
    var c := Candidates(plugins, r);
    var st := AddPlugins(Typed(map[], []), c);
    AddPluginsKeyed(c);
    var res := SortPlugins(st.byType, st.order);
    if res.Ok? {
      var out := res.value;
      SortPluginsPermutes(st.byType, st.order);
      SortPluginsSound(st.byType, st.order);
      AddPluginsFirstWins(c);
      AddPluginsCovers(c);
      CandidatesInScope(plugins, r);
      assert FirstCandidates(c, out) by {
        forall i | 0 <= i < |out|
          ensures FirstOfType(c, out[i].typ) >= 0 && out[i] == c[FirstOfType(c, out[i].typ)]
        {
          assert out[i] == st.byType[out[i].typ];
        }
      }
      forall i | 0 <= i < |out| ensures out[i] in plugins && !out[i].disabled && InScope(out[i], r) {
        var k := FirstOfType(c, out[i].typ);
        assert out[i] == c[k];
      }
    }
  }

  function Get(m: map<string, seq<Plugin>>, k: string): seq<Plugin> {
    if k in m then m[k] else []
  }

  /** findAppliedPlugins: bucket the enabled plugins by scope, add by precedence, then sort. */
  method FindAppliedPlugins(plugins: seq<Plugin>, r: Route) returns (res: Result<seq<Plugin>, BuildError>)
    ensures res == AppliedPlugins(plugins, r)
  {
    var routeService, routeOnly, serviceOnly, global := BucketPlugins(plugins);
    var a := Get(routeService, r.name);
    var b := Get(routeOnly, r.name);
    var c := Get(serviceOnly, r.serviceName);
    var st := Typed(map[], []);
    st := AddAll(st, a);
    st := AddAll(st, b);
    st := AddAll(st, c);
    st := AddAll(st, global);
    AddPluginsConcat(Typed(map[], []), a, b);
    AddPluginsConcat(Typed(map[], []), a + b, c);
    AddPluginsConcat(Typed(map[], []), a + b + c, global);
    assert st == AddPlugins(Typed(map[], []), Candidates(plugins, r));
    AddPluginsKeyed(Candidates(plugins, r));
    res := SortPluginsByOrderAfter(st.byType, st.order);
  }

  /** One more plugin extends exactly the bucket it falls into. */
  lemma BucketSnoc(plugins: seq<Plugin>, i: nat, sc: Scope, key: string)
    requires i < |plugins|
    ensures var p := plugins[i];
      Bucket(plugins[..i + 1], sc, key)
      == if !p.disabled && ScopeOf(p) == sc && ScopeKey(p) == key then Bucket(plugins[..i], sc, key) + [p]
         else Bucket(plugins[..i], sc, key)
  {
    assert plugins[..i + 1][..i] == plugins[..i];
  }

  /** The map of buckets of scope `sc` over the first i plugins. */
  ghost predicate BucketsUpTo(m: map<string, seq<Plugin>>, plugins: seq<Plugin>, i: nat, sc: Scope)
    requires i <= |plugins|
  {
    forall k :: Get(m, k) == Bucket(plugins[..i], sc, k)
  }

  /** Appending plugin i to its own bucket keeps the bucket map exact. */
  lemma BucketMapStep(m: map<string, seq<Plugin>>, plugins: seq<Plugin>, i: nat, sc: Scope)
    requires i < |plugins| && BucketsUpTo(m, plugins, i, sc)
    ensures var p := plugins[i];
      BucketsUpTo(if !p.disabled && ScopeOf(p) == sc then m[ScopeKey(p) := Get(m, ScopeKey(p)) + [p]] else m,
                  plugins, i + 1, sc)
  {
    var p := plugins[i];
    var m' := if !p.disabled && ScopeOf(p) == sc then m[ScopeKey(p) := Get(m, ScopeKey(p)) + [p]] else m;
    forall k ensures Get(m', k) == Bucket(plugins[..i + 1], sc, k) {
      BucketSnoc(plugins, i, sc, k);
    }
  }

  /** The bucketing loop of findAppliedPlugins: three maps keyed by name and the global list. */
  method BucketPlugins(plugins: seq<Plugin>)
    returns (routeService: map<string, seq<Plugin>>, routeOnly: map<string, seq<Plugin>>,
             serviceOnly: map<string, seq<Plugin>>, global: seq<Plugin>)
    ensures forall k :: Get(routeService, k) == Bucket(plugins, RouteService, k)
    ensures forall k :: Get(routeOnly, k) == Bucket(plugins, RouteOnly, k)
    ensures forall k :: Get(serviceOnly, k) == Bucket(plugins, ServiceOnly, k)
    ensures global == Bucket(plugins, Global, "")
  {
    routeService, routeOnly, serviceOnly, global := map[], map[], map[], [];
    var i := 0;
    while i < |plugins|
      invariant 0 <= i <= |plugins|
      invariant BucketsUpTo(routeService, plugins, i, RouteService)
      invariant BucketsUpTo(routeOnly, plugins, i, RouteOnly)
      invariant BucketsUpTo(serviceOnly, plugins, i, ServiceOnly)
      invariant global == Bucket(plugins[..i], Global, "")
    {
      var p := plugins[i];
      BucketMapStep(routeService, plugins, i, RouteService);
      BucketMapStep(routeOnly, plugins, i, RouteOnly);
      BucketMapStep(serviceOnly, plugins, i, ServiceOnly);
      BucketSnoc(plugins, i, Global, "");
      if !p.disabled {
        if p.routeName != "" && p.serviceName != "" {
          routeService := routeService[p.routeName := Get(routeService, p.routeName) + [p]];
        } else if p.routeName != "" {
          routeOnly := routeOnly[p.routeName := Get(routeOnly, p.routeName) + [p]];
        } else if p.serviceName != "" {
          serviceOnly := serviceOnly[p.serviceName := Get(serviceOnly, p.serviceName) + [p]];
        } else {
          global := global + [p];
        }
      }
      i := i + 1;
    }
    assert plugins[..|plugins|] == plugins;
  }

  /** addPlugin applied to each plugin of a list in turn. */
  method AddAll(st0: Typed, ps: seq<Plugin>) returns (st: Typed)
    ensures st == AddPlugins(st0, ps)
  {
    st := st0;
    var i := 0;
    while i < |ps|
      invariant 0 <= i <= |ps|
      invariant st == AddPlugins(st0, ps[..i])
    {
      assert ps[..i + 1][..i] == ps[..i];
      if ps[i].typ !in st.byType {
        st := Typed(st.byType[ps[i].typ := ps[i]], st.order + [ps[i].typ]);
      }
      i := i + 1;
    }
    assert ps[..|ps|] == ps;
  }
}
