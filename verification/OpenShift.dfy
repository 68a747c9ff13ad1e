/** Normalizing an OpenShift template before virtual machines are added to an availability set. */
module OpenShift {
  import opened Filters
  import opened Text
  import opened Template
  import opened Splices

  predicate Needed(name: Json, word: string)
  {
    name.Str? && Contains(name.s, word)
  }

  function Wanted(word: string): Json -> bool
  {
    name => Needed(name, word)
  }

  function Matching(s: seq<Json>, word: string): seq<Json>
  {
    Filter(s, Wanted(word))
  }

  lemma MatchingAreNeeded(s: seq<Json>, word: string)
    ensures forall x :: x in Matching(s, word) <==> x in s && Needed(x, word)
  {
    forall x ensures x in Matching(s, word) <==> x in s && Needed(x, word) {
      FilterCounts(s, Wanted(word), x);
    }
  }

  // What a resource depends on, when dependsOn is a list
  ghost function DepsOf(r: JsonObject): Option<seq<Json>>
    reads r, if r.dependsOn.List? then {r.dependsOn.items} else {}
  {
    if r.dependsOn.List? && r.dependsOn.len <= r.dependsOn.items.Length then
      Some(r.dependsOn.items[..r.dependsOn.len])
    else None
  }

  ghost predicate IsSlice(r: JsonObject)
    reads r
  {
    r.dependsOn.List? ==> r.dependsOn.len <= r.dependsOn.items.Length
  }

  // Removes the dependencies on resources that go; a failed type assertion is reported.
  method NarrowDependencies(r: JsonObject, word: string, ghost deps: Option<seq<Json>>) returns (ok: bool)
    requires IsSlice(r) && DepsOf(r) == deps
    modifies r`dependsOn
    ensures ok <==> deps.Some? && AllStrings(deps.value)
    ensures ok ==> IsSlice(r) && r.dependsOn.List? && fresh(r.dependsOn.items)
    ensures ok ==> DepsOf(r) == Some(Matching(deps.value, word))
    ensures !ok ==> r.dependsOn == old(r.dependsOn)
  {
    if !r.dependsOn.List? {
      return false;
    }
    var items, n := r.dependsOn.items, r.dependsOn.len;
    var depends := [];
    for i := 0 to n
      invariant r.dependsOn == old(r.dependsOn)
      invariant depends == Matching(deps.value[..i], word) && AllStrings(deps.value[..i])
    {
      FilterNext(deps.value, i, Wanted(word));
      assert deps.value[..i + 1][..i] == deps.value[..i] && items[i] == deps.value[i];
      if !items[i].Str? {
        assert deps.value[i] in deps.value;
        return false;
      }
      if Contains(items[i].s, word) {
        depends := depends + [items[i]];
      }
    }
    assert deps.value[..n] == deps.value;
    var kept := new Json[|depends|](i requires 0 <= i < |depends| => depends[i]);
    r.dependsOn := List(kept, |depends|);
    assert kept[..|depends|] == depends;
    ok := true;
  }

  // ----- the resources -----

  // The assertions that a resource must pass
  ghost predicate Sound(r: Json, word: string, deps: map<JsonObject, Option<seq<Json>>>)
  {
    r.Obj? && r.o.name.Str? &&
    (Needed(r.o.name, word) ==> r.o in deps && deps[r.o].Some? && AllStrings(deps[r.o].value))
  }

  predicate IsNeeded(r: Json, word: string)
  {
    r.Obj? && Needed(r.o.name, word)
  }

  ghost function Unneeded(list: seq<Json>, word: string): set<nat>
  {
    set k | 0 <= k < |list| && !IsNeeded(list[k], word)
  }

  // As parsed from text: no object occurs twice.
  ghost predicate Apart(list: seq<Json>)
  {
    forall j, k :: 0 <= j < k < |list| && list[j].Obj? && list[k].Obj? ==> list[j].o != list[k].o
  }

  // Each resource that is needed is one of `objects`, and its dependencies are what the map says.
  ghost predicate Holds(list: seq<Json>, word: string, deps: map<JsonObject, Option<seq<Json>>>, from: nat)
    reads *
  {
    forall k :: from <= k < |list| && IsNeeded(list[k], word) ==>
      list[k].o in deps && IsSlice(list[k].o) && DepsOf(list[k].o) == deps[list[k].o]
  }

  ghost predicate Narrowed(list: seq<Json>, word: string, deps: map<JsonObject, Option<seq<Json>>>, to: nat)
    reads *
  {
    forall k :: 0 <= k < to <= |list| && IsNeeded(list[k], word) ==>
      list[k].o in deps && deps[list[k].o].Some? && IsSlice(list[k].o) &&
      DepsOf(list[k].o) == Some(Matching(deps[list[k].o].value, word))
  }

  method Visit(r: Json, word: string, ghost k: nat, ghost list: seq<Json>,
        ghost deps: map<JsonObject, Option<seq<Json>>>)
    returns (ok: bool)
    requires k < |list| && list[k] == r && Apart(list) && Holds(list, word, deps, k) && Narrowed(list, word, deps, k)
    modifies deps.Keys`dependsOn
    ensures ok <==> Sound(r, word, deps)
    ensures var reached := if ok then k + 1 else k;
      Holds(list, word, deps, reached) && Narrowed(list, word, deps, reached)
  {
    if !r.Obj? || !r.o.name.Str? {
      return false;
    }
    ok := true;
    if Contains(r.o.name.s, word) {
      ok := NarrowDependencies(r.o, word, deps[r.o]);
    }
  }

  // The scan ends behind the last resource, or at the first that fails an assertion: the dependencies before that are
  // narrowed, those from there on are as they were.
  ghost predicate Stopped(list: seq<Json>, word: string, deps: map<JsonObject, Option<seq<Json>>>, ok: bool,
        reached: nat)
    reads *
  {
    (if ok then reached == |list| else reached < |list| && !Sound(list[reached], word, deps)) &&
    (forall k :: 0 <= k < reached ==> Sound(list[k], word, deps)) &&
    Narrowed(list, word, deps, reached) && Holds(list, word, deps, reached)
  }

  // One turn of the loop: the resource is kept if its name mentions the prefix.
  method SelectNext(r: Json, word: string, ghost k: nat, before: seq<Json>, ghost list: seq<Json>,
        ghost deps: map<JsonObject, Option<seq<Json>>>)
    returns (ok: bool, kept: seq<Json>)
    requires k < |list| && list[k] == r && Apart(list) && Holds(list, word, deps, k) && Narrowed(list, word, deps, k)
    requires before == Keep(list[..k], Unneeded(list, word))
    modifies deps.Keys`dependsOn
    ensures ok <==> Sound(r, word, deps)
    ensures var reached := if ok then k + 1 else k;
      Holds(list, word, deps, reached) && Narrowed(list, word, deps, reached)
    ensures ok ==> kept == Keep(list[..k + 1], Unneeded(list, word))
  {
    kept := before;
    ok := Visit(r, word, k, list, deps);
    if ok {
      assert list[..k + 1][..k] == list[..k];
      if Contains(r.o.name.s, word) {
        kept := kept + [r];
      }
    }
  }

  method Select(resources: array<Json>, n: nat, word: string, ghost list: seq<Json>,
        ghost deps: map<JsonObject, Option<seq<Json>>>)
    returns (ok: bool, kept: seq<Json>, ghost reached: nat)
    requires n <= resources.Length && resources[..n] == list && Apart(list) && Holds(list, word, deps, 0)
    modifies deps.Keys`dependsOn
    ensures ok ==> kept == Keep(list, Unneeded(list, word))
    ensures Stopped(list, word, deps, ok, reached)
  {
    kept, reached := [], 0;
    ghost var unneeded := Unneeded(list, word);
    for index := 0 to n
      invariant kept == Keep(list[..index], unneeded)
      invariant Holds(list, word, deps, index) && Narrowed(list, word, deps, index)
      invariant reached == index && forall k :: 0 <= k < index ==> Sound(list[k], word, deps)
    {
      assert resources[index] == list[index];
      ok, kept := SelectNext(resources[index], word, index, kept, list, deps);
      if !ok {
        return;
      }
      reached := index + 1;
    }
    assert list[..n] == list;
    ok := true;
  }

  // The map lists the needed resources' objects, and no others.
  ghost predicate OnlyNeeded(list: seq<Json>, word: string, objects: set<JsonObject>)
  {
    forall o :: o in objects ==> exists k :: 0 <= k < |list| && IsNeeded(list[k], word) && list[k].o == o
  }

  ghost predicate Given(template: JsonObject, list: seq<Json>, word: string, deps: map<JsonObject, Option<seq<Json>>>)
    reads *
  {
    HasResources(template) && ResourceList(template) == list && Apart(list) && Holds(list, word, deps, 0) &&
    OnlyNeeded(list, word, deps.Keys)
  }

  // The new list and the empty outputs go into the template.
  method Publish(template: JsonObject, kept: seq<Json>, ghost list: seq<Json>, ghost word: string,
        ghost deps: map<JsonObject, Option<seq<Json>>>)
    requires Stopped(list, word, deps, true, |list|)
    modifies template`resources, template`outputs
    ensures HasResources(template) && fresh(template.resources.items) && ResourceList(template) == kept
    ensures template.outputs.Obj? && fresh(template.outputs.o)
    ensures Stopped(list, word, deps, true, |list|)
  {
    var resources := new Json[|kept|](i requires 0 <= i < |kept| => kept[i]);
    assert resources[..|kept|] == kept;
    var empty := new JsonObject();
    template.resources, template.outputs := List(resources, |kept|), Obj(empty);
  }

  /** Only resources that name the pool's VM prefix stay, in order; a failed type assertion is the one error. */
  method NormalizeForOpenShiftVMASScalingUp(agentPoolName: string, template: JsonObject,
        ghost list: seq<Json>, ghost deps: map<JsonObject, Option<seq<Json>>>)
    returns (ok: bool, ghost reached: nat)
    requires template.resources.List? ==> Given(template, list, agentPoolName + "VMNamePrefix", deps)
    modifies template`resources, template`outputs, deps.Keys`dependsOn
    ensures var word := agentPoolName + "VMNamePrefix";
      ok <==> old(template.resources.List?) && forall k :: 0 <= k < |list| ==> Sound(list[k], word, deps)
    ensures ok ==>
      var word := agentPoolName + "VMNamePrefix";
      HasResources(template) && fresh(template.resources.items) &&
        ResourceList(template) == Keep(list, Unneeded(list, word))
    ensures ok ==> template.outputs.Obj? && fresh(template.outputs.o)
    ensures !ok ==> template.resources == old(template.resources) && template.outputs == old(template.outputs)
    ensures old(template.resources.List?) ==> Stopped(list, agentPoolName + "VMNamePrefix", deps, ok, reached)
    ensures old(!template.resources.List?) ==> forall o :: o in deps ==> o.dependsOn == old(o.dependsOn)
  {
    ok, reached := false, 0;
    if !template.resources.List? {
      return;
    }
    var word := agentPoolName + "VMNamePrefix";
    var kept;
    ok, kept, reached := Select(template.resources.items, template.resources.len, word, list, deps);
    if !ok {
      return;
    }
    Publish(template, kept, list, word, deps);
  }

  lemma {:induction false} KeptApart(s: seq<Json>, removed: set<nat>)
    requires Apart(s)
    ensures Apart(Keep(s, removed))
  {
    if s != [] {
      var front, last := s[..|s| - 1], s[|s| - 1];
      KeptApart(front, removed);
      KeptIsOld(front, removed);
      assert forall x :: x in Keep(front, removed) && x.Obj? && last.Obj? ==> x.o != last.o;
    }
  }

  // What the first call leaves meets the assertions of a second, which keeps everything.
  lemma KeptIsSound(list: seq<Json>, word: string, deps: map<JsonObject, Option<seq<Json>>>)
    requires Apart(list) && forall k :: 0 <= k < |list| ==> Sound(list[k], word, deps)
    ensures var kept := Keep(list, Unneeded(list, word));
      Apart(kept) && Unneeded(kept, word) == {} && Keep(kept, {}) == kept &&
      forall k :: 0 <= k < |kept| ==> Sound(kept[k], word, deps) && kept[k] in list
  {
    var kept := Keep(list, Unneeded(list, word));
    KeptIsOld(list, Unneeded(list, word));
    forall k | 0 <= k < |kept| ensures IsNeeded(kept[k], word) && Sound(kept[k], word, deps) && kept[k] in list {
      assert kept[k] in kept;
      var i :| 0 <= i < |list| && i !in Unneeded(list, word) && list[i] == kept[k];
    }
    KeptApart(list, Unneeded(list, word));
    KeepNone(kept);
  }

  // Exactly the resources whose names mention the word stay, with exactly the dependencies that mention it.
  ghost predicate RightSurvivors(list: seq<Json>, kept: seq<Json>, word: string,
        deps: map<JsonObject, Option<seq<Json>>>)
    reads *
  {
    (forall r :: r in kept ==> r in list) &&
    (forall r :: r in list ==> (r in kept <==> r.Obj? && r.o.name.Str? && Contains(r.o.name.s, word))) &&
    forall r :: r in kept ==>
      r.o in deps && deps[r.o].Some? && DepsOf(r.o).Some? &&
      (forall d :: d in DepsOf(r.o).value ==> d in deps[r.o].value) &&
      forall d :: d in deps[r.o].value ==> (d in DepsOf(r.o).value <==> d.Str? && Contains(d.s, word))
  }

  lemma SurvivorsMention(list: seq<Json>, word: string, deps: map<JsonObject, Option<seq<Json>>>)
    requires Narrowed(list, word, deps, |list|)
    ensures RightSurvivors(list, Keep(list, Unneeded(list, word)), word, deps)
  {
    var kept := Keep(list, Unneeded(list, word));
    KeptIsOld(list, Unneeded(list, word));
    forall r | r in list ensures IsNeeded(r, word) ==> r in kept {
      var i :| 0 <= i < |list| && list[i] == r;
      if IsNeeded(r, word) {
        KeepHas(list, Unneeded(list, word), i);
      }
    }
    forall r | r in kept ensures IsNeeded(r, word) && r.o in deps && deps[r.o].Some? &&
      DepsOf(r.o) == Some(Matching(deps[r.o].value, word))
    {
      var i :| 0 <= i < |list| && i !in Unneeded(list, word) && list[i] == r;
    }
    forall r | r in kept
      ensures forall d :: d in DepsOf(r.o).value <==> d in deps[r.o].value && d.Str? && Contains(d.s, word)
    {
      MatchingAreNeeded(deps[r.o].value, word);
    }
  }

  // Filtering the dependencies once more changes nothing.
  ghost function Filtered(deps: map<JsonObject, Option<seq<Json>>>, word: string): map<JsonObject, Option<seq<Json>>>
  {
    map o | o in deps :: if deps[o].Some? then Some(Matching(deps[o].value, word)) else None
  }

  lemma KeptHasAll(list: seq<Json>, kept: seq<Json>, word: string, objects: set<JsonObject>)
    requires kept == Keep(list, Unneeded(list, word)) && OnlyNeeded(list, word, objects)
    ensures OnlyNeeded(kept, word, objects)
  {
    forall o | o in objects ensures exists k :: 0 <= k < |kept| && IsNeeded(kept[k], word) && kept[k].o == o {
      var i :| 0 <= i < |list| && IsNeeded(list[i], word) && list[i].o == o;
      KeepHas(list, Unneeded(list, word), i);
      var k :| 0 <= k < |kept| && kept[k] == list[i];
    }
  }

  // After the first call, a second meets its assertions on what the first left.
  lemma {:induction false} ReadyAgain(list: seq<Json>, kept: seq<Json>, word: string,
        deps: map<JsonObject, Option<seq<Json>>>)
    requires Apart(list) && (forall k :: 0 <= k < |list| ==> Sound(list[k], word, deps)) &&
      OnlyNeeded(list, word, deps.Keys)
    requires kept == Keep(list, Unneeded(list, word)) && Narrowed(list, word, deps, |list|)
    ensures Apart(kept) && Holds(kept, word, Filtered(deps, word), 0)
    ensures forall k :: 0 <= k < |kept| ==> Sound(kept[k], word, Filtered(deps, word))
    ensures Unneeded(kept, word) == {} && Keep(kept, {}) == kept
    ensures OnlyNeeded(kept, word, deps.Keys)
  {
    KeptIsSound(list, word, deps);
    KeptHasAll(list, kept, word, deps.Keys);
    forall k | 0 <= k < |kept|
      ensures Sound(kept[k], word, Filtered(deps, word))
      ensures IsNeeded(kept[k], word) ==>
        IsSlice(kept[k].o) && DepsOf(kept[k].o) == Filtered(deps, word)[kept[k].o]
    {
      var i :| 0 <= i < |list| && list[i] == kept[k];
      assert IsNeeded(kept[k], word) by {
        assert k !in Unneeded(kept, word);
      }
      MatchingAreNeeded(deps[kept[k].o].value, word);
    }
  }

  // Narrowing what is narrow already leaves it as it is.
  lemma {:induction false} NarrowAgain(list: seq<Json>, kept: seq<Json>, word: string,
        deps: map<JsonObject, Option<seq<Json>>>)
    requires kept == Keep(list, Unneeded(list, word)) && Narrowed(kept, word, Filtered(deps, word), |kept|)
    requires forall k :: 0 <= k < |list| ==> Sound(list[k], word, deps)
    ensures Narrowed(list, word, deps, |list|)
  {
    forall k | 0 <= k < |list| && IsNeeded(list[k], word)
      ensures IsSlice(list[k].o) && DepsOf(list[k].o) == Some(Matching(deps[list[k].o].value, word))
    {
      KeepHas(list, Unneeded(list, word), k);
      var j :| 0 <= j < |kept| && kept[j] == list[k];
      FilterTwice(deps[list[k].o].value, Wanted(word));
    }
  }

  /** Idempotence: a second call succeeds when the first did, and leaves the same lists. */
  method NormalizeForOpenShiftTwice(agentPoolName: string, template: JsonObject,
        ghost list: seq<Json>, ghost deps: map<JsonObject, Option<seq<Json>>>)
    returns (once: bool, again: bool)
    requires template.resources.List? ==> Given(template, list, agentPoolName + "VMNamePrefix", deps)
    modifies template`resources, template`outputs, deps.Keys`dependsOn
    ensures once ==> again
    ensures once ==>
      var word := agentPoolName + "VMNamePrefix";
      HasResources(template) && ResourceList(template) == Keep(list, Unneeded(list, word)) &&
      Narrowed(list, word, deps, |list|)
    ensures once ==> template.outputs.Obj? && fresh(template.outputs.o)
  {
    ghost var word := agentPoolName + "VMNamePrefix";
    again := false;
    ghost var reached;
    once, reached := NormalizeForOpenShiftVMASScalingUp(agentPoolName, template, list, deps);
    if once {
      ghost var kept := ResourceList(template);
      ReadyAgain(list, kept, word, deps);
      again, reached := NormalizeForOpenShiftVMASScalingUp(agentPoolName, template, kept, Filtered(deps, word));
      NarrowAgain(list, kept, word, deps);
    }
  }
}
