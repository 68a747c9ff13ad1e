/** Rejecting JSON keys that no Go type declares, whatever their case; the types may refer to each other in cycles. */
module StrictJson {
  import opened Text

  // An object lists its entries in the order in which the map happens to be walked.
  datatype Value = Nil | Leaf(text: string) | Array(items: seq<Value>) | Object(entries: seq<Entry>)

  datatype Entry = Entry(key: string, value: Value)

  // A Go type, as reflection shows it; types refer to each other by number.
  type TypeId = nat

  datatype FieldDecl = FieldDecl(jsonTag: string, fieldType: TypeId)

  datatype Shape = Struct(fields: seq<FieldDecl>) | Slice(elem: TypeId) | Pointer(elem: TypeId) | Basic

  type Types = TypeId -> Shape

  // Reading the fields of what is not a struct panics.
  datatype Verdict = Accepted | Unknown(key: string) | Panic

  // strings.ToLower, on ASCII letters
  function Lower(s: string): string
  {
    if s == [] then []
    else [if 'A' <= s[0] <= 'Z' then (s[0] as int + 32) as char else s[0]] + Lower(s[1..])
  }

  // The name in a tag: what comes before the first comma
  function TagName(tag: string): string
  {
    Split(tag, ',')[0]
  }

  // ----- the keys that types declare -----

  predicate Declares(f: FieldDecl, key: string)
  {
    f.jsonTag != "" && Lower(TagName(f.jsonTag)) == key
  }

  // The field a key stands for, looked for from the last declared one
  function Lookup(fields: seq<FieldDecl>, key: string): Option<TypeId>
  {
    if fields == [] then None
    else
      var last := fields[|fields| - 1];
      if Declares(last, key) then Some(last.fieldType) else Lookup(fields[..|fields| - 1], key)
  }

  // The fields of all types one after the other
  function AllFields(types: Types, ids: seq<TypeId>): seq<FieldDecl>
  {
    if ids == [] then []
    else
      AllFields(types, ids[..|ids| - 1]) +
      match types(ids[|ids| - 1])
      case Struct(fields) => fields
      case _ => []
  }

  predicate AllStructs(types: Types, ids: seq<TypeId>)
  {
    forall i :: 0 <= i < |ids| ==> types(ids[i]).Struct?
  }

  ghost predicate Represents(m: map<string, TypeId>, fields: seq<FieldDecl>)
  {
    forall key :: Lookup(fields, key) == if key in m then Some(m[key]) else None
  }

  lemma LookupLast(fields: seq<FieldDecl>, f: FieldDecl, key: string)
    ensures Lookup(fields + [f], key) == if Declares(f, key) then Some(f.fieldType) else Lookup(fields, key)
  {
    assert (fields + [f])[..|fields|] == fields;
  }

  method AddFields(m: map<string, TypeId>, fields: seq<FieldDecl>, ghost before: seq<FieldDecl>)
    returns (fieldMap: map<string, TypeId>)
    requires Represents(m, before)
    ensures Represents(fieldMap, before + fields)
  {
    fieldMap := m;
    assert before + fields[..0] == before;
    for i := 0 to |fields|
      invariant Represents(fieldMap, before + fields[..i])
    {
      var f := fields[i];
      assert before + fields[..i + 1] == before + fields[..i] + [f];
      forall key ensures Lookup(before + fields[..i + 1], key) ==
        if Declares(f, key) then Some(f.fieldType) else Lookup(before + fields[..i], key)
      {
        LookupLast(before + fields[..i], f, key);
      }
      if f.jsonTag != "" {
        fieldMap := fieldMap[Lower(TagName(f.jsonTag)) := f.fieldType];
      }
    }
    assert fields[..|fields|] == fields;
  }

  /** The last field that declares a key wins; reading the fields of a type that is no struct panics. */
  method CreateJSONFieldMap(types: Types, ids: seq<TypeId>) returns (ok: bool, fieldMap: map<string, TypeId>)
    ensures ok <==> AllStructs(types, ids)
    ensures ok ==> Represents(fieldMap, AllFields(types, ids))
  {
    fieldMap := map[];
    for i := 0 to |ids|
      invariant AllStructs(types, ids[..i]) && Represents(fieldMap, AllFields(types, ids[..i]))
    {
      assert ids[..i + 1][..i] == ids[..i];
      if !types(ids[i]).Struct? {
        return false, map[];
      }
      fieldMap := AddFields(fieldMap, types(ids[i]).fields, AllFields(types, ids[..i]));
    }
    assert ids[..|ids|] == ids;
    ok := true;
  }

  // ----- objects below an object, with their types -----

  datatype Site = Site(o: Value, ids: seq<TypeId>)

  function ElementOf(types: Types, elem: TypeId): TypeId
  {
    match types(elem)
    case Pointer(target) => target
    case _ => elem
  }

  function ItemSites(items: seq<Value>, id: TypeId): (sites: seq<Site>)
    ensures forall k :: 0 <= k < |sites| ==> sites[k].o in items && sites[k].o.Object?
  {
    if items == [] then []
    else
      ItemSites(items[..|items| - 1], id) +
      if items[|items| - 1].Object? then [Site(items[|items| - 1], [id])] else []
  }

  // What is checked below a field: an object below a struct or a pointer, the objects of a slice
  function ChildSites(types: Types, v: Value, id: TypeId): (sites: seq<Site>)
    ensures forall k :: 0 <= k < |sites| ==> sites[k].o.Object? && (sites[k].o == v || sites[k].o < v)
  {
    match types(id)
    case Struct(_) => if v.Object? then [Site(v, [id])] else []
    case Pointer(target) => if v.Object? then [Site(v, [target])] else []
    case Slice(elem) => if v.Array? then ItemSites(v.items, ElementOf(types, elem)) else []
    case Basic => []
  }

  function KeyType(types: Types, ids: seq<TypeId>, key: string): Option<TypeId>
  {
    Lookup(AllFields(types, ids), Lower(key))
  }

  // The sites below the i-th entry; an unknown key leads nowhere.
  function Below(types: Types, o: Value, ids: seq<TypeId>, i: nat): (sites: seq<Site>)
    requires o.Object? && i < |o.entries|
    ensures forall k :: 0 <= k < |sites| ==> sites[k].o.Object? && sites[k].o < o
  {
    match KeyType(types, ids, o.entries[i].key)
    case None => []
    case Some(id) => ChildSites(types, o.entries[i].value, id)
  }

  // A site where all keys are declared
  ghost predicate Declared(types: Types, o: Value, ids: seq<TypeId>)
    requires o.Object?
  {
    AllStructs(types, ids) && forall i :: 0 <= i < |o.entries| ==> KeyType(types, ids, o.entries[i].key).Some?
  }

  ghost predicate Accepts(types: Types, o: Value, ids: seq<TypeId>)
    requires o.Object?
    decreases o
  {
    Declared(types, o, ids) &&
    forall i, k :: 0 <= i < |o.entries| && 0 <= k < |Below(types, o, ids, i)| ==>
      var child := Below(types, o, ids, i)[k]; Accepts(types, child.o, child.ids)
  }

  ghost predicate AllAccepted(types: Types, sites: seq<Site>)
  {
    forall k :: 0 <= k < |sites| ==> sites[k].o.Object? && Accepts(types, sites[k].o, sites[k].ids)
  }

  // ----- reachability -----

  datatype Path = Here | Down(entry: nat, child: nat, rest: Path)

  function At(types: Types, o: Value, ids: seq<TypeId>, p: Path): (site: Option<Site>)
    requires o.Object?
    ensures site.Some? ==> site.value.o.Object?
    decreases p
  {
    match p
    case Here => Some(Site(o, ids))
    case Down(i, k, rest) =>
      if i < |o.entries| && k < |Below(types, o, ids, i)| then
        var child := Below(types, o, ids, i)[k];
        At(types, child.o, child.ids, rest)
      else None
  }

  lemma {:induction false} AcceptedBelow(types: Types, o: Value, ids: seq<TypeId>, p: Path)
    requires o.Object? && Accepts(types, o, ids) && At(types, o, ids, p).Some?
    ensures var site := At(types, o, ids, p).value; Declared(types, site.o, site.ids)
    decreases p
  {
    match p
    case Here =>
    case Down(i, k, rest) =>
      var child := Below(types, o, ids, i)[k];
      AcceptedBelow(types, child.o, child.ids, rest);
  }

  lemma {:induction false} RejectedSomewhere(types: Types, o: Value, ids: seq<TypeId>) returns (p: Path)
    requires o.Object? && !Accepts(types, o, ids)
    ensures At(types, o, ids, p).Some?
    ensures var site := At(types, o, ids, p).value; !Declared(types, site.o, site.ids)
    decreases o
  {
    p := Here;
    if Declared(types, o, ids) {
      var i, k :| 0 <= i < |o.entries| && 0 <= k < |Below(types, o, ids, i)| &&
        var child := Below(types, o, ids, i)[k]; !Accepts(types, child.o, child.ids);
      var child := Below(types, o, ids, i)[k];
      var rest := RejectedSomewhere(types, child.o, child.ids);
      p := Down(i, k, rest);
    }
  }

  // ----- what the types declare, said without the tables above -----

  // Equal, or the two cases of one ASCII letter
  predicate SameLetter(c: char, d: char)
  {
    c == d || ('a' <= c <= 'z' && c as int == d as int + 32) || ('a' <= d <= 'z' && d as int == c as int + 32)
  }

  ghost predicate SameKey(a: string, b: string)
  {
    |a| == |b| && forall i :: 0 <= i < |a| ==> SameLetter(a[i], b[i])
  }

  lemma {:induction false} LowerIs(a: string, b: string)
    ensures Lower(a) == Lower(b) <==> SameKey(a, b)
    decreases |a|
  {
    if a != [] && b != [] {
      LowerIs(a[1..], b[1..]);
      assert Lower(a)[1..] == Lower(a[1..]) && Lower(b)[1..] == Lower(b[1..]);
      assert Lower(a)[0] == Lower(b)[0] <==> SameLetter(a[0], b[0]);
      assert SameKey(a, b) <==> SameLetter(a[0], b[0]) && SameKey(a[1..], b[1..]) by {
        if SameLetter(a[0], b[0]) && SameKey(a[1..], b[1..]) {
          forall i | 0 <= i < |a| ensures SameLetter(a[i], b[i]) {
            assert i > 0 ==> a[i] == a[1..][i - 1] && b[i] == b[1..][i - 1];
          }
        }
      }
      Whole(Lower(a));
      Whole(Lower(b));
    }
  }

  // The name in a tag ends at its first comma, or with the tag.
  ghost predicate NameEnds(tag: string, n: nat)
  {
    n <= |tag| && ',' !in tag[..n] && (n == |tag| || tag[n] == ',')
  }

  lemma {:induction false} TagNameEnds(tag: string, n: nat)
    ensures NameEnds(tag, n) ==> TagName(tag) == tag[..n]
    ensures TagName(tag) <= tag && NameEnds(tag, |TagName(tag)|)
  {
    if tag != [] && tag[0] != ',' {
      var rest := tag[1..];
      TagNameEnds(rest, if n > 0 then n - 1 else 0);
      var name := TagName(rest);
      Whole(tag);
      assert TagName(tag) == [tag[0]] + name;
      assert tag[..|name| + 1] == [tag[0]] + rest[..|name|];
      if n > 0 && NameEnds(tag, n) {
        assert tag[..n] == [tag[0]] + rest[..n - 1];
      }
    }
  }

  ghost predicate Names(f: FieldDecl, key: string)
  {
    f.jsonTag != "" && exists n: nat :: NameEnds(f.jsonTag, n) && SameKey(f.jsonTag[..n], key)
  }

  lemma NamesIs(f: FieldDecl, key: string)
    ensures Declares(f, Lower(key)) <==> Names(f, key)
  {
    var name := TagName(f.jsonTag);
    TagNameEnds(f.jsonTag, 0);
    LowerIs(name, key);
    assert f.jsonTag[..|name|] == name;
    if n: nat :| NameEnds(f.jsonTag, n) && SameKey(f.jsonTag[..n], key) {
      TagNameEnds(f.jsonTag, n);
    }
  }

  function FieldsOf(types: Types, id: TypeId): seq<FieldDecl>
  {
    if types(id).Struct? then types(id).fields else []
  }

  // The i-th field of the t-th type goes by this key
  ghost predicate NamedAt(types: Types, ids: seq<TypeId>, key: string, t: nat, i: nat)
  {
    t < |ids| && i < |FieldsOf(types, ids[t])| && Names(FieldsOf(types, ids[t])[i], key)
  }

  ghost predicate LastNamedAt(types: Types, ids: seq<TypeId>, key: string, t: nat, i: nat)
  {
    NamedAt(types, ids, key, t, i) &&
    forall u: nat, j: nat :: NamedAt(types, ids, key, u, j) ==> u < t || (u == t && j <= i)
  }

  // The last such field has this type.
  ghost predicate Chosen(types: Types, ids: seq<TypeId>, key: string, id: TypeId)
  {
    exists t: nat, i: nat :: LastNamedAt(types, ids, key, t, i) && FieldsOf(types, ids[t])[i].fieldType == id
  }

  lemma {:induction false} LookupIs(fields: seq<FieldDecl>, key: string) returns (i: nat)
    ensures Lookup(fields, Lower(key)) == None ==> forall j :: 0 <= j < |fields| ==> !Names(fields[j], key)
    ensures Lookup(fields, Lower(key)) != None ==>
      i < |fields| && Names(fields[i], key) && Lookup(fields, Lower(key)) == Some(fields[i].fieldType) &&
      forall j :: i < j < |fields| ==> !Names(fields[j], key)
  {
    i := 0;
    if fields != [] {
      var last := |fields| - 1;
      NamesIs(fields[last], key);
      i := LookupIs(fields[..last], key);
      if Names(fields[last], key) {
        i := last;
      }
    }
  }

  lemma {:induction false} LookupInLast(before: seq<FieldDecl>, fields: seq<FieldDecl>, key: string)
    ensures Lookup(before + fields, key) ==
      if Lookup(fields, key) != None then Lookup(fields, key) else Lookup(before, key)
  {
    if fields == [] {
      assert before + fields == before;
    } else {
      assert (before + fields)[..|before + fields| - 1] == before + fields[..|fields| - 1];
      LookupInLast(before, fields[..|fields| - 1], key);
    }
  }

  lemma NamedInFront(types: Types, ids: seq<TypeId>, key: string, u: nat, j: nat)
    requires ids != []
    ensures NamedAt(types, ids, key, u, j) <==>
      NamedAt(types, ids[..|ids| - 1], key, u, j) ||
      (u == |ids| - 1 && j < |FieldsOf(types, ids[u])| && Names(FieldsOf(types, ids[u])[j], key))
  {
  }

  // A type more: its last field of that name counts, or else what counted before.
  lemma LastNamedNext(types: Types, ids: seq<TypeId>, key: string, t: nat, i: nat, k: nat)
    requires ids != []
    requires var fields := FieldsOf(types, ids[|ids| - 1]);
      (k < |fields| && Names(fields[k], key) && t == |ids| - 1 && i == k &&
        forall j :: k < j < |fields| ==> !Names(fields[j], key)) ||
      (LastNamedAt(types, ids[..|ids| - 1], key, t, i) && forall j :: 0 <= j < |fields| ==> !Names(fields[j], key))
    ensures LastNamedAt(types, ids, key, t, i)
  {
    NamedInFront(types, ids, key, t, i);
    forall u: nat, j: nat | NamedAt(types, ids, key, u, j) ensures u < t || (u == t && j <= i) {
      NamedInFront(types, ids, key, u, j);
    }
  }

  // The table holds the last field that goes by a key.
  lemma {:induction false} KeyTypeIs(types: Types, ids: seq<TypeId>, key: string) returns (t: nat, i: nat)
    ensures KeyType(types, ids, key) == None ==> forall u: nat, j: nat :: !NamedAt(types, ids, key, u, j)
    ensures KeyType(types, ids, key) != None ==>
      LastNamedAt(types, ids, key, t, i) && KeyType(types, ids, key) == Some(FieldsOf(types, ids[t])[i].fieldType)
    decreases |ids|
  {
    t, i := 0, 0;
    if ids != [] {
      var last := |ids| - 1;
      var front, fields := ids[..last], FieldsOf(types, ids[last]);
      t, i := KeyTypeIs(types, front, key);
      LookupInLast(AllFields(types, front), fields, Lower(key));
      var k := LookupIs(fields, key);
      if Lookup(fields, Lower(key)) != None {
        t, i := last, k;
      }
      if KeyType(types, ids, key) != None {
        LastNamedNext(types, ids, key, t, i, k);
      } else {
        forall u: nat, j: nat ensures !NamedAt(types, ids, key, u, j) {
          NamedInFront(types, ids, key, u, j);
        }
      }
    }
  }

  lemma ChosenIs(types: Types, ids: seq<TypeId>, key: string, id: TypeId)
    ensures KeyType(types, ids, key) == Some(id) <==> Chosen(types, ids, key, id)
    ensures KeyType(types, ids, key) != None <==> exists t: nat, i: nat :: NamedAt(types, ids, key, t, i)
  {
    var t, i := KeyTypeIs(types, ids, key);
  }

  // An object `to` that is looked into below a value `v` of a field of type `id`
  ghost predicate Child(types: Types, v: Value, id: TypeId, to: Site)
  {
    to.o.Object? &&
    match types(id)
    case Basic => false
    case Struct(_) => to == Site(v, [id])
    case Pointer(target) => to == Site(v, [target])
    case Slice(elem) =>
      v.Array? && to.o in v.items && to.ids == [if types(elem).Pointer? then types(elem).elem else elem]
  }

  // One step down: into the value of a key
  ghost predicate Leads(types: Types, from: Site, to: Site)
  {
    from.o.Object? &&
    exists i, id :: 0 <= i < |from.o.entries| && Chosen(types, from.ids, from.o.entries[i].key, id) &&
      Child(types, from.o.entries[i].value, id, to)
  }

  ghost function Steps(types: Types): (Site, Site) -> bool
  {
    (from: Site, to: Site) => Leads(types, from, to)
  }

  ghost predicate ReachedIn(step: (Site, Site) -> bool, from: Site, to: Site, n: nat)
    decreases n
  {
    if n == 0 then from == to else exists mid :: step(from, mid) && ReachedIn(step, mid, to, n - 1)
  }

  ghost predicate Reachable(types: Types, from: Site, to: Site)
  {
    exists n: nat :: ReachedIn(Steps(types), from, to, n)
  }

  // Structs only, and each key is, but for case, the name in the tag of one of their fields.
  ghost predicate AllKnown(types: Types, site: Site)
  {
    site.o.Object? && (forall t :: 0 <= t < |site.ids| ==> types(site.ids[t]).Struct?) &&
    forall e :: e in site.o.entries ==> exists t: nat, i: nat :: NamedAt(types, site.ids, e.key, t, i)
  }

  lemma AllKnownIs(types: Types, o: Value, ids: seq<TypeId>)
    requires o.Object?
    ensures Declared(types, o, ids) <==> AllKnown(types, Site(o, ids))
  {
    forall key ensures KeyType(types, ids, key) != None <==> exists t: nat, i: nat :: NamedAt(types, ids, key, t, i) {
      ChosenIs(types, ids, key, 0);
    }
    assert forall i :: 0 <= i < |o.entries| ==> o.entries[i] in o.entries;
  }

  lemma ItemSitesBelong(items: seq<Value>, id: TypeId, site: Site)
    ensures site in ItemSites(items, id) <==> site.o in items && site.o.Object? && site.ids == [id]
  {
    ItemSitesAre(items, id);
  }

  lemma ChildIs(types: Types, v: Value, id: TypeId, to: Site)
    ensures to in ChildSites(types, v, id) <==> Child(types, v, id, to)
  {
    if types(id).Slice? && v.Array? {
      ItemSitesBelong(v.items, ElementOf(types, types(id).elem), to);
    }
  }

  lemma LeadsBelow(types: Types, o: Value, ids: seq<TypeId>, i: nat, to: Site)
    requires o.Object? && i < |o.entries| && to in Below(types, o, ids, i)
    ensures Leads(types, Site(o, ids), to)
  {
    var id := KeyType(types, ids, o.entries[i].key).value;
    ChosenIs(types, ids, o.entries[i].key, id);
    ChildIs(types, o.entries[i].value, id, to);
  }

  lemma LeadsIsBelow(types: Types, o: Value, ids: seq<TypeId>, to: Site) returns (i: nat)
    requires o.Object? && Leads(types, Site(o, ids), to)
    ensures i < |o.entries| && to in Below(types, o, ids, i)
  {
    var k, id :| 0 <= k < |o.entries| && Chosen(types, ids, o.entries[k].key, id) &&
      Child(types, o.entries[k].value, id, to);
    i := k;
    ChosenIs(types, ids, o.entries[i].key, id);
    ChildIs(types, o.entries[i].value, id, to);
  }

  lemma LeadsKeepsAccepted(types: Types, from: Site, to: Site)
    requires from.o.Object? && Accepts(types, from.o, from.ids) && Leads(types, from, to)
    ensures to.o.Object? && Accepts(types, to.o, to.ids)
  {
    var i := LeadsIsBelow(types, from.o, from.ids, to);
    var k :| 0 <= k < |Below(types, from.o, from.ids, i)| && Below(types, from.o, from.ids, i)[k] == to;
  }

  // What every step keeps holds of all that is reached.
  lemma {:induction false} ReachedKeeps(step: (Site, Site) -> bool, ok: Site -> bool, from: Site, to: Site, n: nat)
    requires forall a, b :: ok(a) && step(a, b) ==> ok(b)
    requires ok(from) && ReachedIn(step, from, to, n)
    ensures ok(to)
    decreases n
  {
    if n > 0 {
      var mid :| step(from, mid) && ReachedIn(step, mid, to, n - 1);
      ReachedKeeps(step, ok, mid, to, n - 1);
    }
  }

  lemma ReachedIsAccepted(types: Types, from: Site, to: Site)
    requires from.o.Object? && Accepts(types, from.o, from.ids) && Reachable(types, from, to)
    ensures to.o.Object? && Accepts(types, to.o, to.ids)
  {
    ghost var ok := (a: Site) => a.o.Object? && Accepts(types, a.o, a.ids);
    forall a, b | ok(a) && Steps(types)(a, b) ensures ok(b) {
      LeadsKeepsAccepted(types, a, b);
    }
    var n: nat :| ReachedIn(Steps(types), from, to, n);
    ReachedKeeps(Steps(types), ok, from, to, n);
  }

  lemma ReachedNext(types: Types, from: Site, mid: Site, to: Site, n: nat)
    requires Leads(types, from, mid) && ReachedIn(Steps(types), mid, to, n)
    ensures ReachedIn(Steps(types), from, to, n + 1)
  {
    assert Steps(types)(from, mid);
  }

  lemma {:induction false} PathIsReached(types: Types, o: Value, ids: seq<TypeId>, p: Path)
    requires o.Object? && At(types, o, ids, p).Some?
    ensures Reachable(types, Site(o, ids), At(types, o, ids, p).value)
    decreases p
  {
    match p
    case Here =>
      assert ReachedIn(Steps(types), Site(o, ids), Site(o, ids), 0);
    case Down(i, k, rest) =>
      var child := Below(types, o, ids, i)[k];
      PathIsReached(types, child.o, child.ids, rest);
      LeadsBelow(types, o, ids, i, child);
      var to := At(types, o, ids, p).value;
      var n: nat :| ReachedIn(Steps(types), child, to, n);
      ReachedNext(types, Site(o, ids), child, to, n);
  }

  // Accepted exactly if all keys of all reachable objects are known.
  lemma AcceptedIffReachableKnown(types: Types, o: Value, ids: seq<TypeId>)
    requires o.Object?
    ensures Accepts(types, o, ids) <==> forall to :: Reachable(types, Site(o, ids), to) ==> AllKnown(types, to)
  {
    if Accepts(types, o, ids) {
      forall to | Reachable(types, Site(o, ids), to) ensures AllKnown(types, to) {
        ReachedIsAccepted(types, Site(o, ids), to);
        AllKnownIs(types, to.o, to.ids);
      }
    } else {
      var p := RejectedSomewhere(types, o, ids);
      var to := At(types, o, ids, p).value;
      PathIsReached(types, o, ids, p);
      AllKnownIs(types, to.o, to.ids);
    }
  }

  // ----- the check -----

  // The path leads to an object that explains the verdict: an undeclared key, or a type that is no struct.
  ghost predicate Explains(types: Types, o: Value, ids: seq<TypeId>, p: Path, verdict: Verdict)
    requires o.Object?
  {
    At(types, o, ids, p).Some? &&
    var site := At(types, o, ids, p).value;
    match verdict
    case Accepted => false
    case Unknown(key) =>
      AllStructs(types, site.ids) && KeyType(types, site.ids, key).None? &&
      exists i :: 0 <= i < |site.o.entries| && site.o.entries[i].key == key
    case Panic => !AllStructs(types, site.ids)
  }

  lemma ExplainsRejects(types: Types, o: Value, ids: seq<TypeId>, p: Path, verdict: Verdict)
    requires o.Object? && Explains(types, o, ids, p, verdict)
    ensures !Accepts(types, o, ids)
  {
    if Accepts(types, o, ids) {
      AcceptedBelow(types, o, ids, p);
    }
  }

  // The reason for a verdict, at the object where it was found
  ghost predicate Faulty(types: Types, site: Site, verdict: Verdict)
  {
    site.o.Object? &&
    match verdict
    case Accepted => false
    case Unknown(key) =>
      (exists e :: e in site.o.entries && e.key == key) && !exists t: nat, i: nat :: NamedAt(types, site.ids, key, t, i)
    case Panic => exists t :: 0 <= t < |site.ids| && !types(site.ids[t]).Struct?
  }

  lemma ExplainedIsFaulty(types: Types, o: Value, ids: seq<TypeId>, p: Path, verdict: Verdict)
    requires o.Object? && Explains(types, o, ids, p, verdict)
    ensures exists to :: Reachable(types, Site(o, ids), to) && Faulty(types, to, verdict)
  {
    var to := At(types, o, ids, p).value;
    PathIsReached(types, o, ids, p);
    if verdict.Unknown? {
      ChosenIs(types, to.ids, verdict.key, 0);
      var i :| 0 <= i < |to.o.entries| && to.o.entries[i].key == verdict.key;
      assert to.o.entries[i] in to.o.entries;
    }
    assert Faulty(types, to, verdict);
  }

  lemma {:induction false} ItemSitesPrefix(items: seq<Value>, id: TypeId, j: nat)
    requires j <= |items|
    ensures ItemSites(items[..j], id) <= ItemSites(items, id)
  {
    if j < |items| {
      ItemSitesPrefix(items[..|items| - 1], id, j);
      assert items[..|items| - 1][..j] == items[..j];
    } else {
      assert items[..j] == items;
    }
  }

  method CheckItems(types: Types, items: seq<Value>, id: TypeId) returns (verdict: Verdict, ghost k: nat, ghost p: Path)
    ensures verdict.Accepted? ==> AllAccepted(types, ItemSites(items, id))
    ensures !verdict.Accepted? ==>
      k < |ItemSites(items, id)| && Explains(types, ItemSites(items, id)[k].o, ItemSites(items, id)[k].ids, p, verdict)
    decreases items, 1
  {
    verdict, k, p := Accepted, 0, Here;
    for j := 0 to |items|
      invariant verdict.Accepted?
      invariant AllAccepted(types, ItemSites(items[..j], id))
    {
      assert items[..j + 1][..j] == items[..j];
      if items[j].Object? {
        ItemSitesPrefix(items, id, j + 1);
        k := |ItemSites(items[..j], id)|;
        verdict, p := CheckMapKeys(types, items[j], [id]);
        if !verdict.Accepted? {
          return;
        }
      }
    }
    assert items[..|items|] == items;
  }

  method CheckChild(types: Types, v: Value, id: TypeId) returns (verdict: Verdict, ghost k: nat, ghost p: Path)
    ensures verdict.Accepted? ==> AllAccepted(types, ChildSites(types, v, id))
    ensures var sites := ChildSites(types, v, id);
      !verdict.Accepted? ==> k < |sites| && Explains(types, sites[k].o, sites[k].ids, p, verdict)
    decreases v, 5
  {
    verdict, k, p := Accepted, 0, Here;
    var shape := types(id);
    if shape.Struct? && v.Object? {
      verdict, p := CheckMapKeys(types, v, [id]);
    } else if shape.Slice? && v.Array? {
      var elementType := shape.elem;
      if types(elementType).Pointer? {
        elementType := types(elementType).elem;
      }
      verdict, k, p := CheckItems(types, v.items, elementType);
    } else if shape.Pointer? && v.Object? {
      verdict, p := CheckMapKeys(types, v, [shape.elem]);
    }
  }

  method CheckEntries(types: Types, o: Value, ids: seq<TypeId>) returns (verdict: Verdict, ghost p: Path)
    requires o.Object?
    ensures verdict.Accepted? ==> Accepts(types, o, ids)
    ensures !verdict.Accepted? ==> Explains(types, o, ids, p, verdict)
    decreases o, 3
  {
    p := Here;
    var ok, fieldMap := CreateJSONFieldMap(types, ids);
    if !ok {
      return Panic, Here;
    }
    for i := 0 to |o.entries|
      invariant forall j :: 0 <= j < i ==> KeyType(types, ids, o.entries[j].key).Some?
      invariant forall j :: 0 <= j < i ==> AllAccepted(types, Below(types, o, ids, j))
    {
      var e := o.entries[i];
      if Lower(e.key) !in fieldMap {
        return Unknown(e.key), Here;
      }
      ghost var k, rest;
      verdict, k, rest := CheckChild(types, e.value, fieldMap[Lower(e.key)]);
      if !verdict.Accepted? {
        p := Down(i, k, rest);
        return;
      }
    }
    verdict := Accepted;
  }

  /** Ends on every JSON value, whatever cycles the types have; `p` leads to the object at fault. */
  method CheckMapKeys(types: Types, o: Value, ids: seq<TypeId>) returns (verdict: Verdict, ghost p: Path)
    requires o.Object?
    ensures verdict.Accepted? <==> Accepts(types, o, ids)
    ensures verdict.Accepted? <==> forall to :: Reachable(types, Site(o, ids), to) ==> AllKnown(types, to)
    ensures !verdict.Accepted? ==> Explains(types, o, ids, p, verdict)
    ensures !verdict.Accepted? ==> exists to :: Reachable(types, Site(o, ids), to) && Faulty(types, to, verdict)
    decreases o, 4
  {
    verdict, p := CheckEntries(types, o, ids);
    AcceptedIffReachableKnown(types, o, ids);
    if !verdict.Accepted? {
      ExplainsRejects(types, o, ids, p, verdict);
      ExplainedIsFaulty(types, o, ids, p, verdict);
    }
  }

  // ----- order and case do not matter -----

  // Whatever v lists, w lists too, in any order and with keys in any case.
  ghost predicate Covered(v: Value, w: Value)
    decreases v
  {
    match v
    case Object(entries) =>
      w.Object? && forall i :: 0 <= i < |entries| ==>
        exists j :: 0 <= j < |w.entries| && Lower(w.entries[j].key) == Lower(entries[i].key) &&
                    Covered(entries[i].value, w.entries[j].value)
    case Array(items) =>
      w.Array? && forall i :: 0 <= i < |items| ==> exists j :: 0 <= j < |w.items| && Covered(items[i], w.items[j])
    case _ => true
  }

  lemma {:induction false} ItemSitesAre(items: seq<Value>, id: TypeId)
    ensures forall k :: 0 <= k < |ItemSites(items, id)| ==> ItemSites(items, id)[k].ids == [id]
    ensures forall j :: 0 <= j < |items| && items[j].Object? ==> Site(items[j], [id]) in ItemSites(items, id)
  {
    if items != [] {
      ItemSitesAre(items[..|items| - 1], id);
    }
  }

  // Each site below v has one below w that covers it.
  lemma SitesCovered(types: Types, v: Value, w: Value, id: TypeId, k: nat) returns (j: nat)
    requires Covered(v, w) && k < |ChildSites(types, v, id)|
    ensures j < |ChildSites(types, w, id)|
    ensures var a, b := ChildSites(types, v, id)[k], ChildSites(types, w, id)[j]; a.ids == b.ids && Covered(a.o, b.o)
  {
    j := 0;
    match types(id)
    case Slice(elem) =>
      var element := ElementOf(types, elem);
      ItemSitesAre(v.items, element);
      ItemSitesAre(w.items, element);
      var a := ItemSites(v.items, element)[k];
      var i :| 0 <= i < |v.items| && v.items[i] == a.o;
      var i' :| 0 <= i' < |w.items| && Covered(v.items[i], w.items[i']);
      j :| 0 <= j < |ItemSites(w.items, element)| && ItemSites(w.items, element)[j] == Site(w.items[i'], [element]);
    case _ =>
  }

  lemma EntryCovered(v: Value, w: Value, i: nat) returns (j: nat)
    requires v.Object? && w.Object? && Covered(v, w) && i < |v.entries|
    ensures j < |w.entries| && Lower(w.entries[j].key) == Lower(v.entries[i].key)
    ensures Covered(v.entries[i].value, w.entries[j].value)
  {
    match v
    case Object(entries) =>
      assert 0 <= i < |entries| && entries[i] == v.entries[i];
      j :| 0 <= j < |w.entries| && Lower(w.entries[j].key) == Lower(entries[i].key) &&
        Covered(entries[i].value, w.entries[j].value);
  }

  // If w is accepted, so is whatever it covers.
  lemma {:induction false} CoveredIsAccepted(types: Types, v: Value, w: Value, ids: seq<TypeId>)
    requires v.Object? && w.Object? && Covered(v, w) && Accepts(types, w, ids)
    ensures Accepts(types, v, ids)
    decreases v
  {
    forall i | 0 <= i < |v.entries|
      ensures KeyType(types, ids, v.entries[i].key).Some? && AllAccepted(types, Below(types, v, ids, i))
    {
      var j := EntryCovered(v, w, i);
      var id := KeyType(types, ids, w.entries[j].key).value;
      forall k | 0 <= k < |Below(types, v, ids, i)|
        ensures var a := Below(types, v, ids, i)[k]; Accepts(types, a.o, a.ids)
      {
        var k' := SitesCovered(types, v.entries[i].value, w.entries[j].value, id, k);
        var a, b := Below(types, v, ids, i)[k], Below(types, w, ids, j)[k'];
        CoveredIsAccepted(types, a.o, b.o, a.ids);
      }
    }
  }

  lemma {:induction false} OrderAndCaseDoNotMatter(types: Types, v: Value, w: Value, ids: seq<TypeId>)
    requires v.Object? && w.Object? && Covered(v, w) && Covered(w, v)
    ensures Accepts(types, v, ids) <==> Accepts(types, w, ids)
  {
    if Accepts(types, v, ids) {
      CoveredIsAccepted(types, w, v, ids);
    }
    if Accepts(types, w, ids) {
      CoveredIsAccepted(types, v, w, ids);
    }
  }
}
