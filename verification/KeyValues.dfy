/** Comma-separated key=value settings (`combineValues`): parsing, printing in key order, merging. */
module KeyValues {
  import opened Text

  // ----- sort.Strings -----

  ghost predicate Sorted(keys: seq<string>)
  {
    forall i, j :: 0 <= i < j < |keys| ==> Before(keys[i], keys[j])
  }

  function Insert(key: string, keys: seq<string>): seq<string>
  {
    if keys == [] || Before(key, keys[0]) then [key] + keys else [keys[0]] + Insert(key, keys[1..])
  }

  // sort.Strings
  function SortStrings(keys: seq<string>): seq<string>
  {
    if keys == [] then [] else Insert(keys[0], SortStrings(keys[1..]))
  }

  ghost function Elements(keys: seq<string>): set<string>
  {
    set k | k in keys
  }

  lemma {:induction false} InsertSorts(key: string, keys: seq<string>)
    requires Sorted(keys) && key !in keys
    ensures Sorted(Insert(key, keys)) && Elements(Insert(key, keys)) == {key} + Elements(keys)
  {
    if keys != [] {
      BeforeIsStrict(key, keys[0], key);
      if Before(key, keys[0]) {
        forall k | k in keys ensures Before(key, k) {
          BeforeIsStrict(key, keys[0], k);
        }
      } else {
        InsertSorts(key, keys[1..]);
        var rest := Insert(key, keys[1..]);
        forall k | k in rest ensures Before(keys[0], k) {
          assert k in Elements(rest);
        }
        assert keys == [keys[0]] + keys[1..];
        forall k ensures k in [keys[0]] + rest <==> k == key || k in keys {
          assert k in rest <==> k in Elements(rest);
        }
      }
    }
  }

  lemma {:induction false} SortSorts(keys: seq<string>)
    requires forall i, j :: 0 <= i < j < |keys| ==> keys[i] != keys[j]
    ensures Sorted(SortStrings(keys)) && Elements(SortStrings(keys)) == Elements(keys)
  {
    if keys != [] {
      var rest := SortStrings(keys[1..]);
      SortSorts(keys[1..]);
      assert keys[0] !in rest by {
        assert keys[0] in rest <==> keys[0] in Elements(rest);
        assert keys[0] !in keys[1..];
      }
      InsertSorts(keys[0], rest);
      assert keys == [keys[0]] + keys[1..];
    }
  }

  lemma NoElements(keys: seq<string>)
    ensures keys == [] <==> Elements(keys) == {}
  {
    if keys != [] {
      assert keys[0] in Elements(keys);
    }
  }

  lemma ElementsAppend(keys: seq<string>, key: string)
    ensures Elements(keys + [key]) == Elements(keys) + {key}
  {
    forall k ensures k in Elements(keys + [key]) <==> k in Elements(keys) + {key} {
      assert k in keys + [key] <==> k in keys || k == key;
    }
  }

  // A set of keys has one sorted listing.
  lemma {:induction false} SortedIsUnique(a: seq<string>, b: seq<string>)
    requires Sorted(a) && Sorted(b) && Elements(a) == Elements(b)
    ensures a == b
    decreases |a|
  {
    if a != [] && b != [] {
      assert a[0] in Elements(b) && b[0] in Elements(a);
      BeforeIsStrict(a[0], b[0], a[0]);
      var i :| 0 <= i < |b| && b[i] == a[0];
      var j :| 0 <= j < |a| && a[j] == b[0];
      assert a[0] == b[0];
      forall k ensures k in a[1..] <==> k in b[1..] {
        BeforeIsStrict(k, k, k);
        assert k in Elements(a) <==> k in Elements(b);
        assert k in a <==> k == a[0] || k in a[1..];
        assert k in b <==> k == b[0] || k in b[1..];
      }
      SortedIsUnique(a[1..], b[1..]);
    } else {
      NoElements(a);
      NoElements(b);
    }
  }

  lemma {:induction false} LeastExists(keys: set<string>)
    requires keys != {}
    ensures exists k :: IsLeast(k, keys)
  {
    var k :| k in keys;
    if keys == {k} {
      assert IsLeast(k, keys);
    } else {
      LeastExists(keys - {k});
      var l :| IsLeast(l, keys - {k});
      BeforeIsStrict(k, l, k);
      if Before(k, l) {
        forall o | o in keys && o != k ensures Before(k, o) {
          BeforeIsStrict(k, l, o);
        }
        assert IsLeast(k, keys);
      } else {
        assert IsLeast(l, keys);
      }
    }
  }

  ghost predicate IsLeast(k: string, keys: set<string>)
  {
    k in keys && forall o :: o in keys && o != k ==> Before(k, o)
  }

  ghost function KeyOrder(keys: set<string>): (order: seq<string>)
    ensures Sorted(order) && Elements(order) == keys
  {
    if keys == {} then []
    else
      LeastExists(keys);
      var k :| IsLeast(k, keys);
      var rest := KeyOrder(keys - {k});
      assert forall o :: o in rest <==> o in Elements(rest);
      [k] + rest
  }

  // ----- parsing -----

  function TrimLeft(s: string): string
  {
    if s != [] && s[0] == ' ' then TrimLeft(s[1..]) else s
  }

  function TrimRight(s: string): string
  {
    if s != [] && s[|s| - 1] == ' ' then TrimRight(s[..|s| - 1]) else s
  }

  function Trim(s: string): string
  {
    TrimRight(TrimLeft(s))
  }

  function ParsePart(m: map<string, string>, part: string): map<string, string>
  {
    var fields := Split(Trim(part), '=');
    if |fields| == 2 then m[fields[0] := fields[1]] else m
  }

  function ParseParts(m: map<string, string>, parts: seq<string>): map<string, string>
  {
    if parts == [] then m else ParsePart(ParseParts(m, parts[..|parts| - 1]), parts[|parts| - 1])
  }

  function Parse(m: map<string, string>, input: string): map<string, string>
  {
    ParseParts(m, Split(input, ','))
  }

  // ----- printing -----

  function Item(key: string, value: string): string
  {
    key + "=" + value
  }

  function Items(keys: seq<string>, m: map<string, string>): (items: seq<string>)
    requires forall k :: k in keys ==> k in m
    ensures |items| == |keys|
  {
    if keys == [] then []
    else
      var last := keys[|keys| - 1];
      Items(keys[..|keys| - 1], m) + [Item(last, m[last])]
  }

  ghost function Print(m: map<string, string>): string
  {
    var order := KeyOrder(m.Keys);
    assert forall k :: k in order ==> k in Elements(order);
    if order == [] then "" else Join(Items(order, m), ',')
  }

  ghost function Merged(inputs: seq<string>): map<string, string>
  {
    if inputs == [] then map[] else Parse(Merged(inputs[..|inputs| - 1]), inputs[|inputs| - 1])
  }

  // strings.TrimSuffix for one character
  function TrimSuffix(s: string, c: char): string
  {
    if s != [] && s[|s| - 1] == c then s[..|s| - 1] else s
  }

  // The keys of a map in whatever order its iteration takes
  method Listed(keys: set<string>) returns (list: seq<string>)
    ensures Elements(list) == keys
    ensures forall i, j :: 0 <= i < j < |list| ==> list[i] != list[j]
  {
    list := [];
    var rest := keys;
    while rest != {}
      invariant rest <= keys && Elements(list) == keys - rest
      invariant forall i, j :: 0 <= i < j < |list| ==> list[i] != list[j]
      decreases rest
    {
      var key :| key in rest;
      assert key !in list by {
        assert key !in Elements(list);
      }
      ElementsAppend(list, key);
      list, rest := list + [key], rest - {key};
    }
  }

  class ValueMap {
    var entries: map<string, string>

    constructor ()
      ensures entries == map[]
    {
      entries := map[];
    }

    method ApplyValueString(input: string)
      modifies this
      ensures entries == Parse(old(entries), input)
    {
      var values := Split(input, ',');
      for index := 0 to |values|
        invariant entries == ParseParts(old(entries), values[..index])
      {
        assert values[..index + 1][..index] == values[..index];
        var valueParts := Split(Trim(values[index]), '=');
        if |valueParts| == 2 {
          entries := entries[valueParts[0] := valueParts[1]];
        }
      }
      assert values[..|values|] == values;
    }

    method SortedKeys() returns (keys: seq<string>)
      ensures keys == KeyOrder(entries.Keys)
    {
      keys := Listed(entries.Keys);
      SortSorts(keys);
      keys := SortStrings(keys);
      SortedIsUnique(keys, KeyOrder(entries.Keys));
    }

    // Each setting with a comma behind it
    method Written(keys: seq<string>) returns (buf: string)
      requires forall k :: k in keys ==> k in entries
      ensures buf == Terminated(Items(keys, entries))
    {
      buf := "";
      for i := 0 to |keys|
        invariant buf == Terminated(Items(keys[..i], entries))
      {
        assert keys[..i + 1][..i] == keys[..i];
        AppendItem(Items(keys[..i], entries), Item(keys[i], entries[keys[i]]));
        buf := buf + (keys[i] + "=" + entries[keys[i]] + ",");
      }
      assert keys[..|keys|] == keys;
    }

    method MapToString() returns (text: string)
      ensures text == Print(entries)
    {
      var keys := SortedKeys();
      forall k | k in keys ensures k in entries {
        assert k in Elements(keys);
      }
      var buf := Written(keys);
      if keys != [] {
        TerminatedIsJoin(Items(keys, entries));
      }
      text := TrimSuffix(buf, ',');
    }
  }

  method CombineValues(inputs: seq<string>) returns (text: string)
    ensures text == Print(Merged(inputs))
  {
    var valueMap := new ValueMap();
    for i := 0 to |inputs|
      invariant fresh(valueMap) && valueMap.entries == Merged(inputs[..i])
    {
      assert inputs[..i + 1][..i] == inputs[..i];
      valueMap.ApplyValueString(inputs[i]);
    }
    assert inputs[..|inputs|] == inputs;
    text := valueMap.MapToString();
  }

  function Terminated(items: seq<string>): string
  {
    if items == [] then "" else Terminated(items[..|items| - 1]) + (items[|items| - 1] + ",")
  }

  lemma AppendItem(items: seq<string>, item: string)
    ensures Terminated(items + [item]) == Terminated(items) + (item + ",")
  {
    assert (items + [item])[..|items|] == items;
  }

  lemma {:induction false} TerminatedIsJoin(items: seq<string>)
    requires items != []
    ensures Terminated(items) == Join(items, ',') + ","
  {
    var front, last := items[..|items| - 1], items[|items| - 1];
    if front != [] {
      TerminatedIsJoin(front);
      JoinLast(front, last);
      assert items == front + [last];
    }
  }

  lemma {:induction false} JoinLast(front: seq<string>, last: string)
    requires front != []
    ensures Join(front + [last], ',') == Join(front, ',') + "," + last
  {
    if |front| == 1 {
      JoinHead(front[0], [last], ',');
      assert front + [last] == [front[0]] + [last];
    } else {
      JoinLast(front[1..], last);
      assert front == [front[0]] + front[1..];
      JoinHead(front[0], front[1..], ',');
      JoinHead(front[0], front[1..] + [last], ',');
      assert front + [last] == [front[0]] + (front[1..] + [last]);
    }
  }

  // ----- what parsing can produce -----

  ghost predicate Entry(k: string, v: string)
  {
    ',' !in k && '=' !in k && ',' !in v && '=' !in v &&
    (k != [] ==> k[0] != ' ') && (v != [] ==> v[|v| - 1] != ' ')
  }

  ghost predicate Entries(m: map<string, string>)
  {
    forall k :: k in m ==> Entry(k, m[k])
  }

  lemma {:induction false} TrimLeftEffect(s: string)
    ensures TrimLeft(s) != [] ==> TrimLeft(s)[0] != ' '
    ensures forall c :: c in TrimLeft(s) ==> c in s
    decreases |s|
  {
    if s != [] && s[0] == ' ' {
      TrimLeftEffect(s[1..]);
    }
  }

  lemma {:induction false} TrimRightEffect(s: string)
    ensures TrimRight(s) <= s
    ensures TrimRight(s) != [] ==> TrimRight(s)[|TrimRight(s)| - 1] != ' '
    decreases |s|
  {
    if s != [] && s[|s| - 1] == ' ' {
      TrimRightEffect(s[..|s| - 1]);
    }
  }

  lemma ParsePartKeepsEntries(m: map<string, string>, part: string)
    requires Entries(m) && ',' !in part
    ensures Entries(ParsePart(m, part))
  {
    var value := Trim(part);
    TrimLeftEffect(part);
    TrimRightEffect(TrimLeft(part));
    JoinSplit(value, '=');
    var fields := Split(value, '=');
    if |fields| == 2 {
      var k, v := fields[0], fields[1];
      assert fields[1..] == [v];
      assert value == k + ['='] + v;
      assert forall c :: c in k || c in v ==> c in value;
      assert k != [] ==> value[0] == k[0];
      assert v != [] ==> value[|value| - 1] == v[|v| - 1];
      assert Entry(k, v);
    }
  }

  lemma {:induction false} ParsePartsKeepsEntries(m: map<string, string>, parts: seq<string>)
    requires Entries(m) && Free(parts, ',')
    ensures Entries(ParseParts(m, parts))
    decreases |parts|
  {
    if parts != [] {
      ParsePartsKeepsEntries(m, parts[..|parts| - 1]);
      ParsePartKeepsEntries(ParseParts(m, parts[..|parts| - 1]), parts[|parts| - 1]);
    }
  }

  lemma {:induction false} MergedHasEntries(inputs: seq<string>)
    ensures Entries(Merged(inputs))
    decreases |inputs|
  {
    if inputs != [] {
      MergedHasEntries(inputs[..|inputs| - 1]);
      JoinSplit(inputs[|inputs| - 1], ',');
      ParsePartsKeepsEntries(Merged(inputs[..|inputs| - 1]), Split(inputs[|inputs| - 1], ','));
    }
  }

  // ----- reading back -----

  lemma ItemReadsBack(m: map<string, string>, k: string, v: string)
    requires Entry(k, v)
    ensures ParsePart(m, Item(k, v)) == m[k := v]
  {
    var item := Item(k, v);
    assert item[0] == (if k == [] then '=' else k[0]);
    assert item[|item| - 1] == (if v == [] then '=' else v[|v| - 1]);
    assert Trim(item) == item;
    var fields := [k, v];
    assert fields[1..] == [v];
    assert item == Join(fields, '=');
    SplitJoin(fields, '=');
  }

  lemma UpdateOnTop(m: map<string, string>, n: map<string, string>, k: string, v: string)
    ensures (m + n)[k := v] == m + n[k := v]
  {
  }

  lemma MergeAssociates(m: map<string, string>, n: map<string, string>, o: map<string, string>)
    ensures (m + n) + o == m + (n + o)
  {
  }

  ghost function Chosen(keys: seq<string>, n: map<string, string>): map<string, string>
    requires forall k :: k in keys ==> k in n
  {
    if keys == [] then map[]
    else
      var last := keys[|keys| - 1];
      Chosen(keys[..|keys| - 1], n)[last := n[last]]
  }

  lemma {:induction false} ChosenKeys(keys: seq<string>, n: map<string, string>)
    requires forall k :: k in keys ==> k in n
    ensures forall k :: k in keys <==> k in Chosen(keys, n)
    ensures forall k :: k in keys ==> Chosen(keys, n)[k] == n[k]
    decreases |keys|
  {
    if keys != [] {
      ChosenKeys(keys[..|keys| - 1], n);
      assert keys == keys[..|keys| - 1] + [keys[|keys| - 1]];
    }
  }

  lemma {:induction false} ItemsReadBack(m: map<string, string>, keys: seq<string>, n: map<string, string>)
    requires Entries(n) && forall k :: k in keys ==> k in n
    ensures ParseParts(m, Items(keys, n)) == m + Chosen(keys, n)
    decreases |keys|
  {
    if keys != [] {
      var front, last := keys[..|keys| - 1], keys[|keys| - 1];
      ItemsReadBack(m, front, n);
      var items := Items(front, n);
      assert (items + [Item(last, n[last])])[..|items|] == items;
      ItemReadsBack(ParseParts(m, items), last, n[last]);
      UpdateOnTop(m, Chosen(front, n), last, n[last]);
    }
  }

  lemma {:induction false} ItemsAreFree(keys: seq<string>, n: map<string, string>)
    requires Entries(n) && forall k :: k in keys ==> k in n
    ensures Free(Items(keys, n), ',')
    decreases |keys|
  {
    if keys != [] {
      ItemsAreFree(keys[..|keys| - 1], n);
    }
  }

  /** Printed settings read back as the same settings, on top of whatever was there. */
  lemma PrintReadsBack(m: map<string, string>, n: map<string, string>)
    requires Entries(n)
    ensures Parse(m, Print(n)) == m + n
  {
    var order := KeyOrder(n.Keys);
    assert forall k :: k in order <==> k in Elements(order);
    ChosenKeys(order, n);
    assert Chosen(order, n) == n;
    if order == [] {
      EmptyTextSetsNothing(m);
    } else {
      ItemsAreFree(order, n);
      SplitJoin(Items(order, n), ',');
      ItemsReadBack(m, order, n);
    }
  }

  lemma EmptyTextSetsNothing(m: map<string, string>)
    ensures Parse(m, "") == m
  {
    assert Split(Trim(""), '=') == [""];
    assert [""][..0] == [];
    assert ParseParts(m, [""]) == ParsePart(ParseParts(m, []), "");
  }

  lemma {:induction false} ParsePartsOnTop(m: map<string, string>, parts: seq<string>)
    ensures ParseParts(m, parts) == m + ParseParts(map[], parts)
    decreases |parts|
  {
    if parts != [] {
      ParsePartsOnTop(m, parts[..|parts| - 1]);
    }
  }

  lemma MergedNext(inputs: seq<string>, last: string)
    ensures Merged(inputs + [last]) == Parse(Merged(inputs), last)
  {
    assert (inputs + [last])[..|inputs|] == inputs;
  }

  lemma ParseOnTop(m: map<string, string>, n: map<string, string>, input: string)
    ensures Parse(m + n, input) == m + Parse(n, input)
  {
    ParsePartsOnTop(m + n, Split(input, ','));
    ParsePartsOnTop(n, Split(input, ','));
    MergeAssociates(m, n, Parse(map[], input));
  }

  /** Merging is right-biased: the settings of later inputs win. */
  lemma {:induction false} MergeIsRightBiased(inputs: seq<string>, more: seq<string>)
    ensures Merged(inputs + more) == Merged(inputs) + Merged(more)
    decreases |more|
  {
    if more == [] {
      assert inputs + more == inputs;
    } else {
      var front, last := more[..|more| - 1], more[|more| - 1];
      MergeIsRightBiased(inputs, front);
      MergedNext(front, last);
      MergedNext(inputs + front, last);
      FrontAndLast(more);
      Reassociate(inputs, front, [last]);
      ParseOnTop(Merged(inputs), Merged(front), last);
    }
  }

  lemma CombinedReadsBack(inputs: seq<string>)
    ensures Merged([Print(Merged(inputs))]) == Merged(inputs)
  {
    var text := Print(Merged(inputs));
    MergedHasEntries(inputs);
    PrintReadsBack(map[], Merged(inputs));
    assert [text][..0] == [];
  }

  /** A combined text stands for the inputs it was made of, wherever it is used. */
  lemma CombinedStandsForInputs(before: seq<string>, inputs: seq<string>, after: seq<string>)
    ensures Print(Merged(before + [Print(Merged(inputs))] + after)) == Print(Merged(before + inputs + after))
  {
    var text := Print(Merged(inputs));
    CombinedReadsBack(inputs);
    MergeIsRightBiased(before, [text]);
    MergeIsRightBiased(before + [text], after);
    MergeIsRightBiased(before, inputs);
    MergeIsRightBiased(before + inputs, after);
  }

  lemma PrintIdentifies(m: map<string, string>, n: map<string, string>)
    requires Entries(m) && Entries(n)
    ensures Print(m) == Print(n) ==> m == n
  {
    ReadsItself(m);
    ReadsItself(n);
  }

  lemma ReadsItself(m: map<string, string>)
    requires Entries(m)
    ensures Parse(map[], Print(m)) == m
  {
    PrintReadsBack(map[], m);
    assert map[] + m == m;
  }

  /** Two combined texts are equal exactly when they carry the same settings. */
  lemma {:induction false} CombinedIsCanonical(inputs: seq<string>, others: seq<string>)
    ensures Print(Merged(inputs)) == Print(Merged(others)) <==> Merged(inputs) == Merged(others)
  {
    MergedHasEntries(inputs);
    MergedHasEntries(others);
    PrintIdentifies(Merged(inputs), Merged(others));
  }

  /** Combining is idempotent and can be nested. */
  lemma {:induction false} CombineNests(inputs: seq<string>, more: seq<string>)
    ensures Print(Merged([Print(Merged(inputs))])) == Print(Merged(inputs))
    ensures Print(Merged([Print(Merged(inputs))] + more)) == Print(Merged(inputs + more))
  {
    CombinedReadsBack(inputs);
    MergeIsRightBiased([Print(Merged(inputs))], more);
    MergeIsRightBiased(inputs, more);
  }
}
