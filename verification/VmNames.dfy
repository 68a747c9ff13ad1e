/** Printing and parsing the names of cluster VMs. */
module VmNames {
  import opened Text
  import opened Decimal

  datatype OSType = Linux | Windows | OtherOS

  const MAX_INT: nat := 0x7FFF_FFFF_FFFF_FFFF

  // strconv.Atoi on text without a sign
  function Atoi(s: string): Option<int>
  {
    if s != [] && AllDigits(s) && Value(s) <= MAX_INT then Some(Value(s)) else None
  }

  // ----- printing -----

  function Prefix(isAKS: bool): string
  {
    if isAKS then "aks" else "k8s"
  }

  // Slicing off five characters panics on a shorter suffix.
  function GetK8sVMName(osType: OSType, isAKS: bool, nameSuffix: string, agentPoolName: string, agentPoolIndex: int,
        agentIndex: int): Option<string>
    requires osType == Windows ==> |nameSuffix| >= 5
  {
    match osType
    case Linux => Some(Prefix(isAKS) + "-" + agentPoolName + "-" + nameSuffix + "-" + Itoa(agentIndex))
    case Windows => Some(nameSuffix[..5] + Prefix(isAKS) + Itoa(900 + agentPoolIndex) + Itoa(agentIndex))
    case OtherOS => None
  }

  // ----- parsing Linux names: ^[0-9a-zA-Z]{3}-(.+)-([0-9a-fA-F]{8})-{0,2}([0-9]+)$ -----

  predicate IsHex(c: char)
  {
    IsDigit(c) || 'a' <= c <= 'f' || 'A' <= c <= 'F'
  }

  predicate IsAlnum(c: char)
  {
    IsDigit(c) || 'a' <= c <= 'z' || 'A' <= c <= 'Z'
  }

  predicate AllHex(s: string)
  {
    forall i :: 0 <= i < |s| ==> IsHex(s[i])
  }

  predicate AllAlnum(s: string)
  {
    forall i :: 0 <= i < |s| ==> IsAlnum(s[i])
  }

  // Where the digits begin: after at most two dashes, taken greedily
  function IndexStart(name: string, p: nat): nat
  {
    if p + 1 < |name| && name[p] == '-' && name[p + 1] == '-' then p + 2
    else if p < |name| && name[p] == '-' then p + 1
    else p
  }

  predicate DigitsFrom(name: string, q: nat)
  {
    q < |name| && forall i :: q <= i < |name| ==> IsDigit(name[i])
  }

  // From the k-th character on: a dash, eight hexadecimal digits, the index
  predicate TailAt(name: string, k: nat)
  {
    k + 9 <= |name| && name[k] == '-' && (forall i :: k < i < k + 9 ==> IsHex(name[i])) &&
    DigitsFrom(name, IndexStart(name, k + 9))
  }

  // The expression matches with its first group ending at `k`.
  predicate PoolEndsAt(name: string, k: nat)
  {
    5 <= k <= |name| && (forall i :: 0 <= i < 3 ==> IsAlnum(name[i])) && name[3] == '-' &&
    (forall i :: 4 <= i < k ==> name[i] != '\n') && TailAt(name, k)
  }

  // The last position up to `k` that `ok` accepts
  function LastWhere(ok: nat -> bool, k: nat): (end: Option<nat>)
    ensures end.Some? ==> ok(end.value) && end.value <= k
  {
    if ok(k) then Some(k) else if k == 0 then None else LastWhere(ok, k - 1)
  }

  function Ends(name: string): nat -> bool
  {
    (k: nat) => PoolEndsAt(name, k)
  }

  // The greedy first group takes the longest pool name that lets the rest match.
  function LongestPool(name: string): (k: Option<nat>)
    ensures k.Some? ==> PoolEndsAt(name, k.value)
  {
    LastWhere(Ends(name), |name|)
  }

  datatype LinuxParts = LinuxParts(poolIdentifier: string, nameSuffix: string, agentIndex: int)

  function K8sLinuxVMNameParts(name: string): Option<LinuxParts>
  {
    match LongestPool(name)
    case None => None
    case Some(k) =>
      match Atoi(name[IndexStart(name, k + 9)..])
      case None => None
      case Some(index) => Some(LinuxParts(name[4..k], name[k + 1..k + 9], index))
  }

  // ----- parsing Windows names: ^([a-fA-F0-9]{5})([0-9a-zA-Z]{3})([a-zA-Z0-9]{4,6})$ -----

  datatype WindowsParts = WindowsParts(poolPrefix: string, acsStr: string, poolIndex: int, agentIndex: int)

  // The error of the second conversion is dropped: an agent index that is not a number reads as 0.
  function WindowsVMNameParts(name: string): Option<WindowsParts>
  {
    if 12 <= |name| <= 14 && AllHex(name[..5]) && AllAlnum(name[5..]) then
      match Atoi(name[8..11])
      case None => None
      case Some(pool) =>
        var agent := match Atoi(name[11..]) case None => 0 case Some(i) => i;
        Some(WindowsParts(name[..5], name[5..8], pool - 900, agent))
    else
      None
  }

  function GetVMNameIndex(osType: OSType, name: string): Option<int>
  {
    match osType
    case Linux => (match K8sLinuxVMNameParts(name) case None => None case Some(p) => Some(p.agentIndex))
    case Windows => (match WindowsVMNameParts(name) case None => None case Some(p) => Some(p.agentIndex))
    case OtherOS => Some(0)
  }

  // ----- round trips -----

  function Abs(n: int): nat
  {
    if n < 0 then -n else n
  }

  // A printed Linux name, character by character; a negative index brings a second dash.
  ghost predicate Laid(name: string, prefix: string, pool: string, suffix: string, negative: bool, digits: string)
  {
    var at := 4 + |pool|;
    var last := at + if negative then 10 else 9;
    |prefix| == 3 && |suffix| == 8 && |name| == last + 1 + |digits| &&
    (forall i :: 0 <= i < 3 ==> name[i] == prefix[i]) && name[3] == '-' &&
    (forall i :: 4 <= i < at ==> name[i] == pool[i - 4]) && name[at] == '-' &&
    (forall i :: at < i < at + 9 ==> name[i] == suffix[i - at - 1]) && name[at + 9] == '-' && name[last] == '-' &&
    forall i :: last < i < |name| ==> name[i] == digits[i - last - 1]
  }

  lemma HeadIsLaid(head: string, prefix: string, pool: string)
    requires head == prefix + "-" + pool && |prefix| == 3
    ensures |head| == 4 + |pool| && (forall i :: 0 <= i < 3 ==> head[i] == prefix[i]) && head[3] == '-'
    ensures forall i :: 4 <= i < |head| ==> head[i] == pool[i - 4]
  {
  }

  lemma MiddleIsLaid(middle: string, head: string, suffix: string)
    requires middle == head + "-" + suffix + "-"
    ensures |middle| == |head| + |suffix| + 2 && forall i :: 0 <= i < |head| ==> middle[i] == head[i]
    ensures middle[|head|] == '-' && middle[|middle| - 1] == '-'
    ensures forall i :: |head| < i < |middle| - 1 ==> middle[i] == suffix[i - |head| - 1]
  {
  }

  lemma PrintedIsLaid(prefix: string, pool: string, suffix: string, index: int)
    requires |prefix| == 3 && |suffix| == 8
    ensures Laid(prefix + "-" + pool + "-" + suffix + "-" + Itoa(index), prefix, pool, suffix, index < 0,
      Digits(Abs(index)))
  {
    var head := prefix + "-" + pool;
    var middle := head + "-" + suffix + "-";
    HeadIsLaid(head, prefix, pool);
    MiddleIsLaid(middle, head, suffix);
    var name, number := middle + Itoa(index), Itoa(index);
    assert forall i :: 0 <= i < |middle| ==> name[i] == middle[i];
    assert forall i :: |middle| <= i < |name| ==> name[i] == number[i - |middle|];
  }

  // Where the first group can end in a printed name, from the pool's end on
  lemma EndsWhere(name: string, prefix: string, pool: string, suffix: string, negative: bool, digits: string, k: nat)
    requires Laid(name, prefix, pool, suffix, negative, digits) && digits != [] && AllDigits(digits)
    requires AllAlnum(prefix) && pool != [] && '\n' !in pool && AllHex(suffix) && 4 + |pool| <= k <= |name|
    ensures PoolEndsAt(name, k) <==> k == 4 + |pool| || (k == |name| - |digits| - 1 && |digits| > 8)
  {
  }

  lemma {:induction false} LastWhereIs(ok: nat -> bool, upTo: nat, k: nat)
    requires ok(k) && k <= upTo && forall j :: k < j <= upTo ==> !ok(j)
    ensures LastWhere(ok, upTo) == Some(k)
  {
    if k < upTo {
      LastWhereIs(ok, upTo - 1, k);
    }
  }

  // The longest match ends with the pool name, or at the last dash when there are more than eight digits.
  lemma LongestIs(name: string, prefix: string, pool: string, suffix: string, negative: bool, digits: string)
    requires Laid(name, prefix, pool, suffix, negative, digits) && digits != [] && AllDigits(digits)
    requires AllAlnum(prefix) && pool != [] && '\n' !in pool && AllHex(suffix)
    ensures LongestPool(name) == Some(if |digits| > 8 then |name| - |digits| - 1 else 4 + |pool|)
  {
    var k := if |digits| > 8 then |name| - |digits| - 1 else 4 + |pool|;
    var ok := Ends(name);
    EndsWhere(name, prefix, pool, suffix, negative, digits, k);
    forall j: nat | k < j <= |name| ensures !ok(j) {
      EndsWhere(name, prefix, pool, suffix, negative, digits, j);
    }
    LastWhereIs(ok, |name|, k);
  }

  // The groups, when the first one ends with the pool name
  lemma GroupsAre(name: string, prefix: string, pool: string, suffix: string, negative: bool, digits: string)
    requires Laid(name, prefix, pool, suffix, negative, digits) && digits != [] && AllDigits(digits)
    ensures var at := 4 + |pool|;
      name[4..at] == pool && name[at + 1..at + 9] == suffix && name[IndexStart(name, at + 9)..] == digits
  {
    var at := 4 + |pool|;
    assert IndexStart(name, at + 9) == |name| - |digits|;
  }

  lemma Pow10Of8()
    ensures Pow10(8) == 100_000_000
  {
    assert Pow10(4) == 10_000;
  }

  // Without its first digits a printed number is a smaller one.
  lemma TailIsLess(n: nat, k: nat)
    requires 0 < k < |Digits(n)|
    ensures AllDigits(Digits(n)[k..]) && Value(Digits(n)[k..]) < n
  {
    var s := Digits(n);
    DigitsLength(n);
    ValueBounds(s[k..]);
    Pow10Grows(|s| - k, |s| - 1);
  }

  // Of more than eight digits, only those from the ninth on are read as the index.
  lemma LongIndex(name: string, prefix: string, pool: string, suffix: string, index: int)
    requires Laid(name, prefix, pool, suffix, index < 0, Digits(Abs(index))) && |Digits(Abs(index))| > 8
    requires LongestPool(name) == Some(|name| - |Digits(Abs(index))| - 1)
    ensures GetVMNameIndex(Linux, name) != Some(index)
  {
    var digits := Digits(Abs(index));
    var k := |name| - |digits| - 1;
    assert IndexStart(name, k + 9) == k + 9;
    assert name[k + 9..] == digits[8..];
    TailIsLess(Abs(index), 8);
  }

  lemma ShortParts(name: string, prefix: string, pool: string, suffix: string, index: int)
    requires Laid(name, prefix, pool, suffix, index < 0, Digits(Abs(index))) && |Digits(Abs(index))| <= 8
    requires LongestPool(name) == Some(4 + |pool|)
    ensures K8sLinuxVMNameParts(name) == Some(LinuxParts(pool, suffix, Abs(index)))
  {
    GroupsAre(name, prefix, pool, suffix, index < 0, Digits(Abs(index)));
    ShortNumber(Abs(index));
  }

  lemma ShortNumber(n: nat)
    requires |Digits(n)| <= 8
    ensures Atoi(Digits(n)) == Some(n)
  {
    ValueOfDigits(n);
    DigitsFit(n, 8);
    Pow10Of8();
  }

  /** Exactly the indexes of at most eight digits come back from a printed Linux name, which starts with aks or k8s. */
  lemma LinuxRoundTrip(isAKS: bool, pool: string, suffix: string, poolIndex: int, index: int)
    requires pool != [] && '\n' !in pool && |suffix| == 8 && AllHex(suffix)
    ensures var name := GetK8sVMName(Linux, isAKS, suffix, pool, poolIndex, index).value;
      K8sLinuxVMNameParts(name) == Some(LinuxParts(pool, suffix, index)) <==> 0 <= index < 100_000_000
    ensures (if isAKS then "aks-" else "k8s-") <= GetK8sVMName(Linux, isAKS, suffix, pool, poolIndex, index).value
  {
    var prefix := Prefix(isAKS);
    var name := GetK8sVMName(Linux, isAKS, suffix, pool, poolIndex, index).value;
    PrintedIsLaid(prefix, pool, suffix, index);
    LaidRoundTrip(name, prefix, pool, suffix, index);
  }

  lemma LaidRoundTrip(name: string, prefix: string, pool: string, suffix: string, index: int)
    requires Laid(name, prefix, pool, suffix, index < 0, Digits(Abs(index)))
    requires AllAlnum(prefix) && pool != [] && '\n' !in pool && AllHex(suffix)
    ensures K8sLinuxVMNameParts(name) == Some(LinuxParts(pool, suffix, index)) <==> 0 <= index < 100_000_000
    ensures GetVMNameIndex(Linux, name) == Some(index) <==> 0 <= index < 100_000_000
  {
    LongestIs(name, prefix, pool, suffix, index < 0, Digits(Abs(index)));
    DigitsFit(Abs(index), 8);
    Pow10Of8();
    if |Digits(Abs(index))| > 8 {
      LongIndex(name, prefix, pool, suffix, index);
    } else {
      ShortParts(name, prefix, pool, suffix, index);
    }
  }

  /** From a printed Windows name come back the pool indexes of exactly three digits, the agent's of at most three. */
  lemma WindowsRoundTrip(isAKS: bool, pool: string, suffix: string, poolIndex: int, index: int)
    requires |suffix| >= 5 && AllHex(suffix[..5])
    ensures var name := GetK8sVMName(Windows, isAKS, suffix, pool, poolIndex, index).value;
      WindowsVMNameParts(name) ==
        Some(WindowsParts(suffix[..5], if isAKS then "aks" else "k8s", poolIndex, index))
      <==> -800 <= poolIndex <= 99 && 0 <= index <= 999
  {
    var prefix, info := Prefix(isAKS), Itoa(900 + poolIndex) + Itoa(index);
    var name := suffix[..5] + prefix + Itoa(900 + poolIndex) + Itoa(index);
    assert name == suffix[..5] + prefix + info;
    PiecesOfThree(suffix[..5], prefix, info);
    WindowsInfo(name, info);
    InfoRoundTrip(info, poolIndex, index);
  }

  lemma PiecesOfThree(a: string, b: string, c: string)
    ensures var s := a + b + c;
      s[..|a|] == a && s[|a|..|a| + |b|] == b && s[|a| + |b|..] == c
  {
  }

  lemma InfoRoundTrip(info: string, poolIndex: int, index: int)
    requires info == Itoa(900 + poolIndex) + Itoa(index)
    ensures (4 <= |info| <= 6 && AllAlnum(info) && AllDigits(info[..3]) && Value(info[..3]) <= MAX_INT &&
             Value(info[..3]) - 900 == poolIndex && index == match Atoi(info[3..]) case None => 0 case Some(i) => i)
      <==> -800 <= poolIndex <= 99 && 0 <= index <= 999
  {
    var a, b := Itoa(900 + poolIndex), Itoa(index);
    if 900 + poolIndex < 0 {
      assert info[0] == '-';
    } else if index < 0 {
      assert info[|a|] == '-';
    } else {
      ThreeDigits(900 + poolIndex, index);
      ValueOfDigits(index);
      if |a| == 3 {
        assert info[3..] == b;
      }
    }
  }

  lemma WindowsInfo(name: string, info: string)
    requires |name| >= 8 && name[8..] == info && AllHex(name[..5]) && AllAlnum(name[5..8])
    ensures WindowsVMNameParts(name) ==
      if 4 <= |info| <= 6 && AllAlnum(info) && AllDigits(info[..3]) && Value(info[..3]) <= MAX_INT then
        Some(WindowsParts(name[..5], name[5..8], Value(info[..3]) - 900,
          match Atoi(info[3..]) case None => 0 case Some(i) => i))
      else None
  {
    assert name[5..] == name[5..8] + info;
    if |info| >= 3 {
      assert name[8..11] == info[..3] && name[11..] == info[3..];
    }
  }

  lemma NumeralsFit(m: nat)
    ensures |Digits(m)| == 1 <==> m <= 9
    ensures |Digits(m)| == 2 <==> 10 <= m <= 99
    ensures |Digits(m)| == 3 <==> 100 <= m <= 999
    ensures |Digits(m)| == 4 <==> 1000 <= m <= 9999
    ensures |Digits(m)| == 5 <==> 10_000 <= m <= 99_999
  {
    assert Pow10(2) == 100 && Pow10(4) == 10_000;
    DigitsFit(m, 1);
    DigitsFit(m, 2);
    DigitsFit(m, 3);
    DigitsFit(m, 4);
    DigitsFit(m, 5);
  }

  // Reading three characters of two printed numbers gives the first one only if that is what it fills.
  lemma FirstThree(m: nat, n: nat)
    requires |Digits(m) + Digits(n)| >= 4
    ensures var info := Digits(m) + Digits(n);
      AllDigits(info) && (Value(info[..3]) == m <==> |Digits(m)| == 3)
  {
    var a, b := Digits(m), Digits(n);
    var three := (a + b)[..3];
    NumeralsFit(m);
    ValueBounds(three);
    SmallPowers();
    if |a| == 3 {
      assert three == a;
      ValueOfDigits(m);
    } else if |a| < 3 {
      ShortFirst(m, n);
    }
  }

  lemma ShortFirst(m: nat, n: nat)
    requires |Digits(m) + Digits(n)| >= 4 && |Digits(m)| < 3
    ensures var three := (Digits(m) + Digits(n))[..3]; m > 0 ==> three[0] != '0'
    ensures var three := (Digits(m) + Digits(n))[..3]; m == 0 ==> three[1] != '0'
  {
    var a, b := Digits(m), Digits(n);
    DigitsLength(m);
    if m == 0 {
      DigitsLength(n);
      assert a == "0" && (a + b)[1] == b[0];
    }
  }

  lemma ThreeDigits(m: nat, n: nat)
    ensures var info := Digits(m) + Digits(n);
      AllDigits(info) && (4 <= |info| ==> (Value(info[..3]) == m <==> |Digits(m)| == 3))
    ensures |Digits(m)| == 3 <==> 100 <= m <= 999
    ensures |Digits(n)| <= 3 <==> n <= 999
  {
    NumeralsFit(m);
    NumeralsFit(n);
    if |Digits(m) + Digits(n)| >= 4 {
      FirstThree(m, n);
    }
  }

  lemma SmallPowers()
    ensures Pow10(1) == 10 && Pow10(2) == 100 && Pow10(3) == 1000
  {
  }

  // ----- the index alone -----

  lemma LinuxIndex(isAKS: bool, pool: string, suffix: string, poolIndex: int, index: int)
    requires pool != [] && '\n' !in pool && |suffix| == 8 && AllHex(suffix)
    ensures var name := GetK8sVMName(Linux, isAKS, suffix, pool, poolIndex, index).value;
      GetVMNameIndex(Linux, name) == Some(index) <==> 0 <= index < 100_000_000
  {
    PrintedIsLaid(Prefix(isAKS), pool, suffix, index);
    LaidRoundTrip(GetK8sVMName(Linux, isAKS, suffix, pool, poolIndex, index).value, Prefix(isAKS), pool, suffix, index);
  }

  // The pool indexes that fill three characters, or more with zeros behind the first three, and the index the others
  predicate WindowsIndexFits(poolIndex: int, index: int)
  {
    var m := 900 + poolIndex;
    index >= 0 &&
    ((100 <= m <= 999 && index <= 999) || (1000 <= m <= 9999 && m % 10 == 0 && index <= 99) ||
     (10_000 <= m <= 99_999 && m % 100 == 0 && index <= 9))
  }

  // What is left of a numeral behind its first three digits, zero or not
  lemma BehindThree(m: nat)
    requires |Digits(m)| == 4 || |Digits(m)| == 5
    ensures Value(Digits(m)[3..]) == m % if |Digits(m)| == 4 then 10 else 100
  {
    var head, rest := Digits(m)[..3], Digits(m)[3..];
    ValueOfDigits(m);
    assert Digits(m) == head + rest;
    ValueConcat(head, rest);
    ValueBounds(rest);
    SmallPowers();
    RestOf(Value(head), Value(rest));
  }

  lemma RestOf(m: nat, n: nat)
    ensures n < 10 ==> (m * 10 + n) % 10 == n
    ensures n < 100 ==> (m * 100 + n) % 100 == n
  {
  }

  lemma LongFirst(m: nat, n: nat)
    requires |Digits(m)| > 3 && |Digits(m) + Digits(n)| <= 6
    ensures var rest := (Digits(m) + Digits(n))[3..];
      AllDigits(rest) && (Value(rest) == n <==> Value(Digits(m)[3..]) == 0)
  {
    var a, b := Digits(m), Digits(n);
    assert (a + b)[3..] == a[3..] + b;
    ValueConcat(a[3..], b);
    ValueOfDigits(n);
    ZeroInFront(Value(a[3..]), Pow10(|b|), n);
  }

  lemma ZeroInFront(m: nat, power: nat, n: nat)
    requires power > 0
    ensures m * power + n == n <==> m == 0
  {
    if m > 0 {
      assert m * power > 0;
    }
  }

  lemma DropPast(a: string, b: string, k: nat)
    requires |a| <= k <= |a + b|
    ensures (a + b)[k..] == b[k - |a|..]
  {
  }

  lemma ShortFirstLosesDigits(m: nat, n: nat)
    requires |Digits(m)| < 3 && |Digits(m) + Digits(n)| >= 4
    ensures var rest := (Digits(m) + Digits(n))[3..]; AllDigits(rest) && Value(rest) != n
  {
    var a, b := Digits(m), Digits(n);
    DropPast(a, b, 3);
    TailIsLess(n, 3 - |a|);
  }

  lemma RestIsIndex(m: nat, n: nat)
    ensures var info := Digits(m) + Digits(n);
      4 <= |info| <= 6 && Value(info[3..]) == n <==> WindowsIndexFits(m - 900, n)
  {
    var a, b := Digits(m), Digits(n);
    NumeralsFit(m);
    NumeralsFit(n);
    if 4 <= |a + b| <= 6 {
      if |a| < 3 {
        ShortFirstLosesDigits(m, n);
      } else if |a| == 3 {
        assert (a + b)[3..] == b;
        ValueOfDigits(n);
      } else {
        LongFirst(m, n);
        BehindThree(m);
      }
    }
  }

  lemma WindowsIndex(isAKS: bool, pool: string, suffix: string, poolIndex: int, index: int)
    requires |suffix| >= 5 && AllHex(suffix[..5])
    ensures var name := GetK8sVMName(Windows, isAKS, suffix, pool, poolIndex, index).value;
      GetVMNameIndex(Windows, name) == Some(index) <==> WindowsIndexFits(poolIndex, index)
  {
    var prefix, a, b := Prefix(isAKS), Itoa(900 + poolIndex), Itoa(index);
    var name := suffix[..5] + prefix + a + b;
    assert name == suffix[..5] + prefix + (a + b);
    PiecesOfThree(suffix[..5], prefix, a + b);
    WindowsInfo(name, a + b);
    if 900 + poolIndex < 0 {
      assert (a + b)[0] == '-';
    } else if index < 0 {
      assert (a + b)[|a|] == '-';
    } else {
      RestIsIndex(900 + poolIndex, index);
      if 4 <= |a + b| <= 6 {
        ReadsRest(a + b);
      }
    }
  }

  lemma ReadsRest(info: string)
    requires AllDigits(info) && 4 <= |info| <= 6
    ensures Value(info[..3]) <= MAX_INT && Atoi(info[3..]) == Some(Value(info[3..]))
  {
    ValueBounds(info[..3]);
    ValueBounds(info[3..]);
    SmallPowers();
  }

  /** The VM index survives printing and reading exactly in these cases, also where the other parts do not. */
  lemma IndexRoundTrip(osType: OSType, isAKS: bool, pool: string, suffix: string, poolIndex: int, index: int)
    requires osType != OtherOS
    requires pool != [] && '\n' !in pool && |suffix| == 8 && AllHex(suffix)
    ensures GetVMNameIndex(osType, GetK8sVMName(osType, isAKS, suffix, pool, poolIndex, index).value) == Some(index)
      <==> if osType == Linux then 0 <= index < 100_000_000 else WindowsIndexFits(poolIndex, index)
  {
    if osType == Linux {
      LinuxIndex(isAKS, pool, suffix, poolIndex, index);
    } else {
      assert AllHex(suffix[..5]);
      WindowsIndex(isAKS, pool, suffix, poolIndex, index);
    }
  }
}
