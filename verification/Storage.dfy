/** Storage accounts for the machines of agent pools, as the DC/OS templates compute them. */
module Storage {
  import opened Text
  import opened Decimal

  const MAX_VMS_PER_POOL := 100
  const MAX_VMS_PER_ACCOUNT := 20
  const MAX_ACCOUNTS_PER_AGENT := MAX_VMS_PER_POOL / MAX_VMS_PER_ACCOUNT
  const DATA_SEED := 97
  const PREFIXES: seq<string> := ["06ciou", "17djpv", "28ekqw", "39flrx", "4agmsy", "5bhntz"]

  // The whole accounts, and one more for a remainder: (r + 2) mod (r + 1) is 1 unless r is 0.
  function AccountsCount(count: nat): nat
  {
    count / MAX_VMS_PER_ACCOUNT + (count % MAX_VMS_PER_ACCOUNT + 2) % (count % MAX_VMS_PER_ACCOUNT + 1)
  }

  function AccountOffset(pool: nat): nat
  {
    MAX_ACCOUNTS_PER_AGENT * pool
  }

  // The i-th of the 36 symbols in the table, here set in rows of six
  function PrefixAt(i: nat): char
    requires i < 36
  {
    PREFIXES[i / 6][i % 6]
  }

  // Two symbols, the low-order one first
  function Prefix(ordinal: nat): string
    requires ordinal < 1296
  {
    [PrefixAt(ordinal % 36), PrefixAt(ordinal / 36)]
  }

  datatype Kind = OsDisk | DataDisk

  // The account that turn i of the creation loop makes
  function CreatedOrdinal(kind: Kind, pool: nat, i: nat): nat
  {
    match kind
    case OsDisk => i + AccountOffset(pool)
    case DataDisk => (DATA_SEED + i) + AccountOffset(pool)
  }

  // The account that machine v depends on
  function UsedOrdinal(kind: Kind, pool: nat, v: nat): nat
  {
    match kind
    case OsDisk => v / MAX_VMS_PER_ACCOUNT + AccountOffset(pool)
    case DataDisk => v / MAX_VMS_PER_ACCOUNT + AccountOffset(pool) + DATA_SEED
  }

  // ----- counting -----

  lemma RemainderTrick(r: nat)
    ensures (r + 2) % (r + 1) == if r == 0 then 0 else 1
  {
    if r > 0 {
      assert (r + 2) == (r + 1) + 1;
    }
  }

  lemma CountIsCeiling(count: nat)
    ensures AccountsCount(count) == (count + MAX_VMS_PER_ACCOUNT - 1) / MAX_VMS_PER_ACCOUNT
  {
    RemainderTrick(count % MAX_VMS_PER_ACCOUNT);
  }

  // Each machine's account is created, and every account created has a machine.
  lemma CreatedAreUsed(kind: Kind, pool: nat, count: nat, ordinal: nat)
    ensures (exists i :: 0 <= i < AccountsCount(count) && CreatedOrdinal(kind, pool, i) == ordinal) <==>
            (exists v :: 0 <= v < count && UsedOrdinal(kind, pool, v) == ordinal)
  {
    CountIsCeiling(count);
    forall v | 0 <= v < count
      ensures v / MAX_VMS_PER_ACCOUNT < AccountsCount(count)
      ensures CreatedOrdinal(kind, pool, v / MAX_VMS_PER_ACCOUNT) == UsedOrdinal(kind, pool, v)
    {
    }
    forall i | 0 <= i < AccountsCount(count)
      ensures MAX_VMS_PER_ACCOUNT * i < count &&
        UsedOrdinal(kind, pool, MAX_VMS_PER_ACCOUNT * i) == CreatedOrdinal(kind, pool, i)
    {
    }
  }

  function MachinesOf(kind: Kind, pool: nat, count: nat, ordinal: nat): set<nat>
  {
    set v | 0 <= v < count && UsedOrdinal(kind, pool, v) == ordinal
  }

  lemma {:induction false} RangeSize(s: set<nat>, lo: nat, n: nat)
    requires forall v :: v in s ==> lo <= v < lo + n
    ensures |s| <= n
  {
    if n == 0 {
      assert s == {};
    } else {
      var last := lo + n - 1;
      RangeSize(s - {last}, lo, n - 1);
      assert s <= (s - {last}) + {last};
      if last in s {
        assert s == (s - {last}) + {last};
      } else {
        assert s == s - {last};
      }
    }
  }

  lemma AccountsHoldTwenty(kind: Kind, pool: nat, count: nat, ordinal: nat)
    ensures |MachinesOf(kind, pool, count, ordinal)| <= MAX_VMS_PER_ACCOUNT
  {
    var s := MachinesOf(kind, pool, count, ordinal);
    if s != {} {
      var first :| first in s;
      var lo := first / MAX_VMS_PER_ACCOUNT * MAX_VMS_PER_ACCOUNT;
      forall v | v in s ensures lo <= v < lo + MAX_VMS_PER_ACCOUNT {
        assert v / MAX_VMS_PER_ACCOUNT == first / MAX_VMS_PER_ACCOUNT;
      }
      RangeSize(s, lo, MAX_VMS_PER_ACCOUNT);
    }
  }

  // Pools of at most 100 machines have ordinals of their own.
  lemma PoolsAreApart(kind: Kind, p: nat, q: nat, n: nat, m: nat, v: nat, w: nat)
    requires v < n <= MAX_VMS_PER_POOL && w < m <= MAX_VMS_PER_POOL && p != q
    ensures UsedOrdinal(kind, p, v) != UsedOrdinal(kind, q, w)
  {
    assert v / MAX_VMS_PER_ACCOUNT < 5 && w / MAX_VMS_PER_ACCOUNT < 5;
  }

  // Exactly the pools of more than 100 machines run into the next pool's ordinals.
  lemma LargePoolsOverlap(kind: Kind, pool: nat, n: nat)
    ensures (exists v :: 0 <= v < n && UsedOrdinal(kind, pool, v) == UsedOrdinal(kind, pool + 1, 0)) <==>
      n > MAX_VMS_PER_POOL
  {
    forall v | 0 <= v < n && v < MAX_VMS_PER_POOL ensures UsedOrdinal(kind, pool, v) != UsedOrdinal(kind, pool + 1, 0) {
      PoolsAreApart(kind, pool, pool + 1, v + 1, 1, v, 0);
    }
    if n > MAX_VMS_PER_POOL {
      assert UsedOrdinal(kind, pool, 100) == UsedOrdinal(kind, pool + 1, 0);
    }
  }

  // ----- names -----

  // The n-th symbol of 0..9a..z
  function Symbol(n: nat): char
    requires n < 36
  {
    if n < 10 then '0' + n as char else 'a' + (n - 10) as char
  }

  lemma SymbolIdentifies(m: nat, n: nat)
    requires m < 36 && n < 36 && Symbol(m) == Symbol(n)
    ensures m == n
  {
  }

  // The table lists the 36 symbols in steps of six.
  function Spread(i: nat): nat
  {
    6 * (i % 6) + i / 6
  }

  lemma SpreadIdentifies(i: nat, j: nat)
    requires i < 36 && j < 36 && Spread(i) == Spread(j)
    ensures i == j
  {
    assert i / 6 < 6 && j / 6 < 6;
    assert i / 6 == Spread(i) % 6 && i % 6 == Spread(i) / 6;
    assert j / 6 == Spread(j) % 6 && j % 6 == Spread(j) / 6;
  }

  lemma TableIsSpread(i: nat)
    requires i < 36
    ensures Spread(i) < 36 && PrefixAt(i) == Symbol(Spread(i))
  {
    assert PREFIXES[i / 6][i % 6] == Symbol(6 * (i % 6) + i / 6);
  }

  lemma {:induction false} PrefixIdentifies(m: nat, n: nat)
    requires m < 1296 && n < 1296 && Prefix(m) == Prefix(n)
    ensures m == n
  {
    TableIsSpread(m % 36);
    TableIsSpread(n % 36);
    TableIsSpread(m / 36);
    TableIsSpread(n / 36);
    assert Prefix(m)[0] == Prefix(n)[0] && Prefix(m)[1] == Prefix(n)[1];
    SymbolIdentifies(Spread(m % 36), Spread(n % 36));
    SymbolIdentifies(Spread(m / 36), Spread(n / 36));
    SpreadIdentifies(m % 36, n % 36);
    SpreadIdentifies(m / 36, n / 36);
  }

  // The name of an account: the prefix, the cluster's base name, the disks' word and the pool's index
  function AccountName(base: string, kind: Kind, pool: nat, ordinal: nat): string
    requires ordinal < 1296
  {
    Prefix(ordinal) + (base + ((if kind.OsDisk? then "agnt" else "data") + Digits(pool)))
  }

  // Two accounts with one name are one: the same disks' account of the same pool, made in the same turn.
  lemma NamesIdentify(base: string, k: Kind, p: nat, i: nat, l: Kind, q: nat, j: nat)
    requires CreatedOrdinal(k, p, i) < 1296 && CreatedOrdinal(l, q, j) < 1296
    requires AccountName(base, k, p, CreatedOrdinal(k, p, i)) == AccountName(base, l, q, CreatedOrdinal(l, q, j))
    ensures k == l && p == q && i == j
  {
    var m, n := CreatedOrdinal(k, p, i), CreatedOrdinal(l, q, j);
    var word, other := if k.OsDisk? then "agnt" else "data", if l.OsDisk? then "agnt" else "data";
    SameStart(Prefix(m), Prefix(n), base + (word + Digits(p)), base + (other + Digits(q)));
    SameStart(base, base, word + Digits(p), other + Digits(q));
    SameStart(word, other, Digits(p), Digits(q));
    assert word[0] == other[0];
    DigitsInjective(p, q);
    PrefixIdentifies(m, n);
  }

  // ----- data disks -----

  // Turn c of the machine loop makes machine c + offset, but names its disks' account by c alone.
  function DiskOrdinal(pool: nat, c: nat): nat
  {
    c / MAX_VMS_PER_ACCOUNT + AccountOffset(pool) + DATA_SEED
  }

  // The disks go into the account their machine waits for, for all machines, exactly in these cases.
  lemma DisksFollowMachines(pool: nat, count: nat, offset: nat)
    ensures (forall c ::
        0 <= c < count - offset ==> DiskOrdinal(pool, c) == UsedOrdinal(DataDisk, pool, c + offset)) <==>
      offset == 0 || count <= offset || count <= MAX_VMS_PER_ACCOUNT
  {
    if offset > 0 && count > offset && count > MAX_VMS_PER_ACCOUNT {
      var c := if offset >= MAX_VMS_PER_ACCOUNT then 0 else MAX_VMS_PER_ACCOUNT - offset;
      assert 0 <= c < count - offset && DiskOrdinal(pool, c) != UsedOrdinal(DataDisk, pool, c + offset);
    }
  }
}
