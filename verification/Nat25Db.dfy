/**
 The NAT2.5 network database of rtw_br_ext.c: a hash table of singly linked chains whose entries also
 hold a back pointer to whatever points at them, with ageing and use counts.

 The table is a heap structure here too: `next` and `pprev` are the two links of an entry, and `pprev`
 designates the bucket head or the `next` field that refers to the entry.  The ghost map `db` is what
 the table means.  Allocation succeeds, and use counts do not reach the limit of atomic_t.
 */
module Nat25Db {
  import opened Basics

  type Octet = bv8
  type Mac = seq<Octet>
  type Addr = a: seq<Octet> | |a| == MAX_NETWORK_ADDR_LEN witness seq(MAX_NETWORK_ADDR_LEN, i => 0)

  const MAX_NETWORK_ADDR_LEN: nat := 17
  const NAT25_HASH_SIZE: nat := 16
  const NAT25_AGEING_TIME: nat := 300
  const HZ: nat := 250

  const NO_MAC: Mac := [0, 0, 0, 0, 0, 0]
  const NO_IP: seq<Octet> := [0, 0, 0, 0]

  // ----- hashing

  function Xor(a: seq<Octet>): Octet {
    if a == [] then 0 else a[0] ^ Xor(a[1..])
  }

  // __nat25_network_hash
  function Hash(a: Addr): (h: nat)
    ensures h < NAT25_HASH_SIZE
  {
    var x := if a[0] == 1 then Xor(a[7..11])
             else if a[0] == 3 then Xor(a[1..11])
             else if a[0] == 4 then Xor(a[1..4])
             else if a[0] == 5 then Xor(a[..9])
             else if a[0] == 2 then Xor(a[1..17])
             else Xor(a);
    var low := x & 15;
    assert low <= 15;
    low as nat
  }

  // ----- ageing: time_before_eq on wrapping jiffies

  predicate HasExpired(age: nat, now: nat) {
    !TimeAfter(age, now - NAT25_AGEING_TIME * HZ)
  }

  /** An entry expires when it has not been refreshed for the ageing time, and stays so for half the clock's range. */
  lemma ExpiredIs(age: nat, now: nat)
    ensures HasExpired(age, now) <==>
      NAT25_AGEING_TIME * HZ <= Ticks(age, now) < NAT25_AGEING_TIME * HZ + JIFFIES_MOD / 2
  {
    TimeAfterIs(age, now - NAT25_AGEING_TIME * HZ);
    TicksBack(age, now, NAT25_AGEING_TIME * HZ);
  }

  lemma ExpiredAfter(age: nat, d: nat)
    requires d < JIFFIES_MOD / 2
    ensures HasExpired(age, (age + d) % JIFFIES_MOD) <==> d >= 300 * 250
  {
    TicksOf(age, d);
    ExpiredIs(age, (age + d) % JIFFIES_MOD);
  }

  // ----- the table as a map

  datatype Value = Value(mac: Mac, use: nat, age: nat)
  type Db = map<Addr, Value>

  function Inserted(db: Db, a: Addr, mac: Mac, now: nat): Db {
    db[a := if a in db then db[a].(mac := mac, age := now) else Value(mac, 1, now)]
  }

  function LookedUp(db: Db, a: Addr, now: nat): Db {
    if a in db && !HasExpired(db[a].age, now) then db[a := db[a].(use := db[a].use + 1)] else db
  }

  function Refreshed(db: Db, a: Addr, now: nat): Db {
    if a in db then db[a := db[a].(age := now)] else db
  }

  // The entries that one sweep removes.
  predicate Falls(v: Value, now: nat) {
    HasExpired(v.age, now) && v.use <= 1
  }

  function Swept(db: Db, now: nat): Db {
    map a | a in db && !Falls(db[a], now) ::
      if HasExpired(db[a].age, now) then db[a].(use := db[a].use - 1) else db[a]
  }

  // A sweep that has reached only some of the addresses.
  ghost function SweptOn(db: Db, done: set<Addr>, now: nat): Db {
    map a | a in db && !(a in done && Falls(db[a], now)) ::
      if a in done && HasExpired(db[a].age, now) then db[a].(use := db[a].use - 1) else db[a]
  }

  function SweptAt(db: Db, a: Addr, now: nat): Db {
    if a !in db then db
    else if Falls(db[a], now) then db - {a}
    else if HasExpired(db[a].age, now) then db[a := db[a].(use := db[a].use - 1)]
    else db
  }

  lemma SweptStep(db: Db, done: set<Addr>, a: Addr, now: nat)
    requires a !in done
    ensures SweptOn(db, done + {a}, now) == SweptAt(SweptOn(db, done, now), a, now)
  {
  }

  // ----- the linked table

  datatype Link = NoLink | BucketHead(b: nat) | NextField(e: Entry)

  // The place of an entry: its bucket and its position in the chain.
  datatype Slot = Slot(b: nat, i: nat)

  class Entry {
    var next: Entry?
    var pprev: Link
    var use: nat
    var mac: Mac
    var age: nat
    const addr: Addr

    constructor (addr: Addr, mac: Mac, age: nat)
      ensures this.addr == addr && this.mac == mac && this.age == age && use == 1
    {
      this.addr, this.mac, this.age := addr, mac, age;
      use, next, pprev := 1, null, NoLink;
    }
  }

  ghost function NextIn(chain: seq<Entry>, i: nat): Entry? {
    if i + 1 < |chain| then chain[i + 1] else null
  }

  ghost function PrevIn(chain: seq<Entry>, i: nat, b: nat): Link
    requires i < |chain|
  {
    if i == 0 then BucketHead(b) else NextField(chain[i - 1])
  }

  ghost function Around(chain: seq<Entry>, k: nat): set<Entry>
    requires k < |chain|
  {
    {chain[k]} + (if k > 0 then {chain[k - 1]} else {}) + (if k + 1 < |chain| then {chain[k + 1]} else {})
  }

  ghost predicate DistinctAddrs(chain: seq<Entry>) {
    forall i, j :: 0 <= i < j < |chain| ==> chain[i].addr != chain[j].addr
  }

  // A sweep of bucket b has come to position k: what it has passed is done, what lies ahead is not.
  ghost predicate Halfway(chain: seq<Entry>, k: nat, done: set<Addr>, b: nat) {
    && k <= |chain|
    && (forall i :: 0 <= i < k ==> chain[i].addr in done)
    && (forall i :: k <= i < |chain| ==> chain[i].addr !in done)
    && (forall a :: a in done ==> Hash(a) <= b)
  }

  lemma HalfwayStep(chain: seq<Entry>, k: nat, done: set<Addr>, b: nat, chain': seq<Entry>, k': nat)
    requires Halfway(chain, k, done, b) && k < |chain| && DistinctAddrs(chain) && Hash(chain[k].addr) <= b
    requires k <= k' <= |chain'| && chain'[..k] == chain[..k] && chain'[k'..] == chain[k + 1..]
    requires k' == k || (k' == k + 1 && chain'[k] == chain[k])
    ensures Halfway(chain', k', done + {chain[k].addr}, b)
  {
  }

  lemma AllDone(db0: Db, db: Db, chains: seq<seq<Entry>>, done: set<Addr>, b: nat, now: nat)
    requires b < |chains| == NAT25_HASH_SIZE && Complete(chains, db) && db == SweptOn(db0, done, now)
    requires Halfway(chains[b], |chains[b]|, done, b)
    ensures forall a :: a in db0 && Hash(a) == b ==> a in done
  {
  }

  // The map has no address that the chains have not.
  ghost predicate Complete(chains: seq<seq<Entry>>, db: Db)
    requires |chains| == NAT25_HASH_SIZE
  {
    forall a :: a in db ==> exists i :: 0 <= i < |chains[Hash(a)]| && chains[Hash(a)][i].addr == a
  }

  ghost predicate Listed(chains: seq<seq<Entry>>, e: Entry)
    requires |chains| == NAT25_HASH_SIZE
  {
    e in chains[Hash(e.addr)]
  }

  lemma LinkComplete(chains: seq<seq<Entry>>, db: Db, e: Entry, v: Value)
    requires |chains| == NAT25_HASH_SIZE && Complete(chains, db)
    ensures var h := Hash(e.addr); Complete(chains[h := [e] + chains[h]], db[e.addr := v])
  {
    var h := Hash(e.addr);
    var more: seq<seq<Entry>> := chains[h := [e] + chains[h]];
    forall a | a in db[e.addr := v] ensures exists i :: 0 <= i < |more[Hash(a)]| && more[Hash(a)][i].addr == a {
      if a == e.addr {
        assert more[h][0].addr == a;
      } else {
        var i :| 0 <= i < |chains[Hash(a)]| && chains[Hash(a)][i].addr == a;
        assert Hash(a) == h ==> more[h][i + 1].addr == a;
      }
    }
  }

  class NatDb {
    const nethash: array<Entry?>
    var scdbEntry: Entry?
    var scdbMac: Mac
    var scdbIp: seq<Octet>

    ghost var chains: seq<seq<Entry>>
    ghost var db: Db
    ghost var repr: set<Entry>

    ghost predicate EntryOk(b: nat, i: nat)
      requires b < |chains| && i < |chains[b]|
      reads this, repr
    {
      var e := chains[b][i];
      && e in repr
      && Hash(e.addr) == b
      && e.next == NextIn(chains[b], i)
      && e.pprev == PrevIn(chains[b], i, b)
      && e.use >= 1
      && e.addr in db && db[e.addr] == Value(e.mac, e.use, e.age)
    }

    ghost predicate BucketOk(b: nat)
      requires b < |chains| && b < nethash.Length
      reads this, repr, nethash
    {
      && nethash[b] == (if chains[b] == [] then null else chains[b][0])
      && DistinctAddrs(chains[b])
      && forall i :: 0 <= i < |chains[b]| ==> EntryOk(b, i)
    }

    ghost predicate Valid()
      reads this, repr, nethash
    {
      && nethash.Length == |chains| == NAT25_HASH_SIZE
      && (forall b :: 0 <= b < NAT25_HASH_SIZE ==> BucketOk(b))
      && Complete(chains, db)
      && (scdbEntry != null ==> Listed(chains, scdbEntry))
    }

    constructor ()
      ensures Valid() && db == map[] && scdbEntry == null && fresh(repr) && fresh(nethash)
    {
      nethash := new Entry?[NAT25_HASH_SIZE](i => null);
      scdbEntry, scdbMac, scdbIp := null, [], [];
      chains := seq(NAT25_HASH_SIZE, i => []);
      db, repr := map[], {};
    }

    // The chain walk shared by lookup, insert and scdb_findEntry.
    method Find(addr: Addr) returns (e: Entry?, ghost k: nat)
      requires Valid()
      ensures e == null <==> addr !in db
      ensures e != null ==> k < |chains[Hash(addr)]| && chains[Hash(addr)][k] == e && e.addr == addr
      ensures e != null ==> e in repr && e.use >= 1 && db[addr] == Value(e.mac, e.use, e.age)
    {
      var h := Hash(addr);
      assert BucketOk(h);
      e, k := nethash[h], 0;
      while e != null
        invariant k <= |chains[h]|
        invariant e == if k < |chains[h]| then chains[h][k] else null
        invariant forall i :: 0 <= i < k ==> chains[h][i].addr != addr
        decreases |chains[h]| - k
      {
        assert EntryOk(h, k);
        if e.addr == addr {
          return;
        }
        e := e.next;
        k := k + 1;
      }
    }

    // __nat25_db_network_lookup_and_replace: found says whether the caller may stop looking, mac is what
    // replaces the destination address, if anything does
    method LookupAndReplace(addr: Addr, now: nat) returns (found: bool, mac: Option<Mac>)
      requires Valid()
      modifies repr, this`db
      ensures Valid() && db == LookedUp(old(db), addr, now)
      ensures found <==> addr in old(db)
      ensures mac == if found && !HasExpired(old(db)[addr].age, now) then Some(old(db)[addr].mac) else None
    {
      var e, k := Find(addr);
      found, mac := e != null, None;
      if e != null {
        if !HasExpired(e.age, now) {
          mac := Some(e.mac);
          Set(e, k, Value(e.mac, e.use + 1, e.age));
        }
      }
    }

    // Change the contents of one entry in place.
    method Set(e: Entry, ghost k: nat, v: Value)
      requires Valid() && k < |chains[Hash(e.addr)]| && chains[Hash(e.addr)][k] == e && v.use >= 1
      modifies e`use, e`mac, e`age, this`db
      ensures Valid() && db == old(db)[e.addr := v]
    {
      e.use, e.mac, e.age := v.use, v.mac, v.age;
      db := db[e.addr := v];
      forall b | 0 <= b < NAT25_HASH_SIZE ensures BucketOk(b) {
        assert old(BucketOk(b));
        forall i | 0 <= i < |chains[b]| ensures EntryOk(b, i) {
          assert old(EntryOk(b, i));
        }
      }
    }

    // The shortcut of rtw_br_client_tx: scdb_findEntry, and a refresh of what it finds.
    method TakeShortcut(mac: Mac, ip: seq<Octet>, now: nat)
      requires Valid() && |ip| == 4
      modifies this`scdbEntry, this`scdbMac, this`scdbIp, this`db, repr
      ensures Valid()
      ensures scdbEntry == null <==> Generate(IPv4(ip)) !in old(db)
      ensures scdbEntry == null ==> db == old(db) && scdbMac == old(scdbMac) && scdbIp == old(scdbIp)
      ensures scdbEntry != null ==>
        && scdbEntry.addr == Generate(IPv4(ip)) && scdbMac == mac && scdbIp == ip
        && db == old(db)[scdbEntry.addr := old(db)[scdbEntry.addr].(age := now)]
    {
      var e, k := Find(Generate(IPv4(ip)));
      scdbEntry := e;
      if e != null {
        scdbMac, scdbIp := mac, ip;
      }
      OtherBuckets(NAT25_HASH_SIZE);
      if e != null {
        Set(e, k, Value(e.mac, e.use, now));
      }
    }

    // The other branch: the entry that the shortcut refers to is refreshed directly.
    method RefreshShortcut(now: nat)
      requires Valid() && scdbEntry != null
      modifies this`db, scdbEntry`use, scdbEntry`mac, scdbEntry`age
      ensures Valid() && scdbEntry.addr in old(db) && db == Refreshed(old(db), scdbEntry.addr, now)
    {
      var e := scdbEntry;
      ghost var h := Hash(e.addr);
      ghost var k :| 0 <= k < |chains[h]| && chains[h][k] == e;
      assert BucketOk(h);
      assert EntryOk(h, k);
      Set(e, k, Value(e.mac, e.use, now));
    }

    ghost function View(): Bridge
      reads this`db, this`scdbMac, this`scdbEntry
    {
      Bridge(db, scdbMac, if scdbEntry == null then None else Some(scdbEntry.addr))
    }

    /** The shortcut of rtw_br_client_tx for an IPv4 frame: at most one entry is refreshed, that of the frame's source
        address if the MAC is not the one of the shortcut, or else the one that the shortcut refers to. */
    method ClientTx(mac: Mac, ip: seq<Octet>, now: nat) returns (doNat25: bool)
      requires Valid() && |ip| == 4
      modifies this`scdbEntry, this`scdbMac, this`scdbIp, this`db, repr
      ensures Valid() && View() == Transmitted(old(View()), mac, Generate(IPv4(ip)), now)
      ensures doNat25 <==> scdbEntry == null
    {
      if scdbMac != mac {
        TakeShortcut(mac, ip, now);
      } else if scdbEntry != null {
        assert scdbEntry in repr by { InDb(scdbEntry); }
        RefreshShortcut(now);
      } else {
        scdbMac, scdbIp := NO_MAC, NO_IP;
        OtherBuckets(NAT25_HASH_SIZE);
      }
      doNat25 := scdbEntry == null;
    }

    lemma InDb(e: Entry)
      requires Valid() && Listed(chains, e)
      ensures e in repr && e.addr in db
    {
      var h := Hash(e.addr);
      assert BucketOk(h);
      var k :| 0 <= k < |chains[h]| && chains[h][k] == e;
      assert EntryOk(h, k);
    }

    // __nat25_db_network_insert
    method Insert(addr: Addr, mac: Mac, now: nat)
      requires Valid()
      modifies this`chains, this`db, this`repr, repr, nethash
      ensures Valid() && fresh(repr - old(repr))
      ensures db == Inserted(old(db), addr, mac, now)
    {
      var e, k := Find(addr);
      if e != null {
        Set(e, k, Value(mac, e.use, now));
      } else {
        e := new Entry(addr, mac, now);
        HashLink(e);
      }
    }

    // The shortcut entry is dropped before its entry goes.
    method ForgetShortcut(f: Entry)
      requires Valid()
      modifies this`scdbEntry, this`scdbMac, this`scdbIp
      ensures Valid() && scdbEntry == (if old(scdbEntry) == f then null else old(scdbEntry))
      ensures old(scdbEntry) == f ==> scdbMac == NO_MAC && scdbIp == NO_IP
      ensures old(scdbEntry) != f ==> scdbMac == old(scdbMac) && scdbIp == old(scdbIp)
    {
      if scdbEntry == f {
        scdbMac, scdbIp, scdbEntry := NO_MAC, NO_IP, null;
      }
      OtherBuckets(NAT25_HASH_SIZE);
    }

    // The shortcut is as it was, or was forgotten with its entry.
    ghost predicate Kept(e0: Entry?, m0: Mac)
      reads this`scdbEntry, this`scdbMac, this`db
    {
      || (scdbEntry == e0 && scdbMac == m0)
      || (e0 != null && e0.addr !in db && scdbEntry == null && scdbMac == NO_MAC)
    }

    // One entry of a sweep; returns the entry to go on with.
    method ExpireEntry(f: Entry, ghost k: nat, now: nat) returns (g: Entry?, ghost k': nat)
      requires Valid() && k < |chains[Hash(f.addr)]| && chains[Hash(f.addr)][k] == f
      modifies this, repr, nethash
      ensures Valid() && repr <= old(repr)
      ensures db == SweptAt(old(db), f.addr, now) && Kept(old(scdbEntry), old(scdbMac))
      ensures forall b :: 0 <= b < NAT25_HASH_SIZE && b != Hash(f.addr) ==> chains[b] == old(chains)[b]
      ensures var h := Hash(f.addr);
        && k <= k' <= |chains[h]| && chains[h][..k] == old(chains)[h][..k]
        && (k' == k || (k' == k + 1 && chains[h][k] == f))
        && chains[h][k'..] == old(chains)[h][k + 1..]
        && g == (if k' < |chains[h]| then chains[h][k'] else null)
    {
      ghost var h := Hash(f.addr);
      BucketEntry(h, k);
      g, k' := f.next, k + 1;
      if HasExpired(f.age, now) {
        if f.use == 1 {
          ForgetShortcut(f);
          HashUnlink(f, k);
          k' := k;
        } else {
          Set(f, k, Value(f.mac, f.use - 1, f.age));
        }
      }
    }

    // One bucket of nat25_db_expire; `done` are the addresses already swept, db0 the table before the sweep.
    method ExpireBucket(b: nat, now: nat, ghost db0: Db, ghost done: set<Addr>) returns (ghost done': set<Addr>)
      requires Valid() && b < NAT25_HASH_SIZE && db == SweptOn(db0, done, now)
      requires forall a :: a in done ==> Hash(a) < b
      modifies this, repr, nethash
      ensures Valid() && repr <= old(repr) && db == SweptOn(db0, done', now)
      ensures Kept(old(scdbEntry), old(scdbMac)) && db.Keys <= old(db).Keys
      ensures done <= done' && (forall a :: a in done' ==> Hash(a) <= b)
      ensures forall a :: a in db0 && Hash(a) == b ==> a in done'
    {
      done' := done;
      var f := nethash[b];
      ghost var k: nat := 0;
      forall i | 0 <= i < |chains[b]| ensures Hash(chains[b][i].addr) == b {
        BucketEntry(b, i);
      }
      assert f == if 0 < |chains[b]| then chains[b][0] else null by { assert BucketOk(b); }
      while f != null
        invariant Valid() && repr <= old(repr) && db == SweptOn(db0, done', now)
        invariant Kept(old(scdbEntry), old(scdbMac)) && db.Keys <= old(db).Keys
        invariant k <= |chains[b]| && f == if k < |chains[b]| then chains[b][k] else null
        invariant done <= done' && Halfway(chains[b], k, done', b)
        decreases |chains[b]| - k
      {
        BucketEntry(b, k);
        ghost var chain, i, a := chains[b], k, f.addr;
        assert DistinctAddrs(chain) by { assert BucketOk(b); }
        SweptStep(db0, done', a, now);
        f, k := ExpireEntry(f, k, now);
        HalfwayStep(chain, i, done', b, chains[b], k);
        done' := done' + {a};
      }
      AllDone(db0, db, chains, done', b, now);
    }

    // nat25_db_expire
    method Expire(now: nat)
      requires Valid()
      modifies this, repr, nethash
      ensures Valid() && repr <= old(repr) && db == Swept(old(db), now) && Kept(old(scdbEntry), old(scdbMac))
    {
      ghost var done := {};
      for i := 0 to NAT25_HASH_SIZE
        invariant Valid() && repr <= old(repr) && db == SweptOn(old(db), done, now)
        invariant Kept(old(scdbEntry), old(scdbMac))
        invariant forall a :: a in done ==> Hash(a) < i
        invariant forall a :: a in old(db) && Hash(a) < i ==> a in done
      {
        done := ExpireBucket(i, now, old(db), done);
      }
    }

    // nat25_db_cleanup
    method Cleanup()
      requires Valid()
      modifies this, repr, nethash
      ensures Valid() && db == map[] && repr <= old(repr) && scdbEntry == null && Kept(old(scdbEntry), old(scdbMac))
    {
      for i := 0 to NAT25_HASH_SIZE
        invariant Valid() && repr <= old(repr) && Kept(old(scdbEntry), old(scdbMac))
        invariant forall b :: 0 <= b < i ==> chains[b] == []
      {
        CleanupBucket(i);
      }
    }

    method CleanupBucket(b: nat)
      requires Valid() && b < NAT25_HASH_SIZE
      modifies this, repr, nethash
      ensures Valid() && repr <= old(repr) && chains == old(chains)[b := []]
      ensures Kept(old(scdbEntry), old(scdbMac)) && db.Keys <= old(db).Keys
    {
      var f := nethash[b];
      assert BucketOk(b);
      while f != null
        invariant Valid() && repr <= old(repr) && Kept(old(scdbEntry), old(scdbMac)) && db.Keys <= old(db).Keys
        invariant chains == old(chains)[b := chains[b]]
        invariant f == if chains[b] == [] then null else chains[b][0]
        decreases |chains[b]|
      {
        f := CleanupHead(b, f);
      }
    }

    // The first entry of a bucket goes; returns the next one.
    method CleanupHead(b: nat, f: Entry) returns (g: Entry?)
      requires Valid() && b < NAT25_HASH_SIZE && chains[b] != [] && chains[b][0] == f
      modifies this, repr, nethash
      ensures Valid() && repr <= old(repr) && chains == old(chains)[b := old(chains)[b][1..]]
      ensures Kept(old(scdbEntry), old(scdbMac)) && db.Keys <= old(db).Keys
      ensures g == if chains[b] == [] then null else chains[b][0]
    {
      BucketEntry(b, 0);
      g := f.next;
      ForgetShortcut(f);
      HashUnlink(f, 0);
      assert Without(old(chains)[b], 0) == old(chains)[b][1..];
    }

    // Buckets other than h whose chains and entries were left alone are still in order.
    twostate lemma OtherBuckets(h: nat)
      requires old(Valid()) && |chains| == NAT25_HASH_SIZE
      requires forall b :: 0 <= b < NAT25_HASH_SIZE && b != h ==>
        chains[b] == old(chains)[b] && nethash[b] == old(nethash[b])
      requires forall e :: e in old(repr) && Hash(e.addr) != h ==> e in repr && unchanged(e)
      requires forall a :: a in old(db) && Hash(a) != h ==> a in db && db[a] == old(db)[a]
      ensures forall b :: 0 <= b < NAT25_HASH_SIZE && b != h ==> BucketOk(b)
    {
      forall b | 0 <= b < NAT25_HASH_SIZE && b != h ensures BucketOk(b) {
        assert old(BucketOk(b));
        forall i | 0 <= i < |chains[b]| ensures EntryOk(b, i) {
          assert old(EntryOk(b, i));
        }
      }
    }

    lemma BucketEntry(b: nat, i: nat)
      requires Valid() && b < NAT25_HASH_SIZE && i < |chains[b]|
      ensures EntryOk(b, i)
    {
      assert BucketOk(b);
    }

    // __network_hash_link
    method HashLink(e: Entry)
      requires Valid() && e !in repr && e.addr !in db && e.use >= 1
      modifies this`chains, this`db, this`repr, repr, nethash, e
      ensures Valid() && repr == old(repr) + {e}
      ensures chains == old(chains)[Hash(e.addr) := [e] + old(chains)[Hash(e.addr)]]
      ensures db == old(db)[e.addr := Value(e.mac, e.use, e.age)]
      ensures e.mac == old(e.mac) && e.use == old(e.use) && e.age == old(e.age)
    {
      ghost var h := Hash(e.addr);
      assert BucketOk(h) && (chains[h] != [] ==> EntryOk(h, 0));
      Prepend(e);
      chains := chains[h := [e] + chains[h]];
      db := db[e.addr := Value(e.mac, e.use, e.age)];
      repr := repr + {e};
      PrependedOthers(h);
      PrependedBucket(h);
      LinkComplete(old(chains), old(db), e, Value(e.mac, e.use, e.age));
    }

    // The pointer updates alone.
    method Prepend(e: Entry)
      requires |chains| == NAT25_HASH_SIZE == nethash.Length && e !in repr
      requires var h := Hash(e.addr);
        && nethash[h] == (if chains[h] == [] then null else chains[h][0])
        && (chains[h] != [] ==> EntryOk(h, 0))
      modifies repr, nethash, e
      ensures e.mac == old(e.mac) && e.use == old(e.use) && e.age == old(e.age)
      ensures Prepended(Hash(e.addr)) && nethash[Hash(e.addr)] == e
    {
      var h := Hash(e.addr);
      e.next := nethash[h];
      if e.next != null {
        e.next.pprev := NextField(e);
      }
      nethash[h] := e;
      e.pprev := BucketHead(h);
    }

    // What the pointer updates did: a new head in front of the old one, all else is as it was.
    twostate predicate Prepended(h: nat)
      requires h < |old(chains)| && h < nethash.Length
      reads *
    {
      var e := nethash[h];
      var chain := old(chains)[h];
      && e != null && e.pprev == BucketHead(h) && e.next == old(nethash[h])
      && (forall b :: 0 <= b < nethash.Length && b != h ==> nethash[b] == old(nethash[b]))
      && (forall x :: x in old(repr) && (chain != [] ==> x != chain[0]) ==> unchanged(x))
      && (chain != [] ==> chain[0].pprev == NextField(e) && chain[0].next == old(chain[0].next) && SameValue(chain[0]))
    }

    // The ghost state follows the pointers.
    twostate predicate LinkedState(h: nat)
      requires old(Valid()) && h < NAT25_HASH_SIZE
      reads *
    {
      && Prepended(h)
      && var e := nethash[h];
      && h == Hash(e.addr) && e.addr !in old(db) && e !in old(repr) && e.use >= 1
      && chains == old(chains)[h := [e] + old(chains)[h]]
      && db == old(db)[e.addr := Value(e.mac, e.use, e.age)]
      && repr == old(repr) + {e}
    }

    twostate lemma PrependedOthers(h: nat)
      requires h < NAT25_HASH_SIZE && old(Valid()) && LinkedState(h)
      ensures forall b :: 0 <= b < NAT25_HASH_SIZE && b != h ==> BucketOk(b)
    {
      assert old(BucketOk(h)) && (old(chains)[h] != [] ==> old(EntryOk(h, 0)));
      OtherBuckets(h);
    }

    twostate lemma PrependedEntry(at: Slot)
      requires at.b < NAT25_HASH_SIZE && old(Valid()) && LinkedState(at.b) && at.i < |chains[at.b]|
      ensures EntryOk(at.b, at.i)
    {
      assert old(BucketOk(at.b));
      assert at.i > 0 ==> old(EntryOk(at.b, at.i - 1));
    }

    twostate lemma PrependedBucket(h: nat)
      requires h < NAT25_HASH_SIZE && old(Valid()) && LinkedState(h)
      ensures BucketOk(h)
    {
      assert old(BucketOk(h));
      forall i: nat | i < |chains[h]| ensures EntryOk(h, i) {
        PrependedEntry(Slot(h, i));
      }
      forall i | 1 <= i < |chains[h]| ensures chains[h][i].addr != chains[h][0].addr {
        assert old(EntryOk(h, i - 1));
      }
    }

    // __network_hash_unlink, after which the entry is freed
    method HashUnlink(e: Entry, ghost k: nat)
      requires Valid() && k < |chains[Hash(e.addr)]| && chains[Hash(e.addr)][k] == e && scdbEntry != e
      modifies this`chains, this`db, this`repr, repr, nethash
      ensures Valid() && repr == old(repr) - {e} && e.next == null && e.pprev == NoLink
      ensures chains == old(chains)[Hash(e.addr) := Without(old(chains)[Hash(e.addr)], k)]
      ensures db == old(db) - {e.addr}
    {
      ghost var h := Hash(e.addr);
      BucketNeighbours(h, k);
      Splice(e, k);
      chains := chains[h := Without(chains[h], k)];
      db := db - {e.addr};
      repr := repr - {e};
      UnlinkedOthers(Slot(h, k));
      UnlinkedBucket(Slot(h, k));
      UnlinkComplete(old(chains), old(db), h, k);
      assert scdbEntry != null ==> Listed(chains, scdbEntry) by {
        ListedWithout(old(chains), h, k);
      }
    }

    // The pointer updates alone.
    method Splice(e: Entry, ghost k: nat)
      requires Valid() && k < |chains[Hash(e.addr)]| && chains[Hash(e.addr)][k] == e
      requires Neighbours(Hash(e.addr), k)
      modifies repr, nethash
      ensures Spliced(Slot(Hash(e.addr), k))
    {
      var p, n := e.pprev, e.next;
      match p {
        case BucketHead(b) => nethash[b] := n;
        case NextField(q) => q.next := n;
        case NoLink =>
      }
      if n != null {
        n.pprev := p;
      }
      e.next, e.pprev := null, NoLink;
    }

    // Entry k of bucket h and the entries before and after it, if any.
    ghost predicate Neighbours(h: nat, k: nat)
      requires h < |chains| && k < |chains[h]|
      reads this, repr
    {
      && EntryOk(h, k)
      && (k > 0 ==> EntryOk(h, k - 1) && chains[h][k - 1] != chains[h][k])
      && (k + 1 < |chains[h]| ==> EntryOk(h, k + 1) && chains[h][k + 1] != chains[h][k])
      && (k > 0 && k + 1 < |chains[h]| ==> chains[h][k + 1] != chains[h][k - 1])
    }

    lemma BucketNeighbours(h: nat, k: nat)
      requires Valid() && h < NAT25_HASH_SIZE && k < |chains[h]|
      ensures Neighbours(h, k)
    {
      assert BucketOk(h);
    }

    // What the pointer updates did: the neighbours of entry k point past it, all else is as it was.
    twostate predicate Spliced(at: Slot)
      requires at.b < |old(chains)| && at.b < nethash.Length && at.i < |old(chains)[at.b]|
      reads *
    {
      var Slot(h, k) := at;
      var chain := old(chains)[h];
      && chain[k].next == null && chain[k].pprev == NoLink
      && nethash[h] == (if k == 0 then NextIn(chain, k) else old(nethash[h]))
      && (forall b :: 0 <= b < nethash.Length && b != h ==> nethash[b] == old(nethash[b]))
      && (k > 0 ==>
            && chain[k - 1].next == NextIn(chain, k) && chain[k - 1].pprev == old(chain[k - 1].pprev)
            && SameValue(chain[k - 1]))
      && (k + 1 < |chain| ==>
            && chain[k + 1].pprev == PrevIn(chain, k, h) && chain[k + 1].next == old(chain[k + 1].next)
            && SameValue(chain[k + 1]))
      && (forall e :: e in old(repr) && e !in Around(chain, k) ==> unchanged(e))
    }

    // The ghost state follows the pointers.
    twostate predicate UnlinkedState(at: Slot)
      requires old(Valid()) && at.b < NAT25_HASH_SIZE && at.i < |old(chains)[at.b]|
      reads *
    {
      && Spliced(at)
      && var e := old(chains)[at.b][at.i];
      && chains == old(chains)[at.b := Without(old(chains)[at.b], at.i)]
      && repr == old(repr) - {e} && db == old(db) - {e.addr}
    }

    twostate lemma UnlinkedOthers(at: Slot)
      requires old(Valid()) && at.b < NAT25_HASH_SIZE && at.i < |old(chains)[at.b]| && UnlinkedState(at)
      ensures forall b :: 0 <= b < NAT25_HASH_SIZE && b != at.b ==> BucketOk(b)
    {
      assert old(BucketOk(at.b));
      assert old(Neighbours(at.b, at.i));
      OtherBuckets(at.b);
    }

    twostate lemma UnlinkedBefore(p: (Slot, nat))
      requires var at := p.0;
        && old(Valid()) && at.b < NAT25_HASH_SIZE && at.i < |old(chains)[at.b]| && UnlinkedState(at)
        && p.1 < |chains[at.b]| && p.1 + 1 < at.i
      ensures EntryOk(p.0.b, p.1)
    {
      var (Slot(h, k), i) := p;
      var chain := old(chains)[h];
      assert old(BucketOk(h)) && old(EntryOk(h, i));
      assert chain[i] !in Around(chain, k) && chain[i].addr != chain[k].addr;
      assert unchanged(chain[i]);
    }

    twostate lemma UnlinkedBeside(p: (Slot, nat))
      requires var at := p.0;
        && old(Valid()) && at.b < NAT25_HASH_SIZE && at.i < |old(chains)[at.b]| && UnlinkedState(at)
        && p.1 < |chains[at.b]| && p.1 + 1 == at.i
      ensures EntryOk(p.0.b, p.1)
    {
      var (Slot(h, k), i) := p;
      var chain := old(chains)[h];
      assert old(BucketOk(h)) && old(EntryOk(h, i)) && chain[i].addr != chain[k].addr;
    }

    twostate lemma UnlinkedNext(p: (Slot, nat))
      requires var at := p.0;
        && old(Valid()) && at.b < NAT25_HASH_SIZE && at.i < |old(chains)[at.b]| && UnlinkedState(at)
        && p.1 < |chains[at.b]| && p.1 == at.i
      ensures EntryOk(p.0.b, p.1)
    {
      var (Slot(h, k), i) := p;
      var chain := old(chains)[h];
      assert old(BucketOk(h)) && old(EntryOk(h, i + 1)) && chain[i + 1].addr != chain[k].addr;
    }

    twostate lemma UnlinkedAfter(p: (Slot, nat))
      requires var at := p.0;
        && old(Valid()) && at.b < NAT25_HASH_SIZE && at.i < |old(chains)[at.b]| && UnlinkedState(at)
        && p.1 < |chains[at.b]| && at.i < p.1
      ensures EntryOk(p.0.b, p.1)
    {
      var (Slot(h, k), i) := p;
      var chain := old(chains)[h];
      assert old(BucketOk(h)) && old(EntryOk(h, i + 1));
      assert chain[i + 1] !in Around(chain, k) && chain[i + 1].addr != chain[k].addr;
      assert unchanged(chain[i + 1]);
    }

    twostate lemma UnlinkedEntry(p: (Slot, nat))
      requires var at := p.0;
        && old(Valid()) && at.b < NAT25_HASH_SIZE && at.i < |old(chains)[at.b]| && UnlinkedState(at)
        && p.1 < |chains[at.b]|
      ensures EntryOk(p.0.b, p.1)
    {
      if p.1 + 1 < p.0.i { UnlinkedBefore(p); }
      else if p.1 + 1 == p.0.i { UnlinkedBeside(p); }
      else if p.1 == p.0.i { UnlinkedNext(p); }
      else { UnlinkedAfter(p); }
    }

    twostate lemma UnlinkedBucket(at: Slot)
      requires old(Valid()) && at.b < NAT25_HASH_SIZE && at.i < |old(chains)[at.b]| && UnlinkedState(at)
      ensures BucketOk(at.b)
    {
      assert old(BucketOk(at.b));
      forall i: nat | i < |chains[at.b]| ensures EntryOk(at.b, i) {
        UnlinkedEntry((at, i));
      }
    }
  }

  lemma UnlinkComplete(chains: seq<seq<Entry>>, db: Db, h: nat, k: nat)
    requires h < |chains| == NAT25_HASH_SIZE && Complete(chains, db) && k < |chains[h]|
    ensures Complete(chains[h := Without(chains[h], k)], db - {chains[h][k].addr})
  {
    var fewer: seq<seq<Entry>> := chains[h := Without(chains[h], k)];
    forall a | a in db - {chains[h][k].addr}
      ensures exists i :: 0 <= i < |fewer[Hash(a)]| && fewer[Hash(a)][i].addr == a
    {
      var i :| 0 <= i < |chains[Hash(a)]| && chains[Hash(a)][i].addr == a;
      if Hash(a) == h {
        var j := if i < k then i else i - 1;
        assert fewer[h][j].addr == a;
      }
    }
  }

  lemma ListedWithout(chains: seq<seq<Entry>>, h: nat, k: nat)
    requires h < |chains| == NAT25_HASH_SIZE && k < |chains[h]|
    ensures forall e :: e != chains[h][k] && Listed(chains, e) ==> Listed(chains[h := Without(chains[h], k)], e)
  {
  }

  ghost function Without<T>(s: seq<T>, k: nat): (r: seq<T>)
    requires k < |s|
    ensures |r| == |s| - 1
    ensures forall i :: 0 <= i < |r| ==> r[i] == if i < k then s[i] else s[i + 1]
  {
    s[..k] + s[k + 1..]
  }

  twostate predicate SameValue(e: Entry)
    reads e
  {
    e.use == old(e.use) && e.mac == old(e.mac) && e.age == old(e.age)
  }

  // ----- ageing over any sequence of operations

  datatype Op =
    | InsertOp(a: Addr, mac: Mac, now: nat)
    | LookupOp(a: Addr, now: nat)
    | RefreshOp(a: Addr, now: nat)
    | IdleOp(now: nat)
    | ExpireOp(now: nat)
    | CleanupOp(now: nat)

  function Apply(db: Db, op: Op): Db {
    match op
    case InsertOp(a, mac, now) => Inserted(db, a, mac, now)
    case LookupOp(a, now) => LookedUp(db, a, now)
    case RefreshOp(a, now) => Refreshed(db, a, now)
    case IdleOp(_) => db
    case ExpireOp(now) => Swept(db, now)
    case CleanupOp(_) => map[]
  }

  function ApplyAll(db: Db, ops: seq<Op>): Db
    decreases ops
  {
    if ops == [] then db else ApplyAll(Apply(db, ops[0]), ops[1..])
  }

  function Sweeps(ops: seq<Op>): nat {
    if ops == [] then 0 else (if ops[0].ExpireOp? then 1 else 0) + Sweeps(ops[1..])
  }

  predicate Cleaned(ops: seq<Op>) {
    exists i :: 0 <= i < |ops| && ops[i].CleanupOp?
  }

  predicate NotInserted(ops: seq<Op>, a: Addr) {
    forall i :: 0 <= i < |ops| ==> !(ops[i].InsertOp? && ops[i].a == a)
  }

  predicate NotRefreshed(ops: seq<Op>, a: Addr) {
    forall i :: 0 <= i < |ops| ==> !((ops[i].InsertOp? || ops[i].RefreshOp?) && ops[i].a == a)
  }

  /** An address that is gone comes back only by an insertion. */
  lemma {:induction false} GoneStaysGone(db: Db, ops: seq<Op>, a: Addr)
    requires a !in db && NotInserted(ops, a)
    ensures a !in ApplyAll(db, ops)
    decreases ops
  {
    if ops != [] { GoneStaysGone(Apply(db, ops[0]), ops[1..], a); }
  }

  lemma CleanedSplit(ops: seq<Op>)
    requires ops != []
    ensures Cleaned(ops) <==> ops[0].CleanupOp? || Cleaned(ops[1..])
  {
    if i :| 0 < i < |ops| && ops[i].CleanupOp? { assert ops[1..][i - 1].CleanupOp?; }
  }

  // All operations come when the ageing time has passed since the entry's age, or all before.
  ghost predicate AllAged(ops: seq<Op>, age: nat) {
    forall i :: 0 <= i < |ops| ==> NAT25_AGEING_TIME * HZ <= Ticks(age, ops[i].now) < JIFFIES_MOD / 2
  }

  ghost predicate AllYoung(ops: seq<Op>, age: nat) {
    forall i :: 0 <= i < |ops| ==> Ticks(age, ops[i].now) < NAT25_AGEING_TIME * HZ
  }

  function Lookups(ops: seq<Op>, a: Addr): nat {
    if ops == [] then 0 else (if ops[0].LookupOp? && ops[0].a == a then 1 else 0) + Lookups(ops[1..], a)
  }

  /** An entry that has not been refreshed for 300 seconds, and is not, disappears with a cleanup, or exactly at
      the sweep that takes its use count to zero: lookups do not keep it, and operations on other addresses do not
      matter. */
  lemma {:induction false} AgedEntryGoes(db: Db, ops: seq<Op>, a: Addr)
    requires a in db && db[a].use >= 1 && NotRefreshed(ops, a) && AllAged(ops, db[a].age)
    ensures a in ApplyAll(db, ops) <==> !Cleaned(ops) && Sweeps(ops) < db[a].use
    ensures a in ApplyAll(db, ops) ==> ApplyAll(db, ops)[a] == db[a].(use := db[a].use - Sweeps(ops))
    decreases ops
  {
    if ops != [] {
      var next := Apply(db, ops[0]);
      CleanedSplit(ops);
      ExpiredIs(db[a].age, ops[0].now);
      if a in next { AgedEntryGoes(next, ops[1..], a); } else { GoneStaysGone(next, ops[1..], a); }
    }
  }

  /** An entry that was refreshed within the last 300 seconds goes only with a cleanup, whatever sweeps there are, and
      every lookup of it is one more use. */
  lemma {:induction false} YoungEntryStays(db: Db, ops: seq<Op>, a: Addr)
    requires a in db && NotRefreshed(ops, a) && AllYoung(ops, db[a].age)
    ensures a in ApplyAll(db, ops) <==> !Cleaned(ops)
    ensures a in ApplyAll(db, ops) ==> ApplyAll(db, ops)[a] == db[a].(use := db[a].use + Lookups(ops, a))
    decreases ops
  {
    if ops != [] {
      CleanedSplit(ops);
      ExpiredIs(db[a].age, ops[0].now);
      if ops[0].CleanupOp? { GoneStaysGone(map[], ops[1..], a); }
      else { YoungEntryStays(Apply(db, ops[0]), ops[1..], a); }
    }
  }

  // Without an insertion an entry keeps its MAC; without a refresh it keeps its age, too.
  lemma {:induction false} EntryKept(db: Db, ops: seq<Op>, a: Addr)
    requires NotInserted(ops, a) && a in ApplyAll(db, ops)
    ensures a in db && ApplyAll(db, ops)[a].mac == db[a].mac
    ensures NotRefreshed(ops, a) ==> ApplyAll(db, ops)[a].age == db[a].age
    decreases ops
  {
    if ops != [] {
      EntryKept(Apply(db, ops[0]), ops[1..], a);
    }
  }

  /** The MAC of an entry is that of the last insertion of its address, and its age is the time of the last insertion
      or refresh. */
  lemma {:induction false} EntryIsLast(db: Db, ops: seq<Op>, a: Addr, i: nat)
    requires i < |ops| && a in ApplyAll(db, ops) && NotInserted(ops[i + 1..], a)
    ensures ops[i].InsertOp? && ops[i].a == a ==> ApplyAll(db, ops)[a].mac == ops[i].mac
    ensures (ops[i].InsertOp? || ops[i].RefreshOp?) && ops[i].a == a && NotRefreshed(ops[i + 1..], a) ==>
      ApplyAll(db, ops)[a].age == ops[i].now
    decreases ops
  {
    var next := Apply(db, ops[0]);
    if i > 0 {
      assert ops[1..][i..] == ops[i + 1..];
      EntryIsLast(next, ops[1..], a, i - 1);
    } else {
      EntryKept(next, ops[1..], a);
    }
  }

  lemma {:induction false} ApplyAppend(db: Db, ops: seq<Op>, op: Op)
    ensures ApplyAll(db, ops + [op]) == Apply(ApplyAll(db, ops), op)
    decreases ops
  {
    if ops != [] {
      ApplyAppend(Apply(db, ops[0]), ops[1..], op);
      assert (ops + [op])[1..] == ops[1..] + [op];
    }
  }

  // ----- runs

  // The table as a map, and the shortcut: its MAC and the address of its entry.
  datatype Bridge = Bridge(db: Db, scMac: Mac, shortcut: Option<Addr>)

  datatype Event =
    | Inserts(a: Addr, mac: Mac)
    | LooksUp(a: Addr)
    | Transmits(mac: Mac, ip: seq<Octet>)
    | Expires
    | CleansUp

  // Which entry a transmission refreshes, if any.
  function RefreshedBy(b: Bridge, mac: Mac, source: Addr): Option<Addr> {
    if b.scMac != mac then Some(source) else b.shortcut
  }

  function Transmitted(b: Bridge, mac: Mac, source: Addr, now: nat): Bridge {
    var a := RefreshedBy(b, mac, source);
    var db := if a.Some? then Refreshed(b.db, a.value, now) else b.db;
    if b.scMac != mac then (if source in b.db then Bridge(db, mac, Some(source)) else Bridge(db, b.scMac, None))
    else if b.shortcut.Some? then b.(db := db)
    else b.(scMac := NO_MAC)
  }

  // The shortcut is forgotten with its entry.
  function Shrunk(b: Bridge, db: Db): Bridge {
    if b.shortcut.Some? && b.shortcut.value !in db then Bridge(db, NO_MAC, None) else b.(db := db)
  }

  function BridgeStep(b: Bridge, e: Event, now: nat): Bridge {
    match e
    case Inserts(a, mac) => b.(db := Inserted(b.db, a, mac, now))
    case LooksUp(a) => b.(db := LookedUp(b.db, a, now))
    case Transmits(mac, ip) => if |ip| == 4 then Transmitted(b, mac, Generate(IPv4(ip)), now) else b
    case Expires => Shrunk(b, Swept(b.db, now))
    case CleansUp => Shrunk(b, map[])
  }

  function BridgeAfter(b: Bridge, events: seq<(nat, Event)>): Bridge {
    if events == [] then b
    else
      var (now, e) := events[|events| - 1];
      BridgeStep(BridgeAfter(b, events[..|events| - 1]), e, now)
  }

  // The map operation that an event amounts to.
  function OpOf(b: Bridge, e: Event, now: nat): Op {
    match e
    case Inserts(a, mac) => InsertOp(a, mac, now)
    case LooksUp(a) => LookupOp(a, now)
    case Transmits(mac, ip) =>
      if |ip| != 4 || RefreshedBy(b, mac, Generate(IPv4(ip))).None? then IdleOp(now)
      else RefreshOp(RefreshedBy(b, mac, Generate(IPv4(ip))).value, now)
    case Expires => ExpireOp(now)
    case CleansUp => CleanupOp(now)
  }

  function OpsOf(b: Bridge, events: seq<(nat, Event)>): (ops: seq<Op>)
    ensures |ops| == |events|
  {
    if events == [] then []
    else
      var front := events[..|events| - 1];
      var (now, e) := events[|events| - 1];
      OpsOf(b, front) + [OpOf(BridgeAfter(b, front), e, now)]
  }

  /** The table after a run of events is the table after the map operations that they amount to, so that what
      becomes of aged and young entries over operations holds over events. */
  lemma {:induction false} OpsAre(b: Bridge, events: seq<(nat, Event)>)
    ensures BridgeAfter(b, events).db == ApplyAll(b.db, OpsOf(b, events))
  {
    if events != [] {
      var front := events[..|events| - 1];
      var (now, e) := events[|events| - 1];
      OpsAre(b, front);
      ApplyAppend(b.db, OpsOf(b, front), OpOf(BridgeAfter(b, front), e, now));
    }
  }

  /** A transmission changes the age of one entry at most: of the source address if the frame's MAC is not that of
      the shortcut, and otherwise of the address that the shortcut refers to, whatever the source address is. */
  lemma TransmissionRefreshes(b: Bridge, mac: Mac, ip: seq<Octet>, now: nat)
    requires |ip| == 4
    ensures var t := BridgeStep(b, Transmits(mac, ip), now);
      && t.db.Keys == b.db.Keys
      && (forall a :: a in b.db ==>
            var hit := if mac != b.scMac then a == Generate(IPv4(ip)) else b.shortcut == Some(a);
            t.db[a] == if hit then b.db[a].(age := now) else b.db[a])
  {
  }

  // The shortcut refers to x: some frame from x was transmitted with the MAC of the shortcut.
  ghost predicate Sent(events: seq<(nat, Event)>, mac: Mac, x: Addr) {
    exists i :: 0 <= i < |events| && SentAt(events[i].1, mac, x)
  }

  predicate SentAt(e: Event, mac: Mac, x: Addr) {
    e.Transmits? && e.mac == mac && |e.ip| == 4 && Generate(IPv4(e.ip)) == x
  }

  /** In every run from an empty table, the shortcut refers to an entry of the table, and to one whose address was the
      source of a frame with the MAC of the shortcut. */
  lemma {:induction false} ShortcutIs(events: seq<(nat, Event)>)
    ensures var b := BridgeAfter(Bridge(map[], [], None), events);
      b.shortcut.Some? ==> b.shortcut.value in b.db && Sent(events, b.scMac, b.shortcut.value)
  {
    if events != [] {
      var n := |events| - 1;
      ShortcutIs(events[..n]);
      ShortcutStep(events[..n], events[n]);
      assert events[..n] + [events[n]] == events;
    }
  }

  lemma ShortcutStep(front: seq<(nat, Event)>, last: (nat, Event))
    requires var b := BridgeAfter(Bridge(map[], [], None), front);
      b.shortcut.Some? ==> b.shortcut.value in b.db && Sent(front, b.scMac, b.shortcut.value)
    ensures var b := BridgeStep(BridgeAfter(Bridge(map[], [], None), front), last.1, last.0);
      b.shortcut.Some? ==> b.shortcut.value in b.db && Sent(front + [last], b.scMac, b.shortcut.value)
  {
    var b := BridgeAfter(Bridge(map[], [], None), front);
    var t := BridgeStep(b, last.1, last.0);
    var all := front + [last];
    assert all[|front|] == last;
    if b.shortcut.Some? && t.shortcut == b.shortcut && t.scMac == b.scMac {
      var i :| 0 <= i < |front| && SentAt(front[i].1, b.scMac, b.shortcut.value);
      assert all[i] == front[i];
    }
  }

  /** Every run on the linked table is the run on the map and the shortcut. */
  method Run(t: NatDb, events: seq<(nat, Event)>)
    requires t.Valid()
    modifies t, t.repr, t.nethash
    ensures t.Valid() && t.View() == BridgeAfter(old(t.View()), events)
    ensures t.scdbEntry != null ==> t.scdbEntry.addr in t.db
  {
    assert events[..0] == [];
    for i := 0 to |events|
      invariant t.Valid() && fresh(t.repr - old(t.repr)) && t.View() == BridgeAfter(old(t.View()), events[..i])
    {
      assert events[..i + 1][..i] == events[..i];
      Perform(t, events[i].1, events[i].0);
    }
    assert events[..|events|] == events;
    if t.scdbEntry != null { t.InDb(t.scdbEntry); }
  }

  method Perform(t: NatDb, e: Event, now: nat)
    requires t.Valid()
    modifies t, t.repr, t.nethash
    ensures t.Valid() && fresh(t.repr - old(t.repr)) && t.View() == BridgeStep(old(t.View()), e, now)
  {
    match e {
      case Inserts(a, mac) => t.Insert(a, mac, now);
      case LooksUp(a) => var _, _ := t.LookupAndReplace(a, now);
      case Transmits(mac, ip) =>
        if |ip| == 4 {
          var _ := t.ClientTx(mac, ip, now);
        }
      case Expires =>
        t.Expire(now);
        if t.scdbEntry != null { t.InDb(t.scdbEntry); }
      case CleansUp => t.Cleanup();
    }
  }

  // ----- network addresses

  datatype NetAddr =
    | IPv4(ip: seq<Octet>)
    | IPv6(ip6: seq<Octet>)
    | IpxNode(net: seq<Octet>, node: seq<Octet>)
    | IpxSocket(net: seq<Octet>, socket: seq<Octet>)
    | Apple(network: seq<Octet>, anode: seq<Octet>)
    | PPPoE(sid: seq<Octet>, acMac: seq<Octet>)

  predicate WellSized(x: NetAddr) {
    match x
    case IPv4(ip) => |ip| == 4
    case IPv6(ip) => |ip| == 16
    case IpxNode(net, node) => |net| == 4 && |node| == 6
    case IpxSocket(net, socket) => |net| == 4 && |socket| == 2
    case Apple(network, node) => |network| == 2 && |node| == 1
    case PPPoE(sid, mac) => |sid| == 2 && |mac| == 6
  }

  function ZeroOctets(n: nat): (z: seq<Octet>)
    ensures |z| == n
  {
    seq(n, i => 0)
  }

  // The __nat25_generate_*_network_addr builders.
  function Generate(x: NetAddr): (a: Addr)
    requires WellSized(x)
  {
    match x
    case IPv4(ip) => [1] + ZeroOctets(6) + ip + ZeroOctets(6)
    case IPv6(ip) => [2] + ip
    case IpxNode(net, node) => [3] + net + node + ZeroOctets(6)
    case IpxSocket(net, socket) => [3] + net + socket + ZeroOctets(10)
    case Apple(network, node) => [4] + network + node + ZeroOctets(13)
    case PPPoE(sid, mac) => [5] + sid + mac + ZeroOctets(8)
  }

  // An IPX socket address and an IPX node address that the database cannot tell apart.
  predicate SameIpx(x: NetAddr, y: NetAddr) {
    x.IpxNode? && y.IpxSocket? && x.net == y.net && x.node == y.socket + ZeroOctets(4)
  }

  lemma Fields(x: NetAddr)
    requires WellSized(x)
    ensures var a := Generate(x);
      match x
      case IPv4(ip) => a[0] == 1 && a[7..11] == ip
      case IPv6(ip) => a[0] == 2 && a[1..17] == ip
      case IpxNode(net, node) => a[0] == 3 && a[1..5] == net && a[5..11] == node && a[11..] == ZeroOctets(6)
      case IpxSocket(net, socket) =>
        a[0] == 3 && a[1..5] == net && a[5..11] == socket + ZeroOctets(4) && a[5..7] == socket
      case Apple(network, node) => a[0] == 4 && a[1..3] == network && a[3..4] == node
      case PPPoE(sid, mac) => a[0] == 5 && a[1..3] == sid && a[3..9] == mac
  {
  }

  /** Two network addresses get the same database address only if they are equal, except that an IPX socket
      address coincides with the node address that starts with the socket and ends in zeros. */
  lemma GenerateCollides(x: NetAddr, y: NetAddr)
    requires WellSized(x) && WellSized(y)
    ensures Generate(x) == Generate(y) <==> x == y || SameIpx(x, y) || SameIpx(y, x)
  {
    Fields(x);
    Fields(y);
    if SameIpx(x, y) || SameIpx(y, x) {
      assert ZeroOctets(10) == ZeroOctets(4) + ZeroOctets(6);
      assert Generate(x) == Generate(y);
    }
  }
}
