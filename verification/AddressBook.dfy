/** Allocation of deposit addresses and the cache of the known ones, across
    restarts of the process and with intents created while the cache loads. What
    the book does is what the protocol's events say: `world` is the state it shows. */
module AddressBook {
  import opened Environment
  import opened Rows
  import opened Protocol

  function AddressSet(rows: seq<FairAddress>): set<FairAddress> {
    set k | 0 <= k < |rows| :: rows[k]
  }

  /** One row more, one address more. */
  lemma RowAdds(ds: seq<Deposit>, d: Deposit)
    ensures RowAddresses(ds + [d]) == RowAddresses(ds) + {d.fairAddress}
  {
    var all := ds + [d];
    forall a ensures a in RowAddresses(all) <==> a in RowAddresses(ds) || a == d.fairAddress {
      if a in RowAddresses(ds) {
        var i :| 0 <= i < |ds| && ds[i].fairAddress == a;
        assert all[i].fairAddress == a;
      }
      assert all[|ds|].fairAddress == d.fairAddress;
    }
  }

  lemma AddressAdds(rows: seq<FairAddress>, a: FairAddress)
    ensures AddressSet(rows + [a]) == AddressSet(rows) + {a}
  {
    var all := rows + [a];
    forall b ensures b in AddressSet(all) <==> b in AddressSet(rows) || b == a {
      if b in AddressSet(rows) {
        var i :| 0 <= i < |rows| && rows[i] == b;
        assert all[i] == b;
      }
      assert all[|rows|] == a;
    }
  }

  class AddressBook {
    // persisted
    var nextIndex: nat
    var rows: seq<FairAddress>
    // memory of the process
    var addressCache: set<FairAddress>
    var addressCacheLoaded: bool
    var pending: set<nat>
    // every index ever handed out, in order
    ghost var issued: seq<nat>
    // the rows the running process wrote itself
    ghost var own: nat
    // the state of the protocol the book shows
    ghost var world: State

    /** No index is handed out twice; every row has an address that was handed
        out; what the process allocated is in its cache, and once the cache is
        loaded, so is everything else. */
    ghost predicate Valid()
      reads this
    {
      && (forall i :: 0 <= i < |issued| ==> issued[i] < nextIndex)
      && (forall i, j :: 0 <= i < j < |issued| ==> issued[i] != issued[j])
      && (forall i :: i in pending ==> i in issued && Derived(i) in addressCache)
      && (forall k :: 0 <= k < |rows| ==> rows[k].Derived? && rows[k].index in issued)
      && own <= |rows|
      && (forall k :: own <= k < |rows| ==> rows[k] in addressCache)
      && (addressCacheLoaded ==> forall k :: 0 <= k < |rows| ==> rows[k] in addressCache)
      && Shows()
    }

    /** The protocol takes the cache as loaded from the start: it knows what the
        process has cached and what it has yet to load. */
    ghost predicate Shows()
      reads this
    {
      && world.nextIndex == nextIndex && world.pendingIntents == pending
      && RowAddresses(world.deposits) == AddressSet(rows)
      && world.addressCache == addressCache + AddressSet(rows)
    }

    constructor (ghost s: State)
      requires s.nextIndex == 0 && s.pendingIntents == {} && s.deposits == [] && s.addressCache == {}
      ensures Valid() && rows == [] && issued == [] && world == s
    {
      nextIndex, rows, addressCache, addressCacheLoaded, pending, issued, own := 0, [], {}, false, {}, [], 0;
      world := s;
    }

    lemma ReloadShown(cfg: Config, s: State)
      requires Valid() && s == FairStep(cfg, world, Reload)
      ensures s.nextIndex == nextIndex && s.pendingIntents == {} && s.deposits == world.deposits
      ensures s.addressCache == AddressSet(rows)
    {
    }

    /** The memory is gone, the database stays. */
    method Restart(ghost cfg: Config)
      requires Valid()
      modifies this
      ensures Valid() && nextIndex == old(nextIndex) && rows == old(rows) && issued == old(issued)
        && !addressCacheLoaded
      ensures world == FairStep(cfg, old(world), Reload)
    {
      ghost var s := FairStep(cfg, world, Reload);
      ReloadShown(cfg, s);
      addressCache, addressCacheLoaded, pending, own := {}, false, {}, |rows|;
      world := s;
    }

    /** `getNextIndex`, then the cache. */
    method Issue() returns (index: nat)
      requires Valid()
      modifies this
      ensures Valid() && nextIndex == old(nextIndex) + 1 && rows == old(rows)
      ensures index == old(nextIndex) && index !in old(issued)
      ensures index in pending && Derived(index) in addressCache && old(addressCache) <= addressCache
      ensures addressCacheLoaded == old(addressCacheLoaded) && own == old(own) && old(pending) <= pending
      ensures world == OutsideStep(old(world), OutsideEvent.Allocate)
    {
      index := nextIndex;
      nextIndex := nextIndex + 1;
      issued := issued + [index];
      addressCache := addressCache + {Derived(index)};
      pending := pending + {index};
      world := OutsideStep(world, OutsideEvent.Allocate);
    }

    /** `allocateNextDepositAddress`: the process may die between the increment and
        the cache; the index is then never used. */
    method Allocate(env: Env, ghost cfg: Config) returns (index: nat, died: bool)
      requires Valid()
      modifies this, env
      ensures Valid() && nextIndex == old(nextIndex) + 1 && rows == old(rows)
      ensures index == old(nextIndex) && index !in old(issued)
      ensures !died ==> index in pending && Derived(index) in addressCache && old(addressCache) <= addressCache
      ensures !died ==> addressCacheLoaded == old(addressCacheLoaded) && own == old(own) && old(pending) <= pending
      ensures died ==> !addressCacheLoaded
      ensures var s := OutsideStep(old(world), OutsideEvent.Allocate);
        world == if died then FairStep(cfg, s, Reload) else s
      ensures env.setbacks == old(env.setbacks) + (if died then 1 else 0)
    {
      index := Issue();
      died := env.Dies();
      if died { Restart(cfg); }
    }

    /** One row more: created now, awaiting a payment to the address. */
    predicate AddedIntent(s: State, s': State, index: nat, baseAddress: string) {
      && |s'.deposits| == |s.deposits| + 1 && s.deposits <= s'.deposits
      && var d := s'.deposits[|s.deposits|];
         && d.fairAddress == Derived(index) && d.baseAddress == baseAddress && d.createdAt == s.now
         && d.status == Awaiting && d.outpoint.None? && d.amountSats == 0 && d.amountWei == 0 && d.mintTx.None?
    }

    /** The book after the row of an intent shows the state after that event. */
    lemma IntentShown(index: nat, baseAddress: string, s: State)
      requires Valid() && index in pending && s == OutsideStep(world, OutsideEvent.CreateIntent(index, baseAddress))
      ensures s.nextIndex == nextIndex && s.pendingIntents == pending - {index}
      ensures RowAddresses(s.deposits) == AddressSet(rows + [Derived(index)])
      ensures s.addressCache == addressCache + AddressSet(rows + [Derived(index)])
      ensures AddedIntent(world, s, index, baseAddress)
    {
      RowAdds(world.deposits, IntentRow(index, baseAddress, world.now));
      AddressAdds(rows, Derived(index));
    }

    /** The row of an intent. */
    method CreateIntent(index: nat, ghost baseAddress: string)
      requires Valid() && index in pending
      modifies this`rows, this`pending, this`world
      ensures Valid() && rows == old(rows) + [Derived(index)] && pending == old(pending) - {index}
      ensures world == OutsideStep(old(world), OutsideEvent.CreateIntent(index, baseAddress))
      ensures AddedIntent(old(world), world, index, baseAddress)
    {
      ghost var s := OutsideStep(world, OutsideEvent.CreateIntent(index, baseAddress));
      IntentShown(index, baseAddress, s);
      rows := rows + [Derived(index)];
      pending := pending - {index};
      world := s;
    }

    /** One intent request of the running process, up to its row or not. */
    method Request(ghost baseAddress: string)
      requires Valid()
      modifies this
      ensures Valid() && old(rows) <= rows && old(addressCache) <= addressCache
      ensures addressCacheLoaded == old(addressCacheLoaded) && own == old(own)
    {
      var index := Issue();
      var served := Dies();
      if served { CreateIntent(index, baseAddress); }
    }

    /** Intents handled between two reads of the cursor. */
    method OtherRequests()
      requires Valid()
      modifies this
      ensures Valid() && old(rows) <= rows && old(addressCache) <= addressCache
      ensures addressCacheLoaded == old(addressCacheLoaded) && own == old(own)
    {
      var n := AnyCount();
      while n > 0
        invariant Valid() && old(rows) <= rows && old(addressCache) <= addressCache
        invariant addressCacheLoaded == old(addressCacheLoaded) && own == old(own)
      {
        Request("0x");
        n := n - 1;
      }
    }

    /** One row of the cursor, and the requests handled meanwhile. */
    method LoadRow(k: nat)
      requires Valid() && k < |rows|
      modifies this
      ensures Valid() && old(rows) <= rows && old(addressCache) <= addressCache && rows[k] in addressCache
      ensures addressCacheLoaded == old(addressCacheLoaded) && own == old(own)
    {
      OtherRequests();
      assert rows[k] in AddressSet(rows);
      addressCache := addressCache + {rows[k]};
    }

    method LoadRows()
      requires Valid()
      modifies this
      ensures Valid() && addressCacheLoaded && old(rows) <= rows
    {
      var n := |rows|;
      var k := 0;
      while k < n
        invariant 0 <= k <= n <= |rows| && old(rows) <= rows && Valid() && own <= n
        invariant forall i :: 0 <= i < k ==> rows[i] in addressCache
      {
        LoadRow(k);
        k := k + 1;
      }
      addressCacheLoaded := true;
    }

    /** `getKnownDepositAddressSet`: the cursor need only reach the rows that were
        there when it was opened, since the process itself cached the others. The
        set it returns is the one the protocol's scanner knows. */
    method GetKnownDepositAddressSet() returns (known: set<FairAddress>)
      requires Valid()
      modifies this
      ensures Valid() && addressCacheLoaded && known == addressCache && old(rows) <= rows
      ensures forall k :: 0 <= k < |rows| ==> rows[k] in known
      ensures known == world.addressCache
    {
      if !addressCacheLoaded { LoadRows(); }
      known := addressCache;
      LoadedIsWhole();
    }

    lemma LoadedIsWhole()
      requires Valid() && addressCacheLoaded
      ensures world.addressCache == addressCache
    {
    }
  }
}
