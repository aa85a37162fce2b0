/** Per-address transaction nonce allocation
    (src/core/wallet/evm/NonceManager.ts).

    The process-wide singleton is an explicit object here. Its only
    suspension point is the RPC read of the pending transaction count, so
    everything after that read runs atomically: `GetNonce` takes the value
    the RPC returned (`observed`) and the clock (`now`, milliseconds) as
    inputs and performs the rest in one step. */
module NonceManagers {
  import opened Common

  /** Refresh the cached network nonce at least this often (3 minutes). */
  const NONCE_FORCE_UPDATE_INTERVAL_MS: int := 3 * 60 * 1000
  /** An offline prediction is trusted for this long after the network
      entry it was derived from (60 seconds). */
  const NONCE_VALID_PERIOD_MS: int := 60 * 1000

  datatype NonceEntry = NonceEntry(lastUpdated: int, nonce: int)

  /** Both caches, keyed by address. */
  datatype NonceTables = NonceTables(network: map<string, NonceEntry>, offline: map<string, NonceEntry>)

  /** The cached network entry must be rewritten: it is absent, its value
      differs from what the chain reports, or it is 3 minutes old. */
  predicate NeedsRefresh(network: map<string, NonceEntry>, address: string, observed: int, now: int)
  {
    address !in network ||
    network[address].nonce != observed ||
    now - network[address].lastUpdated >= NONCE_FORCE_UPDATE_INTERVAL_MS
  }

  /** The refresh step: afterwards the network entry holds the observed
      nonce; it is replaced only when `NeedsRefresh`, and other addresses
      are untouched. */
  function RefreshNetwork(network: map<string, NonceEntry>, address: string, observed: int, now: int): (r: map<string, NonceEntry>)
    ensures address in r && r[address].nonce == observed
    ensures NeedsRefresh(network, address, observed, now) ==> r[address] == NonceEntry(now, observed)
    ensures !NeedsRefresh(network, address, observed, now) ==> r == network
    ensures forall a :: a != address ==> (a in r <==> a in network)
    ensures forall a :: a != address && a in network ==> r[a] == network[a]
  {
    if NeedsRefresh(network, address, observed, now) then network[address := NonceEntry(now, observed)]
    else network
  }

  /** The offline prediction is used when it is ahead of the network
      entry and less than 60 seconds newer than it. */
  predicate UseOffline(net: NonceEntry, offline: Option<NonceEntry>)
  {
    offline.Some? &&
    offline.value.nonce > net.nonce &&
    offline.value.lastUpdated - net.lastUpdated < NONCE_VALID_PERIOD_MS
  }

  /** One call of `getNonceAsync` after the RPC read: the new tables and
      the nonce handed out. */
  function Step(t: NonceTables, address: string, observed: int, now: int): (r: (NonceTables, int))
    ensures r.0.network == RefreshNetwork(t.network, address, observed, now)
    ensures r.1 >= observed
    ensures r.1 == (if UseOffline(r.0.network[address], if address in t.offline then Some(t.offline[address]) else None)
                    then t.offline[address].nonce else observed)
    ensures r.0.offline == t.offline[address := NonceEntry(now, r.1 + 1)]
  {
    var network := RefreshNetwork(t.network, address, observed, now);
    var cached := network[address];
    var offlineEntry := if address in t.offline then Some(t.offline[address]) else None;
    var current := if UseOffline(cached, offlineEntry) then offlineEntry.value.nonce else observed;
    (NonceTables(network, t.offline[address := NonceEntry(now, current + 1)]), current)
  }

  /** A chain nonce lower than the cached one ("regression") is not an
      error: the cache follows the chain. */
  lemma RegressionFollowsChain(t: NonceTables, address: string, observed: int, now: int)
    requires address in t.network && t.network[address].nonce > observed
    ensures Step(t, address, observed, now).0.network[address] == NonceEntry(now, observed)
  {
  }

  /** An offline prediction that lags the network entry by 60 seconds or
      more is ignored: the chain's value is handed out. */
  lemma StaleOfflineIgnored(t: NonceTables, address: string, observed: int, now: int)
    requires address in t.offline
    requires t.offline[address].lastUpdated - RefreshNetwork(t.network, address, observed, now)[address].lastUpdated >= NONCE_VALID_PERIOD_MS
    ensures Step(t, address, observed, now).1 == observed
  {
  }

  /** A call for one address changes no other address's entries. */
  lemma OtherAddressesUntouched(t: NonceTables, address: string, other: string, observed: int, now: int)
    requires other != address
    ensures var t' := Step(t, address, observed, now).0;
      (other in t'.network <==> other in t.network) &&
      (other in t.network ==> t'.network[other] == t.network[other]) &&
      (other in t'.offline <==> other in t.offline) &&
      (other in t.offline ==> t'.offline[other] == t.offline[other])
  {
  }

  /** Sequences for different addresses are independent: a call for
      `other` in between does not change what a call for `address` returns
      or stores. */
  lemma {:induction false} IndependentAddresses(t: NonceTables, address: string, other: string,
                                               observed: int, now: int, otherObserved: int, otherNow: int)
    requires other != address
    ensures var t' := Step(t, other, otherObserved, otherNow).0;
      Step(t', address, observed, now).1 == Step(t, address, observed, now).1 &&
      Step(t', address, observed, now).0.network[address] == Step(t, address, observed, now).0.network[address]
  {
    var t' := Step(t, other, otherObserved, otherNow).0;
    OtherAddressesUntouched(t, other, address, otherObserved, otherNow);
    assert (address in t'.network) == (address in t.network);
    assert address in t.network ==> t'.network[address] == t.network[address];
    assert NeedsRefresh(t'.network, address, observed, now) == NeedsRefresh(t.network, address, observed, now);
    assert RefreshNetwork(t'.network, address, observed, now)[address] == RefreshNetwork(t.network, address, observed, now)[address];
  }

  /** The nonces returned by successive calls for one address at the given
      times, the chain reporting `observed` every time. */
  function Burst(t: NonceTables, address: string, observed: int, times: seq<int>): (r: seq<int>)
    ensures |r| == |times|
    decreases |times|
  {
    if times == [] then []
    else
      var (t', n) := Step(t, address, observed, times[0]);
      [n] + Burst(t', address, observed, times[1..])
  }

  /** The state reached inside a burst: the network entry was taken at
      `start` and the offline prediction is `next`, written at `last`. */
  lemma {:induction false} BurstFrom(t: NonceTables, address: string, observed: int, start: int, last: int, next: int, times: seq<int>)
    requires address in t.network && t.network[address] == NonceEntry(start, observed)
    requires address in t.offline && t.offline[address] == NonceEntry(last, next)
    requires next == observed + 1 && start <= last
    requires forall i :: 0 <= i < |times| ==> last <= times[i] < start + NONCE_VALID_PERIOD_MS
    requires forall i, j :: 0 <= i < j < |times| ==> times[i] <= times[j]
    ensures forall i :: 0 <= i < |times| ==> Burst(t, address, observed, times)[i] == next + i
    decreases |times|
  {
    if times != [] {
      var (t', n) := Step(t, address, observed, times[0]);
      assert !NeedsRefresh(t.network, address, observed, times[0]);
      assert n == next;
      assert t'.offline[address] == NonceEntry(times[0], next + 1);
      BurstAhead(t', address, observed, start, times[0], next + 1, times[1..]);
    }
  }

  /** As `BurstFrom`, once the offline prediction is ahead of the chain by
      any amount. */
  lemma {:induction false} BurstAhead(t: NonceTables, address: string, observed: int, start: int, last: int, next: int, times: seq<int>)
    requires address in t.network && t.network[address] == NonceEntry(start, observed)
    requires address in t.offline && t.offline[address] == NonceEntry(last, next)
    requires next > observed && start <= last
    requires forall i :: 0 <= i < |times| ==> last <= times[i] < start + NONCE_VALID_PERIOD_MS
    requires forall i, j :: 0 <= i < j < |times| ==> times[i] <= times[j]
    ensures forall i :: 0 <= i < |times| ==> Burst(t, address, observed, times)[i] == next + i
    decreases |times|
  {
    if times != [] {
      var (t', n) := Step(t, address, observed, times[0]);
      assert !NeedsRefresh(t.network, address, observed, times[0]);
      assert t'.network[address] == NonceEntry(start, observed);
      assert n == next;
      assert t'.offline[address] == NonceEntry(times[0], next + 1);
      BurstAhead(t', address, observed, start, times[0], next + 1, times[1..]);
      var r := Burst(t, address, observed, times);
      assert r == [n] + Burst(t', address, observed, times[1..]);
      forall i | 0 <= i < |times|
        ensures r[i] == next + i
      {
        if i > 0 {
          assert r[i] == Burst(t', address, observed, times[1..])[i - 1];
        }
      }
    }
  }

  /** Calls for an address with no cached entries, made within 60 seconds
      of the first one while the chain keeps reporting `observed`, hand out
      `observed`, `observed + 1`, `observed + 2`, ...: no nonce is repeated
      and none is skipped. */
  lemma {:induction false} FreshBurstIsConsecutive(t: NonceTables, address: string, observed: int, times: seq<int>)
    requires address !in t.network && address !in t.offline
    requires forall i, j :: 0 <= i < j < |times| ==> times[i] <= times[j]
    requires |times| > 0 ==> times[|times| - 1] - times[0] < NONCE_VALID_PERIOD_MS
    ensures forall i :: 0 <= i < |times| ==> Burst(t, address, observed, times)[i] == observed + i
  {
    if times != [] {
      var (t', n) := Step(t, address, observed, times[0]);
      assert n == observed;
      assert t'.network[address] == NonceEntry(times[0], observed);
      assert t'.offline[address] == NonceEntry(times[0], observed + 1);
      forall i | 0 <= i < |times[1..]|
        ensures times[0] <= times[1..][i] < times[0] + NONCE_VALID_PERIOD_MS
      {
        assert times[1..][i] == times[i + 1];
      }
      BurstAhead(t', address, observed, times[0], times[0], observed + 1, times[1..]);
      var r := Burst(t, address, observed, times);
      assert r == [n] + Burst(t', address, observed, times[1..]);
      forall i | 0 <= i < |times|
        ensures r[i] == observed + i
      {
        if i > 0 {
          assert r[i] == Burst(t', address, observed, times[1..])[i - 1];
        }
      }
    }
  }

  /** The singleton: both caches as maps that each call reads and
      overwrites. */
  class NonceManager {
    var offlineNonces: map<string, NonceEntry>
    var networkNonces: map<string, NonceEntry>

    ghost function Tables(): NonceTables
      reads this
    {
      NonceTables(networkNonces, offlineNonces)
    }

    constructor ()
      ensures offlineNonces == map[] && networkNonces == map[]
    {
      offlineNonces := map[];
      networkNonces := map[];
    }

    /** `getNonceAsync` after its RPC read returned `observed` at time `now`. */
    method GetNonce(address: string, observed: int, now: int) returns (nonce: int)
      modifies this
      ensures (Tables(), nonce) == Step(old(Tables()), address, observed, now)
      ensures nonce >= observed
      ensures address in offlineNonces && offlineNonces[address] == NonceEntry(now, nonce + 1)
      ensures address in networkNonces && networkNonces[address].nonce == observed
    {
      var cachedNonceEntry: Option<NonceEntry> := if address in networkNonces then Some(networkNonces[address]) else None;
      // a cached value above the chain's is only logged
      if cachedNonceEntry.None? ||
         cachedNonceEntry.value.nonce != observed ||
         now - cachedNonceEntry.value.lastUpdated >= NONCE_FORCE_UPDATE_INTERVAL_MS
      {
        networkNonces := networkNonces[address := NonceEntry(now, observed)];
      }
      var cached := networkNonces[address];
      var offlineNonceEntry: Option<NonceEntry> := if address in offlineNonces then Some(offlineNonces[address]) else None;
      var currentNonce :=
        if offlineNonceEntry.Some? &&
           offlineNonceEntry.value.nonce > cached.nonce &&
           offlineNonceEntry.value.lastUpdated - cached.lastUpdated < NONCE_VALID_PERIOD_MS
        then offlineNonceEntry.value.nonce
        else observed;
      // an offline entry lagging by the validity period or more is only logged
      offlineNonces := offlineNonces[address := NonceEntry(now, currentNonce + 1)];
      nonce := currentNonce;
    }
  }
}
