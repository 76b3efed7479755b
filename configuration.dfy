/** The configuration store: three string lists kept under fixed keys of a key/value
    store, with first-read seeding and fallback to built-in defaults. */
module Configuration {
  import opened Common

  /** What the store holds under a key: a decodable JSON array of strings, or a
      value that the JSON decoder rejects. */
  datatype Stored = Stored(items: seq<string>) | Malformed

  type Store = map<string, Stored>

  const UrlsKey := "monitor_urls"
  const DnsHostsKey := "monitor_dns_hosts"
  const CrlUrlsKey := "monitor_crl_urls"

  const DefaultUrls: seq<string> := [
    "https://pivi.xcloud.authentx.com/portal/index.html",
    "https://piv.xcloud.authentx.com/portal/index.html"
  ]

  const DefaultDnsHosts: seq<string> := [
    "piv.xcloud.authentx.com",
    "pivi.xcloud.authentx.com",
    "ocsp.xca.xpki.com",
    "crl.xca.xpki.com",
    "aia.xca.xpki.com"
  ]

  const DefaultCrlUrls: seq<string> := [
    "http://crl.xca.xpki.com/CRLs/XTec_PIVI_CA1.crl",
    "http://66.165.167.225/CRLs/XTec_PIVI_CA1.crl",
    "http://152.186.38.46/CRLs/XTec_PIVI_CA1.crl"
  ]

  /** The store after `saveList(key, list)`. */
  function Saved(store: Store, key: string, list: seq<string>): (s: Store)
    ensures key in s && s[key] == Stored(list)
    ensures forall k :: k in store && k != key ==> k in s && s[k] == store[k]
    ensures forall k :: k in s ==> k == key || k in store
  {
    store[key := Stored(list)]
  }

  /** The list `loadList(key, default)` returns: the stored list when it is present,
      decodable and non-empty, the defaults otherwise. */
  function Loaded(store: Store, key: string, default: seq<string>): (r: seq<string>)
    ensures r == default || (key in store && store[key] == Stored(r) && r != [])
    ensures (key in store && store[key].Stored? && store[key].items != []) ==> r == store[key].items
    ensures default != [] ==> r != []
  {
    if key !in store then default
    else match store[key]
      case Malformed => default
      case Stored(items) => if items == [] then default else items
  }

  /** The store after `loadList(key, default)`: only a first read, with nothing under
      the key, writes anything, and what it writes is the defaults. */
  function StoreAfterLoad(store: Store, key: string, default: seq<string>): (s: Store)
    ensures key in store ==> s == store
    ensures key !in store ==> s == Saved(store, key, default)
  {
    if key in store then store else Saved(store, key, default)
  }

  class ConfigurationManager {
    var prefs: Store

    constructor (initial: Store)
      ensures prefs == initial
    {
      prefs := initial;
    }

    method SaveList(key: string, list: seq<string>)
      modifies this
      ensures prefs == Saved(old(prefs), key, list)
    {
      prefs := prefs[key := Stored(list)];
    }

    method LoadList(key: string, default: seq<string>) returns (r: seq<string>)
      modifies this
      ensures r == Loaded(old(prefs), key, default)
      ensures prefs == StoreAfterLoad(old(prefs), key, default)
    {
      if key in prefs {
        match prefs[key] {
          case Malformed =>
            r := default;
          case Stored(items) =>
            var list := [];
            for i := 0 to |items|
              invariant list == items[..i]
            {
              list := list + [items[i]];
            }
            assert items[..|items|] == items;
            r := if list == [] then default else list;
        }
      } else {
        SaveList(key, default);
        r := default;
      }
    }

    method GetUrls() returns (r: seq<string>)
      modifies this
      ensures r == Loaded(old(prefs), UrlsKey, DefaultUrls)
      ensures prefs == StoreAfterLoad(old(prefs), UrlsKey, DefaultUrls)
    {
      r := LoadList(UrlsKey, DefaultUrls);
    }

    method SaveUrls(urls: seq<string>)
      modifies this
      ensures prefs == Saved(old(prefs), UrlsKey, urls)
    {
      SaveList(UrlsKey, urls);
    }

    method GetDnsHosts() returns (r: seq<string>)
      modifies this
      ensures r == Loaded(old(prefs), DnsHostsKey, DefaultDnsHosts)
      ensures prefs == StoreAfterLoad(old(prefs), DnsHostsKey, DefaultDnsHosts)
    {
      r := LoadList(DnsHostsKey, DefaultDnsHosts);
    }

    method SaveDnsHosts(hosts: seq<string>)
      modifies this
      ensures prefs == Saved(old(prefs), DnsHostsKey, hosts)
    {
      SaveList(DnsHostsKey, hosts);
    }

    method GetCrlUrls() returns (r: seq<string>)
      modifies this
      ensures r == Loaded(old(prefs), CrlUrlsKey, DefaultCrlUrls)
      ensures prefs == StoreAfterLoad(old(prefs), CrlUrlsKey, DefaultCrlUrls)
    {
      r := LoadList(CrlUrlsKey, DefaultCrlUrls);
    }

    method SaveCrlUrls(urls: seq<string>)
      modifies this
      ensures prefs == Saved(old(prefs), CrlUrlsKey, urls)
    {
      SaveList(CrlUrlsKey, urls);
    }
  }

  /** A first read returns the defaults and seeds them, so that the next read of the
      same key returns the same list and leaves the store alone. */
  lemma FirstLoadSeedsDefaults(store: Store, key: string, default: seq<string>)
    requires key !in store
    ensures Loaded(store, key, default) == default
    ensures var s := StoreAfterLoad(store, key, default);
      && s[key] == Stored(default)
      && Loaded(s, key, default) == default
      && StoreAfterLoad(s, key, default) == s
  {
  }

  /** A stored empty list or a malformed value reads as the defaults and is left as it is. */
  lemma UnusableValueFallsBack(store: Store, key: string, default: seq<string>)
    requires key in store && (store[key] == Stored([]) || store[key] == Malformed)
    ensures Loaded(store, key, default) == default
    ensures StoreAfterLoad(store, key, default) == store
  {
  }

  /** Saving a non-empty list and reading it back under the same key returns that
      list, whatever the defaults, and the read changes nothing. */
  lemma SaveThenLoad(store: Store, key: string, list: seq<string>, default: seq<string>)
    requires list != []
    ensures Loaded(Saved(store, key, list), key, default) == list
    ensures StoreAfterLoad(Saved(store, key, list), key, default) == Saved(store, key, list)
  {
  }

  /** Saving under one key does not change what another key reads. */
  lemma SaveKeepsOtherKeys(store: Store, key: string, list: seq<string>, other: string, default: seq<string>)
    requires key != other
    ensures Loaded(Saved(store, key, list), other, default) == Loaded(store, other, default)
  {
    var s := Saved(store, key, list);
    assert (other in s) == (other in store);
    if other in store {
      assert s[other] == store[other];
    }
  }

  /** The three lists live under three different keys, so each save leaves the other
      two lists as they read before. */
  lemma ConfiguredListsIndependent(store: Store, list: seq<string>)
    ensures Loaded(Saved(store, UrlsKey, list), DnsHostsKey, DefaultDnsHosts) == Loaded(store, DnsHostsKey, DefaultDnsHosts)
    ensures Loaded(Saved(store, UrlsKey, list), CrlUrlsKey, DefaultCrlUrls) == Loaded(store, CrlUrlsKey, DefaultCrlUrls)
    ensures Loaded(Saved(store, DnsHostsKey, list), UrlsKey, DefaultUrls) == Loaded(store, UrlsKey, DefaultUrls)
    ensures Loaded(Saved(store, DnsHostsKey, list), CrlUrlsKey, DefaultCrlUrls) == Loaded(store, CrlUrlsKey, DefaultCrlUrls)
    ensures Loaded(Saved(store, CrlUrlsKey, list), UrlsKey, DefaultUrls) == Loaded(store, UrlsKey, DefaultUrls)
    ensures Loaded(Saved(store, CrlUrlsKey, list), DnsHostsKey, DefaultDnsHosts) == Loaded(store, DnsHostsKey, DefaultDnsHosts)
  {
    assert UrlsKey[8] != DnsHostsKey[8] && UrlsKey[8] != CrlUrlsKey[8] && DnsHostsKey[8] != CrlUrlsKey[8];
    SaveKeepsOtherKeys(store, UrlsKey, list, DnsHostsKey, DefaultDnsHosts);
    SaveKeepsOtherKeys(store, UrlsKey, list, CrlUrlsKey, DefaultCrlUrls);
    SaveKeepsOtherKeys(store, DnsHostsKey, list, UrlsKey, DefaultUrls);
    SaveKeepsOtherKeys(store, DnsHostsKey, list, CrlUrlsKey, DefaultCrlUrls);
    SaveKeepsOtherKeys(store, CrlUrlsKey, list, UrlsKey, DefaultUrls);
    SaveKeepsOtherKeys(store, CrlUrlsKey, list, DnsHostsKey, DefaultDnsHosts);
  }

  /** None of the three getters can return an empty list. */
  lemma ConfiguredListsNeverEmpty(store: Store)
    ensures Loaded(store, UrlsKey, DefaultUrls) != []
    ensures Loaded(store, DnsHostsKey, DefaultDnsHosts) != []
    ensures Loaded(store, CrlUrlsKey, DefaultCrlUrls) != []
  {
  }
}
