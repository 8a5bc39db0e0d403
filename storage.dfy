/** The two browser key-value stores the form writes to (durable `localStorage` and
    per-session `sessionStorage`), the fixed keys it uses, and the order in which the
    submit handler calls them. */
module Storage {

  datatype Option<T> = None | Some(value: T)

  /** Key of the project URL, in both stores. */
  const UrlKey: string := "family_app_url"
  /** Key of the API key in the durable store (the value is not actually encrypted). */
  const DurableApiKeyEntry: string := "family_app_key_enc"
  /** Key of the API key in the session store. */
  const SessionApiKeyEntry: string := "family_app_key"

  /** All keys the form ever writes or removes. */
  const FormKeys: set<string> := {UrlKey, DurableApiKeyEntry, SessionApiKeyEntry}

  /** A browser store: string keys to string values. The browser may refuse any
      call (quota exceeded, storage disabled); the script cannot see when, so a
      call's success is left open, and a refused call changes nothing. */
  class KeyValueStore {
    var items: map<string, string>

    constructor (items: map<string, string>)
      ensures this.items == items
    {
      this.items := items;
    }

    /** `getItem`: the stored value, or `None` where the browser returns null. */
    function GetItem(k: string): (r: Option<string>)
      reads this
    {
      if k in items then Some(items[k]) else None
    }

    /** `setItem`: stores `v` under `k`, or refuses and changes nothing. */
    method SetItem(k: string, v: string) returns (ok: bool)
      modifies this
      ensures items == if ok then old(items)[k := v] else old(items)
    {
      ok :| true;
      if ok {
        items := items[k := v];
      }
    }

    /** `removeItem`: drops `k` (nothing to do if absent), or refuses and changes nothing. */
    method RemoveItem(k: string) returns (ok: bool)
      modifies this
      ensures items == if ok then old(items) - {k} else old(items)
    {
      ok :| true;
      if ok {
        items := items - {k};
      }
    }
  }

  /** The contents of both stores at one moment. */
  datatype Stores = Stores(durable: map<string, string>, session: map<string, string>)

  datatype Tier = Durable | Session

  /** One storage call: `setItem(key, value)` or `removeItem(key)` on one store. */
  datatype Call = Write(tier: Tier, key: string, value: string) | Erase(tier: Tier, key: string)

  /** The effect of one storage call that succeeds. */
  function Step(s: Stores, c: Call): (after: Stores) {
    match c
    case Write(Durable, k, v) => s.(durable := s.durable[k := v])
    case Write(Session, k, v) => s.(session := s.session[k := v])
    case Erase(Durable, k) => s.(durable := s.durable - {k})
    case Erase(Session, k) => s.(session := s.session - {k})
  }

  /** The effect of a run of storage calls that all succeed, in order. */
  function Apply(s: Stores, calls: seq<Call>): (after: Stores)
    decreases |calls|
  {
    if calls == [] then s else Apply(Step(s, calls[0]), calls[1..])
  }

  /** The storage calls of the save logic, in the order the handler makes them:
      with `saveLocally` the two durable writes; without it the two session
      writes, then the removal of both durable entries. */
  function SavePlan(url: string, key: string, saveLocally: bool): (plan: seq<Call>) {
    if saveLocally then
      [Write(Durable, UrlKey, url), Write(Durable, DurableApiKeyEntry, key)]
    else
      [Write(Session, UrlKey, url), Write(Session, SessionApiKeyEntry, key),
       Erase(Durable, UrlKey), Erase(Durable, DurableApiKeyEntry)]
  }

  /** Running one more call after a run is running the longer run. */
  lemma {:induction false} ApplySnoc(s: Stores, calls: seq<Call>, c: Call)
    ensures Apply(s, calls + [c]) == Step(Apply(s, calls), c)
    decreases |calls|
  {
    if calls == [] {
      assert [c][1..] == [];
    } else {
      assert (calls + [c])[1..] == calls[1..] + [c];
      ApplySnoc(Step(s, calls[0]), calls[1..], c);
    }
  }

  /** The calls done so far, one more done. */
  lemma ApplyNext(s: Stores, calls: seq<Call>, n: nat)
    requires n < |calls|
    ensures Apply(s, calls[..n + 1]) == Step(Apply(s, calls[..n]), calls[n])
  {
    assert calls[..n + 1] == calls[..n] + [calls[n]];
    ApplySnoc(s, calls[..n], calls[n]);
  }

  /** Saving with `saveLocally`: the durable store holds the URL and the key under
      their keys, every other durable entry is kept, and the session store is left
      exactly as it was, including any credential an earlier session save put there. */
  lemma SaveLocallyEffect(s: Stores, url: string, key: string)
    ensures Apply(s, SavePlan(url, key, true))
            == Stores(s.durable[UrlKey := url][DurableApiKeyEntry := key], s.session)
    ensures Apply(s, SavePlan(url, key, true)).durable[UrlKey] == url
    ensures Apply(s, SavePlan(url, key, true)).durable[DurableApiKeyEntry] == key
  {
    var plan := SavePlan(url, key, true);
    assert plan[..0] == [] && plan[..2] == plan;
    ApplyNext(s, plan, 0);
    ApplyNext(s, plan, 1);
  }

  /** Saving without `saveLocally`: the session store holds the URL and the key
      under their keys, both durable entries are gone, and every other entry of
      either store is kept. */
  lemma SaveForSessionEffect(s: Stores, url: string, key: string)
    ensures Apply(s, SavePlan(url, key, false))
            == Stores(s.durable - {UrlKey, DurableApiKeyEntry},
                      s.session[UrlKey := url][SessionApiKeyEntry := key])
    ensures UrlKey !in Apply(s, SavePlan(url, key, false)).durable
    ensures DurableApiKeyEntry !in Apply(s, SavePlan(url, key, false)).durable
  {
    var plan := SavePlan(url, key, false);
    assert plan[..0] == [] && plan[..4] == plan;
    ApplyNext(s, plan, 0);
    ApplyNext(s, plan, 1);
    ApplyNext(s, plan, 2);
    ApplyNext(s, plan, 3);
    assert s.durable - {UrlKey} - {DurableApiKeyEntry} == s.durable - {UrlKey, DurableApiKeyEntry};
  }

  /** Whatever call the browser refuses, the calls done before it touch only the
      form's own keys, and on the `saveLocally` path never the session store. */
  lemma {:induction false} PartialSaveFrame(s: Stores, url: string, key: string, saveLocally: bool, n: nat)
    requires n <= |SavePlan(url, key, saveLocally)|
    ensures Apply(s, SavePlan(url, key, saveLocally)[..n]).durable - FormKeys == s.durable - FormKeys
    ensures Apply(s, SavePlan(url, key, saveLocally)[..n]).session - FormKeys == s.session - FormKeys
    ensures saveLocally ==> Apply(s, SavePlan(url, key, saveLocally)[..n]).session == s.session
  {
    var plan := SavePlan(url, key, saveLocally);
    if n == 0 {
      assert plan[..0] == [];
    } else {
      PartialSaveFrame(s, url, key, saveLocally, n - 1);
      ApplyNext(s, plan, n - 1);
      var before := Apply(s, plan[..n - 1]);
      var c := plan[n - 1];
      assert c.key in FormKeys;
      match c
      case Write(t, k, v) =>
        assert before.durable[k := v] - FormKeys == before.durable - FormKeys;
        assert before.session[k := v] - FormKeys == before.session - FormKeys;
      case Erase(t, k) =>
        assert before.durable - {k} - FormKeys == before.durable - FormKeys;
        assert before.session - {k} - FormKeys == before.session - FormKeys;
    }
  }
}
