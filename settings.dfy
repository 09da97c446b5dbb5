/** The provider registry of app/settings/page.tsx: the default list, and
    the handlers that rebuild the list by map, filter and append and
    overwrite the page's `providers` and `activeProvider` (the selected tab)
    state. The key invariant is that at most one provider is active. */
module Settings {
  import opened Wrappers
  import opened Types
  import Lists

  /** `defaultProviders`. */
  function DefaultProviders(): seq<Provider> {
    [ Provider("openai", "OpenAI", "https://api.openai.com/v1", ["gpt-4", "gpt-3.5-turbo"], true, ""),
      Provider("mistral", "Mistral AI", "https://api.mistral.ai/v1", ["mistral-small-latest"], false, ""),
      Provider("deepseek", "DeepSeek", "https://api.deepseek.com/v1", ["deepseek-coder", "deepseek-chat"], false, ""),
      Provider("claude", "Claude", "https://api.anthropic.com/v1",
               ["claude-3-opus", "claude-3-sonnet", "claude-3-haiku"], false, "") ]
  }

  /** The number of active entries. */
  function ActiveCount(ps: seq<Provider>): (n: nat)
    ensures n <= |ps|
    ensures n == 0 <==> forall i :: 0 <= i < |ps| ==> !ps[i].isActive
  {
    if ps == [] then 0 else (if ps[0].isActive then 1 else 0) + ActiveCount(ps[1..])
  }

  /** The number of entries with the given id. */
  function IdCount(ps: seq<Provider>, id: string): (n: nat)
    ensures n <= |ps|
  {
    if ps == [] then 0 else (if ps[0].id == id then 1 else 0) + IdCount(ps[1..], id)
  }

  /** No two entries share an id. */
  predicate UniqueIds(ps: seq<Provider>) {
    forall i, j :: 0 <= i < j < |ps| ==> ps[i].id != ps[j].id
  }

  /** The default list has unique ids and exactly one active entry, openai. */
  lemma DefaultsWellFormed()
    ensures UniqueIds(DefaultProviders())
    ensures ActiveCount(DefaultProviders()) == 1
    ensures forall i :: 0 <= i < |DefaultProviders()| && DefaultProviders()[i].isActive ==>
      DefaultProviders()[i].id == "openai"
  {
    var ps := DefaultProviders();
    assert ps[1..][1..][1..][1..] == [];
  }

  /** The `updates` object of `handleUpdateProvider`: the fields it sets. */
  datatype ProviderUpdate = ProviderUpdate(
    name: Option<string>,
    url: Option<string>,
    models: Option<seq<string>>,
    isActive: Option<bool>,
    apiKey: Option<string>)

  /** `{ ...provider, ...updates }`. */
  function Merge(p: Provider, u: ProviderUpdate): (q: Provider)
    ensures q.id == p.id
    ensures u.isActive.Some? ==> q.isActive == u.isActive.value
    ensures u.isActive.None? ==> q.isActive == p.isActive
    ensures u == ProviderUpdate(None, None, None, None, None) ==> q == p
  {
    Provider(p.id, u.name.GetOr(p.name), u.url.GetOr(p.url), u.models.GetOr(p.models),
             u.isActive.GetOr(p.isActive), u.apiKey.GetOr(p.apiKey))
  }

  /** What the `map` callback of `handleUpdateProvider` makes of one entry. */
  function UpdateOne(p: Provider, id: string, u: ProviderUpdate): Provider {
    if u.isActive == Some(true) then
      if p.id == id then Merge(p, u) else p.(isActive := false)
    else if p.id == id then Merge(p, u)
    else p
  }

  /** The list `handleUpdateProvider` stores: same length and order, every
      id kept. Activating merges the updates into the entries with the id
      and switches every other entry off; any other update changes only the
      entries with the id. */
  function UpdatedProviders(ps: seq<Provider>, id: string, u: ProviderUpdate): (r: seq<Provider>)
    ensures |r| == |ps|
    ensures forall i :: 0 <= i < |ps| ==> r[i].id == ps[i].id
    ensures forall i :: 0 <= i < |ps| && ps[i].id == id ==> r[i] == Merge(ps[i], u)
    ensures u.isActive == Some(true) ==>
      forall i :: 0 <= i < |ps| && ps[i].id != id ==> r[i] == ps[i].(isActive := false)
    ensures u.isActive != Some(true) ==>
      forall i :: 0 <= i < |ps| && ps[i].id != id ==> r[i] == ps[i]
    decreases |ps|
  {
    if ps == [] then []
    else [UpdateOne(ps[0], id, u)] + UpdatedProviders(ps[1..], id, u)
  }

  /** After activating, the active entries are exactly those with the id. */
  lemma {:induction false} ActivationCount(ps: seq<Provider>, id: string, u: ProviderUpdate)
    requires u.isActive == Some(true)
    ensures ActiveCount(UpdatedProviders(ps, id, u)) == IdCount(ps, id)
    decreases |ps|
  {
    if ps != [] {
      ActivationCount(ps[1..], id, u);
      assert UpdatedProviders(ps, id, u)[1..] == UpdatedProviders(ps[1..], id, u);
    }
  }

  /** Any other update can only switch entries off. */
  lemma {:induction false} OtherUpdateCount(ps: seq<Provider>, id: string, u: ProviderUpdate)
    requires u.isActive != Some(true)
    ensures ActiveCount(UpdatedProviders(ps, id, u)) <= ActiveCount(ps)
    decreases |ps|
  {
    if ps != [] {
      OtherUpdateCount(ps[1..], id, u);
      assert UpdatedProviders(ps, id, u)[1..] == UpdatedProviders(ps[1..], id, u);
    }
  }

  lemma {:induction false} UniqueIdCount(ps: seq<Provider>, id: string)
    requires UniqueIds(ps)
    ensures IdCount(ps, id) <= 1
    decreases |ps|
  {
    if ps != [] {
      assert UniqueIds(ps[1..]) by {
        forall i, j | 0 <= i < j < |ps[1..]| ensures ps[1..][i].id != ps[1..][j].id {
          assert ps[1..][i] == ps[i + 1] && ps[1..][j] == ps[j + 1];
        }
      }
      UniqueIdCount(ps[1..], id);
      if ps[0].id == id {
        NoIdCount(ps[1..], id);
      }
    }
  }

  lemma {:induction false} NoIdCount(ps: seq<Provider>, id: string)
    requires forall i :: 0 <= i < |ps| ==> ps[i].id != id
    ensures IdCount(ps, id) == 0
    decreases |ps|
  {
    if ps != [] {
      NoIdCount(ps[1..], id);
    }
  }

  /** Every update keeps "at most one active" when the id occurs at most
      once, which holds whenever the ids are unique. */
  lemma UpdateKeepsAtMostOne(ps: seq<Provider>, id: string, u: ProviderUpdate)
    requires ActiveCount(ps) <= 1 && IdCount(ps, id) <= 1
    ensures ActiveCount(UpdatedProviders(ps, id, u)) <= 1
  {
    if u.isActive == Some(true) {
      ActivationCount(ps, id, u);
    } else {
      OtherUpdateCount(ps, id, u);
    }
  }

  /** Activating an id that occurs leaves exactly one active entry. */
  lemma ActivationSelectsOne(ps: seq<Provider>, id: string, u: ProviderUpdate)
    requires u.isActive == Some(true) && IdCount(ps, id) == 1
    ensures ActiveCount(UpdatedProviders(ps, id, u)) == 1
  {
    ActivationCount(ps, id, u);
  }

  /** With a repeated id, activation switches on every copy: the guarantee
      needs the id to occur at most once. */
  lemma RepeatedIdActivatesBoth(p: Provider)
    ensures ActiveCount(UpdatedProviders([p, p], p.id,
      ProviderUpdate(None, None, None, Some(true), None))) == 2
  {
    ActivationCount([p, p], p.id, ProviderUpdate(None, None, None, Some(true), None));
    assert IdCount([p, p], p.id) == 2 by {
      assert [p, p][1..] == [p] && [p][1..] == [];
    }
  }

  /** Switching a provider off changes only that entry, so switching off
      the one active default leaves no provider active. */
  lemma SwitchOffLeavesNone()
    ensures ActiveCount(UpdatedProviders(DefaultProviders(), "openai",
      ProviderUpdate(None, None, None, Some(false), None))) == 0
  {
    var r := UpdatedProviders(DefaultProviders(), "openai", ProviderUpdate(None, None, None, Some(false), None));
    assert forall i :: 0 <= i < |r| ==> !r[i].isActive;
  }

  lemma {:induction false} ActiveCountAppend(a: seq<Provider>, b: seq<Provider>)
    ensures ActiveCount(a + b) == ActiveCount(a) + ActiveCount(b)
    decreases |a|
  {
    if a == [] {
      assert a + b == b;
    } else {
      assert (a + b)[1..] == a[1..] + b;
      ActiveCountAppend(a[1..], b);
    }
  }

  function KeepOthers(id: string): Provider -> bool {
    (p: Provider) => p.id != id
  }

  /** Filtering never adds active entries. */
  lemma {:induction false} FilterActiveCount(ps: seq<Provider>, id: string)
    ensures ActiveCount(Lists.Filter(ps, KeepOthers(id))) <= ActiveCount(ps)
    decreases |ps|
  {
    if ps != [] {
      FilterActiveCount(ps[1..], id);
    }
  }

  /** The entry `handleAddCustomProvider` receives from the "Add Custom"
      button; `now` is `Date.now()`. */
  function NewCustomProvider(newId: string): (p: Provider)
    ensures !p.isActive && p.models == ["default-model"] && p.apiKey == []
  {
    Provider(newId, "Custom Provider", "", ["default-model"], false, "")
  }

  /** The settings page's state. */
  class SettingsPage {
    var providers: seq<Provider>
    var activeProvider: string

    /** At most one provider is active. */
    predicate Valid()
      reads this
    {
      ActiveCount(providers) <= 1
    }

    constructor()
      ensures providers == DefaultProviders() && activeProvider == "openai"
      ensures Valid()
    {
      providers := DefaultProviders();
      activeProvider := "openai";
      DefaultsWellFormed();
    }

    /** `handleUpdateProvider`. The models fetch it starts for a new Mistral
        key runs later and is not part of this call. */
    method UpdateProvider(id: string, u: ProviderUpdate)
      modifies this
      ensures providers == UpdatedProviders(old(providers), id, u)
      ensures activeProvider == old(activeProvider)
      ensures u.isActive == Some(true) ==> ActiveCount(providers) == IdCount(old(providers), id)
      ensures u.isActive != Some(true) ==> ActiveCount(providers) <= ActiveCount(old(providers))
      ensures old(Valid()) && IdCount(old(providers), id) <= 1 ==> Valid()
    {
      if u.isActive == Some(true) {
        ActivationCount(providers, id, u);
      } else {
        OtherUpdateCount(providers, id, u);
      }
      providers := UpdatedProviders(providers, id, u);
    }

    /** `handleAddCustomProvider`: appends and selects the new entry. */
    method AddCustomProvider(p: Provider)
      modifies this
      ensures providers == old(providers) + [p]
      ensures activeProvider == p.id
      ensures ActiveCount(providers) == ActiveCount(old(providers)) + (if p.isActive then 1 else 0)
      ensures old(Valid()) && !p.isActive ==> Valid()
    {
      ActiveCountAppend(providers, [p]);
      providers := providers + [p];
      activeProvider := p.id;
    }

    /** `handleRemoveProvider`: drops every entry with the id, keeping the
        rest in order, and selects the first remaining entry, or "". */
    method RemoveProvider(id: string)
      modifies this
      ensures providers == Lists.Filter(old(providers), KeepOthers(id))
      ensures forall i :: 0 <= i < |providers| ==> providers[i].id != id
      ensures activeProvider == if providers == [] then "" else providers[0].id
      ensures ActiveCount(providers) <= ActiveCount(old(providers))
      ensures old(Valid()) ==> Valid()
    {
      FilterActiveCount(providers, id);
      var remaining := Lists.Filter(providers, KeepOthers(id));
      assert forall i :: 0 <= i < |remaining| ==> remaining[i] in remaining;
      providers := remaining;
      activeProvider := if remaining == [] then "" else remaining[0].id;
    }

    /** `handleModelSelectChange`: the selection becomes the only model, so
        the displayed first model is the selection. */
    method ModelSelectChange(id: string, selected: string)
      modifies this
      ensures providers == UpdatedProviders(old(providers), id, ProviderUpdate(None, None, Some([selected]), None, None))
      ensures forall i :: 0 <= i < |providers| && providers[i].id == id ==> providers[i].models == [selected]
      ensures activeProvider == old(activeProvider)
      ensures ActiveCount(providers) <= ActiveCount(old(providers))
      ensures old(Valid()) ==> Valid()
    {
      UpdateProvider(id, ProviderUpdate(None, None, Some([selected]), None, None));
    }
  }
}
