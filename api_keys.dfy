/** The API key list on the settings page: each key is masked until its
    eye button is pressed, and a key can be deleted. */
module ApiKeys {
  import opened Common
  import opened SecretVisibility

  datatype ApiKey = ApiKey(id: string, name: string, key: string, created: string, lastUsed: string)

  function InitialKeys(): (r: seq<ApiKey>)
    ensures |r| == 2 && r[0].id != r[1].id
  {
    [ApiKey("1", "Production API", "vps_prod_1234567890abcdef", "2024-01-01", "2024-01-10"),
     ApiKey("2", "Development API", "vps_dev_abcdef1234567890", "2024-01-05", "Never")]
  }

  /** The list without the keys of id `id`. */
  function RemoveKey(keys: seq<ApiKey>, id: string): (r: seq<ApiKey>)
    ensures IsSubseq(r, keys)
    ensures forall i :: 0 <= i < |r| ==> r[i].id != id
    ensures forall i :: 0 <= i < |keys| && keys[i].id != id ==> keys[i] in r && multiset(r)[keys[i]] == multiset(keys)[keys[i]]
    ensures multiset(r) <= multiset(keys)
  {
    var keep := (k: ApiKey) => k.id != id;
    FilterIsSubseq(keys, keep);
    Filter(keys, keep)
  }

  /** Deleting an id no key has leaves the list as it was. */
  lemma RemoveUnknownKey(keys: seq<ApiKey>, id: string)
    requires forall i :: 0 <= i < |keys| ==> keys[i].id != id
    ensures RemoveKey(keys, id) == keys
  {
    FilterKeepsAll(keys, (k: ApiKey) => k.id != id);
  }

  /** The key field is a masked password input. */
  predicate Masked(shown: map<string, bool>, k: ApiKey)
  {
    !IsShown(shown, k.id)
  }

  /** Revealing one key leaves every other key as masked as it was. */
  lemma RevealOnlyThatKey(shown: map<string, bool>, k: ApiKey, other: ApiKey)
    requires other.id != k.id
    ensures Masked(ToggleShown(shown, k.id), k) <==> !Masked(shown, k)
    ensures Masked(ToggleShown(shown, k.id), other) <==> Masked(shown, other)
  {
  }

  class ApiKeysPanel {
    var keys: seq<ApiKey>
    var shown: map<string, bool>

    constructor ()
      ensures keys == InitialKeys() && shown == map[]
      ensures forall i :: 0 <= i < |keys| ==> Masked(shown, keys[i])
    {
      keys := InitialKeys();
      shown := map[];
    }

    method ToggleKey(id: string)
      modifies this
      ensures shown == ToggleShown(old(shown), id) && keys == old(keys)
    {
      shown := ToggleShown(shown, id);
    }

    method DeleteKey(id: string)
      modifies this
      ensures keys == RemoveKey(old(keys), id) && shown == old(shown)
    {
      keys := RemoveKey(keys, id);
    }
  }
}
