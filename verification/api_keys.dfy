/** The two API-key pages: the admin overview of every key and a user's own
    key list. Both keep the list on the page and update it locally after the
    server accepts a change; they share the list updates defined here. */
module ApiKeyLists {
  import opened Common

  /** The owner shown on the admin page (the user's own page has none). */
  datatype KeyOwner = KeyOwner(id: string, name: Option<string>, email: string)

  /** One listed key; `lastUsed` and `createdAt` are timestamp texts. */
  datatype KeyEntry = KeyEntry(id: string, name: string, key: string, isActive: bool,
                               lastUsed: Option<string>, createdAt: string, owner: Option<KeyOwner>)

  const MaskEdge: nat := 4
  const PreviewLength: nat := 20

  /** `maskApiKey`: a key of at most eight characters is shown as is, a
      longer one as its first four and last four characters around `...`. */
  function MaskApiKey(key: string): (m: string)
    ensures |key| <= 2 * MaskEdge ==> m == key
    ensures |key| > 2 * MaskEdge ==>
              && |m| == 2 * MaskEdge + 3
              && m[..MaskEdge] == key[..MaskEdge]
              && m[MaskEdge..MaskEdge + 3] == "..."
              && m[MaskEdge + 3..] == key[|key| - MaskEdge..]
  {
    if |key| <= 2 * MaskEdge then key
    else key[..MaskEdge] + "..." + key[|key| - MaskEdge..]
  }

  /** A mask never reveals more than eight characters of a key, and hides
      something of every key longer than eight characters except an
      eleven-character one that already has `...` in the middle. */
  lemma MaskRevealsLittle(key: string)
    ensures |MaskApiKey(key)| <= if |key| <= 2 * MaskEdge then |key| else 2 * MaskEdge + 3
    ensures MaskApiKey(key) == key <==>
              |key| <= 2 * MaskEdge || (|key| == 2 * MaskEdge + 3 && key[MaskEdge..MaskEdge + 3] == "...")
  {
    var m := MaskApiKey(key);
    if |key| == 2 * MaskEdge + 3 && key[MaskEdge..MaskEdge + 3] == "..." {
      assert key == key[..MaskEdge] + key[MaskEdge..MaskEdge + 3] + key[MaskEdge + 3..];
    }
  }

  /** `key.slice(0, 20) + '...'`: the start of a key as the user's key list
      shows it. */
  function KeyPreview(key: string): (p: string)
    ensures |p| == (if |key| <= PreviewLength then |key| else PreviewLength) + 3
    ensures StartsWith(key, p[..|p| - 3]) && p[|p| - 3..] == "..."
  {
    var shown := Take(key, PreviewLength);
    assert (shown + "...")[..|shown|] == shown;
    shown + "..."
  }

  /** `keys.map(k => k.id === keyId ? { ...k, isActive: active } : k)`. */
  function SetActive(keys: seq<KeyEntry>, keyId: string, active: bool): (r: seq<KeyEntry>)
    ensures |r| == |keys|
    ensures forall i :: 0 <= i < |r| ==>
              r[i] == if keys[i].id == keyId then keys[i].(isActive := active) else keys[i]
  {
    seq(|keys|, i requires 0 <= i < |keys| =>
      if keys[i].id == keyId then keys[i].(isActive := active) else keys[i])
  }

  /** Toggling a key and toggling it back restores the list, provided the
      page's idea of the key's status was right. */
  lemma ToggleTwiceRestores(keys: seq<KeyEntry>, keyId: string, current: bool)
    requires forall i :: 0 <= i < |keys| && keys[i].id == keyId ==> keys[i].isActive == current
    ensures SetActive(SetActive(keys, keyId, !current), keyId, current) == keys
  {
  }

  /** `keys.filter(k => k.id !== keyId)`. */
  function RemoveKey(keys: seq<KeyEntry>, keyId: string): (r: seq<KeyEntry>)
    ensures forall i :: 0 <= i < |r| ==> r[i].id != keyId && r[i] in keys
    ensures forall i :: 0 <= i < |keys| && keys[i].id != keyId ==> keys[i] in r
  {
    Filter(keys, (k: KeyEntry) => k.id != keyId)
  }

  /** Removal keeps the remaining keys in their order. */
  lemma RemoveKeepsOrder(keys: seq<KeyEntry>, keyId: string)
    ensures IsSubsequence(RemoveKey(keys, keyId), keys)
  {
    FilterIsSubsequence(keys, (k: KeyEntry) => k.id != keyId);
  }

  function IsActiveEntry(k: KeyEntry): bool { k.isActive }
  function IsInactiveEntry(k: KeyEntry): bool { !k.isActive }

  /** The three numbers the admin page shows add up: every key is either
      active or inactive. */
  lemma ActivePlusInactive(keys: seq<KeyEntry>)
    ensures Count(keys, IsActiveEntry) + Count(keys, IsInactiveEntry) == |keys|
  {
    CountSplits(keys, IsActiveEntry, IsInactiveEntry);
  }

  /** The banner after a status change on the admin page. */
  function ToggleText(active: bool): (t: string)
    ensures t == "API key activated successfully" <==> active
    ensures t == "API key deactivated successfully" <==> !active
  {
    "API key " + (if active then "activated" else "deactivated") + " successfully"
  }

  /** How a request from a page ended: it could not be made or its reply
      could not be read (`Failed`), or the server answered. */
  datatype Outcome = Failed | Replied(ok: bool)

  /** How a list request ended; an ok reply may lack its list. */
  datatype ListOutcome = ListFailed | ListReply(ok: bool, apiKeys: Option<seq<KeyEntry>>)

  /** The admin page listing every user's keys. */
  class AdminKeysPage {
    var apiKeys: seq<KeyEntry>
    var loading: bool
    var message: Option<Notice>

    constructor ()
      ensures apiKeys == [] && loading && message.None?
    {
      apiKeys, loading, message := [], true, None;
    }

    /** Load the keys: replaced only by an ok reply; loading ends either way. */
    method FetchAllApiKeys(outcome: ListOutcome)
      modifies this
      ensures outcome.ListReply? && outcome.ok ==>
                apiKeys == (if outcome.apiKeys.Some? then outcome.apiKeys.value else [])
      ensures !(outcome.ListReply? && outcome.ok) ==> apiKeys == old(apiKeys)
      ensures !loading && message == old(message)
    {
      if outcome.ListReply? && outcome.ok {
        apiKeys := if outcome.apiKeys.Some? then outcome.apiKeys.value else [];
      }
      loading := false;
    }

    /** Ask for the key's status to become `!currentStatus`; the list and
        the banner change only on an ok reply, and a failed request shows
        an error and leaves the list alone. */
    method HandleToggleActive(keyId: string, currentStatus: bool, outcome: Outcome)
      modifies this
      ensures outcome == Replied(true) ==>
                apiKeys == SetActive(old(apiKeys), keyId, !currentStatus)
                && message == Some(Notice(Success, ToggleText(!currentStatus)))
      ensures outcome == Replied(false) ==> apiKeys == old(apiKeys) && message == old(message)
      ensures outcome == Failed ==>
                apiKeys == old(apiKeys) && message == Some(Notice(Error, "Failed to update API key"))
      ensures loading == old(loading)
    {
      match outcome {
        case Failed =>
          message := Some(Notice(Error, "Failed to update API key"));
        case Replied(ok) =>
          if ok {
            apiKeys := SetActive(apiKeys, keyId, !currentStatus);
            message := Some(Notice(Success, ToggleText(!currentStatus)));
          }
      }
    }

    /** Delete a key after the admin confirms. */
    method HandleDeleteKey(confirmed: bool, keyId: string, outcome: Outcome)
      modifies this
      ensures confirmed && outcome == Replied(true) ==>
                apiKeys == RemoveKey(old(apiKeys), keyId)
                && message == Some(Notice(Success, "API key deleted successfully"))
      ensures confirmed && outcome == Failed ==>
                apiKeys == old(apiKeys) && message == Some(Notice(Error, "Failed to delete API key"))
      ensures !confirmed || outcome == Replied(false) ==> apiKeys == old(apiKeys) && message == old(message)
      ensures loading == old(loading)
    {
      if !confirmed {
        return;
      }
      match outcome {
        case Failed =>
          message := Some(Notice(Error, "Failed to delete API key"));
        case Replied(ok) =>
          if ok {
            apiKeys := RemoveKey(apiKeys, keyId);
            message := Some(Notice(Success, "API key deleted successfully"));
          }
      }
    }
  }

  /** How a create request ended; an ok reply carries the new key. */
  datatype CreateOutcome = CreateFailed | CreateReply(ok: bool, apiKey: KeyEntry)

  const DefaultKeyName: string := "API Key"

  /** A signed-in user's own key list. */
  class UserKeysPage {
    var apiKeys: seq<KeyEntry>
    var loading: bool
    var showNewKeyModal: bool
    var newKeyName: string
    var createdKey: Option<string>

    constructor ()
      ensures apiKeys == [] && loading && !showNewKeyModal && newKeyName == "" && createdKey.None?
    {
      apiKeys, loading, showNewKeyModal, newKeyName, createdKey := [], true, false, "", None;
    }

    /** Load the keys: replaced only by an ok reply; loading ends either way. */
    method FetchApiKeys(outcome: ListOutcome)
      modifies this
      ensures outcome.ListReply? && outcome.ok ==>
                apiKeys == (if outcome.apiKeys.Some? then outcome.apiKeys.value else [])
      ensures !(outcome.ListReply? && outcome.ok) ==> apiKeys == old(apiKeys)
      ensures !loading
      ensures showNewKeyModal == old(showNewKeyModal) && newKeyName == old(newKeyName)
      ensures createdKey == old(createdKey)
    {
      if outcome.ListReply? && outcome.ok {
        apiKeys := if outcome.apiKeys.Some? then outcome.apiKeys.value else [];
      }
      loading := false;
    }

    /** Create a key named after the input, or `API Key` when the input is
        empty (`requested` is the name sent). On an ok reply the new key is
        put first in the list, its secret is kept for display and the input
        is cleared; otherwise nothing changes. */
    method HandleCreateKey(outcome: CreateOutcome) returns (requested: string)
      modifies this
      ensures requested == (if old(newKeyName) == "" then DefaultKeyName else old(newKeyName))
      ensures outcome.CreateReply? && outcome.ok ==>
                apiKeys == [outcome.apiKey] + old(apiKeys)
                && createdKey == Some(outcome.apiKey.key) && newKeyName == ""
      ensures !(outcome.CreateReply? && outcome.ok) ==>
                apiKeys == old(apiKeys) && createdKey == old(createdKey) && newKeyName == old(newKeyName)
      ensures loading == old(loading) && showNewKeyModal == old(showNewKeyModal)
    {
      requested := OrDefault(Some(newKeyName), DefaultKeyName);
      if outcome.CreateReply? && outcome.ok {
        createdKey := Some(outcome.apiKey.key);
        apiKeys := [outcome.apiKey] + apiKeys;
        newKeyName := "";
      }
    }

    /** Delete one of the user's keys after confirmation; the list changes
        only on an ok reply. */
    method HandleDeleteKey(confirmed: bool, keyId: string, outcome: Outcome)
      modifies this
      ensures confirmed && outcome == Replied(true) ==> apiKeys == RemoveKey(old(apiKeys), keyId)
      ensures !(confirmed && outcome == Replied(true)) ==> apiKeys == old(apiKeys)
      ensures loading == old(loading) && showNewKeyModal == old(showNewKeyModal)
      ensures newKeyName == old(newKeyName) && createdKey == old(createdKey)
    {
      if confirmed && outcome == Replied(true) {
        apiKeys := RemoveKey(apiKeys, keyId);
      }
    }

    /** Flip a key's status; the list changes only on an ok reply. */
    method HandleToggleActive(keyId: string, isActive: bool, outcome: Outcome)
      modifies this
      ensures outcome == Replied(true) ==> apiKeys == SetActive(old(apiKeys), keyId, !isActive)
      ensures outcome != Replied(true) ==> apiKeys == old(apiKeys)
      ensures loading == old(loading) && showNewKeyModal == old(showNewKeyModal)
      ensures newKeyName == old(newKeyName) && createdKey == old(createdKey)
    {
      if outcome == Replied(true) {
        apiKeys := SetActive(apiKeys, keyId, !isActive);
      }
    }
  }
}
