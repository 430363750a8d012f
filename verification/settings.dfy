/** The settings dictionary of a node and the two ways it is compared with
    an incoming dictionary: the outgoing diff that decides what to send to the
    compute server, and the merge of a server response. */
module Settings {
  import opened PyValues

  type SettingsMap = map<string, Value>

  /** The entries of `incoming` that would change `settings`: their key is
      already a setting and their value is not equal (in Python's sense) to
      the current one. */
  function Changes(settings: SettingsMap, incoming: SettingsMap): (r: SettingsMap)
    ensures forall k :: k in r <==> k in incoming && k in settings && !PyEq(settings[k], incoming[k])
    ensures forall k :: k in r ==> r[k] == incoming[k]
  {
    map k | k in incoming && k in settings && !PyEq(settings[k], incoming[k]) :: incoming[k]
  }

  /** The settings after a server response `result` is taken in: only keys
      already present are considered, a key whose value differs takes the
      value from `result`, every other setting keeps its value, and keys
      unknown to the node are ignored. */
  function Merge(settings: SettingsMap, result: SettingsMap): (r: SettingsMap)
    ensures r.Keys == settings.Keys
    ensures forall k :: k in settings && k in result && !PyEq(settings[k], result[k]) ==> r[k] == result[k]
    ensures forall k :: k in settings && (k !in result || PyEq(settings[k], result[k])) ==> r[k] == settings[k]
  {
    settings + Changes(settings, result)
  }

  /** Every merged value is equal, in Python's sense, to the response's value
      for that key: the merge leaves nothing of `result` outstanding. */
  lemma MergeAgreesWithResult(settings: SettingsMap, result: SettingsMap)
    ensures forall k :: k in settings && k in result ==> PyEq(Merge(settings, result)[k], result[k])
  {
  }

  /** Merging the same response twice changes nothing the second time: after
      a merge there are no changes left to take in from that response. */
  lemma MergeIdempotent(settings: SettingsMap, result: SettingsMap)
    ensures Changes(Merge(settings, result), result) == map[]
    ensures Merge(Merge(settings, result), result) == Merge(settings, result)
  {
  }

  /** Only the changes matter: merging the diff has the same effect as merging
      the whole dictionary it came from. */
  lemma MergeChangesOnly(settings: SettingsMap, incoming: SettingsMap)
    ensures Merge(settings, Changes(settings, incoming)) == Merge(settings, incoming)
  {
  }

  /** The diff is empty exactly when merging would leave the settings as they
      are. */
  lemma NoChangesIffMergeIsIdentity(settings: SettingsMap, incoming: SettingsMap)
    ensures Changes(settings, incoming) == map[] <==> Merge(settings, incoming) == settings
  {
  }
}
