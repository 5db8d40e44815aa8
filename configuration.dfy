/**
 * Configuration documents, the key-by-key overlay that turns a base document
 * and the accumulated programmatic updates into the effective configuration,
 * and the privacy status read from the `global.privacy` key.
 */
module Configuration {

  /**
   * A configuration value. The core never inspects a value except the one
   * under `global.privacy`, so JSON numbers, booleans and nested objects are
   * all `Opaque`; `Null` is the nil/NSNull marker of an update dictionary.
   */
  datatype Value = Null | Text(text: string) | Opaque(id: nat)

  /** A configuration document: key to value. */
  type Document = map<string, Value>

  /** ADBMobilePrivacyStatus. */
  datatype PrivacyStatus = OptIn | OptOut | Unknown

  /** The configuration key that carries the default privacy status. */
  const PrivacyKey: string := "global.privacy"

  /** The textual encodings of the privacy status under `PrivacyKey`. */
  const OptedInText: string := "optedin"
  const OptedOutText: string := "optedout"

  /**
   * The effective configuration: `base` overlaid key by key by `updates`.
   * An update adds a key the base lacks, replaces one it has, and a `Null`
   * update removes the key; keys no update names come from the base.
   */
  function Overlay(base: Document, updates: Document): (r: Document)
    ensures forall k :: k in updates && updates[k] != Null ==> k in r && r[k] == updates[k]
    ensures forall k :: k in updates && updates[k] == Null ==> k !in r
    ensures forall k :: k !in updates ==> (k in r <==> k in base)
    ensures forall k :: k !in updates && k in base ==> r[k] == base[k]
    ensures r.Keys <= base.Keys + updates.Keys
  {
    map k | k in base.Keys + updates.Keys && (k in updates ==> updates[k] != Null)
      :: if k in updates then updates[k] else base[k]
  }

  /** The privacy status a configuration value under `PrivacyKey` denotes. */
  function StatusOfValue(v: Value): (p: PrivacyStatus)
  {
    if v == Text(OptedInText) then OptIn
    else if v == Text(OptedOutText) then OptOut
    else Unknown
  }

  /**
   * The privacy status a configuration sets through `global.privacy`;
   * `Unknown` when the key is absent or holds anything else.
   */
  function ConfiguredStatus(cfg: Document): (p: PrivacyStatus)
    ensures p == OptIn <==> PrivacyKey in cfg && cfg[PrivacyKey] == Text(OptedInText)
    ensures p == OptOut <==> PrivacyKey in cfg && cfg[PrivacyKey] == Text(OptedOutText)
  {
    if PrivacyKey in cfg then StatusOfValue(cfg[PrivacyKey]) else Unknown
  }

  /**
   * Folds one update dictionary into the accumulated updates, key by key:
   * every key of `config` takes its new value (a `Null` too, which stays
   * recorded so that it keeps the key out of any later base), every other
   * accumulated key keeps its value.
   */
  method MergeUpdates(acc: Document, config: Document) returns (r: Document)
    ensures r.Keys == acc.Keys + config.Keys
    ensures forall k :: k in config ==> r[k] == config[k]
    ensures forall k :: k in acc && k !in config ==> r[k] == acc[k]
    ensures r == acc + config
  {
    r := acc;
    var todo := config.Keys;
    while todo != {}
      invariant todo <= config.Keys
      invariant r.Keys == acc.Keys + (config.Keys - todo)
      invariant forall k :: k in config && k !in todo ==> r[k] == config[k]
      invariant forall k :: k in acc && k !in config ==> r[k] == acc[k]
      invariant forall k :: k in acc && k in todo ==> r[k] == acc[k]
      decreases todo
    {
      var k :| k in todo;
      r := r[k := config[k]];
      todo := todo - {k};
    }
  }

  /**
   * Merging first and then overlaying is overlaying twice: the effective
   * configuration after an update is the old effective configuration with
   * that update applied on top of it.
   */
  lemma OverlayOfMerge(base: Document, acc: Document, config: Document)
    ensures Overlay(base, acc + config) == Overlay(Overlay(base, acc), config)
  {
  }
}
