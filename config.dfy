/**
 * The configuration store and the helper readings the two components use on it
 * (org.dbmaintain.config.PropertyUtils and the key names of DbMaintainProperties).
 *
 * The text parsing PropertyUtils does on a raw entry is not part of this model:
 * it is carried by a `ValueReaders` value, a record of total functions that every
 * component receives, so each property proved here holds for whatever parsing the
 * helper class does. What the model does fix is the behaviour around the map itself:
 * a key is contained exactly when it is in the map, a present key is read by the
 * reader alone, and an absent key reads as the supplied default or the empty list.
 */
module Config {

  /** java.util.Properties: a flat map from dotted key to raw text. */
  type Properties = map<string, string>

  /** How PropertyUtils reads the raw text of an entry that is present. */
  datatype ValueReaders = ValueReaders(
    text: string -> string,                      // getString
    list: string -> seq<string>,                 // getStringList(key, properties)
    flaggedList: (string, bool) -> seq<string>,  // getStringList(key, properties, flag)
    boolean: string -> bool)                     // getBoolean

  predicate ContainsProperty(key: string, properties: Properties) {
    key in properties
  }

  /** getString(key, default, properties). */
  function GetString(readers: ValueReaders, key: string, default: string, properties: Properties): string {
    if ContainsProperty(key, properties) then readers.text(properties[key]) else default
  }

  /** getString(key, properties), which its callers only use on a key they know is present. */
  function GetRequiredString(readers: ValueReaders, key: string, properties: Properties): string
    requires ContainsProperty(key, properties)
  {
    readers.text(properties[key])
  }

  /** getStringList(key, properties). */
  function GetStringList(readers: ValueReaders, key: string, properties: Properties): seq<string> {
    if ContainsProperty(key, properties) then readers.list(properties[key]) else []
  }

  /** getStringList(key, properties, flag). */
  function GetFlaggedStringList(readers: ValueReaders, key: string, properties: Properties, flag: bool): seq<string> {
    if ContainsProperty(key, properties) then readers.flaggedList(properties[key], flag) else []
  }

  /** getBoolean(key, default, properties). */
  function GetBoolean(readers: ValueReaders, key: string, default: bool, properties: Properties): bool {
    if ContainsProperty(key, properties) then readers.boolean(properties[key]) else default
  }

  // Key names from DbMaintainProperties. Their literal values are placeholders: the
  // proofs use only that the suffixes contain no '.' and that the keys are distinct.

  const PropertyDatabaseNames: string := "databases.names"
  const PropertyDatabaseStart: string := "database"
  const PropertyDriverClassNameEnd: string := "driverClassName"
  const PropertyUrlEnd: string := "url"
  const PropertyUserNameEnd: string := "userName"
  const PropertyPasswordEnd: string := "password"
  const PropertyDialectEnd: string := "dialect"
  const PropertySchemaNamesEnd: string := "schemaNames"
  const PropertyIncludedEnd: string := "included"

  const PropertyScriptExtensions: string := "dbMaintainer.script.fileExtensions"
  const PropertyScriptTargetDatabasePrefix: string := "dbMaintainer.script.targetDatabase.prefix"
  const PropertyScriptQualifierPrefix: string := "dbMaintainer.script.qualifier.prefix"
  const PropertyScriptPatchQualifiers: string := "dbMaintainer.script.patch.qualifiers"
  const PropertyPostProcessingScriptsDirName: string := "dbMaintainer.postProcessingScript.directoryName"
  const PropertyScriptEncoding: string := "dbMaintainer.script.encoding"
}
