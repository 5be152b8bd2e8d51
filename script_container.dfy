/**
 * org.dbmaintain.script.impl.BaseScriptContainer: the script-classification settings
 * of one script container. Each of its six settings is taken from the container's
 * custom properties when they hold the setting's key, and from the supplied default
 * otherwise; the resolved script file extensions are then validated.
 */
module ScriptImpl {
  import opened Util
  import opened Config

  const NoExtensionsMessage: string := "No script file extensions specified!"

  /** The message of the exception thrown for an extension with a leading dot. */
  function LeadingDotMessage(extension: string): string {
    "Script file extension " + extension + " should not start with a '.'"
  }

  /** String.startsWith. */
  predicate StartsWith(s: string, prefix: string) {
    |prefix| <= |s| && s[..|prefix|] == prefix
  }

  /** What assertValidScriptExtensions accepts: some extension, none with a leading dot. */
  predicate ValidScriptExtensions(extensions: set<string>) {
    extensions != {} && forall extension :: extension in extensions ==> !StartsWith(extension, ".")
  }

  /** new HashSet<String>(list). */
  function ToSet(values: seq<string>): set<string> {
    set value | value in values
  }

  /** A string setting: the custom value exactly when the custom properties exist and hold the key. */
  function OverrideString(readers: ValueReaders, customProperties: Option<Properties>, key: string,
                          default: string): (value: string)
    ensures customProperties.Some? && key in customProperties.value ==>
              value == readers.text(customProperties.value[key])
    ensures customProperties.None? || key !in customProperties.value ==> value == default
  {
    if customProperties.Some? && key in customProperties.value
    then GetRequiredString(readers, key, customProperties.value)
    else default
  }

  /** A set setting: the custom list as a set exactly when the custom properties exist and hold the key. */
  function OverrideSet(readers: ValueReaders, customProperties: Option<Properties>, key: string,
                       default: set<string>): (values: set<string>)
    ensures customProperties.Some? && key in customProperties.value ==>
              forall value :: value in values <==> value in readers.list(customProperties.value[key])
    ensures customProperties.None? || key !in customProperties.value ==> values == default
  {
    if customProperties.Some? && key in customProperties.value
    then ToSet(GetStringList(readers, key, customProperties.value))
    else default
  }

  class BaseScriptContainer {
    var scriptFileExtensions: set<string>
    var targetDatabasePrefix: string
    var qualifierPrefix: string
    var patchQualifiers: set<string>
    var postProcessingScriptDirName: string
    var scriptEncoding: string

    /** What a successful initConfiguration establishes. */
    predicate Valid()
      reads this
    {
      ValidScriptExtensions(scriptFileExtensions)
    }

    function GetScriptFileExtensions(): (extensions: set<string>)
      reads this
      ensures extensions == scriptFileExtensions
      ensures Valid() ==> extensions != {} && forall e :: e in extensions ==> !StartsWith(e, ".")
    {
      scriptFileExtensions
    }

    function GetTargetDatabasePrefix(): (prefix: string)
      reads this
      ensures prefix == targetDatabasePrefix
    {
      targetDatabasePrefix
    }

    function GetQualifierPrefix(): (prefix: string)
      reads this
      ensures prefix == qualifierPrefix
    {
      qualifierPrefix
    }

    function GetPatchQualifiers(): (qualifiers: set<string>)
      reads this
      ensures qualifiers == patchQualifiers
    {
      patchQualifiers
    }

    function GetPostProcessingScriptDirName(): (dirName: string)
      reads this
      ensures dirName == postProcessingScriptDirName
    {
      postProcessingScriptDirName
    }

    function GetScriptEncoding(): (encoding: string)
      reads this
      ensures encoding == scriptEncoding
    {
      scriptEncoding
    }

    /**
     * assertValidScriptExtensions: fails on an empty extension set, and otherwise on
     * the first extension met (in the set's iteration order) that starts with '.'.
     */
    method AssertValidScriptExtensions() returns (outcome: Outcome<DbMaintainException>)
      ensures outcome.Pass? <==> ValidScriptExtensions(scriptFileExtensions)
      ensures scriptFileExtensions == {} ==> outcome == Fail(DbMaintainException(NoExtensionsMessage))
      ensures scriptFileExtensions != {} && outcome.Fail? ==>
                exists extension :: extension in scriptFileExtensions && StartsWith(extension, ".") &&
                                    outcome.error == DbMaintainException(LeadingDotMessage(extension))
    {
      if scriptFileExtensions == {} {
        return Fail(DbMaintainException(NoExtensionsMessage));
      }
      var remaining := scriptFileExtensions;
      while remaining != {}
        invariant remaining <= scriptFileExtensions
        invariant forall extension :: extension in scriptFileExtensions && extension !in remaining ==>
                    !StartsWith(extension, ".")
        decreases remaining
      {
        var extension :| extension in remaining;
        if StartsWith(extension, ".") {
          return Fail(DbMaintainException(LeadingDotMessage(extension)));
        }
        remaining := remaining - {extension};
      }
      return Pass;
    }

    /**
     * initConfiguration: resolves the extensions, validates them, and only then
     * resolves the other five settings; a failed validation leaves those five as
     * they were.
     */
    method InitConfiguration(readers: ValueReaders, customProperties: Option<Properties>,
                             defaultScriptFileExtensions: set<string>, defaultTargetDatabasePrefix: string,
                             defaultQualifierPrefix: string, defaultPatchQualifiers: set<string>,
                             defaultPostProcessingScriptDirName: string, defaultScriptEncoding: string)
      returns (outcome: Outcome<DbMaintainException>)
      modifies this
      ensures scriptFileExtensions ==
                OverrideSet(readers, customProperties, PropertyScriptExtensions, defaultScriptFileExtensions)
      ensures outcome.Pass? <==> Valid()
      ensures scriptFileExtensions == {} ==> outcome == Fail(DbMaintainException(NoExtensionsMessage))
      ensures scriptFileExtensions != {} && outcome.Fail? ==>
                exists extension :: extension in scriptFileExtensions && StartsWith(extension, ".") &&
                                    outcome.error == DbMaintainException(LeadingDotMessage(extension))
      ensures outcome.Pass? ==>
                && targetDatabasePrefix ==
                     OverrideString(readers, customProperties, PropertyScriptTargetDatabasePrefix, defaultTargetDatabasePrefix)
                && qualifierPrefix ==
                     OverrideString(readers, customProperties, PropertyScriptQualifierPrefix, defaultQualifierPrefix)
                && patchQualifiers ==
                     OverrideSet(readers, customProperties, PropertyScriptPatchQualifiers, defaultPatchQualifiers)
                && postProcessingScriptDirName ==
                     OverrideString(readers, customProperties, PropertyPostProcessingScriptsDirName,
                                    defaultPostProcessingScriptDirName)
                && scriptEncoding ==
                     OverrideString(readers, customProperties, PropertyScriptEncoding, defaultScriptEncoding)
      ensures outcome.Fail? ==>
                && targetDatabasePrefix == old(targetDatabasePrefix)
                && qualifierPrefix == old(qualifierPrefix)
                && patchQualifiers == old(patchQualifiers)
                && postProcessingScriptDirName == old(postProcessingScriptDirName)
                && scriptEncoding == old(scriptEncoding)
    {
      scriptFileExtensions :=
        OverrideSet(readers, customProperties, PropertyScriptExtensions, defaultScriptFileExtensions);
      outcome := AssertValidScriptExtensions();
      if outcome.Fail? {
        return;
      }
      targetDatabasePrefix :=
        OverrideString(readers, customProperties, PropertyScriptTargetDatabasePrefix, defaultTargetDatabasePrefix);
      qualifierPrefix :=
        OverrideString(readers, customProperties, PropertyScriptQualifierPrefix, defaultQualifierPrefix);
      patchQualifiers :=
        OverrideSet(readers, customProperties, PropertyScriptPatchQualifiers, defaultPatchQualifiers);
      postProcessingScriptDirName :=
        OverrideString(readers, customProperties, PropertyPostProcessingScriptsDirName,
                       defaultPostProcessingScriptDirName);
      scriptEncoding :=
        OverrideString(readers, customProperties, PropertyScriptEncoding, defaultScriptEncoding);
    }
  }

  // ---------------------------------------------------------------------------
  // Properties of the resolution
  // ---------------------------------------------------------------------------

  /** Without custom properties every setting is its default argument. */
  lemma NoCustomPropertiesGivesDefaults(readers: ValueReaders, key: string, defaultText: string,
                                        defaultValues: set<string>)
    ensures OverrideString(readers, None, key, defaultText) == defaultText
    ensures OverrideSet(readers, None, key, defaultValues) == defaultValues
  {
  }

  /**
   * Validation applies to the default extensions as well: when the custom properties
   * do not set the extensions, the outcome depends on the default set alone.
   */
  lemma DefaultExtensionsAreValidated(readers: ValueReaders, customProperties: Option<Properties>,
                                      defaultScriptFileExtensions: set<string>)
    requires customProperties.None? || PropertyScriptExtensions !in customProperties.value
    ensures ValidScriptExtensions(OverrideSet(readers, customProperties, PropertyScriptExtensions,
                                              defaultScriptFileExtensions))
            <==> ValidScriptExtensions(defaultScriptFileExtensions)
  {
  }

  /**
   * Custom extensions are accepted exactly when their list is non-empty and no
   * element of it starts with '.'.
   */
  lemma CustomExtensionsAreValidated(readers: ValueReaders, customProperties: Properties,
                                     defaultScriptFileExtensions: set<string>)
    requires PropertyScriptExtensions in customProperties
    ensures var extensions := readers.list(customProperties[PropertyScriptExtensions]);
            ValidScriptExtensions(OverrideSet(readers, Some(customProperties), PropertyScriptExtensions,
                                              defaultScriptFileExtensions))
            <==> extensions != [] && forall i :: 0 <= i < |extensions| ==> !StartsWith(extensions[i], ".")
  {
    var extensions := readers.list(customProperties[PropertyScriptExtensions]);
    var resolved := OverrideSet(readers, Some(customProperties), PropertyScriptExtensions, defaultScriptFileExtensions);
    if extensions != [] {
      assert extensions[0] in resolved;
    }
    if ValidScriptExtensions(resolved) {
      forall i | 0 <= i < |extensions| ensures !StartsWith(extensions[i], ".") {
        assert extensions[i] in resolved;
      }
    }
  }

  /** The examples of extension sets the builder accepts and refuses. */
  lemma ExtensionExamples()
    ensures !ValidScriptExtensions({})
    ensures !ValidScriptExtensions({".sql"})
    ensures ValidScriptExtensions({"sql"})
    ensures ValidScriptExtensions({"sql", "ddl"})
  {
    assert StartsWith(".sql", ".");
    assert "sql"[..1] == "s";
    assert "ddl"[..1] == "d";
  }

  /**
   * The six settings are resolved from six distinct keys, and setting one key in the
   * custom properties leaves the resolution of every other key unchanged.
   */
  lemma OverridesAreIndependent(readers: ValueReaders, customProperties: Properties, key: string,
                                otherKey: string, value: string, defaultText: string, defaultValues: set<string>)
    requires key != otherKey
    ensures var updated := Some(customProperties[key := value]);
            && OverrideString(readers, updated, otherKey, defaultText)
                 == OverrideString(readers, Some(customProperties), otherKey, defaultText)
            && OverrideSet(readers, updated, otherKey, defaultValues)
                 == OverrideSet(readers, Some(customProperties), otherKey, defaultValues)
    ensures |{PropertyScriptExtensions, PropertyScriptTargetDatabasePrefix, PropertyScriptQualifierPrefix,
              PropertyScriptPatchQualifiers, PropertyPostProcessingScriptsDirName, PropertyScriptEncoding}| == 6
  {
  }
}
