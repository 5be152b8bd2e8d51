# dbmaintain configuration resolution in Dafny

This project models the configuration-resolution layer of dbmaintain, a database
schema-maintenance tool. The layer has two parts, and both read a flat
`java.util.Properties` configuration:

- `DatabaseInfoFactory` (`database.dfy`, module `Database`) turns the configuration into
  `DatabaseInfo` records. It makes one record per logical database name listed under the
  database-names key, in list order. When that list is empty, it makes a single record named
  `<no-name>` built from the global keys. Each of the six fields is resolved on its own. The
  per-database key `<start>.<name>.<suffix>` wins when present. Otherwise the global key
  `<start>.<suffix>` is used, and when that is absent too the field is `""` or the empty list.
  A database is disabled exactly when its `<start>.<name>.included` flag reads false; the flag
  defaults to included. Resolution never fails.
- `BaseScriptContainer` (`script_container.dfy`, module `ScriptImpl`) holds the
  script-classification settings of one script container: file extensions, target-database
  prefix, qualifier prefix, patch qualifiers, post-processing directory name and script
  encoding. `initConfiguration` takes each setting from the optional custom properties when
  they contain its key, and from the default argument otherwise. Right after setting the
  extensions it validates them. An empty set, or any extension starting with `.`, raises
  `DbMaintainException`. In that case the other five settings are not assigned.

Shared pieces live in `config.dfy` (module `Config`: the property map, the `PropertyUtils`
readings and the key names of `DbMaintainProperties`) and `util.dfy` (module `Util`: `Option`
for Java null, `Outcome` for a method that may throw, and `DbMaintainException`).

How the Java constructs are represented:

- `Properties` is `map<string, string>`.
- A null database name or null custom properties is `None`.
- A thrown `DbMaintainException` is a `Fail` outcome.
- `BaseScriptContainer` is a class whose six fields `InitConfiguration` assigns in the
  source's order.
- `getDatabaseInfos` is a method whose loop appends one record per name.

`PropertyUtils` parses the raw text of an entry, and its source is not part of this model. That
parsing is carried by a `Config.ValueReaders` value, a record of total functions. So every
property below holds whatever that parsing does. The choices the model does make about the
helpers are listed under "## Left out".

Three facts about the source that the model keeps:

- The unnamed record is named `<no-name>` (DatabaseInfoFactory.java line 65).
- `getListProperty` passes the same flag (`false`) to the list parser on the per-database path
  and on the global path (lines 108 and 112).
- Nothing in this code requires a definition to have at least one schema name.

## Model

| member | source | states |
|---|---|---|
| Database.DatabaseNames | dbmaintain/src/main/java/org/dbmaintain/database/DatabaseInfoFactory.java:44 | an absent names key gives the empty name list, which selects the unnamed mode; a present one is read with the two-argument list reader |
| Database.GetProperty | dbmaintain/src/main/java/org/dbmaintain/database/DatabaseInfoFactory.java:93-102 | with a name whose per-database key is present, the value is read from that key; with no name, or with that key absent, it is the global key's value, or "" when that is absent too |
| Database.GetListProperty | dbmaintain/src/main/java/org/dbmaintain/database/DatabaseInfoFactory.java:104-113 | the same present-then-fallback rule for a list, with the same flagged list parsing (flag false) on both paths and the empty list when both keys are absent |
| Database.IsDatabaseIncluded | dbmaintain/src/main/java/org/dbmaintain/database/DatabaseInfoFactory.java:88-90 | an absent `<start>.<name>.included` key means included; a present one is read as a boolean |
| Database.GetUnnamedDatabaseInfo | dbmaintain/src/main/java/org/dbmaintain/database/DatabaseInfoFactory.java:58-66 | the unnamed record is named `<no-name>`, is never disabled, and each of its six fields is the global-only resolution (no database name) of its own suffix |
| Database.CreateDatabaseInfo | dbmaintain/src/main/java/org/dbmaintain/database/DatabaseInfoFactory.java:74-82 | the record carries the given name and disabled flag, and each of its six fields is the per-database-then-global resolution of its own suffix for that name |
| Database.GetDatabaseInfos | dbmaintain/src/main/java/org/dbmaintain/database/DatabaseInfoFactory.java:41-55 | an empty name list gives exactly the unnamed record; otherwise there is one record per name, same length and order, and record i is created for name i with disabled = not included |
| Database.DatabaseInfosShape | dbmaintain/src/main/java/org/dbmaintain/database/DatabaseInfoFactory.java:44-54 | for any result of getDatabaseInfos: the count is 1 or the list length; the single unnamed record is `<no-name>` and enabled; record i has name i; disabled holds exactly when the included key is present and reads false |
| Database.CustomKeyIsNotDefaultKey | dbmaintain/src/main/java/org/dbmaintain/database/DatabaseInfoFactory.java:95-100 | a per-database key never equals a global key whose suffix contains no '.' |
| Database.CustomKeysDistinct | dbmaintain/src/main/java/org/dbmaintain/database/DatabaseInfoFactory.java:95 | for one database, different suffixes give different per-database keys |
| Database.OverrideShadowsGlobal | dbmaintain/src/main/java/org/dbmaintain/database/DatabaseInfoFactory.java:93-113 | once the per-database key is present, changing the global key changes neither the scalar nor the list resolution |
| Database.OverrideIsPerSuffix | dbmaintain/src/main/java/org/dbmaintain/database/DatabaseInfoFactory.java:74-80 | setting a database's key for one suffix leaves the resolution of every other suffix unchanged |
| Database.OverridingUrlKeepsOtherFields | dbmaintain/src/main/java/org/dbmaintain/database/DatabaseInfoFactory.java:74-81 | a database that overrides only its url gets that url, and every other field is the same as before |
| Database.UnnamedIgnoresDatabaseKeys | dbmaintain/src/main/java/org/dbmaintain/database/DatabaseInfoFactory.java:58-64 | no per-database key, whatever its value, changes the unnamed record: it reads only global keys |
| Database.NamedWithoutOverridesInheritsGlobals | dbmaintain/src/main/java/org/dbmaintain/database/DatabaseInfoFactory.java:58-82 | a named database with none of its six per-database keys equals the unnamed record apart from its name and disabled flag |
| ScriptImpl.OverrideString | dbmaintain/src/main/java/org/dbmaintain/script/impl/BaseScriptContainer.java:97-106 | a string setting is the custom value exactly when the custom properties are non-null and contain the key, and the default otherwise |
| ScriptImpl.OverrideSet | dbmaintain/src/main/java/org/dbmaintain/script/impl/BaseScriptContainer.java:93-94 | a set setting holds exactly the elements of the custom list when the custom properties are non-null and contain the key, and is the default otherwise |
| ScriptImpl.BaseScriptContainer.GetScriptFileExtensions | dbmaintain/src/main/java/org/dbmaintain/script/impl/BaseScriptContainer.java:51-53 | returns the stored extension set, which after a successful initialisation is non-empty with no leading '.' |
| ScriptImpl.BaseScriptContainer.GetTargetDatabasePrefix | dbmaintain/src/main/java/org/dbmaintain/script/impl/BaseScriptContainer.java:56-58 | returns the stored target-database prefix and changes nothing |
| ScriptImpl.BaseScriptContainer.GetQualifierPrefix | dbmaintain/src/main/java/org/dbmaintain/script/impl/BaseScriptContainer.java:61-63 | returns the stored qualifier prefix and changes nothing |
| ScriptImpl.BaseScriptContainer.GetPatchQualifiers | dbmaintain/src/main/java/org/dbmaintain/script/impl/BaseScriptContainer.java:66-68 | returns the stored patch qualifiers and changes nothing |
| ScriptImpl.BaseScriptContainer.GetPostProcessingScriptDirName | dbmaintain/src/main/java/org/dbmaintain/script/impl/BaseScriptContainer.java:71-73 | returns the stored post-processing directory name and changes nothing |
| ScriptImpl.BaseScriptContainer.GetScriptEncoding | dbmaintain/src/main/java/org/dbmaintain/script/impl/BaseScriptContainer.java:76-78 | returns the stored script encoding and changes nothing |
| ScriptImpl.BaseScriptContainer.AssertValidScriptExtensions | dbmaintain/src/main/java/org/dbmaintain/script/impl/BaseScriptContainer.java:109-120 | passes exactly when the extension set is non-empty and no element starts with '.'; an empty set fails with "No script file extensions specified!"; otherwise a failure names an offending extension in its message |
| ScriptImpl.BaseScriptContainer.InitConfiguration | dbmaintain/src/main/java/org/dbmaintain/script/impl/BaseScriptContainer.java:90-107 | the extensions are always set from custom-or-default; success holds exactly when they are valid; on success the other five fields are their custom-or-default values; on failure those five keep their previous values; the failure message is the empty-set one or names an extension starting with '.' |
| ScriptImpl.NoCustomPropertiesGivesDefaults | dbmaintain/src/main/java/org/dbmaintain/script/impl/BaseScriptContainer.java:93-106 | with null custom properties every setting equals its default argument |
| ScriptImpl.DefaultExtensionsAreValidated | dbmaintain/src/main/java/org/dbmaintain/script/impl/BaseScriptContainer.java:93-95 | when the extensions come from the default, validation passes exactly when the default set is valid |
| ScriptImpl.CustomExtensionsAreValidated | dbmaintain/src/main/java/org/dbmaintain/script/impl/BaseScriptContainer.java:93-120 | custom extensions pass validation exactly when their parsed list is non-empty and none of its elements starts with '.' |
| ScriptImpl.ExtensionExamples | dbmaintain/src/main/java/org/dbmaintain/script/impl/BaseScriptContainer.java:111-118 | {} and {".sql"} are refused, {"sql"} and {"sql", "ddl"} are accepted |
| ScriptImpl.OverridesAreIndependent | dbmaintain/src/main/java/org/dbmaintain/script/impl/BaseScriptContainer.java:93-106 | the six setting keys are distinct, and setting one key in the custom properties leaves the resolution of every other key unchanged |

Every function here is total and deterministic, so calling it twice on the same configuration
gives equal records. `GetDatabaseInfos`'s postconditions fix its result completely. Neither
component can change the configuration: it is a value.

## Left out

- The text parsing of `PropertyUtils` (`getString`, both `getStringList` overloads, `getBoolean`) is not part of this model. It is a parameter (`Config.ValueReaders`), so the split, trim and boolean rules are not reconstructed.
- Config.GetRequiredString: the two-argument `getString` used by `initConfiguration` is modelled as reading a present key. Whatever it does with a blank value (it may throw) is not part of this model.
- The literal values of the `DbMaintainProperties` constants are not part of this model. `config.dfy` uses placeholders. The proofs rely only on three facts about them: the field suffixes contain no '.', the six field suffixes are pairwise distinct, and the six script keys are distinct.
- Config.ContainsProperty: `containsProperty` is modelled as plain key membership. So a present per-database key wins over the global key even when its value is blank.
- Config.GetString: a present key is read with the text reader alone, and the default argument is used only for an absent key. Whether the helper falls back to the default for a blank value is not part of this model. The same holds for `Config.GetBoolean`.
- `DatabaseInfo`'s own class is not part of this model. Its constructor is represented by the `DatabaseInfo` datatype.
- The `DatabaseInfoFactory` constructor and its `configuration` field: the configuration is never reassigned, so it is a parameter of each member.
- `scripts`, `getScripts` and `LOCATION_PROPERTIES_FILENAME` of `BaseScriptContainer` are left out. Subclasses fill them by scanning files or jars.
- Java null in the container's fields before `initConfiguration` is left out; the model's fields start from Dafny's default values. A null default argument (which would throw a NullPointerException) is left out too.
- `initConfiguration` stores the default extension and qualifier sets by reference, and the model stores them as values. Aliasing with the caller's sets is therefore not captured.
- ScriptImpl.BaseScriptContainer.AssertValidScriptExtensions: which bad extension the message names depends on `HashSet` iteration order. The model promises only that it names one that starts with '.'.
- The multi-schema cleaner integration test and the `DisableConstraintsAntTask` launcher are left out. They are I/O against a live database, and a delegation with no logic.
