/**
 * org.dbmaintain.database.DatabaseInfoFactory: turns the configuration into one
 * connection definition per configured logical database name, or into a single
 * unnamed definition built from the global keys when no names are configured.
 *
 * Every field is looked up with a two-level fallback: the per-database key
 * `<start>.<name>.<suffix>` when it is present, otherwise the global key
 * `<start>.<suffix>`, otherwise "" (or the empty list). Nothing here fails.
 *
 * The factory's only state is the configuration it was constructed with, which it
 * never reassigns; here that configuration is a parameter of every member.
 */
module Database {
  import opened Util
  import opened Config

  /** org.dbmaintain.database.DatabaseInfo, in its constructor's argument order. */
  datatype DatabaseInfo = DatabaseInfo(
    name: string,
    dialect: string,
    driverClassName: string,
    url: string,
    userName: string,
    password: string,
    schemaNames: seq<string>,
    disabled: bool)

  const UnnamedDatabaseName: string := "<no-name>"

  /** The per-database key `<start>.<name>.<suffix>`. */
  function CustomPropertyName(databaseName: string, propertyNameEnd: string): string {
    PropertyDatabaseStart + "." + databaseName + "." + propertyNameEnd
  }

  /** The global key `<start>.<suffix>`. */
  function DefaultPropertyName(propertyNameEnd: string): string {
    PropertyDatabaseStart + "." + propertyNameEnd
  }

  /** The suffixes of the six fields a database definition resolves. */
  const FieldSuffixes: seq<string> := [PropertyDriverClassNameEnd, PropertyUrlEnd, PropertyUserNameEnd,
                                       PropertyPasswordEnd, PropertyDialectEnd, PropertySchemaNamesEnd]

  /** The configured logical database names, in the order they are listed. */
  function DatabaseNames(readers: ValueReaders, configuration: Properties): (names: seq<string>)
    ensures PropertyDatabaseNames !in configuration ==> names == []
    ensures PropertyDatabaseNames in configuration ==> names == readers.list(configuration[PropertyDatabaseNames])
  {
    GetStringList(readers, PropertyDatabaseNames, configuration)
  }

  /**
   * getProperty: the per-database value when the database is named and its key is
   * present; otherwise the global value, or "" when that is absent too.
   */
  function GetProperty(readers: ValueReaders, configuration: Properties, databaseName: Option<string>,
                       propertyNameEnd: string): (value: string)
    ensures databaseName.Some? && CustomPropertyName(databaseName.value, propertyNameEnd) in configuration ==>
              value == readers.text(configuration[CustomPropertyName(databaseName.value, propertyNameEnd)])
    ensures databaseName.None? || CustomPropertyName(databaseName.value, propertyNameEnd) !in configuration ==>
              value == if DefaultPropertyName(propertyNameEnd) in configuration
                       then readers.text(configuration[DefaultPropertyName(propertyNameEnd)])
                       else ""
  {
    if databaseName.Some? && ContainsProperty(CustomPropertyName(databaseName.value, propertyNameEnd), configuration)
    then GetString(readers, CustomPropertyName(databaseName.value, propertyNameEnd), "", configuration)
    else GetString(readers, DefaultPropertyName(propertyNameEnd), "", configuration)
  }

  /**
   * getListProperty: the same fallback for a list, read with the same flagged list
   * parsing (flag `false`) on the per-database and on the global path.
   */
  function GetListProperty(readers: ValueReaders, configuration: Properties, databaseName: Option<string>,
                           propertyNameEnd: string): (values: seq<string>)
    ensures databaseName.Some? && CustomPropertyName(databaseName.value, propertyNameEnd) in configuration ==>
              values == readers.flaggedList(configuration[CustomPropertyName(databaseName.value, propertyNameEnd)], false)
    ensures databaseName.None? || CustomPropertyName(databaseName.value, propertyNameEnd) !in configuration ==>
              values == if DefaultPropertyName(propertyNameEnd) in configuration
                        then readers.flaggedList(configuration[DefaultPropertyName(propertyNameEnd)], false)
                        else []
  {
    if databaseName.Some? && ContainsProperty(CustomPropertyName(databaseName.value, propertyNameEnd), configuration)
    then GetFlaggedStringList(readers, CustomPropertyName(databaseName.value, propertyNameEnd), configuration, false)
    else GetFlaggedStringList(readers, DefaultPropertyName(propertyNameEnd), configuration, false)
  }

  /** isDatabaseIncluded: the `<start>.<name>.included` flag, true when the key is absent. */
  function IsDatabaseIncluded(readers: ValueReaders, configuration: Properties, databaseName: string): (included: bool)
    ensures CustomPropertyName(databaseName, PropertyIncludedEnd) !in configuration ==> included
    ensures CustomPropertyName(databaseName, PropertyIncludedEnd) in configuration ==>
              included == readers.boolean(configuration[CustomPropertyName(databaseName, PropertyIncludedEnd)])
  {
    GetBoolean(readers, PropertyDatabaseStart + "." + databaseName + "." + PropertyIncludedEnd, true, configuration)
  }

  /** getUnnamedDatabaseInfo: the definition used when no names are configured. */
  function GetUnnamedDatabaseInfo(readers: ValueReaders, configuration: Properties): (info: DatabaseInfo)
    ensures info.name == UnnamedDatabaseName && !info.disabled
    ensures info.dialect == GetProperty(readers, configuration, None, PropertyDialectEnd)
    ensures info.driverClassName == GetProperty(readers, configuration, None, PropertyDriverClassNameEnd)
    ensures info.url == GetProperty(readers, configuration, None, PropertyUrlEnd)
    ensures info.userName == GetProperty(readers, configuration, None, PropertyUserNameEnd)
    ensures info.password == GetProperty(readers, configuration, None, PropertyPasswordEnd)
    ensures info.schemaNames == GetListProperty(readers, configuration, None, PropertySchemaNamesEnd)
  {
    DatabaseInfo(UnnamedDatabaseName,
                 GetProperty(readers, configuration, None, PropertyDialectEnd),
                 GetProperty(readers, configuration, None, PropertyDriverClassNameEnd),
                 GetProperty(readers, configuration, None, PropertyUrlEnd),
                 GetProperty(readers, configuration, None, PropertyUserNameEnd),
                 GetProperty(readers, configuration, None, PropertyPasswordEnd),
                 GetListProperty(readers, configuration, None, PropertySchemaNamesEnd),
                 false)
  }

  /** createDatabaseInfo: the definition of one named database. */
  function CreateDatabaseInfo(readers: ValueReaders, configuration: Properties, databaseName: string,
                              disabled: bool): (info: DatabaseInfo)
    ensures info.name == databaseName && info.disabled == disabled
    ensures info.dialect == GetProperty(readers, configuration, Some(databaseName), PropertyDialectEnd)
    ensures info.driverClassName == GetProperty(readers, configuration, Some(databaseName), PropertyDriverClassNameEnd)
    ensures info.url == GetProperty(readers, configuration, Some(databaseName), PropertyUrlEnd)
    ensures info.userName == GetProperty(readers, configuration, Some(databaseName), PropertyUserNameEnd)
    ensures info.password == GetProperty(readers, configuration, Some(databaseName), PropertyPasswordEnd)
    ensures info.schemaNames == GetListProperty(readers, configuration, Some(databaseName), PropertySchemaNamesEnd)
  {
    DatabaseInfo(databaseName,
                 GetProperty(readers, configuration, Some(databaseName), PropertyDialectEnd),
                 GetProperty(readers, configuration, Some(databaseName), PropertyDriverClassNameEnd),
                 GetProperty(readers, configuration, Some(databaseName), PropertyUrlEnd),
                 GetProperty(readers, configuration, Some(databaseName), PropertyUserNameEnd),
                 GetProperty(readers, configuration, Some(databaseName), PropertyPasswordEnd),
                 GetListProperty(readers, configuration, Some(databaseName), PropertySchemaNamesEnd),
                 disabled)
  }

  /**
   * getDatabaseInfos: one definition per configured name, in list order, each
   * disabled exactly when its inclusion flag is false; or the single unnamed one.
   */
  method GetDatabaseInfos(readers: ValueReaders, configuration: Properties) returns (databaseInfos: seq<DatabaseInfo>)
    ensures DatabaseNames(readers, configuration) == [] ==>
              databaseInfos == [GetUnnamedDatabaseInfo(readers, configuration)]
    ensures DatabaseNames(readers, configuration) != [] ==>
              |databaseInfos| == |DatabaseNames(readers, configuration)|
    ensures forall i :: 0 <= i < |DatabaseNames(readers, configuration)| ==>
              var databaseName := DatabaseNames(readers, configuration)[i];
              databaseInfos[i] == CreateDatabaseInfo(readers, configuration, databaseName,
                                                     !IsDatabaseIncluded(readers, configuration, databaseName))
  {
    databaseInfos := [];
    var databaseNames := DatabaseNames(readers, configuration);
    if databaseNames == [] {
      databaseInfos := databaseInfos + [GetUnnamedDatabaseInfo(readers, configuration)];
      return;
    }
    for i := 0 to |databaseNames|
      invariant |databaseInfos| == i
      invariant forall k :: 0 <= k < i ==>
                  databaseInfos[k] == CreateDatabaseInfo(readers, configuration, databaseNames[k],
                                                         !IsDatabaseIncluded(readers, configuration, databaseNames[k]))
    {
      var disabled := !IsDatabaseIncluded(readers, configuration, databaseNames[i]);
      var databaseInfo := CreateDatabaseInfo(readers, configuration, databaseNames[i], disabled);
      databaseInfos := databaseInfos + [databaseInfo];
    }
  }

  // ---------------------------------------------------------------------------
  // Properties of the resolution
  // ---------------------------------------------------------------------------

  /** The result of getDatabaseInfos: its length, names and disabled flags. */
  lemma DatabaseInfosShape(readers: ValueReaders, configuration: Properties, databaseInfos: seq<DatabaseInfo>)
    requires DatabaseNames(readers, configuration) == [] ==>
               databaseInfos == [GetUnnamedDatabaseInfo(readers, configuration)]
    requires DatabaseNames(readers, configuration) != [] ==>
               |databaseInfos| == |DatabaseNames(readers, configuration)|
    requires forall i :: 0 <= i < |DatabaseNames(readers, configuration)| ==>
               var databaseName := DatabaseNames(readers, configuration)[i];
               databaseInfos[i] == CreateDatabaseInfo(readers, configuration, databaseName,
                                                      !IsDatabaseIncluded(readers, configuration, databaseName))
    ensures |databaseInfos| == if DatabaseNames(readers, configuration) == [] then 1
                               else |DatabaseNames(readers, configuration)|
    ensures DatabaseNames(readers, configuration) == [] ==>
              databaseInfos[0].name == UnnamedDatabaseName && !databaseInfos[0].disabled
    ensures forall i :: 0 <= i < |DatabaseNames(readers, configuration)| ==>
              databaseInfos[i].name == DatabaseNames(readers, configuration)[i]
    ensures forall i :: 0 <= i < |DatabaseNames(readers, configuration)| ==>
              var included := CustomPropertyName(DatabaseNames(readers, configuration)[i], PropertyIncludedEnd);
              databaseInfos[i].disabled == (included in configuration && !readers.boolean(configuration[included]))
  {
  }

  /** A per-database key never coincides with a global key whose suffix has no '.'. */
  lemma CustomKeyIsNotDefaultKey(databaseName: string, propertyNameEnd: string, otherNameEnd: string)
    requires '.' !in otherNameEnd
    ensures CustomPropertyName(databaseName, propertyNameEnd) != DefaultPropertyName(otherNameEnd)
  {
    var prefix := PropertyDatabaseStart + ".";
    var rest := databaseName + "." + propertyNameEnd;
    assert CustomPropertyName(databaseName, propertyNameEnd) == prefix + rest;
    assert DefaultPropertyName(otherNameEnd) == prefix + otherNameEnd;
    assert rest[|databaseName|] == '.';
    assert rest != otherNameEnd;
    assert (prefix + rest)[|prefix|..] == rest;
    assert (prefix + otherNameEnd)[|prefix|..] == otherNameEnd;
  }

  /** For one database, different suffixes give different per-database keys. */
  lemma CustomKeysDistinct(databaseName: string, propertyNameEnd: string, otherNameEnd: string)
    requires propertyNameEnd != otherNameEnd
    ensures CustomPropertyName(databaseName, propertyNameEnd) != CustomPropertyName(databaseName, otherNameEnd)
  {
    var prefix := PropertyDatabaseStart + "." + databaseName + ".";
    assert CustomPropertyName(databaseName, propertyNameEnd)[|prefix|..] == propertyNameEnd;
    assert CustomPropertyName(databaseName, otherNameEnd)[|prefix|..] == otherNameEnd;
  }

  /** The suffixes of the six fields and of the inclusion flag contain no '.'. */
  lemma SuffixesHaveNoDot()
    ensures forall s :: s in FieldSuffixes ==> '.' !in s
    ensures '.' !in PropertyIncludedEnd
  {
  }

  /** A present per-database key wins: the global value for that suffix no longer matters. */
  lemma OverrideShadowsGlobal(readers: ValueReaders, configuration: Properties, databaseName: string,
                              propertyNameEnd: string, globalValue: string)
    requires '.' !in propertyNameEnd
    requires CustomPropertyName(databaseName, propertyNameEnd) in configuration
    ensures var updated := configuration[DefaultPropertyName(propertyNameEnd) := globalValue];
            GetProperty(readers, updated, Some(databaseName), propertyNameEnd)
              == GetProperty(readers, configuration, Some(databaseName), propertyNameEnd)
            && GetListProperty(readers, updated, Some(databaseName), propertyNameEnd)
              == GetListProperty(readers, configuration, Some(databaseName), propertyNameEnd)
  {
  }

  /** Setting the per-database key of one suffix leaves every other suffix's resolution alone. */
  lemma OverrideIsPerSuffix(readers: ValueReaders, configuration: Properties, databaseName: string,
                            overriddenEnd: string, propertyNameEnd: string, value: string)
    requires overriddenEnd != propertyNameEnd && '.' !in propertyNameEnd
    ensures var updated := configuration[CustomPropertyName(databaseName, overriddenEnd) := value];
            GetProperty(readers, updated, Some(databaseName), propertyNameEnd)
              == GetProperty(readers, configuration, Some(databaseName), propertyNameEnd)
            && GetListProperty(readers, updated, Some(databaseName), propertyNameEnd)
              == GetListProperty(readers, configuration, Some(databaseName), propertyNameEnd)
  {
    CustomKeysDistinct(databaseName, overriddenEnd, propertyNameEnd);
    CustomKeyIsNotDefaultKey(databaseName, overriddenEnd, propertyNameEnd);
  }

  /**
   * A database that overrides only its url gets that url and still inherits every
   * other field exactly as before.
   */
  lemma OverridingUrlKeepsOtherFields(readers: ValueReaders, configuration: Properties, databaseName: string,
                                      disabled: bool, url: string)
    ensures CreateDatabaseInfo(readers, configuration[CustomPropertyName(databaseName, PropertyUrlEnd) := url],
                               databaseName, disabled)
            == CreateDatabaseInfo(readers, configuration, databaseName, disabled).(url := readers.text(url))
  {
    SuffixesHaveNoDot();
    assert PropertyUrlEnd in FieldSuffixes;
    OverrideIsPerSuffix(readers, configuration, databaseName, PropertyUrlEnd, PropertyDialectEnd, url);
    OverrideIsPerSuffix(readers, configuration, databaseName, PropertyUrlEnd, PropertyDriverClassNameEnd, url);
    OverrideIsPerSuffix(readers, configuration, databaseName, PropertyUrlEnd, PropertyUserNameEnd, url);
    OverrideIsPerSuffix(readers, configuration, databaseName, PropertyUrlEnd, PropertyPasswordEnd, url);
    OverrideIsPerSuffix(readers, configuration, databaseName, PropertyUrlEnd, PropertySchemaNamesEnd, url);
  }

  /** The unnamed definition reads only global keys: no per-database key changes it. */
  lemma UnnamedIgnoresDatabaseKeys(readers: ValueReaders, configuration: Properties, databaseName: string,
                                   propertyNameEnd: string, value: string)
    ensures GetUnnamedDatabaseInfo(readers, configuration[CustomPropertyName(databaseName, propertyNameEnd) := value])
            == GetUnnamedDatabaseInfo(readers, configuration)
  {
    SuffixesHaveNoDot();
    assert '.' !in PropertyDriverClassNameEnd && '.' !in PropertyUrlEnd && '.' !in PropertyUserNameEnd;
    assert '.' !in PropertyPasswordEnd && '.' !in PropertyDialectEnd && '.' !in PropertySchemaNamesEnd;
    CustomKeyIsNotDefaultKey(databaseName, propertyNameEnd, PropertyDialectEnd);
    CustomKeyIsNotDefaultKey(databaseName, propertyNameEnd, PropertyDriverClassNameEnd);
    CustomKeyIsNotDefaultKey(databaseName, propertyNameEnd, PropertyUrlEnd);
    CustomKeyIsNotDefaultKey(databaseName, propertyNameEnd, PropertyUserNameEnd);
    CustomKeyIsNotDefaultKey(databaseName, propertyNameEnd, PropertyPasswordEnd);
    CustomKeyIsNotDefaultKey(databaseName, propertyNameEnd, PropertySchemaNamesEnd);
  }

  /**
   * A named database with no per-database keys for its six fields inherits exactly
   * the global values the unnamed definition uses.
   */
  lemma NamedWithoutOverridesInheritsGlobals(readers: ValueReaders, configuration: Properties,
                                             databaseName: string, disabled: bool)
    requires forall s :: s in FieldSuffixes ==> CustomPropertyName(databaseName, s) !in configuration
    ensures CreateDatabaseInfo(readers, configuration, databaseName, disabled)
            == GetUnnamedDatabaseInfo(readers, configuration).(name := databaseName, disabled := disabled)
  {
  }
}
