/** The schema model: DatabaseField (src/db/DatabaseField.py), DatabaseTable
    (src/db/DatabaseTable.py) and Database (src/db/Database.py). */
module Schema {
  import opened Text
  import opened Protection
  import Aliasing

  /** A Python list of DatabaseField: the one object a table and its clones share. */
  class FieldList {
    const items: seq<Field>

    constructor (items: seq<Field>)
      ensures this.items == items
    {
      this.items := items;
    }
  }

  /** A column. `apiName` is `api_name.name`, the only part of the field's
      AliasName the core reads or writes; `grandparent` is the name of the
      owning database; `sqlName` None is Python's None. */
  datatype Field = Field(
    name: string,
    fqName: string,
    apiName: string,
    sqlName: Option<string>,
    parent: DatabaseTable,
    grandparent: string,
    typ: string,
    nullable: bool,
    key: string,
    default: bool,
    protection: ProtectionOption,
    relation: Option<Field>)

  /** DatabaseField(name, parent, grandparent, typ, nullable, key, default,
      [protection=...], [relation=...]). */
  function NewField(name: string, parent: DatabaseTable, grandparent: string, typ: string, nullable: bool,
                    key: string, default: bool, protection: Option<ProtectionOption>,
                    relation: Option<Field>): (f: Field)
    ensures f.fqName == grandparent + "." + parent.name + "." + name
    ensures f.apiName == name && f.sqlName == None
    ensures f.protection == (if protection.Some? then protection.value else DefaultProtection(f.fqName))
    ensures f.relation == relation
  {
    var fqName := grandparent + "." + parent.name + "." + name;
    Field(name, fqName, name, None, parent, grandparent, typ, nullable, key, default,
          if protection.Some? then protection.value else DefaultProtection(fqName), relation)
  }

  /** The derived parts of a field are what the constructor derives. */
  predicate WellNamed(f: Field)
  {
    f.fqName == f.grandparent + "." + f.parent.name + "." + f.name
  }

  /** DatabaseField.clone: a new field from the same constructor arguments,
      passing the same protection object and relation. */
  function Clone(f: Field): Field
  {
    NewField(f.name, f.parent, f.grandparent, f.typ, f.nullable, f.key, f.default, Some(f.protection), f.relation)
  }

  /** A clone keeps every constructor argument and the relation, and gets a
      fresh api name equal to the column name and no SQL name, so a rename or
      SQL naming of the original is not carried over. */
  lemma CloneKeeps(f: Field)
    ensures var c := Clone(f);
      && c.name == f.name && c.parent == f.parent && c.grandparent == f.grandparent
      && c.typ == f.typ && c.nullable == f.nullable && c.key == f.key && c.default == f.default
      && c.protection == f.protection && c.relation == f.relation
      && c.apiName == f.name && c.sqlName == None
      && (WellNamed(f) ==> c.fqName == f.fqName)
  {
  }

  /** A clone differs from its original only in the api and SQL names. */
  lemma CloneIsReset(f: Field)
    requires WellNamed(f)
    ensures Clone(f) == f.(apiName := f.name, sqlName := None)
    ensures Clone(f) == f <==> f.apiName == f.name && f.sqlName == None
    ensures Clone(Clone(f)) == Clone(f)
  {
  }

  /** A table. `database` is the name of the owning Database. `children` and
      `apiName` are references: a clone shares both objects with its original. */
  class DatabaseTable {
    const name: string
    const database: string
    const fqName: string := database + "." + name
    const children: FieldList
    const protection: ProtectionOption
    var dbName: Option<string>
    var apiName: Aliasing.AliasName

    /** DatabaseTable(name, parent, children, [protection=...]). */
    constructor (name: string, database: string, children: FieldList, protection: Option<ProtectionOption>)
      ensures this.name == name && this.database == database && this.children == children
      ensures fqName == database + "." + name
      ensures this.protection == (if protection.Some? then protection.value else DefaultProtection(fqName))
      ensures dbName == None
      ensures fresh(apiName) && apiName.name == fqName && apiName.aliases == []
    {
      this.name := name;
      this.database := database;
      this.children := children;
      this.protection := if protection.Some? then protection.value else DefaultProtection(database + "." + name);
      this.dbName := None;
      this.apiName := new Aliasing.AliasName(database + "." + name, []);
    }

    /** DatabaseTable.clone: a new table over the SAME children list, with the
        same protection, the same db_name and the SAME api_name object. */
    method Clone() returns (d: DatabaseTable)
      ensures fresh(d)
      ensures d.name == name && d.database == database && d.fqName == fqName
      ensures d.children == children && d.protection == protection
      ensures d.dbName == dbName && d.apiName == apiName
    {
      d := new DatabaseTable(name, database, children, Some(protection));
      d.dbName := dbName;
      d.apiName := apiName;
    }
  }

  /** A database: a record of its tables and policy. */
  datatype Database = Database(name: string, children: seq<DatabaseTable>, protection: ProtectionOption)

  /** Database(name, children, [protection=...]); the default is ProtectionOption(name). */
  function NewDatabase(name: string, children: seq<DatabaseTable>, protection: Option<ProtectionOption>): (d: Database)
    ensures d.name == name && d.children == children
    ensures protection.None? ==> d.protection == DefaultProtection(name) && IsUnprotected(d.protection)
  {
    Database(name, children, if protection.Some? then protection.value else DefaultProtection(name))
  }
}
