# APInFly core, modelled in Dafny

APInFly builds a REST API from a relational schema. For each table it
compiles an **API context**. The root table and every table reached through
foreign keys are cloned. Each clone gets an alias `t1`, `t2`, … and one join
condition per foreign key. The context's **model** is a tree of fields: every
column carries a SQL name (`tN.column`) and a display name. Below a foreign
key, the display name is prefixed with the key's display name and `_`.

From a context the **controller** assembles queries:

- the single-instance query (`SELECT … FROM … WHERE <joins> AND <key>=<id>;`),
  whose one row it unpacks into the nested model view;
- the validation and SQL assembly of the multi-instance search.

The schema records (fields, tables, databases), their protection options and
key fobs, the connection options and the alias names are modelled with them.
So are the two pure helpers of the HTTP layer: query-string parsing and
status mapping.

Modules, one per source file:

- `Text`: the string helpers the source takes from Python: `str()` of a
  `nat`, `in` on strings, `join`, `split`, `replace`, `upper`.
- `Aliasing`: `src/db/AliasName.py`. A class whose alias list is updated in
  place.
- `Protection`: `src/db/ProtectionOption.py`. Key fobs and protection options
  as values.
- `ConnectionOptions`: `src/db/DatabaseConnectionOption.py`. A class with the
  keyword validation as functions.
- `Schema`: `src/db/DatabaseField.py`, `DatabaseTable.py` and `Database.py`.
  Fields are values; tables are objects whose `db_name` is set in place.
- `Model`: the value-level view of a compiled context, used by both
  `APIContext` and `APIController`:
  - the model tree;
  - its flattening;
  - the typed view;
  - unpacking of a result row;
  - the SQL text.
- `Context`: `src/api/APIContext.py`. The class `APIContext` is compiled in
  place by `GenModel`, `BranchRel` and their loops. The ghost function
  `Expand` is its specification: the entries, the tables reached and the
  joins that compiling a field list produces.
- `Controller`: `src/api/APIController.py`:
  - the class `APIController`, whose loops are proved against the
    specification functions `Single` and `Multiple`;
  - those functions work over a value `Snapshot` of the context found.
- `Resources`: `qstr_to_args` and `num_to_status` from
  `src/falc/FalconResources.py`.

Where the code cannot run as written, the model follows its evident intent.
Each such place is listed under "Left out". In these places the model
follows the code:

- an unknown context is refused with 400, not 404;
- a `q` search AND-joins `column LIKE q` over the flat fields, with the value
  unquoted and without `%` or parentheses;
- without `q` the parameters add no conditions, since structured filters
  are not in the code;
- `page` is refused when paging is off but is not required when it is on;
  the LIMIT is the page parameter itself;
- the single query does not demand exactly one primary key: it uses the last
  root field whose key is PRI, foreign keys included.

## Model

| member | source | states |
|---|---|---|
| Aliasing.AliasName.constructor | src/db/AliasName.py:55-65 | the name and the alias list are stored as given |
| Aliasing.AliasName.IsThis | src/db/AliasName.py:67-100 | true exactly when the text is the name or one of the aliases |
| Aliasing.AreThese | src/db/AliasName.py:10-41 | true exactly when the two alias names share a name (`Overlap`) |
| Aliasing.OverlapSymmetric | src/db/AliasName.py:10-41 | are_these does not depend on the order of its arguments |
| Aliasing.OverlapReflexive | src/db/AliasName.py:10-41 | every alias name overlaps itself |
| Aliasing.OverlapIsCommonMatch | src/db/AliasName.py:10-41 | overlap holds exactly when some text is matched by is_this of both |
| Aliasing.AliasName.AddAlias | src/db/AliasName.py:102-124 | a non-string gives TypeError and changes nothing; a string is appended, after which is_this accepts it |
| Aliasing.AliasName.AddAliases | src/db/AliasName.py:126-155 | all elements are checked before any is added: one non-string gives TypeError and no change; otherwise every element is appended in order and matched afterwards |
| Aliasing.AliasName.RemoveAlias | src/db/AliasName.py:157-183 | a non-string gives TypeError; an alias not in the list gives ValueError; otherwise the first occurrence is removed |
| Aliasing.RemoveFirstMultiset | src/db/AliasName.py:183 | removing an alias takes exactly one copy of it out of the list |
| Aliasing.RemovedAliasNoLongerMatches | src/db/AliasName.py:157-183 | after removal the alias still matches exactly when it is the name or occurred more than once |
| Protection.NewKeyFob | src/db/ProtectionOption.py:26-58 | fails exactly when some key slot is given a non-string; otherwise every given slot is a string |
| Protection.NewKeyFobSlots | src/db/ProtectionOption.py:26-34 | each slot of the new key fob holds the keyword given for it, or None |
| Protection.KeyFobToDict | src/db/ProtectionOption.py:60-73 | the dict has exactly the five key slots, each with the fob's key |
| Protection.KeyFobDictRoundTrip | src/db/ProtectionOption.py:60-73 | the key fob can be rebuilt from its dict |
| Protection.DefaultProtection | src/db/ProtectionOption.py:89-102 | a fresh protection option excludes, hides and protects nothing, has the empty key fob, and is unprotected |
| Protection.DefaultKeysShared | src/db/ProtectionOption.py:89-102 | every default protection option has the same key fob, and all its keys are None |
| Protection.IsUnprotectedIgnoresKeys | src/db/ProtectionOption.py:104-119 | is_unprotected is true exactly when none of exclude, hide and protect is set; the keys play no part |
| Protection.ProtectionToDict | src/db/ProtectionOption.py:121-133 | the dict holds exclude, hide, protect and the key fob's dict, and not the name |
| Protection.ProtectionToDictForgetsOnlyName | src/db/ProtectionOption.py:121-133 | two options give the same dict exactly when they differ at most in name |
| ConnectionOptions.FirstMissing | src/db/DatabaseConnectionOption.py:57-59 | the missing parameter reported is required and absent; none is reported only when every required one is present |
| ConnectionOptions.CheckKeywords | src/db/DatabaseConnectionOption.py:54-63 | an unknown provider is refused first, then a missing required parameter, then an unknown parameter; no error exactly when all three checks pass |
| ConnectionOptions.FilledOptions | src/db/DatabaseConnectionOption.py:65-75 | after construction every optional parameter is present; absent ones are None, except protection, which becomes the empty list; given ones are kept |
| ConnectionOptions.ConvertProtections | src/db/DatabaseConnectionOption.py:84-89 | a list of protection options becomes the list of their dicts, in order |
| ConnectionOptions.ToDictTwiceFails | src/db/DatabaseConnectionOption.py:84-89 | to_dict replaces the stored options with dicts, so a second call fails |
| ConnectionOptions.DatabaseConnectionOption.Init | src/db/DatabaseConnectionOption.py:65-75 | the new object holds the provider and the filled options: the keywords as given, absent optional ones as None, a None protection as the empty list |
| ConnectionOptions.DatabaseConnectionOption.New | src/db/DatabaseConnectionOption.py:51-75 | construction fails with the first keyword error, or with an error for a protection value that is not a list of protection options; otherwise, when the keywords pass and the protection value is accepted, construction succeeds and the options are the filled keywords |
| ConnectionOptions.DatabaseConnectionOption.ToDict | src/db/DatabaseConnectionOption.py:78-97 | returns the provider and the options, with the protection list converted to dicts; the stored options are overwritten by the conversion |
| Schema.NewField | src/db/DatabaseField.py:32-62 | the qualified name is database.table.column; the display name starts as the column name; there is no SQL name; protection defaults to one named after the qualified name |
| Schema.CloneKeeps | src/db/DatabaseField.py:65-74 | a clone keeps name, type, key, nullability, relation and protection, resets the display name to the column name, and has no SQL name |
| Schema.CloneIsReset | src/db/DatabaseField.py:65-74 | cloning a well-formed field is resetting its two names; it changes nothing on a fresh field and is idempotent |
| Schema.DatabaseTable.constructor | src/db/DatabaseTable.py:28-47 | the qualified name is database.table; protection defaults to one named after it; there is no alias; a fresh alias name holds the qualified name |
| Schema.DatabaseTable.Clone | src/db/DatabaseTable.py:49-53 | a new table object with the same attributes, sharing the children and alias-name objects |
| Schema.NewDatabase | src/db/Database.py:17-31 | stores name and tables; without a protection option it gets an unprotected default named after the database |
| Model.FlattenFields | src/api/APIContext.py:124-149 | the flat fields of a model are all leaves; when every entry has a SQL name, so does every flat field |
| Model.FlattenConcat | src/api/APIContext.py:142-149 | flattening distributes over concatenation of model levels |
| Model.Put | src/api/APIContext.py:99-121 | assigning a dict key appends a new key at the end, or replaces the value in place and keeps the key order |
| Model.TypesKeys | src/api/APIContext.py:89-121 | the types view has one key per model entry, its display name, in model order |
| Model.TypesLeaves | src/api/APIContext.py:89-121 | the leaves of the types view, in order, are the flat fields' display names with their types |
| Model.LastIndex | src/api/APIContext.py:193-196 | the index of the last flat field with the display name, or -1 exactly when none has it |
| Model.Pick | src/api/APIContext.py:197 | indexing the row: a valid index gives its value; -1 gives the last value of a non-empty row; anything else fails (IndexError) |
| Model.UnpackLeaves | src/api/APIContext.py:178-213 | unpacking succeeds exactly when every leaf finds a value, and each leaf gets the value at the last field with its display name |
| Model.UnpackRoundTrip | src/api/APIContext.py:178-213 | with distinct display names and one value per flat field, unpacking pairs each flat field's display name with its own value, in order |
| Model.Chop | src/api/APIContext.py:163 | dropping the last k characters, or giving "" when the text is shorter |
| Model.Columns | src/api/APIContext.py:158-163 | the select list is the SQL names of the flat fields in order |
| Model.SqlTextJoined | src/api/APIContext.py:152-175 | with a column and a table, the query frame is SELECT of the columns joined by ", ", FROM the tables joined by ", ", and WHERE the joins followed by " AND " |
| Model.SqlTextNoColumns | src/api/APIContext.py:158-163 | with no columns the frame still starts `SELECT ` and, with a table, `SELECT  \nFROM` |
| Context.AliasInjective | src/api/APIContext.py:52-53 | different table positions get different aliases |
| Context.Mounted | src/api/APIContext.py:55-56 | a mounted field is named `tN.column` in SQL, carries its display name, and keeps the column's name, type, key and relation |
| Context.ExpandMounts | src/api/APIContext.py:54-61 | every entry of a compiled level is its field mounted under the owner's alias, and is a branch exactly when the field is a foreign key |
| Context.ExpandShape | src/api/APIContext.py:54-86 | every entry of a compiled model, at every depth, has a SQL name and is a branch exactly when its field has a relation |
| Context.ExpandTargetsRanked | src/api/APIContext.py:71-72 | every table reached lies in the acyclic relation order |
| Context.ExpandJoins | src/api/APIContext.py:57-61 | join k leads to the alias of the k-th table reached and starts from the owning table or from one reached before it |
| Context.ExpandPrefixed | src/api/APIContext.py:70-81 | below a foreign key every display name is the key's display name, "_", and the column name |
| Context.RenderConcat | src/api/APIContext.py:57-59 | the rendered joins of two join lists are the concatenation of their renderings |
| Context.JoinerText | src/api/APIContext.py:58 | the join text is `tOwner.column = tTarget.refColumn` |
| Context.AliasesDistinct | src/api/APIContext.py:52-53 | the tables of a context carry pairwise distinct aliases |
| Context.Froms | src/api/APIContext.py:164-167 | one `fq_name AS tN` per table, in order |
| Context.APIContext.constructor | src/api/APIContext.py:26-40 | the name is the root's qualified name with "." replaced; the root is a fresh clone; the context is compiled from the root (`CompiledFrom`) and valid |
| Context.APIContext.GenModel | src/api/APIContext.py:43-61 | the root clone gets alias t1; the model, tables and joins become the expansion of the root's fields under t1 |
| Context.APIContext.BranchRel | src/api/APIContext.py:64-86 | a clone of the referenced table is appended with the next alias; its fields are mounted under that alias with the key's prefix; the tables and joins grow by that expansion |
| Context.APIContext.AddClone | src/api/APIContext.py:72-75 | the tables grow by one fresh clone of the target, whose alias is `t<new length>` |
| Context.APIContext.MountAll | src/api/APIContext.py:54-61 | mounting a field list in order yields the expansion's entries, tables and joins |
| Context.APIContext.Mount | src/api/APIContext.py:55-61 | one field is mounted; a foreign key adds its join and then branches |
| Context.APIContext.FlatFields | src/api/APIContext.py:124-139 | the flat fields are the model's leaves in order (`Flatten`) |
| Context.APIContext.FlatFieldsRec | src/api/APIContext.py:142-149 | appends the flattening of a model level to the fields so far |
| Context.APIContext.TypesView | src/api/APIContext.py:89-107 | the types view of the model (`TypesOf`) |
| Context.APIContext.TypesRec | src/api/APIContext.py:110-121 | the types view of one model level |
| Context.APIContext.GetSqlParts | src/api/APIContext.py:152-175 | the SQL frame of the flat fields' columns, the tables and the joins |
| Context.APIContext.SelectClause | src/api/APIContext.py:158-163 | SELECT of every column followed by ", ", with the last two characters chopped |
| Context.APIContext.FromClause | src/api/APIContext.py:164-167 | FROM every aliased table followed by ", ", with the last two characters chopped |
| Context.APIContext.WhereClause | src/api/APIContext.py:169-173 | WHERE every join followed by " AND ", with the last four characters chopped when there is a join |
| Context.APIContext.UnpackSingle | src/api/APIContext.py:178-201 | the nested view of a result row (`Unpack` of the types view), or None where Python raises IndexError |
| Context.APIContext.UnpackRec | src/api/APIContext.py:204-213 | unpacking one level of the types view |
| Context.APIContext.LastField | src/api/APIContext.py:193-196 | the search loop finds the last field with the display name (`LastIndex`) |
| Context.CompiledRoot | src/api/APIContext.py:43-61 | the root level has one entry per root column, named by the column, SQL-named under t1, and a branch exactly for the foreign keys; deeper names carry their relation path |
| Context.CompiledJoins | src/api/APIContext.py:57-61 | a compiled context has one join per table reached; join k targets the alias of table k+1 from an earlier table |
| Controller.Snap | src/api/APIController.py:56-70 | the snapshot the queries read has SQL-named model and flat fields |
| Controller.LastContext | src/api/APIController.py:56-62 | the last context with the requested name, or -1 exactly when none has it |
| Controller.KeyIndex | src/api/APIController.py:159-167 | the last root entry whose key is PRI, or -1 exactly when none is |
| Controller.ParamType | src/api/APIController.py:70-84 | the parameter type is one of str, bool, int, float and any; it is "any" exactly when the column type mentions none of char, text, int, float and real |
| Controller.ParamTypeIntegers | src/api/APIController.py:70-84 | an int-like column is never "float" or "any"; tinyint is classified as bool (or str) |
| Controller.Likes | src/api/APIController.py:98-105 | one `column LIKE q` condition per flat field, in order |
| Controller.OrderingAccepts | src/api/APIController.py:107-121 | the ordering checks pass exactly when order_by and order_dir come together and name a flat field and ASC or DESC with ASCII letters in any case (see Left out) |
| Controller.MultipleOutcome | src/api/APIController.py:38-128 | refusals are 400, or 500 exactly for a context with no tables; a request reaches the SQL exactly when it is acceptable |
| Controller.MultipleIgnoresWithoutQuery | src/api/APIController.py:86-96 | without q, the answer depends only on the context and on whether a page is asked |
| Controller.SearchText | src/api/APIController.py:98-127 | a passing q request's SQL is the frame, the LIKE conditions joined by AND, and one more " AND " directly before ORDER BY, LIMIT or ";" |
| Controller.SingleOutcome | src/api/APIController.py:131-186 | replies are 200, 400, 404 or 500; 200 exactly when the context exists with a table and a root primary key, one row comes back and every leaf finds a value |
| Controller.SingleRoundTrip | src/api/APIController.py:131-186 | with distinct display names and one full row, the reply is 200 and pairs every flat field's display name with its value |
| Controller.SingleSqlWhere | src/api/APIController.py:169-175 | the single query's WHERE is the joins, then AND, then the key condition, quoted exactly for varchar keys |
| Controller.APIController.constructor | src/api/APIController.py:25-35 | stores the contexts and the page limit |
| Controller.APIController.FindContext | src/api/APIController.py:56-62 | the lookup loop finds `LastContext` |
| Controller.APIController.KeyPosition | src/api/APIController.py:159-167 | the key loop finds `KeyIndex` |
| Controller.APIController.ParamLists | src/api/APIController.py:70-84 | one display name and one parameter type per flat field |
| Controller.APIController.UnexpectedKey | src/api/APIController.py:90-93 | true exactly when some request parameter is not one of order_by, order_dir, page, q |
| Controller.APIController.AppendLikes | src/api/APIController.py:98-105 | appends each LIKE condition followed by " AND " |
| Controller.APIController.QueryMultiple | src/api/APIController.py:38-128 | the answer is `Multiple` for the context found (None when none) |
| Controller.APIController.MultipleFor | src/api/APIController.py:64-127 | the answer is `Multiple` for the given context's snapshot |
| Controller.APIController.SearchLoop | src/api/APIController.py:90-127 | the answer is `Search` of the frame, the flat fields and the parameters |
| Controller.APIController.OrderBy | src/api/APIController.py:107-121 | the ORDER BY clause or the refusal message is `Ordering` |
| Controller.APIController.QuerySingle | src/api/APIController.py:131-186 | the reply is `Single` for the context found (None when none) and the database's answer |
| Controller.APIController.SingleFor | src/api/APIController.py:148-186 | the reply is `Single` for the given context's snapshot |
| Controller.APIController.KeyQuery | src/api/APIController.py:169-175 | the SQL text is `SingleSql` for the key field and the id |
| Controller.APIController.ReplyTo | src/api/APIController.py:180-186 | the reply to the returned rows is `RowsReply` |
| Resources.NumToStatus | src/falc/FalconResources.py:30-51 | the status has the given code exactly when the code is 200, 201, 204, 400, 404 or 500; any other number gives 500 |
| Resources.StatusRoundTrip | src/falc/FalconResources.py:30-51 | each status is recovered from its code |
| Resources.ArgsOfSpec | src/falc/FalconResources.py:25-27 | parsing fails exactly when a segment has no "="; otherwise the keys are the segments' keys, each with the value of its last segment |
| Resources.EmptyQueryFails | src/falc/FalconResources.py:20-28 | an empty query string cannot be parsed |
| Resources.QstrToArgs | src/falc/FalconResources.py:11-28 | both loops compute `Parse` of the query string |
| Resources.ParseEncode | src/falc/FalconResources.py:11-28 | parsing `k1=v1&k2=v2…` gives every key, each with the value of its last occurrence |
| Resources.ParseDropsExtraValue | src/falc/FalconResources.py:23-27 | in `k=v=w` only v is kept as the value |

## Left out

- Aliasing.AliasName.constructor: the model stores the alias list as a value. In the source the list is stored by reference (AliasName.py:55, :64): the caller's list and the mutable default `aliases=[]` are shared, so a later change to the caller's list, or to any name built with the default, shows through in this name.
- Aliasing.AliasName.AddAlias: appends to this name's own list only. In the source the append reaches every AliasName sharing the list, which includes all names built with the default list (DatabaseField.py:44, DatabaseTable.py:38).
- Aliasing.AliasName.AddAliases: appends to this name's own list only. As written (AliasName.py:153-155) it appends to a list that may be shared, so after `AliasName('a').add_aliases(['x'])` a fresh `AliasName('b')` also matches 'x'; the model's frame says no other name changes.
- Aliasing.AliasName.RemoveAlias: removes from this name's own list only, not from every name sharing it.
- Schema.DatabaseTable.constructor: gives the table a fresh alias name with its own empty list, where the source passes the shared default list (DatabaseTable.py:38).
- Schema.NewDatabase: Database.py:31 names the module `db`, which Database.py does not import (only ProtectionOption is imported at :7), so without a protection option the source raises NameError. The model builds the evident default protection option.
- Controller.OrderingAccepts: the direction check upper-cases ASCII letters only (`Text.Upper`). Python's `str.upper` at APIController.py:115 and :118 also maps other letters, e.g. 'ſ' (U+017F) to 'S', so `order_dir=deſc` is accepted by the source and refused (400) by the model.
- Python's dynamic type checks (`force_type`) become Dafny's types. Only the keyword and list arguments whose element types the source checks at run time keep a TypeError path: key fob keywords, add_alias/add_aliases/remove_alias, and connection protections.
- The `_branch` dict keys: the model tree is structural (a leaf or a branch with children). So a column whose qualified name itself contains `_branch` is not misclassified as a branch. Two fields with the same qualified name do not collapse into one dict key.
- Display-name collisions in the nested views: `Put` models Python's key replacement, but the round-trip lemmas require distinct display names.
- `fields.index(f)` in unpack_single is modelled by the position of the field, which is what it finds when no two flat fields are equal.
- Context.APIContext.constructor: requires a `rank` that makes the relations reachable from the root acyclic. The source has no visited set and recurses forever on a cycle.
- Context.APIContext.BranchRel: its contract states the new tables through `CloneOf` and does not repeat that every clone is fresh.
- Context.CompiledRoot: requires that root foreign-key columns have their display name equal to their column name, which holds for freshly built fields.
- The table-type database reference is the database's name; only `.name` is read.
- An APIContext's `schema` is stored but never read by the core.
- flat_fields declares two parameters it never uses and is called without them (APIContext.py:124, :159, :184; APIController.py:70). The model takes no arguments.
- APIController.py:75 uses `||`, which is not Python. The model takes the evident `or`.
- The indentation error at APIController.py:112 is modelled by its evident block structure.
- The multi-instance query is never sent to the database and returns nothing. Controller.Multiple ends at `Unanswered(sql)`, the SQL it built.
- `max = args['page'] * page_lim` is computed and never used; it is not modelled.
- The NONSP_TYPES table and the display-name and type lists built by the classification loop are unused by the source; ParamLists computes them as the source does.
- The LIKE value is never quoted because the source compares a type against `'str'` in a way that never holds. The model keeps the unquoted form.
- The `id` of a single query is modelled as the text `str(id)` produces.
- Controller.APIController.QuerySingle: `dbc.query` is the parameter `query`, a function from SQL text to rows. The connection, its I/O and its errors are not modelled.
- `print` calls, the HTTP handlers of FalconResources.py, the connection pool and DatabaseConnection.py are not part of this model.
- Falcon's status strings are abstracted as the datatype `Status` with its numeric code.
- Aliasing.AliasName.AddAlias: AliasName.py:121 checks the undefined `name`, so it raises NameError as written. The model checks the alias, as intended.
- Aliasing.AliasName.RemoveAlias: AliasName.py:177 checks the undefined `name`, and :183 calls `list.pop` with a string. The model checks the alias and removes its first occurrence, as `list.remove` would.
- ConnectionOptions.CheckKeywords: DatabaseConnectionOption.py:62 concatenates a dict to a string and raises TypeError instead of the intended NameError. The model returns the intended unknown-parameter error.
- Request parameters are a set of keys: one unexpected key refuses the request whatever the iteration order, so order plays no part.
