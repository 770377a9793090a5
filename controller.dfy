/** The request side of the API (src/api/APIController.py): finding a
    context by name, the single-instance query by primary key and the
    validation and SQL assembly of the multi-instance query. The database
    connection's `query` is a parameter: the rows it returns for a SQL text. */
module Controller {
  import opened Text
  import opened Schema
  import opened Model
  import opened Context

  /** NONSP_PARAMS: the request parameters every context accepts beside `q`. */
  const NonSpParams: seq<string> := ["order_by", "order_dir", "page", "q"]

  /** The body of a reply: a message, or a row unpacked into the types view. */
  datatype Body<V> = Message(text: string) | Json(items: seq<Item<V>>)

  /** What context_query_single does: return a body with an HTTP status, or
      let an exception out (IndexError from unpack_single). */
  datatype Reply<V> = Reply(body: Body<V>, status: int) | Raises(error: string)

  /** What context_query_multiple does: return a message with an HTTP status,
      or run off its end and return None, `sql` being the text it had built. */
  datatype Answer = Refused(message: string, status: int) | Unanswered(sql: string)

  /** The parts of a context a request reads. */
  datatype Snapshot = Snapshot(tables: nat, joins: seq<string>, model: seq<Entry>, fields: seq<Field>, frame: string)

  /** A snapshot whose root entries and flat fields all have SQL names. */
  predicate Ready(s: Snapshot)
  {
    SqlNamed(s.model) && SqlNamedFields(s.fields)
  }

  /** The snapshot of a context: its table count, joins, model, flat fields
      and the SQL frame get_sql_parts returns for it. */
  ghost function Snap(c: APIContext): (s: Snapshot)
    reads c, set t | t in c.tables
    requires c.QueryReady()
    ensures Ready(s) && s.fields == Flatten(c.model) && s.model == c.model
  {
    FlattenFields(c.model);
    Snapshot(|c.tables|, c.joins, c.model, Flatten(c.model), SqlText(Columns(Flatten(c.model)), Froms(c.tables), c.joins))
  }

  /** The position of the last context named `name`, or -1: the lookup loop
      keeps overwriting its match. */
  function LastContext(cs: seq<APIContext>, name: string): (r: int)
    ensures -1 <= r < |cs|
    ensures r >= 0 ==> cs[r].name == name && forall j :: r < j < |cs| ==> cs[j].name != name
    ensures r == -1 <==> forall j :: 0 <= j < |cs| ==> cs[j].name != name
  {
    if |cs| == 0 then -1
    else if cs[|cs| - 1].name == name then |cs| - 1
    else LastContext(cs[..|cs| - 1], name)
  }

  /** The position of the last root entry whose column key is 'PRI', or -1.
      A foreign-key entry counts too: its field is stored under its own key,
      apart from the branch dict the loop skips. */
  function KeyIndex(m: seq<Entry>): (r: int)
    ensures -1 <= r < |m|
    ensures r >= 0 ==> m[r].field.key == "PRI" && forall j :: r < j < |m| ==> m[j].field.key != "PRI"
    ensures r == -1 <==> forall j :: 0 <= j < |m| ==> m[j].field.key != "PRI"
  {
    if |m| == 0 then -1
    else if m[|m| - 1].field.key == "PRI" then |m| - 1
    else KeyIndex(m[..|m| - 1])
  }

  // ---------------------------------------------------------------- parameter types

  /** The parameter type of a column type, the first rule that applies
      winning: char/text, tinyint, int, float/real, anything else. */
  function ParamType(typ: string): (r: string)
    ensures r in ["str", "bool", "int", "float", "any"]
    ensures r == "any" <==> !Contains(typ, "char") && !Contains(typ, "text") && !Contains(typ, "int")
                            && !Contains(typ, "float") && !Contains(typ, "real")
  {
    if Contains(typ, "char") || Contains(typ, "text") then "str"
    else if Contains(typ, "tinyint") then (TinyintIsInt(typ); "bool")
    else if Contains(typ, "int") then "int"
    else if Contains(typ, "float") || Contains(typ, "real") then "float"
    else "any"
  }

  /** Every type naming tinyint also names int. */
  lemma TinyintIsInt(typ: string)
    requires Contains(typ, "tinyint")
    ensures Contains(typ, "int")
  {
    ContainsIff(typ, "tinyint");
    var i :| OccursAt(typ, "tinyint", i);
    assert typ[i + 4..i + 7] == typ[i..i + 7][4..7];
    assert OccursAt(typ, "int", i + 4);
    ContainsIff(typ, "int");
  }

  /** Integer column types are never classified as float or any, and
      tinyint, though it names int, is classified bool unless it also names
      char or text. */
  lemma ParamTypeIntegers(typ: string)
    ensures Contains(typ, "int") ==> ParamType(typ) in ["str", "bool", "int"]
    ensures Contains(typ, "tinyint") ==> ParamType(typ) in ["str", "bool"]
  {
  }

  // ---------------------------------------------------------------- context_query_multiple

  /** The `<sql_name> LIKE <q>` condition of every flat field; the value is
      not quoted, since the source's `type == 'str'` test compares the
      builtin `type` and never holds. */
  function Likes(fs: seq<Field>, q: string): (r: seq<string>)
    requires SqlNamedFields(fs)
    ensures |r| == |fs| && forall k :: 0 <= k < |fs| ==> r[k] == fs[k].sqlName.value + " LIKE " + q
  {
    seq(|fs|, k requires 0 <= k < |fs| => fs[k].sqlName.value + " LIKE " + q)
  }

  /** The ORDER BY suffix of a `q` request, or the message of its refusal. */
  function Ordering(fs: seq<Field>, args: map<string, string>): Result<string, string>
    requires SqlNamedFields(fs)
  {
    if "order_by" !in args && "order_dir" !in args then Ok("")
    else if "order_by" !in args || "order_dir" !in args then
      Err("Bad parameters: 'order_by' and 'order_dir' must both be present")
    else
      var i := LastIndex(fs, args["order_by"]);
      var dir := Upper(args["order_dir"]);
      if i == -1 then Err("Bad parameter: 'order_by' not a valid field")
      else if dir !in ["ASC", "DESC"] then Err("Bad parameter: 'order_dir' not a valid value")
      else Ok("\nORDER BY " + fs[i].sqlName.value + " " + dir)
  }

  /** context_query_multiple for the context found (None when no context has
      the name) and the request parameters. */
  function Multiple(name: string, s: Option<Snapshot>, args: map<string, string>, pageLim: int): Answer
    requires s.Some? ==> Ready(s.value)
  {
    if s.None? then Refused("Bad model/context requested: '" + name + "'", 400)
    else if s.value.tables < 1 then Refused("Bad model/context processing: '" + name + "'", 500)
    else if "page" in args && pageLim == 0 then Refused("Bad 'page' parameter, api not using paging", 400)
    else
      var frame := s.value.frame + (if |s.value.joins| != 0 then " \n\tAND " else "");
      if "q" !in args then Unanswered(frame) else Search(frame, s.value.fields, args)
  }

  /** The `q` part of context_query_multiple, after the frame `sql`. */
  function Search(sql: string, fs: seq<Field>, args: map<string, string>): Answer
    requires SqlNamedFields(fs) && "q" in args
  {
    if exists k :: k in args && k !in NonSpParams then Refused("Bad parameters for 'q'", 400)
    else
      var order := Ordering(fs, args);
      if order.Err? then Refused(order.error, 400)
      else
        Unanswered(sql + Terminated(Likes(fs, args["q"]), " AND ") + order.value
                   + (if "page" in args then "\nLIMIT " + args["page"] + ";" else ";"))
  }

  /** What a request must satisfy to get past every check, stated on the
      parameters: a `q` request may carry only the shared parameters, names
      both or neither of order_by and order_dir, orders by a display name of
      a flat field and in direction asc or desc in any case. */
  predicate Acceptable(s: Snapshot, args: map<string, string>, pageLim: int)
  {
    && s.tables >= 1
    && !("page" in args && pageLim == 0)
    && ("q" in args ==>
          && (forall k :: k in args ==> k in NonSpParams)
          && ("order_by" in args <==> "order_dir" in args)
          && ("order_by" in args ==>
                && (exists j :: 0 <= j < |s.fields| && s.fields[j].apiName == args["order_by"])
                && Upper(args["order_dir"]) in ["ASC", "DESC"]))
  }

  /** Refusals are client errors, except a context with no tables, which is
      the one server error; a request passes every check exactly when it is
      acceptable. */
  lemma MultipleOutcome(name: string, s: Option<Snapshot>, args: map<string, string>, pageLim: int)
    requires s.Some? ==> Ready(s.value)
    ensures var r := Multiple(name, s, args, pageLim);
      && (r.Refused? ==> r.status == 400 || r.status == 500)
      && (r.Refused? && r.status == 500 <==> s.Some? && s.value.tables < 1)
      && (r.Unanswered? <==> s.Some? && Acceptable(s.value, args, pageLim))
  {
    if s.Some? {
      OrderingAccepts(s.value.fields, args);
    }
  }

  /** The ORDER BY checks pass exactly when both or neither parameter is
      given and, when given, they name a flat field and a direction. */
  lemma OrderingAccepts(fs: seq<Field>, args: map<string, string>)
    requires SqlNamedFields(fs)
    ensures Ordering(fs, args).Ok? <==>
      && ("order_by" in args <==> "order_dir" in args)
      && ("order_by" in args ==>
            && (exists j :: 0 <= j < |fs| && fs[j].apiName == args["order_by"])
            && Upper(args["order_dir"]) in ["ASC", "DESC"])
  {
    if "order_by" in args {
      var i := LastIndex(fs, args["order_by"]);
      assert i != -1 <==> exists j :: 0 <= j < |fs| && fs[j].apiName == args["order_by"];
    }
  }

  /** Without `q` the request's other parameters are never read: two
      requests that agree on whether they page get the same answer. */
  lemma MultipleIgnoresWithoutQuery(name: string, s: Option<Snapshot>, a: map<string, string>, b: map<string, string>,
                                    pageLim: int)
    requires s.Some? ==> Ready(s.value)
    requires "q" !in a && "q" !in b && ("page" in a <==> "page" in b)
    ensures Multiple(name, s, a, pageLim) == Multiple(name, s, b, pageLim)
  {
  }

  /** What may follow the LIKE conditions: the closing `;`, or an ORDER BY
      or LIMIT clause. */
  predicate Closing(t: string)
  {
    t == ";" || (|t| >= 10 && t[..10] == "\nORDER BY ") || (|t| >= 7 && t[..7] == "\nLIMIT ")
  }

  /** When a `q` request over at least one field passes, its text is the
      frame, the LIKE conditions joined by AND, and one more AND that is
      followed directly by the ORDER BY suffix or the closing clause. */
  lemma SearchText(sql: string, fs: seq<Field>, args: map<string, string>)
    requires SqlNamedFields(fs) && "q" in args && |fs| > 0
    requires Search(sql, fs, args).Unanswered?
    ensures var head := sql + JoinSep(Likes(fs, args["q"]), " AND ") + " AND ";
      var text := Search(sql, fs, args).sql;
      |head| <= |text| && text[..|head|] == head && Closing(text[|head|..])
  {
    var likes := Likes(fs, args["q"]);
    TerminatedIsJoinPlusSep(likes, " AND ");
    var head := sql + JoinSep(likes, " AND ") + " AND ";
    var order := Ordering(fs, args).value;
    var limit := if "page" in args then "\nLIMIT " + args["page"] + ";" else ";";
    var text := Search(sql, fs, args).sql;
    assert text == head + (order + limit);
    assert text[|head|..] == order + limit;
    if order != "" {
      assert (order + limit)[..10] == order[..10];
    }
  }

  // ---------------------------------------------------------------- context_query_single

  /** The condition on the primary key: the id is quoted exactly when the
      key column's type names varchar. */
  function KeyCondition(key: Field, id: string): string
    requires key.sqlName.Some?
  {
    if Contains(key.typ, "varchar") then key.sqlName.value + "=\"" + id + "\";"
    else key.sqlName.value + "=" + id + ";"
  }

  /** The single-instance query: the frame, an AND when the frame ends in
      join conditions, and the key condition. */
  function SingleSql(s: Snapshot, key: Field, id: string): string
    requires key.sqlName.Some?
  {
    s.frame + (if |s.joins| != 0 then " \n\tAND " else "") + KeyCondition(key, id)
  }

  /** The reply to the rows the database returned: none is 404, one is the
      unpacked row, more is a server error. */
  function RowsReply<V>(rows: seq<seq<V>>, s: Snapshot): Reply<V>
  {
    if |rows| == 0 then Reply(Message(""), 404)
    else if |rows| == 1 then
      var data := Unpack(TypesOf(s.model), s.fields, rows[0]);
      if data.None? then Raises("IndexError") else Reply(Json(data.value), 200)
    else Reply(Message("Found more than expected contexts"), 500)
  }

  /** context_query_single for the context found (None when no context has
      the name), the id's text and the database's answer to a SQL text. */
  function Single<V>(name: string, s: Option<Snapshot>, id: string, query: string -> seq<seq<V>>): Reply<V>
    requires s.Some? ==> Ready(s.value)
  {
    if s.None? then Reply(Message("Bad model/context requested: '" + name + "'"), 400)
    else if s.value.tables < 1 then Reply(Message("Bad model/context processing: '" + name + "'"), 500)
    else
      var k := KeyIndex(s.value.model);
      if k == -1 then Reply(Message("No primary key field found for '" + name + "'"), 500)
      else RowsReply(query(SingleSql(s.value, s.value.model[k].field, id)), s.value)
  }

  /** The statuses a single query can reply with, and when it succeeds: the
      context exists and has a table and a root primary key, the database
      returns exactly one row, and every leaf finds its value in it. */
  lemma SingleOutcome<V>(name: string, s: Option<Snapshot>, id: string, query: string -> seq<seq<V>>)
    requires s.Some? ==> Ready(s.value)
    ensures var r := Single(name, s, id, query);
      && (r.Reply? ==> r.status in [200, 400, 404, 500])
      && (r.Reply? && r.status == 200 <==>
            && s.Some? && s.value.tables >= 1 && KeyIndex(s.value.model) >= 0
            && var rows := query(SingleSql(s.value, s.value.model[KeyIndex(s.value.model)].field, id));
            |rows| == 1 && Unpack(TypesOf(s.value.model), s.value.fields, rows[0]).Some?)
      && (r.Reply? && r.status == 200 ==> r.body.Json?)
  {
  }

  /** When display names are distinct and the database returns one row with
      a value per flat field, the reply is 200 and its leaves pair each
      field's display name with that field's value, in order. */
  lemma SingleRoundTrip<V>(name: string, c: Snapshot, id: string, query: string -> seq<seq<V>>)
    requires Ready(c) && c.fields == Flatten(c.model) && c.tables >= 1 && KeyIndex(c.model) >= 0
    requires DistinctKeys(c.model)
    requires forall i, j :: 0 <= i < j < |c.fields| ==> c.fields[i].apiName != c.fields[j].apiName
    requires var rows := query(SingleSql(c, c.model[KeyIndex(c.model)].field, id));
      |rows| == 1 && |rows[0]| == |c.fields|
    ensures var r := Single(name, Some(c), id, query);
      && r.Reply? && r.status == 200 && r.body.Json?
      && var row := query(SingleSql(c, c.model[KeyIndex(c.model)].field, id))[0];
      && |Leaves(r.body.items)| == |row|
      && forall k :: 0 <= k < |row| ==> Leaves(r.body.items)[k] == (c.fields[k].apiName, row[k])
  {
    var row := query(SingleSql(c, c.model[KeyIndex(c.model)].field, id))[0];
    UnpackRoundTrip(c.model, row);
  }

  /** With a column and a table, the single query's WHERE clause is the
      join conditions followed by the key condition. */
  lemma SingleSqlWhere(columns: seq<string>, froms: seq<string>, joins: seq<string>, s: Snapshot, key: Field, id: string)
    requires |columns| > 0 && |froms| > 0 && key.sqlName.Some?
    requires s.frame == SqlText(columns, froms, joins) && s.joins == joins
    ensures SingleSql(s, key, id)
         == "SELECT \n\t" + JoinSep(columns, ", ") + " \nFROM\n\t" + JoinSep(froms, ", ") + " \nWHERE\n\t"
            + (if |joins| > 0 then JoinSep(joins, " AND ") + "  \n\tAND " else "") + KeyCondition(key, id)
  {
    SqlTextJoined(columns, froms, joins);
  }

  /** The controller: the contexts it serves and the page limit (0 for no
      paging). */
  class APIController {
    const contexts: seq<APIContext>
    const pageLim: int

    constructor (contexts: seq<APIContext>, pageLim: int)
      ensures this.contexts == contexts && this.pageLim == pageLim
    {
      this.contexts := contexts;
      this.pageLim := pageLim;
    }

    /** The lookup loop shared by both queries. */
    method FindContext(name: string) returns (i: int)
      ensures i == LastContext(contexts, name)
    {
      i := -1;
      var j := 0;
      while j < |contexts|
        invariant 0 <= j <= |contexts| && i == LastContext(contexts[..j], name)
      {
        assert contexts[..j + 1][..j] == contexts[..j];
        if contexts[j].name == name {
          i := j;
        }
        j := j + 1;
      }
      assert contexts[..|contexts|] == contexts;
    }

    /** The primary-key search over the root model. */
    method KeyPosition(m: seq<Entry>) returns (k: int)
      ensures k == KeyIndex(m)
    {
      k := -1;
      var j := 0;
      while j < |m|
        invariant 0 <= j <= |m| && k == KeyIndex(m[..j])
      {
        assert m[..j + 1][..j] == m[..j];
        if m[j].field.key == "PRI" {
          k := j;
        }
        j := j + 1;
      }
      assert m[..|m|] == m;
    }

    /** The valid_params / param_types loop: the display name and the
        parameter type of every flat field. */
    method ParamLists(fields: seq<Field>) returns (valid: seq<string>, types: seq<string>)
      ensures |valid| == |fields| && |types| == |fields|
      ensures forall k :: 0 <= k < |fields| ==> valid[k] == fields[k].apiName && types[k] == ParamType(fields[k].typ)
    {
      valid, types := [], [];
      var j := 0;
      while j < |fields|
        invariant 0 <= j <= |fields| && |valid| == j && |types| == j
        invariant forall k :: 0 <= k < j ==> valid[k] == fields[k].apiName && types[k] == ParamType(fields[k].typ)
      {
        valid := valid + [fields[j].apiName];
        types := types + [ParamType(fields[j].typ)];
        j := j + 1;
      }
    }

    /** The check of a `q` request's keys: whether one is not shared. */
    method UnexpectedKey(args: map<string, string>) returns (bad: bool)
      ensures bad <==> exists k :: k in args && k !in NonSpParams
    {
      var keys := args.Keys;
      bad := false;
      while keys != {}
        invariant keys <= args.Keys
        invariant forall k :: k in args && k !in keys ==> k in NonSpParams
        decreases keys
      {
        var k :| k in keys;
        if k !in NonSpParams {
          return true;
        }
        keys := keys - {k};
      }
    }

    /** The LIKE loop: one `<sql_name> LIKE <q> AND ` per flat field. */
    method AppendLikes(sql: string, fields: seq<Field>, q: string) returns (r: string)
      requires SqlNamedFields(fields)
      ensures r == sql + Terminated(Likes(fields, q), " AND ")
    {
      r := sql;
      ghost var likes := Likes(fields, q);
      var j := 0;
      while j < |fields|
        invariant 0 <= j <= |fields| && r == sql + Terminated(likes[..j], " AND ")
      {
        r := r + fields[j].sqlName.value + " LIKE " + q + " AND ";
        TerminatedSnoc(likes[..j], likes[j], " AND ");
        assert likes[..j + 1] == likes[..j] + [likes[j]];
        j := j + 1;
      }
      assert likes[..|fields|] == likes;
    }

    /** context_query_multiple: the validation of the request and the SQL it
        assembles. */
    method QueryMultiple(name: string, args: map<string, string>) returns (r: Answer)
      requires forall c :: c in contexts ==> c.QueryReady()
      ensures var i := LastContext(contexts, name);
        r == Multiple(name, if i == -1 then None else Some(Snap(contexts[i])), args, pageLim)
    {
      var i := FindContext(name);
      if i == -1 {
        return Refused("Bad model/context requested: '" + name + "'", 400);
      }
      r := MultipleFor(contexts[i], name, args);
    }

    /** context_query_multiple once the context is found. */
    method MultipleFor(c: APIContext, name: string, args: map<string, string>) returns (r: Answer)
      requires c.QueryReady()
      ensures r == Multiple(name, Some(Snap(c)), args, pageLim)
    {
      ghost var s := Snap(c);
      if |c.tables| < 1 {
        return Refused("Bad model/context processing: '" + name + "'", 500);
      }
      if "page" in args && pageLim == 0 {
        return Refused("Bad 'page' parameter, api not using paging", 400);
      }
      var fields := c.FlatFields();
      var valid, types := ParamLists(fields);
      var sql := c.GetSqlParts();
      if |c.joins| != 0 {
        sql := sql + " \n\tAND ";
      }
      assert sql == s.frame + (if |s.joins| != 0 then " \n\tAND " else "");
      if "q" !in args {
        return Unanswered(sql);
      }
      r := SearchLoop(c, sql, fields, args);
    }

    /** The `q` part of context_query_multiple. */
    method SearchLoop(c: APIContext, sql: string, fields: seq<Field>, args: map<string, string>) returns (r: Answer)
      requires SqlNamedFields(fields) && "q" in args
      ensures r == Search(sql, fields, args)
    {
      var bad := UnexpectedKey(args);
      if bad {
        return Refused("Bad parameters for 'q'", 400);
      }
      var text := AppendLikes(sql, fields, args["q"]);
      var order := OrderBy(c, fields, args);
      if order.Err? {
        return Refused(order.error, 400);
      }
      text := text + order.value;
      if "page" in args {
        text := text + "\nLIMIT " + args["page"] + ";";
      } else {
        text := text + ";";
      }
      r := Unanswered(text);
    }

    /** The order_by / order_dir checks of a `q` request and the ORDER BY
        clause they select. */
    method OrderBy(c: APIContext, fields: seq<Field>, args: map<string, string>) returns (r: Result<string, string>)
      requires SqlNamedFields(fields)
      ensures r == Ordering(fields, args)
    {
      r := Ok("");
      if "order_by" in args || "order_dir" in args {
        if "order_by" in args && "order_dir" in args {
          var ind := c.LastField(fields, args["order_by"]);
          if ind == -1 {
            return Err("Bad parameter: 'order_by' not a valid field");
          }
          var dir := Upper(args["order_dir"]);
          if dir !in ["ASC", "DESC"] {
            return Err("Bad parameter: 'order_dir' not a valid value");
          }
          r := Ok("\nORDER BY " + fields[ind].sqlName.value + " " + dir);
        } else {
          r := Err("Bad parameters: 'order_by' and 'order_dir' must both be present");
        }
      }
    }

    /** context_query_single: the key lookup, the query text, one call to
        the database and the reply to the rows it returns. */
    method QuerySingle<V>(name: string, id: string, query: string -> seq<seq<V>>) returns (r: Reply<V>)
      requires forall c :: c in contexts ==> c.QueryReady()
      ensures var i := LastContext(contexts, name);
        r == Single(name, if i == -1 then None else Some(Snap(contexts[i])), id, query)
    {
      var i := FindContext(name);
      if i == -1 {
        return Reply(Message("Bad model/context requested: '" + name + "'"), 400);
      }
      r := SingleFor(contexts[i], name, id, query);
    }

    /** context_query_single once the context is found. */
    method SingleFor<V>(c: APIContext, name: string, id: string, query: string -> seq<seq<V>>) returns (r: Reply<V>)
      requires c.QueryReady()
      ensures r == Single(name, Some(Snap(c)), id, query)
    {
      ghost var s := Snap(c);
      if |c.tables| < 1 {
        return Reply(Message("Bad model/context processing: '" + name + "'"), 500);
      }
      var k := KeyPosition(c.model);
      if k == -1 {
        return Reply(Message("No primary key field found for '" + name + "'"), 500);
      }
      var key := c.model[k].field;
      var sql := KeyQuery(c, key, id);
      var rows := query(sql);
      r := ReplyTo(c, rows);
    }

    /** The SQL text of a single query for the key column `key`. */
    method KeyQuery(c: APIContext, key: Field, id: string) returns (sql: string)
      requires c.QueryReady() && key.sqlName.Some?
      ensures sql == SingleSql(Snap(c), key, id)
    {
      var frame := c.GetSqlParts();
      assert frame == Snap(c).frame;
      if |c.joins| != 0 {
        frame := frame + " \n\tAND ";
      }
      sql := frame + KeyCondition(key, id);
    }

    /** The reply to the rows of a single query. */
    method ReplyTo<V>(c: APIContext, rows: seq<seq<V>>) returns (r: Reply<V>)
      requires c.QueryReady()
      ensures r == RowsReply(rows, Snap(c))
    {
      if |rows| == 0 {
        r := Reply(Message(""), 404);
      } else if |rows| == 1 {
        var data := c.UnpackSingle(rows[0]);
        if data.None? {
          r := Raises("IndexError");
        } else {
          r := Reply(Json(data.value), 200);
        }
      } else {
        r := Reply(Message("Found more than expected contexts"), 500);
      }
    }
  }
}
