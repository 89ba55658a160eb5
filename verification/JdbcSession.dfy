/** The extended-query side of a JDBC session (session.rs): statements, portals and the
    failed flag, updated message by message. */
module JdbcSession {
  import opened Text
  import opened Wire
  import opened Rewrite
  import opened JdbcBind

  type Name = Bytes

  const STATEMENT: byte := 0x53

  datatype Prepared = Prepared(rewritten: Rewritten, original: string)

  datatype Portal = Portal(statement: Name, values: seq<Option<Value>>)

  /** What an Execute leads to. */
  datatype Executed =
    | Skipped
    | NoSuchPortal
    | StatementGone
    | Controlled
    | Ran(sql: string, values: seq<Option<Value>>)

  /** The text a portal was bound to and the values the client sent with it. */
  datatype Binding = Binding(sql: string, sent: seq<Option<Value>>)

  class Session {
    var statements: map<Name, Prepared>
    var portals: map<Name, Portal>
    var failed: bool
    ghost var bound: map<Name, Binding>

    /** Every portal names a statement that still exists and holds the values its Bind built. */
    ghost predicate Valid()
      reads this
    {
      && (forall n :: n in statements ==> statements[n].rewritten == ToJdbc(statements[n].original))
      && portals.Keys == bound.Keys
      && (forall p :: p in portals ==> portals[p].statement in statements)
      && (forall p :: p in portals ==>
            portals[p].values == BindValues(ToJdbc(bound[p].sql).order, bound[p].sent))
    }

    /** The portal's statement still is the one it was bound to. */
    ghost predicate NotReparsed(portal: Name)
      requires Valid() && portal in portals
      reads this
    {
      statements[portals[portal].statement].original == bound[portal].sql
    }

    constructor ()
      ensures Valid() && statements == map[] && portals == map[] && !failed
    {
      statements, portals, failed := map[], map[], false;
      bound := map[];
    }

    /** `described` is whether the agent could describe the translated statement. */
    method Parse(name: Name, sql: string, described: bool)
      requires Valid()
      modifies this
      ensures Valid() && portals == old(portals) && bound == old(bound)
      ensures failed == (old(failed) || !described)
      ensures statements == if failed then old(statements) else old(statements)[name := Prepared(ToJdbc(sql), sql)]
    {
      if failed { return; }
      if !described {
        failed := true;
        return;
      }
      var rewritten := Translate(sql);
      statements := statements[name := Prepared(rewritten, sql)];
    }

    /** The values are picked by the statement's order out of the ones the message carries. */
    method Bind(body: Bytes)
      requires Valid()
      modifies this
      ensures Valid() && statements == old(statements)
      ensures var m := DecodeBind(body);
              && failed == (old(failed) || m.statement !in statements)
              && (failed ==> portals == old(portals) && bound == old(bound))
              && (!failed ==>
                    var prepared := statements[m.statement];
                    && portals == old(portals)[m.portal := Portal(m.statement, BindValues(prepared.rewritten.order, m.sent))]
                    && bound == old(bound)[m.portal := Binding(prepared.original, m.sent)]
                    && NotReparsed(m.portal))
    {
      hide ToJdbc, DecodeBind;
      if failed { return; }
      var m := ReadBind(body);
      if m.statement !in statements {
        failed := true;
        return;
      }
      var order := statements[m.statement].rewritten.order;
      var values: seq<Option<Value>> := [];
      for k := 0 to |order|
        invariant values == BindValues(order, m.sent)[..k]
      {
        values := values + [Sent(m.sent, order[k])];
      }
      assert values == BindValues(order, m.sent);
      hide BindValues;
      portals := portals[m.portal := Portal(m.statement, values)];
      bound := bound[m.portal := Binding(statements[m.statement].original, m.sent)];
    }

    /** The "statement is gone" answer never happens. Unless its statement was parsed again
        after the Bind, what runs carries one value per `?` the translation wrote, and is the
        statement the client bound, filled the way the client meant, exactly when that
        statement has no `$0` and no `?` of its own. */
    method Execute(name: Name, control: string -> bool, answered: bool) returns (r: Executed)
      requires Valid()
      modifies this`failed
      ensures Valid()
      ensures r != StatementGone
      ensures r.Skipped? <==> old(failed)
      ensures r.NoSuchPortal? <==> !old(failed) && name !in portals
      ensures failed == (old(failed) || r.NoSuchPortal? || !answered)
      ensures r.Controlled? <==>
                !old(failed) && name in portals && control(statements[portals[name].statement].original)
      ensures r.Ran? ==>
                r.sql == statements[portals[name].statement].rewritten.sql && r.values == portals[name].values
      ensures r.Ran? && NotReparsed(name) ==>
                && r.sql == ToJdbc(bound[name].sql).sql
                && |r.values| == |ToJdbc(bound[name].sql).order|
                && (FillJdbc(Lex(r.sql), r.values) == Some(FillDollar(Lex(bound[name].sql), bound[name].sent))
                    <==> Translatable(Lex(bound[name].sql)))
    {
      hide Lex, Out, Order, Highest, FillJdbc, FillDollar, Translatable;
      if failed { return Skipped; }
      if name !in portals {
        failed := true;
        return NoSuchPortal;
      }
      var portal := portals[name];
      if portal.statement !in statements {
        return StatementGone;
      }
      var prepared := statements[portal.statement];
      failed := !answered;
      if control(prepared.original) {
        return Controlled;
      }
      TranslationKeepsMeaning(bound[name].sql, bound[name].sent);
      return Ran(prepared.rewritten.sql, portal.values);
    }

    /** Closing a statement closes the portals bound to it; it is not skipped after a failure. */
    method Close(kind: byte, name: Name)
      requires Valid()
      modifies this
      ensures Valid() && failed == old(failed)
      ensures kind == 0x53 ==>
                && statements == old(statements) - {name}
                && portals == (map p | p in old(portals) && old(portals)[p].statement != name :: old(portals)[p])
      ensures kind != 0x53 ==> statements == old(statements) && portals == old(portals) - {name}
      ensures forall p :: p in portals ==> bound[p] == old(bound)[p]
    {
      hide ToJdbc, BindValues;
      if kind == STATEMENT {
        statements := statements - {name};
        portals := map p | p in portals && portals[p].statement != name :: portals[p];
      } else {
        portals := portals - {name};
      }
      bound := map p | p in bound && p in portals :: bound[p];
    }

    method Sync()
      requires Valid()
      modifies this`failed
      ensures Valid() && !failed
    {
      failed := false;
    }
  }
}
