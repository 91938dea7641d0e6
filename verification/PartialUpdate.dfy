/**
 Three partial `UPDATE`s that build their text and their bound values side by side, each numbering its placeholders in
 its own way. The statements are interpreted as the database does: a placeholder is a position in the bound values.
 */
module PartialUpdate {
  import opened Common

  datatype Column =
    | Name | Description | PriceKes | DurationMinutes | SpeedMbps | DataQuotaMb
    | Host | Port | Username | PasswordEncrypted | SiteName
    | Email | Phone | HashedPassword | Role | ResellerId | IsActive

  /** A bound value: an id, or whatever a column holds. */
  datatype Value = Null | Id(id: nat) | Data(data: int) | Flag(on: bool)

  datatype Row = Row(tenant: nat, columns: map<Column, Value>, updatedAt: int)

  type Table = map<nat, Row>

  /** `column = $placeholder` */
  datatype Assignment = Assignment(column: Column, placeholder: nat)

  /** `SET sets[, updated_at = NOW()] WHERE id = $idAt AND tenant_id = $tenantAt [AND is_active = TRUE]` */
  datatype Statement = Statement(
    sets: seq<Assignment>, touch: bool, idAt: nat, tenantAt: nat, activeOnly: bool, values: seq<Value>)

  // ---------------------------------------------------------------- what a statement does

  predicate InBounds(sets: seq<Assignment>, values: seq<Value>) {
    forall i :: 0 <= i < |sets| ==> 1 <= sets[i].placeholder <= |values|
  }

  /** Every placeholder is bound and no column is set twice; otherwise the database raises. */
  predicate WellFormed(st: Statement) {
    && InBounds(st.sets, st.values) && 1 <= st.idAt <= |st.values| && 1 <= st.tenantAt <= |st.values|
    && forall i, j :: 0 <= i < j < |st.sets| ==> st.sets[i].column != st.sets[j].column
  }

  /** The new values of the columns set. */
  function Assigned(sets: seq<Assignment>, values: seq<Value>): map<Column, Value>
    requires InBounds(sets, values)
  {
    if sets == [] then map[]
    else
      var last := sets[|sets| - 1];
      Assigned(sets[..|sets| - 1], values)[last.column := values[last.placeholder - 1]]
  }

  predicate IsOn(row: Row) {
    IsActive in row.columns && row.columns[IsActive] == Flag(true)
  }

  function Execute(st: Statement, table: Table, now: int): Table
    requires WellFormed(st)
  {
    map id | id in table ::
      var row := table[id];
      if st.values[st.idAt - 1] == Id(id) && st.values[st.tenantAt - 1] == Id(row.tenant)
        && (st.activeOnly ==> IsOn(row))
      then Row(row.tenant, row.columns + Assigned(st.sets, st.values), if st.touch then now else row.updatedAt)
      else row
  }

  // ---------------------------------------------------------------- what a partial update is for

  /** What the caller supplied, in the order of the builder: a column with a value, or nothing for it. */
  datatype Field = Field(column: Column, value: Option<Value>)

  predicate DistinctColumns(fields: seq<Field>) {
    forall i, j :: 0 <= i < j < |fields| ==> fields[i].column != fields[j].column
  }

  predicate NothingIn(fields: seq<Field>) {
    forall i :: 0 <= i < |fields| ==> fields[i].value.None?
  }

  /**
   The one specification of the three: no row but the one with this id and tenant changes, and of that row exactly the
   supplied columns, which get the supplied values, and the time stamp where the table has one.
   */
  ghost predicate Updates(before: Table, after: Table, id: nat, tenant: nat, fields: seq<Field>,
                          activeOnly: bool, touch: bool, now: int) {
    && after.Keys == before.Keys
    && (forall other :: other in before && other != id ==> after[other] == before[other])
    && (id in before ==>
          if before[id].tenant != tenant || (activeOnly && !IsOn(before[id])) then after[id] == before[id]
          else
            && after[id].tenant == tenant
            && after[id].updatedAt == (if touch then now else before[id].updatedAt)
            && (forall c: Column :: Fetch(after[id].columns, c) == Chosen(fields, c, Fetch(before[id].columns, c))))
  }

  function Fetch(columns: map<Column, Value>, c: Column): Option<Value> {
    if c in columns then Some(columns[c]) else None
  }

  /** The value supplied for the column, or the one it had. */
  function Chosen(fields: seq<Field>, c: Column, had: Option<Value>): Option<Value> {
    if fields == [] then had
    else
      var last := fields[|fields| - 1];
      if last.column == c && last.value.Some? then last.value else Chosen(fields[..|fields| - 1], c, had)
  }

  /** Column by column: the value of the one field that supplies it, and otherwise what was there. */
  lemma {:induction false} ChosenExactly(fields: seq<Field>, c: Column, had: Option<Value>)
    requires DistinctColumns(fields)
    ensures forall i :: 0 <= i < |fields| && fields[i].column == c && fields[i].value.Some? ==>
              Chosen(fields, c, had) == fields[i].value
    ensures (forall i :: 0 <= i < |fields| && fields[i].column == c ==> fields[i].value.None?) ==>
              Chosen(fields, c, had) == had
  {
    if fields != [] {
      ChosenExactly(fields[..|fields| - 1], c, had);
    }
  }

  /** The specification leaves no choice, so statements that meet it are interchangeable. */
  lemma UpdatesUnique(before: Table, a: Table, b: Table, id: nat, tenant: nat, fields: seq<Field>,
                      activeOnly: bool, touch: bool, now: int)
    requires Updates(before, a, id, tenant, fields, activeOnly, touch, now)
    requires Updates(before, b, id, tenant, fields, activeOnly, touch, now)
    ensures a == b
  {
    if id in before && !(before[id].tenant != tenant || (activeOnly && !IsOn(before[id]))) {
      forall c: Column
        ensures c in a[id].columns <==> c in b[id].columns
        ensures c in a[id].columns ==> a[id].columns[c] == b[id].columns[c]
      {
        assert Fetch(a[id].columns, c) == Fetch(b[id].columns, c);
      }
      assert a[id].columns == b[id].columns;
    }
    forall other | other in before ensures a[other] == b[other] {}
    assert a.Keys == b.Keys;
  }

  // ---------------------------------------------------------------- the builders' loop invariant

  /** The assignments so far, interpreted against the values so far, are the fields so far. */
  ghost predicate Interprets(sets: seq<Assignment>, values: seq<Value>, fields: seq<Field>) {
    && InBounds(sets, values)
    && forall c: Column :: Fetch(Assigned(sets, values), c) == Chosen(fields, c, None)
  }

  /** Only columns of the fields are set, none of them twice, and none only if nothing was supplied. */
  ghost predicate Names(sets: seq<Assignment>, fields: seq<Field>) {
    && (forall i :: 0 <= i < |sets| ==> Named(fields, sets[i].column))
    && (forall i, j :: 0 <= i < j < |sets| ==> sets[i].column != sets[j].column)
    && (sets == [] <==> NothingIn(fields))
  }

  ghost predicate Named(fields: seq<Field>, c: Column) {
    exists k :: 0 <= k < |fields| && fields[k].column == c
  }

  ghost predicate Builds(sets: seq<Assignment>, values: seq<Value>, fields: seq<Field>) {
    Interprets(sets, values, fields) && Names(sets, fields)
  }

  lemma {:induction false} AssignedGrows(sets: seq<Assignment>, values: seq<Value>, more: seq<Value>)
    requires InBounds(sets, values)
    ensures InBounds(sets, values + more) && Assigned(sets, values + more) == Assigned(sets, values)
  {
    if sets != [] {
      AssignedGrows(sets[..|sets| - 1], values, more);
    }
  }

  lemma NamedGrows(fields: seq<Field>, f: Field, c: Column)
    ensures Named(fields, c) ==> Named(fields + [f], c)
    ensures Named(fields + [f], f.column)
    ensures NothingIn(fields + [f]) <==> NothingIn(fields) && f.value.None?
  {
    assert forall k :: 0 <= k < |fields| ==> (fields + [f])[k] == fields[k];
    assert (fields + [f])[|fields|] == f;
  }

  lemma BuildsSkip(sets: seq<Assignment>, values: seq<Value>, fields: seq<Field>, f: Field)
    requires Builds(sets, values, fields) && f.value.None?
    ensures Builds(sets, values, fields + [f])
  {
    assert (fields + [f])[..|fields|] == fields;
    NamedGrows(fields, f, f.column);
    forall i | 0 <= i < |sets| ensures Named(fields + [f], sets[i].column) {
      NamedGrows(fields, f, sets[i].column);
    }
  }

  lemma InterpretsSet(sets: seq<Assignment>, values: seq<Value>, fields: seq<Field>, f: Field)
    requires Interprets(sets, values, fields) && f.value.Some?
    ensures Interprets(sets + [Assignment(f.column, |values| + 1)], values + [f.value.value], fields + [f])
  {
    var longer := sets + [Assignment(f.column, |values| + 1)];
    var bound := values + [f.value.value];
    AssignedGrows(sets, values, [f.value.value]);
    assert longer[..|sets|] == sets && (fields + [f])[..|fields|] == fields;
    assert longer[|sets|] == Assignment(f.column, |values| + 1) && (fields + [f])[|fields|] == f;
    assert bound[|values|] == f.value.value;
    assert InBounds(longer, bound);
    assert Assigned(longer, bound) == Assigned(sets, values)[f.column := f.value.value];
    forall c: Column ensures Fetch(Assigned(longer, bound), c) == Chosen(fields + [f], c, None) {
      assert Fetch(Assigned(sets, values), c) == Chosen(fields, c, None);
    }
  }

  lemma NamesSet(sets: seq<Assignment>, fields: seq<Field>, f: Field, placeholder: nat)
    requires Names(sets, fields) && f.value.Some? && DistinctColumns(fields + [f])
    ensures Names(sets + [Assignment(f.column, placeholder)], fields + [f])
  {
    NamedGrows(fields, f, f.column);
    forall i | 0 <= i < |sets| ensures Named(fields + [f], sets[i].column) && sets[i].column != f.column {
      NamedGrows(fields, f, sets[i].column);
      var k :| 0 <= k < |fields| && fields[k].column == sets[i].column;
      assert (fields + [f])[k].column != (fields + [f])[|fields|].column;
    }
  }

  /** Appending a value and numbering it by the new length. */
  lemma BuildsSet(sets: seq<Assignment>, values: seq<Value>, fields: seq<Field>, f: Field)
    requires Builds(sets, values, fields) && f.value.Some? && DistinctColumns(fields + [f])
    ensures Builds(sets + [Assignment(f.column, |values| + 1)], values + [f.value.value], fields + [f])
  {
    InterpretsSet(sets, values, fields, f);
    NamesSet(sets, fields, f, |values| + 1);
  }

  lemma {:induction false} ChosenOr(fields: seq<Field>, c: Column, had: Option<Value>)
    ensures Chosen(fields, c, had) == if Chosen(fields, c, None).Some? then Chosen(fields, c, None) else had
  {
    if fields != [] {
      ChosenOr(fields[..|fields| - 1], c, had);
    }
  }

  /** A statement whose assignments are the fields, and whose keys are bound, meets the specification. */
  lemma BuiltUpdates(st: Statement, id: nat, tenant: nat, fields: seq<Field>, table: Table, now: int)
    requires WellFormed(st) && Builds(st.sets, st.values, fields)
    requires st.values[st.idAt - 1] == Id(id) && st.values[st.tenantAt - 1] == Id(tenant)
    ensures Updates(table, Execute(st, table, now), id, tenant, fields, st.activeOnly, st.touch, now)
  {
    if id in table {
      var columns := table[id].columns + Assigned(st.sets, st.values);
      forall c: Column ensures Fetch(columns, c) == Chosen(fields, c, Fetch(table[id].columns, c)) {
        ChosenOr(fields, c, Fetch(table[id].columns, c));
        assert Fetch(Assigned(st.sets, st.values), c) == Chosen(fields, c, None);
      }
    }
  }

  /** What a builder promises of its statement, on every table at every time. */
  ghost predicate Meets(st: Statement, id: nat, tenant: nat, fields: seq<Field>, activeOnly: bool, touch: bool) {
    && WellFormed(st)
    && forall table: Table, now: int ::
      Updates(table, Execute(st, table, now), id, tenant, fields, activeOnly, touch, now)
  }

  lemma BuiltMeets(st: Statement, id: nat, tenant: nat, fields: seq<Field>)
    requires WellFormed(st) && Builds(st.sets, st.values, fields)
    requires st.values[st.idAt - 1] == Id(id) && st.values[st.tenantAt - 1] == Id(tenant)
    ensures Meets(st, id, tenant, fields, st.activeOnly, st.touch)
  {
    forall table: Table, now: int
      ensures Updates(table, Execute(st, table, now), id, tenant, fields, st.activeOnly, st.touch, now)
    {
      BuiltUpdates(st, id, tenant, fields, table, now);
    }
  }

  /** What the specification says of one table, row by row and column by column. */
  lemma UpdatesMean(before: Table, after: Table, id: nat, tenant: nat, fields: seq<Field>, activeOnly: bool,
      touch: bool, now: int)
    requires Updates(before, after, id, tenant, fields, activeOnly, touch, now) && DistinctColumns(fields)
    ensures after.Keys == before.Keys
    ensures forall other :: other in before ==>
              var on := IsActive in before[other].columns && before[other].columns[IsActive] == Flag(true);
              (other == id && before[other].tenant == tenant && (activeOnly ==> on)) || after[other] == before[other]
    ensures id in before && before[id].tenant == tenant
            && (activeOnly ==> IsActive in before[id].columns && before[id].columns[IsActive] == Flag(true)) ==>
              && after[id].tenant == tenant && after[id].updatedAt == (if touch then now else before[id].updatedAt)
              && (forall i :: 0 <= i < |fields| && fields[i].value.Some? ==>
                    Fetch(after[id].columns, fields[i].column) == fields[i].value)
              && (forall c: Column ::
                    (forall i :: 0 <= i < |fields| && fields[i].column == c ==> fields[i].value.None?) ==>
                      Fetch(after[id].columns, c) == Fetch(before[id].columns, c))
  {
    if id in before {
      forall c: Column
        ensures forall i :: 0 <= i < |fields| && fields[i].column == c && fields[i].value.Some? ==>
                  Chosen(fields, c, Fetch(before[id].columns, c)) == fields[i].value
        ensures (forall i :: 0 <= i < |fields| && fields[i].column == c ==> fields[i].value.None?) ==>
                  Chosen(fields, c, Fetch(before[id].columns, c)) == Fetch(before[id].columns, c)
      {
        ChosenExactly(fields, c, Fetch(before[id].columns, c));
      }
    }
  }

  // ---------------------------------------------------------------- the three builders

  /** A counter numbers the assignments; the id and the tenant come next. */
  method UpdatePackage(id: nat, tenant: nat, fields: seq<Field>) returns (st: Option<Statement>)
    requires DistinctColumns(fields)
    ensures st.None? <==> NothingIn(fields)
    ensures st.Some? ==> Meets(st.value, id, tenant, fields, true, true)
    ensures st.Some? ==> WellFormed(st.value)
    ensures st.Some? ==>
              forall table: Table, now: int ::
                var after := Execute(st.value, table, now);
                && after.Keys == table.Keys
                && (forall other :: other in table ==>
                      var on := IsActive in table[other].columns && table[other].columns[IsActive] == Flag(true);
                      (other == id && table[other].tenant == tenant && on) || after[other] == table[other])
                && (id in table && table[id].tenant == tenant
                    && IsActive in table[id].columns && table[id].columns[IsActive] == Flag(true) ==>
                      && after[id].tenant == tenant && after[id].updatedAt == now
                      && (forall i :: 0 <= i < |fields| && fields[i].value.Some? ==>
                            Fetch(after[id].columns, fields[i].column) == fields[i].value)
                      && (forall c: Column ::
                            (forall i :: 0 <= i < |fields| && fields[i].column == c ==> fields[i].value.None?) ==>
                              Fetch(after[id].columns, c) == Fetch(table[id].columns, c)))
  {
    var sets: seq<Assignment>, values: seq<Value>, paramIndex := [], [], 1;
    assert Builds(sets, values, fields[..0]);
    for k := 0 to |fields|
      invariant Builds(sets, values, fields[..k]) && paramIndex == |values| + 1
    {
      assert fields[..k + 1] == fields[..k] + [fields[k]];
      match fields[k].value {
        case None => BuildsSkip(sets, values, fields[..k], fields[k]);
        case Some(value) =>
          BuildsSet(sets, values, fields[..k], fields[k]);
          sets := sets + [Assignment(fields[k].column, paramIndex)];
          values := values + [value];
          paramIndex := paramIndex + 1;
      }
    }
    assert fields[..|fields|] == fields;
    if sets == [] { return None; }
    AssignedGrows(sets, values, [Id(id), Id(tenant)]);
    values := values + [Id(id), Id(tenant)];
    var built := Statement(sets, true, paramIndex, paramIndex + 1, true, values);
    BuiltMeets(built, id, tenant, fields);
    forall table: Table, now: int {
      UpdatesMean(table, Execute(built, table, now), id, tenant, fields, true, true, now);
    }
    st := Some(built);
  }

  /** The id and the tenant are bound first; each assignment is numbered by the length of the list. */
  method UpdateRouter(id: nat, tenant: nat, fields: seq<Field>) returns (st: Option<Statement>)
    requires DistinctColumns(fields)
    ensures st.None? <==> NothingIn(fields)
    ensures st.Some? ==> Meets(st.value, id, tenant, fields, false, false)
    ensures st.Some? ==> WellFormed(st.value)
    ensures st.Some? ==>
              forall table: Table, now: int ::
                var after := Execute(st.value, table, now);
                && after.Keys == table.Keys
                && (forall other :: other in table ==>
                      (other == id && table[other].tenant == tenant) || after[other] == table[other])
                && (id in table && table[id].tenant == tenant ==>
                      && after[id].tenant == tenant && after[id].updatedAt == table[id].updatedAt
                      && (forall i :: 0 <= i < |fields| && fields[i].value.Some? ==>
                            Fetch(after[id].columns, fields[i].column) == fields[i].value)
                      && (forall c: Column ::
                            (forall i :: 0 <= i < |fields| && fields[i].column == c ==> fields[i].value.None?) ==>
                              Fetch(after[id].columns, c) == Fetch(table[id].columns, c)))
  {
    var updates: seq<Assignment>, params := [], [Id(id), Id(tenant)];
    assert Builds(updates, params, fields[..0]);
    for k := 0 to |fields|
      invariant Builds(updates, params, fields[..k])
      invariant |params| >= 2 && params[0] == Id(id) && params[1] == Id(tenant)
    {
      assert fields[..k + 1] == fields[..k] + [fields[k]];
      match fields[k].value {
        case None => BuildsSkip(updates, params, fields[..k], fields[k]);
        case Some(value) =>
          BuildsSet(updates, params, fields[..k], fields[k]);
          params := params + [value];
          updates := updates + [Assignment(fields[k].column, |params|)];
      }
    }
    assert fields[..|fields|] == fields;
    if updates == [] { return None; }
    var built := Statement(updates, false, 1, 2, false, params);
    BuiltMeets(built, id, tenant, fields);
    forall table: Table, now: int {
      UpdatesMean(table, Execute(built, table, now), id, tenant, fields, false, false, now);
    }
    st := Some(built);
  }

  /** A key of the request's body; the allowlist maps the ones it knows to columns. */
  datatype Key = KeyEmail | KeyPhone | KeyPassword | KeyHashedPassword | KeyRole | KeyResellerId | KeyIsActive
    | OtherKey(name: string)

  function Allowed(key: Key): Option<Column> {
    match key
    case KeyEmail => Some(Email)
    case KeyPhone => Some(Phone)
    case KeyHashedPassword => Some(HashedPassword)
    case KeyRole => Some(Role)
    case KeyResellerId => Some(ResellerId)
    case KeyIsActive => Some(IsActive)
    case KeyPassword => None
    case OtherKey(_) => None
  }

  datatype Item = Item(key: Key, value: Value)

  /** The columns that a body supplies: what the allowlist does not know is passed over. */
  function Fields(body: seq<Item>): seq<Field> {
    if body == [] then []
    else
      var last := body[|body| - 1];
      Fields(body[..|body| - 1]) + match Allowed(last.key) case None => [] case Some(c) => [Field(c, Some(last.value))]
  }

  /** A body is a dictionary: no key comes twice. */
  predicate DistinctKeys(body: seq<Item>) {
    forall i, j :: 0 <= i < j < |body| ==> body[i].key != body[j].key
  }

  /** Different keys name different columns, so a dictionary supplies no column twice. */
  lemma {:induction false} FieldsDistinct(body: seq<Item>, n: nat)
    requires DistinctKeys(body) && n <= |body|
    ensures DistinctColumns(Fields(body[..n]))
    ensures forall i :: 0 <= i < |Fields(body[..n])| ==>
              exists j :: 0 <= j < n && Allowed(body[j].key) == Some(Fields(body[..n])[i].column)
    decreases n
  {
    if n != 0 {
      var before := Fields(body[..n - 1]);
      FieldsDistinct(body, n - 1);
      assert body[..n][..n - 1] == body[..n - 1];
      forall i | 0 <= i < |Fields(body[..n])|
        ensures exists j :: 0 <= j < n && Allowed(body[j].key) == Some(Fields(body[..n])[i].column)
      {
        if i < |before| {
          var j :| 0 <= j < n - 1 && Allowed(body[j].key) == Some(before[i].column);
          assert Allowed(body[j].key) == Some(Fields(body[..n])[i].column);
        } else {
          assert Allowed(body[n - 1].key) == Some(Fields(body[..n])[i].column);
        }
      }
      forall i | 0 <= i < |before| && Allowed(body[n - 1].key).Some?
        ensures before[i].column != Allowed(body[n - 1].key).value
      {
        var j :| 0 <= j < n - 1 && Allowed(body[j].key) == Some(before[i].column);
        OneKeyAColumn(body[j].key, body[n - 1].key);
      }
    }
  }

  lemma OneKeyAColumn(a: Key, b: Key)
    requires a != b && Allowed(a).Some? && Allowed(b).Some?
    ensures Allowed(a) != Allowed(b)
  {
  }

  /** One pass of the loop over the body. */
  lemma NextItem(sets: seq<Assignment>, values: seq<Value>, body: seq<Item>, k: nat)
    requires DistinctKeys(body) && k < |body| && Builds(sets, values, Fields(body[..k]))
    ensures match Allowed(body[k].key)
            case None => Builds(sets, values, Fields(body[..k + 1]))
            case Some(c) =>
              Builds(sets + [Assignment(c, |values| + 1)], values + [body[k].value], Fields(body[..k + 1]))
  {
    assert body[..k + 1][..k] == body[..k];
    match Allowed(body[k].key)
    case None => assert Fields(body[..k + 1]) == Fields(body[..k]);
    case Some(c) =>
      var f := Field(c, Some(body[k].value));
      FieldsDistinct(body, k + 1);
      assert Fields(body[..k + 1]) == Fields(body[..k]) + [f];
      BuildsSet(sets, values, Fields(body[..k]), f);
  }

  /** Binding the id and the tenant last completes the statement. */
  lemma KeysLast(sets: seq<Assignment>, values: seq<Value>, id: nat, tenant: nat, fields: seq<Field>)
    requires Builds(sets, values, fields) && sets != []
    ensures var n := |values|;
            Meets(Statement(sets, true, n + 1, n + 2, false, values + [Id(id), Id(tenant)]), id, tenant, fields, false,
                  true)
  {
    AssignedGrows(sets, values, [Id(id), Id(tenant)]);
    BuiltMeets(Statement(sets, true, |values| + 1, |values| + 2, false, values + [Id(id), Id(tenant)]),
               id, tenant, fields);
  }

  /** Each assignment is numbered by the length; the id and the tenant are bound last and found from the end. */
  method BuildUserUpdate(id: nat, tenant: nat, body: seq<Item>) returns (st: Option<Statement>)
    requires DistinctKeys(body)
    ensures st.None? <==> forall i :: 0 <= i < |body| ==> Allowed(body[i].key).None?
    ensures st.Some? ==> Meets(st.value, id, tenant, Fields(body), false, true)
  {
    var setClauses: seq<Assignment>, values: seq<Value> := [], [];
    assert body[..0] == [] && Builds(setClauses, values, []);
    for k := 0 to |body|
      invariant Builds(setClauses, values, Fields(body[..k]))
      invariant setClauses == [] <==> forall i :: 0 <= i < k ==> Allowed(body[i].key).None?
    {
      NextItem(setClauses, values, body, k);
      var column := Allowed(body[k].key);
      if column.Some? {
        values := values + [body[k].value];
        setClauses := setClauses + [Assignment(column.value, |values|)];
      }
    }
    assert body[..|body|] == body;
    if setClauses == [] { return None; }
    KeysLast(setClauses, values, id, tenant, Fields(body));
    values := values + [Id(id), Id(tenant)];
    st := Some(Statement(setClauses, true, |values| - 1, |values|, false, values));
  }

  // ---------------------------------------------------------------- what comes before the builder

  datatype UpdateError = UserNotFound | EmailTaken | PhoneTaken

  /** What the body gives for a key. */
  function Given(body: seq<Item>, key: Key): (value: Option<Value>)
    ensures value.None? <==> forall i :: 0 <= i < |body| ==> body[i].key != key
    ensures value.Some? ==> Item(key, value.value) in body
  {
    if body == [] then None
    else if body[|body| - 1].key == key then Some(body[|body| - 1].value)
    else Given(body[..|body| - 1], key)
  }

  function Without(body: seq<Item>, key: Key): (rest: seq<Item>)
    ensures forall item :: item in rest <==> item in body && item.key != key
  {
    if body == [] then []
    else
      var last := body[|body| - 1];
      Without(body[..|body| - 1], key) + if last.key == key then [] else [last]
  }

  /** The password is popped, and its hash goes to the end of the dictionary under the column's name. */
  function Prepared(body: seq<Item>, hash: Value -> Value): seq<Item> {
    match Given(body, KeyPassword)
    case None => body
    case Some(password) => Without(body, KeyPassword) + [Item(KeyHashedPassword, hash(password))]
  }

  lemma {:induction false} WithoutDistinct(body: seq<Item>, key: Key)
    requires DistinctKeys(body)
    ensures DistinctKeys(Without(body, key))
  {
    if body != [] {
      var rest := Without(body[..|body| - 1], key);
      WithoutDistinct(body[..|body| - 1], key);
      forall i | 0 <= i < |rest| ensures rest[i].key != body[|body| - 1].key {
        assert rest[i] in body[..|body| - 1];
      }
    }
  }

  lemma PreparedDistinct(body: seq<Item>, hash: Value -> Value)
    requires DistinctKeys(body) && Given(body, KeyHashedPassword).None?
    ensures DistinctKeys(Prepared(body, hash))
  {
    WithoutDistinct(body, KeyPassword);
    var rest := Without(body, KeyPassword);
    forall i | 0 <= i < |rest| ensures rest[i].key != KeyHashedPassword {
      assert rest[i] in body;
    }
  }

  /** `column = value` holds of no row if the value is null. */
  predicate Holds(row: Row, column: Column, value: Value) {
    value != Null && Fetch(row.columns, column) == Some(value)
  }

  /** The body gives the column another value than the user has, and another user of the tenant has that value. */
  predicate Taken(table: Table, id: nat, tenant: nat, column: Column, value: Option<Value>)
    requires id in table
  {
    && value.Some? && Fetch(table[id].columns, column) != value
    && exists other :: other in table && other != id && table[other].tenant == tenant
                       && Holds(table[other], column, value.value)
  }

  /** The same, item by item: a value given, not null, that another user of the tenant has and this one has not. */
  ghost predicate Conflicts(table: Table, id: nat, tenant: nat, column: Column, item: Item, other: nat)
    requires id in table
  {
    && other in table && other != id && table[other].tenant == tenant
    && item.value != Null
    && column in table[other].columns && table[other].columns[column] == item.value
    && !(column in table[id].columns && table[id].columns[column] == item.value)
  }

  lemma TakenExactly(table: Table, id: nat, tenant: nat, column: Column, body: seq<Item>, key: Key)
    requires id in table && DistinctKeys(body)
    ensures Taken(table, id, tenant, column, Given(body, key)) <==>
              exists i, other :: 0 <= i < |body| && body[i].key == key
                                 && Conflicts(table, id, tenant, column, body[i], other)
  {
    var given := Given(body, key);
    if given.Some? {
      var i :| 0 <= i < |body| && body[i] == Item(key, given.value);
      assert forall j :: 0 <= j < |body| && body[j].key == key ==> j == i;
      if Taken(table, id, tenant, column, given) {
        var other :| other in table && other != id && table[other].tenant == tenant
                     && Holds(table[other], column, given.value);
        assert Conflicts(table, id, tenant, column, body[i], other);
      } else {
        forall other: nat ensures !Conflicts(table, id, tenant, column, body[i], other) {
          if
            && other in table && other != id && table[other].tenant == tenant
            && Fetch(table[id].columns, column) != given
          {
            assert !Holds(table[other], column, given.value);
          }
        }
      }
    }
  }

  /** `get_or_404`, the two conflict checks in their order, and then the builder on the prepared body. */
  method AdminUpdateUser(table: Table, id: nat, tenant: nat, body: seq<Item>, hash: Value -> Value)
      returns (r: Result<Option<Statement>, UpdateError>)
    requires DistinctKeys(body) && Given(body, KeyHashedPassword).None?
    ensures id !in table || table[id].tenant != tenant ==> r == Err(UserNotFound)
    ensures id in table && table[id].tenant == tenant ==>
              if Taken(table, id, tenant, Email, Given(body, KeyEmail)) then r == Err(EmailTaken)
              else if Taken(table, id, tenant, Phone, Given(body, KeyPhone)) then r == Err(PhoneTaken)
              else r.Ok?
    ensures id in table && table[id].tenant == tenant ==>
              (r == Err(EmailTaken) <==>
                 exists i, other :: 0 <= i < |body| && body[i].key == KeyEmail
                                    && Conflicts(table, id, tenant, Email, body[i], other))
    ensures id in table && table[id].tenant == tenant && r != Err(EmailTaken) ==>
              (r == Err(PhoneTaken) <==>
                 exists i, other :: 0 <= i < |body| && body[i].key == KeyPhone
                                    && Conflicts(table, id, tenant, Phone, body[i], other))
    ensures r.Ok? ==>
              var prepared := Prepared(body, hash);
              && (r.value.None? <==> forall i :: 0 <= i < |prepared| ==> Allowed(prepared[i].key).None?)
              && (r.value.Some? ==> Meets(r.value.value, id, tenant, Fields(prepared), false, true))
    ensures r.Ok? ==>
              (r.value.None? <==> forall i :: 0 <= i < |body| ==>
                 body[i].key !in {KeyEmail, KeyPhone, KeyPassword, KeyRole, KeyResellerId, KeyIsActive})
    ensures r.Ok? && r.value.Some? ==> WellFormed(r.value.value)
    ensures r.Ok? && r.value.Some? ==>
              forall users: Table, now: int ::
                var after := Execute(r.value.value, users, now);
                && after.Keys == users.Keys
                && (forall other :: other in users ==>
                      (other == id && users[other].tenant == tenant) || after[other] == users[other])
                && (id in users && users[id].tenant == tenant ==>
                      var had, has := users[id].columns, after[id].columns;
                      && after[id].updatedAt == now
                      && Fetch(has, Email) == Or(Given(body, KeyEmail), Fetch(had, Email))
                      && Fetch(has, Phone) == Or(Given(body, KeyPhone), Fetch(had, Phone))
                      && Fetch(has, Role) == Or(Given(body, KeyRole), Fetch(had, Role))
                      && Fetch(has, ResellerId) == Or(Given(body, KeyResellerId), Fetch(had, ResellerId))
                      && Fetch(has, IsActive) == Or(Given(body, KeyIsActive), Fetch(had, IsActive))
                      && Fetch(has, HashedPassword)
                         == match Given(body, KeyPassword)
                            case None => Fetch(had, HashedPassword)
                            case Some(password) => Some(hash(password)))
  {
    if id !in table || table[id].tenant != tenant { return Err(UserNotFound); }
    TakenExactly(table, id, tenant, Email, body, KeyEmail);
    TakenExactly(table, id, tenant, Phone, body, KeyPhone);
    if Taken(table, id, tenant, Email, Given(body, KeyEmail)) { return Err(EmailTaken); }
    if Taken(table, id, tenant, Phone, Given(body, KeyPhone)) { return Err(PhoneTaken); }
    PreparedDistinct(body, hash);
    var st := BuildUserUpdate(id, tenant, Prepared(body, hash));
    NothingPrepared(body, hash);
    if st.Some? {
      forall users: Table, now: int {
        UserColumns(users, Execute(st.value, users, now), id, tenant, body, hash, now);
      }
    }
    r := Ok(st);
  }

  /** The value given, or else the one there was. */
  function Or(given: Option<Value>, had: Option<Value>): Option<Value> {
    if given.Some? then given else had
  }

  lemma PreparedPassword(body: seq<Item>, hash: Value -> Value)
    requires Given(body, KeyHashedPassword).None?
    ensures Given(Prepared(body, hash), KeyHashedPassword)
            == match Given(body, KeyPassword) case None => None case Some(password) => Some(hash(password))
  {
    match Given(body, KeyPassword)
    case None =>
    case Some(password) =>
      GivenMore(Without(body, KeyPassword), Item(KeyHashedPassword, hash(password)), KeyHashedPassword);
  }

  lemma NothingPrepared(body: seq<Item>, hash: Value -> Value)
    requires Given(body, KeyHashedPassword).None?
    ensures var prepared := Prepared(body, hash);
            (forall i :: 0 <= i < |prepared| ==> Allowed(prepared[i].key).None?)
            <==> forall i :: 0 <= i < |body| ==>
                   body[i].key !in {KeyEmail, KeyPhone, KeyPassword, KeyRole, KeyResellerId, KeyIsActive}
  {
    var prepared := Prepared(body, hash);
    forall i | 0 <= i < |body| && body[i].key != KeyPassword ensures body[i] in prepared {
      assert body[i] in body;
    }
    forall i | 0 <= i < |prepared| && prepared[i].key != KeyHashedPassword ensures prepared[i] in body {
      assert prepared[i] in prepared;
    }
    match Given(body, KeyPassword)
    case None =>
    case Some(password) => assert prepared[|prepared| - 1].key == KeyHashedPassword;
  }

  lemma OtherUsers(before: Table, after: Table, id: nat, tenant: nat, fields: seq<Field>, now: int)
    requires Updates(before, after, id, tenant, fields, false, true, now)
    ensures after.Keys == before.Keys
    ensures forall other :: other in before ==>
              (other == id && before[other].tenant == tenant) || after[other] == before[other]
    ensures id in before && before[id].tenant == tenant ==> after[id].updatedAt == now
  {
  }

  lemma NamedColumns(before: Table, after: Table, id: nat, tenant: nat, body: seq<Item>, hash: Value -> Value,
      now: int)
    requires DistinctKeys(body) && Given(body, KeyHashedPassword).None?
    requires Updates(before, after, id, tenant, Fields(Prepared(body, hash)), false, true, now)
    requires id in before && before[id].tenant == tenant && id in after
    ensures var had, has := before[id].columns, after[id].columns;
            && Fetch(has, Email) == Or(Given(body, KeyEmail), Fetch(had, Email))
            && Fetch(has, Phone) == Or(Given(body, KeyPhone), Fetch(had, Phone))
            && Fetch(has, Role) == Or(Given(body, KeyRole), Fetch(had, Role))
            && Fetch(has, ResellerId) == Or(Given(body, KeyResellerId), Fetch(had, ResellerId))
            && Fetch(has, IsActive) == Or(Given(body, KeyIsActive), Fetch(had, IsActive))
  {
    UserColumn(before, after, id, tenant, body, hash, now, KeyEmail, Email);
    UserColumn(before, after, id, tenant, body, hash, now, KeyPhone, Phone);
    UserColumn(before, after, id, tenant, body, hash, now, KeyRole, Role);
    UserColumn(before, after, id, tenant, body, hash, now, KeyResellerId, ResellerId);
    UserColumn(before, after, id, tenant, body, hash, now, KeyIsActive, IsActive);
  }

  lemma UserColumns(before: Table, after: Table, id: nat, tenant: nat, body: seq<Item>, hash: Value -> Value, now: int)
    requires DistinctKeys(body) && Given(body, KeyHashedPassword).None?
    requires Updates(before, after, id, tenant, Fields(Prepared(body, hash)), false, true, now)
    ensures after.Keys == before.Keys
    ensures forall other :: other in before ==>
              (other == id && before[other].tenant == tenant) || after[other] == before[other]
    ensures id in before && before[id].tenant == tenant ==>
              var had, has := before[id].columns, after[id].columns;
              && after[id].updatedAt == now
              && Fetch(has, Email) == Or(Given(body, KeyEmail), Fetch(had, Email))
              && Fetch(has, Phone) == Or(Given(body, KeyPhone), Fetch(had, Phone))
              && Fetch(has, Role) == Or(Given(body, KeyRole), Fetch(had, Role))
              && Fetch(has, ResellerId) == Or(Given(body, KeyResellerId), Fetch(had, ResellerId))
              && Fetch(has, IsActive) == Or(Given(body, KeyIsActive), Fetch(had, IsActive))
              && Fetch(has, HashedPassword)
                 == match Given(body, KeyPassword)
                    case None => Fetch(had, HashedPassword)
                    case Some(password) => Some(hash(password))
  {
    OtherUsers(before, after, id, tenant, Fields(Prepared(body, hash)), now);
    if id in before && before[id].tenant == tenant {
      NamedColumns(before, after, id, tenant, body, hash, now);
      PasswordColumn(before, after, id, tenant, body, hash, now);
    }
  }

  lemma PasswordColumn(before: Table, after: Table, id: nat, tenant: nat, body: seq<Item>, hash: Value -> Value,
      now: int)
    requires DistinctKeys(body) && Given(body, KeyHashedPassword).None?
    requires Updates(before, after, id, tenant, Fields(Prepared(body, hash)), false, true, now)
    requires id in before && before[id].tenant == tenant && id in after
    ensures Fetch(after[id].columns, HashedPassword)
            == match Given(body, KeyPassword)
               case None => Fetch(before[id].columns, HashedPassword)
               case Some(password) => Some(hash(password))
  {
    PreparedDistinct(body, hash);
    PreparedPassword(body, hash);
    ChosenIsGiven(Prepared(body, hash), KeyHashedPassword, HashedPassword, Fetch(before[id].columns, HashedPassword));
  }

  lemma UserColumn(before: Table, after: Table, id: nat, tenant: nat, body: seq<Item>, hash: Value -> Value, now: int,
      key: Key, column: Column)
    requires DistinctKeys(body) && Given(body, KeyHashedPassword).None?
    requires Updates(before, after, id, tenant, Fields(Prepared(body, hash)), false, true, now)
    requires id in before && before[id].tenant == tenant && id in after
    requires key != KeyPassword && key != KeyHashedPassword && Allowed(key) == Some(column)
    ensures Fetch(after[id].columns, column) == Or(Given(body, key), Fetch(before[id].columns, column))
  {
    PreparedDistinct(body, hash);
    PreparedGives(body, hash, key);
    ChosenIsGiven(Prepared(body, hash), key, column, Fetch(before[id].columns, column));
  }

  /** No two users of the tenant hold one value of the column. */
  ghost predicate Unshared(table: Table, tenant: nat, column: Column) {
    forall a, b, value: Value ::
      a in table && b in table && a != b && table[a].tenant == tenant && table[b].tenant == tenant ==>
        !(Holds(table[a], column, value) && Holds(table[b], column, value))
  }

  lemma {:induction false} ChosenIsGiven(body: seq<Item>, key: Key, column: Column, had: Option<Value>)
    requires DistinctKeys(body) && Allowed(key) == Some(column)
    ensures Chosen(Fields(body), column, had) == if Given(body, key).Some? then Given(body, key) else had
  {
    if body != [] {
      var n := |body| - 1;
      ChosenIsGiven(body[..n], key, column, had);
      if Allowed(body[n].key).Some? {
        var f := Field(Allowed(body[n].key).value, Some(body[n].value));
        assert Fields(body)[..|Fields(body)| - 1] == Fields(body[..n]);
        if body[n].key != key { OneKeyAColumn(body[n].key, key); }
      } else {
        assert Fields(body) == Fields(body[..n]);
      }
    }
  }

  lemma GivenMore(rest: seq<Item>, item: Item, key: Key)
    ensures Given(rest + [item], key) == if item.key == key then Some(item.value) else Given(rest, key)
  {
    assert (rest + [item])[..|rest|] == rest;
  }

  lemma WithoutMore(rest: seq<Item>, item: Item)
    ensures Without(rest + [item], KeyPassword)
            == Without(rest, KeyPassword) + if item.key == KeyPassword then [] else [item]
  {
    assert (rest + [item])[..|rest|] == rest;
  }

  lemma {:induction false} GivenAfter(body: seq<Item>, key: Key)
    requires key != KeyPassword
    ensures Given(Without(body, KeyPassword), key) == Given(body, key)
  {
    if body != [] {
      var first, last := body[..|body| - 1], body[|body| - 1];
      assert body == first + [last];
      GivenAfter(first, key);
      GivenMore(first, last, key);
      WithoutMore(first, last);
      if last.key == KeyPassword {
        assert Without(first, KeyPassword) + [] == Without(first, KeyPassword);
      } else {
        GivenMore(Without(first, KeyPassword), last, key);
      }
    }
  }

  lemma PreparedGives(body: seq<Item>, hash: Value -> Value, key: Key)
    requires key != KeyPassword && key != KeyHashedPassword
    ensures Given(Prepared(body, hash), key) == Given(body, key)
  {
    GivenAfter(body, key);
    match Given(body, KeyPassword)
    case None =>
    case Some(password) => GivenMore(Without(body, KeyPassword), Item(KeyHashedPassword, hash(password)), key);
  }

  /** What the checks are for: an update that they let pass leaves no two users of the tenant with one value. */
  lemma AcceptedKeepsUnshared(before: Table, after: Table, id: nat, tenant: nat, body: seq<Item>,
                              hash: Value -> Value, key: Key, column: Column, now: int)
    requires DistinctKeys(body) && Given(body, KeyHashedPassword).None?
    requires (key == KeyEmail && column == Email) || (key == KeyPhone && column == Phone)
    requires id in before && before[id].tenant == tenant && !Taken(before, id, tenant, column, Given(body, key))
    requires Updates(before, after, id, tenant, Fields(Prepared(body, hash)), false, true, now)
    requires Unshared(before, tenant, column)
    ensures Unshared(after, tenant, column)
  {
    PreparedDistinct(body, hash);
    PreparedGives(body, hash, key);
    ChosenIsGiven(Prepared(body, hash), key, column, Fetch(before[id].columns, column));
    assert Fetch(after[id].columns, column)
        == if Given(body, key).Some? then Given(body, key) else Fetch(before[id].columns, column);
    OneChanges(before, after, id, tenant, column, Given(body, key));
  }

  lemma OneChanges(before: Table, after: Table, id: nat, tenant: nat, column: Column, value: Option<Value>)
    requires after.Keys == before.Keys && id in before && before[id].tenant == tenant && after[id].tenant == tenant
    requires forall other :: other in before && other != id ==> after[other] == before[other]
    requires Fetch(after[id].columns, column) == if value.Some? then value else Fetch(before[id].columns, column)
    requires !Taken(before, id, tenant, column, value) && Unshared(before, tenant, column)
    ensures Unshared(after, tenant, column)
  {
    forall other, v: Value
      | other in before && other != id && before[other].tenant == tenant && Holds(after[id], column, v)
      ensures !Holds(after[other], column, v)
    {
      if Fetch(before[id].columns, column) == Some(v) {
        assert Holds(before[id], column, v);
      }
    }
  }
}
