/**
 * The back-office orders controller: the memoised status map, the
 * change-status action and the loops of the detail view that bind the field
 * definitions to the order and to the cart's subtotal rows.  The host
 * validator, the order processor, the parent controller's `sortFields` and
 * `processFields` and the status table are abstract.
 */
module Orders {
  import opened Wrappers
  import opened PhpArrays
  import opened PhpValues
  import opened OrderCells

  /** Request parameters (`$_GET`, `$_POST` and their merge). */
  type Request = PhpArray<Key, string>

  /** Validation rules: field => rule => message; a `!` marks an optional field. */
  type Rules = PhpArray<string, PhpArray<string, string>>

  /** The rules the change-status action hands to the validator.  `order_id` is
      only required to be numeric, and its message names `status_id`. */
  const StatusChangeRules: Rules := [
    ("order_id", [("numeric", "status_id should be numeric")]),
    ("status_id", [("numeric", "status_id should be numeric")]),
    ("!description", [("string", "description should be string")])
  ]

  /** What the host validator returns: an array of errors, or something that is not an array. */
  datatype Validation = NotArray | ErrorArray(errors: PhpArray<string, seq<string>>)

  /** One call of the processor's `changeStatus`. */
  datatype StatusChange = StatusChange(orderId: Option<Cell>, statusId: Option<string>, description: string, notify: bool)

  /** The payload of the redirect back to the referring page that ends the action. */
  datatype Redirect =
    | WithValidationErrors(errors: PhpArray<string, seq<string>>)
    | WithError(message: Option<string>)
    | WithSuccess(message: Option<string>)

  /** The outcome of the action: its redirect and the processor call it made, if any. */
  datatype Decision = Decision(redirect: Redirect, change: Option<StatusChange>)

  /** `$data[$name]` for a string parameter name. */
  function Param(data: Request, name: string): Option<string> {
    Get(data, StrKey(name))
  }

  /** PHP `empty($order)` of what `loadOrder` returned. */
  predicate EmptyOrder(order: Option<Record>) {
    order.None? || order.value == map[]
  }

  /** The change-status action as a function of its inputs. */
  function DecideStatusChange(post: Request, get: Request, validate: (Request, Rules) -> Validation,
                              loadOrder: Option<string> -> Option<Record>, lang: map<string, string>): (d: Decision)
    ensures var data := ArrayMerge(post, get);
            var result := validate(data, StatusChangeRules);
            var order := loadOrder(Param(data, "order_id"));
            && (result.ErrorArray? ==> d == Decision(WithValidationErrors(result.errors), None))
            && (result.NotArray? && EmptyOrder(order) ==>
                  d == Decision(WithError(Msg(lang, "module.error.order_not_found")), None))
            && (d.change.Some? <==> result.NotArray? && !EmptyOrder(order))
            && (d.change.Some? ==>
                  && d.redirect == WithSuccess(Msg(lang, "module.status_changed"))
                  && d.change.value.orderId == Lookup(order.value, "id")
                  && d.change.value.statusId == Param(data, "status_id")
                  && (d.change.value.description == "" <==> EmptyText(Param(data, "description")))
                  && (d.change.value.description != "" ==> Param(data, "description") == Some(d.change.value.description))
                  && (d.change.value.notify <==> !EmptyText(Param(data, "notify"))))
  {
    var data := ArrayMerge(post, get);
    var result := validate(data, StatusChangeRules);
    if result.ErrorArray? then
      Decision(WithValidationErrors(result.errors), None)
    else
      var order := loadOrder(Param(data, "order_id"));
      if EmptyOrder(order) then
        Decision(WithError(Msg(lang, "module.error.order_not_found")), None)
      else
        var description := Param(data, "description");
        var change := StatusChange(Lookup(order.value, "id"), Param(data, "status_id"),
                                   if !EmptyText(description) then description.value else "",
                                   !EmptyText(Param(data, "notify")));
        Decision(WithSuccess(Msg(lang, "module.status_changed")), Some(change))
  }

  /** The target status is the GET parameter when the query string has one, the
      POST parameter otherwise. */
  lemma StatusIdFromRequest(post: Request, get: Request, validate: (Request, Rules) -> Validation,
                            loadOrder: Option<string> -> Option<Record>, lang: map<string, string>)
    requires UniqueKeys(post) && UniqueKeys(get)
    requires DecideStatusChange(post, get, validate, loadOrder, lang).change.Some?
    ensures DecideStatusChange(post, get, validate, loadOrder, lang).change.value.statusId
         == if Param(get, "status_id").Some? then Param(get, "status_id") else Param(post, "status_id")
  {
    ArrayMergeGet(post, get, "status_id");
  }

  /** A query `order_id=42&status_id=3&notify=1` (nothing posted) for an existing
      order 42 that the validator accepts changes its status to 3 with an empty
      description and a notification. */
  lemma NotifyWithoutDescription(get: Request, validate: (Request, Rules) -> Validation,
                                 loadOrder: Option<string> -> Option<Record>, lang: map<string, string>, order: Record)
    requires get == [(StrKey("order_id"), "42"), (StrKey("status_id"), "3"), (StrKey("notify"), "1")]
    requires validate(ArrayMerge([], get), StatusChangeRules).NotArray?
    requires loadOrder(Some("42")) == Some(order) && Lookup(order, "id") == Some(Text("42"))
    ensures DecideStatusChange([], get, validate, loadOrder, lang)
         == Decision(WithSuccess(Msg(lang, "module.status_changed")), Some(StatusChange(Some(Text("42")), Some("3"), "", true)))
  {
    assert UniqueKeys(get) by {
      assert Keys(get) == [StrKey("order_id"), StrKey("status_id"), StrKey("notify")];
    }
    var data := ArrayMerge([], get);
    assert Param(data, "order_id") == Some("42") by { ArrayMergeGet([], get, "order_id"); }
    assert Param(data, "status_id") == Some("3") by { ArrayMergeGet([], get, "status_id"); }
    assert Param(data, "description") == None by { ArrayMergeGet([], get, "description"); }
    assert Param(data, "notify") == Some("1") by { ArrayMergeGet([], get, "notify"); }
    assert "id" in order;
    assert !EmptyOrder(loadOrder(Param(data, "order_id")));
  }

  /** The statuses map after loading `rows` one by one into an empty array. */
  function LoadStatuses(rows: seq<(string, string)>): Statuses {
    if rows == [] then []
    else
      var last := rows[|rows| - 1];
      Put(LoadStatuses(rows[..|rows| - 1]), last.0, last.1)
  }

  /** The loaded status map never holds an id twice. */
  lemma {:induction false} LoadStatusesUniqueKeys(rows: seq<(string, string)>)
    ensures UniqueKeys(LoadStatuses(rows))
  {
    if rows != [] {
      LoadStatusesUniqueKeys(rows[..|rows| - 1]);
      PutKeepsUniqueKeys(LoadStatuses(rows[..|rows| - 1]), rows[|rows| - 1].0, rows[|rows| - 1].1);
    }
  }

  /** Status rows with distinct ids give a status map that lists them in the
      order the query returned them. */
  lemma {:induction false} LoadStatusesOfDistinctIds(rows: seq<(string, string)>)
    requires UniqueKeys(rows)
    ensures LoadStatuses(rows) == rows
  {
    if rows != [] {
      var init := rows[..|rows| - 1];
      var last := rows[|rows| - 1];
      assert UniqueKeys(init);
      LoadStatusesOfDistinctIds(init);
      assert last.0 !in Keys(init) by {
        forall i | 0 <= i < |init| ensures Keys(init)[i] != last.0 {
          assert init[i] == rows[i];
        }
      }
      PutAbsent(init, last.0, last.1);
      assert init + [last] == rows;
    }
  }

  /** Field definitions after binding to `values`: same keys and order, and each
      field differs from its definition only in `value`, which is `values[key]`. */
  ghost predicate BoundTo(out: PhpArray<string, Field>, fields: PhpArray<string, Field>, values: PhpArray<string, string>) {
    && |out| == |fields|
    && forall i :: 0 <= i < |fields| ==>
         out[i].0 == fields[i].0 && out[i].1 == fields[i].1.(value := Get(values, fields[i].0))
  }

  /** Looking a bound field up by key gives its definition with `values[key]` as value. */
  lemma BoundValueByKey(out: PhpArray<string, Field>, fields: PhpArray<string, Field>, values: PhpArray<string, string>, i: int)
    requires BoundTo(out, fields, values) && UniqueKeys(fields)
    requires 0 <= i < |fields|
    ensures Get(out, fields[i].0) == Some(fields[i].1.(value := Get(values, fields[i].0)))
  {
    assert UniqueKeys(out) by {
      forall a, b | 0 <= a < b < |out| ensures out[a].0 != out[b].0 {
        assert out[a].0 == fields[a].0 && out[b].0 == fields[b].0;
      }
    }
    GetAt(out, i);
  }

  /** One row of the subtotals under the cart, with its resolved `cells`. */
  datatype SubtotalRow = SubtotalRow(row: Record, cells: PhpArray<string, string>)

  /** The host's order processor: it loads orders and records status changes. */
  class OrderProcessor {
    const loadOrder: Option<string> -> Option<Record>
    /** The ids passed to `loadOrder`, in call order. */
    var loads: seq<Option<string>>
    var changes: seq<StatusChange>

    constructor (loadOrder: Option<string> -> Option<Record>)
      ensures this.loadOrder == loadOrder && loads == [] && changes == []
    {
      this.loadOrder := loadOrder;
      loads := [];
      changes := [];
    }

    /** `loadOrder($id)`: looks the order up and records the call. */
    method LoadOrder(id: Option<string>) returns (order: Option<Record>)
      modifies this`loads
      ensures order == loadOrder(id)
      ensures loads == old(loads) + [id]
    {
      loads := loads + [id];
      order := loadOrder(id);
    }

    method ChangeStatus(orderId: Option<Cell>, statusId: Option<string>, description: string, notify: bool)
      modifies this`changes
      ensures changes == old(changes) + [StatusChange(orderId, statusId, description, notify)]
    {
      changes := changes + [StatusChange(orderId, statusId, description, notify)];
    }
  }

  class OrdersController {
    /** The `order` language domain. */
    const lang: map<string, string>
    /** The status map, loaded at most once; None until then (PHP's null). */
    var statuses: Option<Statuses>

    /** A loaded status map never holds an id twice. */
    ghost predicate Valid()
      reads this
    {
      statuses.Some? ==> UniqueKeys(statuses.value)
    }

    constructor (lang: map<string, string>)
      ensures this.lang == lang && statuses == None
      ensures Valid()
    {
      this.lang := lang;
      statuses := None;
    }

    /** `getStatuses`: loads `id => title` from the status rows on the first call
        and returns the cached map on every later call, without reading `rows`. */
    method GetStatuses(rows: seq<(string, string)>) returns (r: Statuses)
      requires Valid()
      modifies this`statuses
      ensures Valid()
      ensures old(statuses).Some? ==> statuses == old(statuses) && r == old(statuses).value
      ensures old(statuses).None? ==> r == LoadStatuses(rows) && statuses == Some(r)
      ensures UniqueKeys(r)
    {
      if statuses.None? {
        LoadStatusesUniqueKeys(rows);
        statuses := Some([]);
        var i := 0;
        while i < |rows|
          invariant 0 <= i <= |rows|
          invariant statuses == Some(LoadStatuses(rows[..i]))
        {
          statuses := Some(Put(statuses.value, rows[i].0, rows[i].1));
          assert rows[..i + 1][..i] == rows[..i];
          i := i + 1;
        }
        assert rows[..i] == rows;
      }
      r := statuses.value;
    }

    /** `changeStatus`: every redirect ends the action, so at most one processor
        call is made, and only for a valid request naming an existing order. */
    method ChangeStatus(post: Request, get: Request, validate: (Request, Rules) -> Validation, processor: OrderProcessor)
      returns (r: Redirect)
      requires Valid()
      modifies processor
      ensures Valid()
      ensures var d := DecideStatusChange(post, get, validate, processor.loadOrder, lang);
              && r == d.redirect
              && processor.changes == old(processor.changes) + (if d.change.Some? then [d.change.value] else [])
      ensures var data := ArrayMerge(post, get);
              processor.loads == old(processor.loads)
                + (if validate(data, StatusChangeRules).NotArray? then [Param(data, "order_id")] else [])
    {
      var data := ArrayMerge(post, get);
      var result := validate(data, StatusChangeRules);
      if result.ErrorArray? {
        return WithValidationErrors(result.errors);
      }
      var order := processor.LoadOrder(Param(data, "order_id"));
      if EmptyOrder(order) {
        return WithError(Msg(lang, "module.error.order_not_found"));
      }
      var description := Param(data, "description");
      processor.ChangeStatus(Lookup(order.value, "id"), Param(data, "status_id"),
                             if !EmptyText(description) then description.value else "",
                             !EmptyText(Param(data, "notify")));
      return WithSuccess(Msg(lang, "module.status_changed"));
    }

    /** The `array_walk` of `show`: writes `values[key]` into each field. */
    static method BindFieldValues(fields: PhpArray<string, Field>, values: PhpArray<string, string>)
      returns (out: PhpArray<string, Field>)
      ensures BoundTo(out, fields, values)
    {
      out := fields;
      var i := 0;
      while i < |out|
        invariant 0 <= i <= |out| == |fields|
        invariant forall j :: 0 <= j < i ==>
                    out[j].0 == fields[j].0 && out[j].1 == fields[j].1.(value := Get(values, fields[j].0))
        invariant forall j :: i <= j < |out| ==> out[j] == fields[j]
      {
        var (key, item) := out[i];
        out := out[i := (key, item.(value := Get(values, key)))];
        i := i + 1;
      }
    }

    /** The group loop of `show`: sorts each group's fields, computes their values
        for the order and binds them; group keys, order, titles and widths stay. */
    static method BindGroups(groups: PhpArray<string, Group>, order: Record,
                             sortFields: PhpArray<string, Field> -> PhpArray<string, Field>,
                             processFields: (PhpArray<string, Field>, Record) -> PhpArray<string, string>)
      returns (out: PhpArray<string, Group>)
      ensures |out| == |groups|
      ensures forall i :: 0 <= i < |groups| ==>
                && out[i].0 == groups[i].0
                && out[i].1.title == groups[i].1.title
                && out[i].1.width == groups[i].1.width
                && BoundTo(out[i].1.fields, sortFields(groups[i].1.fields),
                           processFields(sortFields(groups[i].1.fields), order))
    {
      out := groups;
      var i := 0;
      while i < |out|
        invariant 0 <= i <= |out| == |groups|
        invariant forall j :: 0 <= j < i ==>
                    && out[j].0 == groups[j].0
                    && out[j].1.title == groups[j].1.title
                    && out[j].1.width == groups[j].1.width
                    && BoundTo(out[j].1.fields, sortFields(groups[j].1.fields),
                               processFields(sortFields(groups[j].1.fields), order))
        invariant forall j :: i <= j < |out| ==> out[j] == groups[j]
      {
        var (groupId, group) := out[i];
        var sorted := sortFields(group.fields);
        var values := processFields(sorted, order);
        var bound := BindFieldValues(sorted, values);
        out := out[i := (groupId, group.(fields := bound))];
        i := i + 1;
      }
    }

    /** The subtotal loop of `show`: each row gets the subtotal columns resolved
        against it as `cells`. */
    static method BindSubtotalCells(subtotals: seq<Record>, subcolumns: PhpArray<string, Field>,
                                    processFields: (PhpArray<string, Field>, Record) -> PhpArray<string, string>)
      returns (rows: seq<SubtotalRow>)
      ensures |rows| == |subtotals|
      ensures forall i :: 0 <= i < |subtotals| ==>
                rows[i].row == subtotals[i] && rows[i].cells == processFields(subcolumns, subtotals[i])
    {
      rows := [];
      var i := 0;
      while i < |subtotals|
        invariant 0 <= i <= |subtotals| && |rows| == i
        invariant forall j :: 0 <= j < i ==>
                    rows[j].row == subtotals[j] && rows[j].cells == processFields(subcolumns, subtotals[j])
      {
        rows := rows + [SubtotalRow(subtotals[i], processFields(subcolumns, subtotals[i]))];
        i := i + 1;
      }
    }
  }
}
