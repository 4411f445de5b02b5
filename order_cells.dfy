/**
 * The field and column definitions of the orders screens and the rules that
 * compute a cell's content from a row: the order list columns, the three
 * detail groups, the cart columns and the subtotal columns.  Each computed
 * content closure of the controller is one `Rule`; the values a closure
 * captures when the definitions are built (status map, default currency,
 * the current order's currency) are carried by the rule.  Host services
 * (currency formatting, email syntax check, date formatting, URL building,
 * thumbnails, JSON encoding) are the abstract functions in `Services`.
 */
module OrderCells {
  import opened Wrappers
  import opened PhpArrays
  import opened PhpValues

  /** Host services the closures call; none of them is modelled. */
  datatype Services = Services(
    format: (Option<Cell>, Option<Cell>) -> string,             // currency->format(amount, code)
    formatWithDefault: (Option<Cell>, Option<Cell>) -> string,  // currency->formatWithDefault(amount, code)
    isEmail: string -> bool,                                    // filter_var(.., FILTER_VALIDATE_EMAIL)
    formatDate: Option<Cell> -> string,                         // DateTime(..)->format('d.m.Y H:i:s')
    makeUrl: (string, string) -> string,                        // module->makeUrl(route, query)
    thumbnail: Option<Cell> -> string,                          // phpthumb snippet, 80x80 jpg
    siteUrl: string,                                            // config 'site_url'
    encodeJson: Option<Cell> -> string)                         // json_encode, pretty, unescaped unicode

  /** Map of status id to status title, in the order the statuses were loaded. */
  type Statuses = PhpArray<string, string>

  // ---------------------------------------------------------------------------
  // Money cells

  /** What a money cell shows: the amount formatted in `currency`, followed by a
      second line in the default currency exactly when `currency` is not the default. */
  ghost predicate MoneyText(text: string, svc: Services, amount: Option<Cell>, currency: Option<Cell>, defaultCurrency: string) {
    var primary := svc.format(amount, currency);
    && primary <= text
    && (text == primary <==> LooseEqualsText(currency, defaultCurrency))
    && (text != primary ==> text[|primary|..] == "<br>(" + svc.formatWithDefault(amount, currency) + ")")
  }

  function MoneyCell(svc: Services, amount: Option<Cell>, currency: Option<Cell>, defaultCurrency: string): (r: string)
    ensures MoneyText(r, svc, amount, currency, defaultCurrency)
  {
    var out := svc.format(amount, currency);
    if LooseEqualsText(currency, defaultCurrency) then out
    else out + "<br>(" + svc.formatWithDefault(amount, currency) + ")"
  }

  /** List column `amount`: the order's amount in the order's own currency. */
  function OrderAmountCell(svc: Services, row: Record, defaultCurrency: string): (r: string)
    ensures MoneyText(r, svc, Lookup(row, "amount"), Lookup(row, "currency"), defaultCurrency)
  {
    MoneyCell(svc, Lookup(row, "amount"), Lookup(row, "currency"), defaultCurrency)
  }

  /** Detail field `amount`: the same text as the list column, in bold. */
  function OrderAmountStrongCell(svc: Services, row: Record, defaultCurrency: string): (r: string)
    ensures |r| >= 17 && r[..8] == "<strong>" && r[|r| - 9..] == "</strong>"
    ensures MoneyText(r[8..|r| - 9], svc, Lookup(row, "amount"), Lookup(row, "currency"), defaultCurrency)
  {
    var inner := MoneyCell(svc, Lookup(row, "amount"), Lookup(row, "currency"), defaultCurrency);
    var r := "<strong>" + inner + "</strong>";
    assert r[8..|r| - 9] == inner;
    r
  }

  /** Cart `price`/`summary` and subtotal `price`: the line's `attr` amount in the
      currency of the order being shown, whatever the line itself says. */
  function LineAmountCell(svc: Services, row: Record, attr: string, orderCurrency: Option<Cell>, defaultCurrency: string): (r: string)
    ensures MoneyText(r, svc, Lookup(row, attr), orderCurrency, defaultCurrency)
  {
    MoneyCell(svc, Lookup(row, attr), orderCurrency, defaultCurrency)
  }

  // ---------------------------------------------------------------------------
  // Lookups that degrade to the empty string

  /** `filter_var($v, FILTER_VALIDATE_EMAIL)` is false for anything but a valid string. */
  predicate PassesEmailCheck(svc: Services, v: Option<Cell>) {
    v.Some? && v.value.Text? && svc.isEmail(v.value.s)
  }

  /** Field `email`: a mailto link for a non-empty address that passes the email
      check; otherwise the empty string, never the unchecked value. */
  function EmailCell(svc: Services, row: Record): (r: string)
    ensures r != "" <==> !EmptyCell(Lookup(row, "email")) && PassesEmailCheck(svc, Lookup(row, "email"))
    ensures r != "" ==> r == "<a href=\"mailto:" + Lookup(row, "email").value.s + "\">" + Lookup(row, "email").value.s + "</a>"
  {
    var email := Lookup(row, "email");
    if !EmptyCell(email) && PassesEmailCheck(svc, email) then
      "<a href=\"mailto:" + StrOf(email) + "\">" + StrOf(email) + "</a>"
    else ""
  }

  /** Fields `delivery` and `payment`: `fields[attr]` of the order when it is not
      PHP-empty, otherwise the empty string (so never `"0"`). */
  function MethodTitleCell(row: Record, attr: string): (r: string)
    ensures r != "" <==> !EmptyText(LookupNested(row, "fields", attr))
    ensures r != "" ==> LookupNested(row, "fields", attr) == Some(r)
    ensures r != "0"
  {
    var title := LookupNested(row, "fields", attr);
    if !EmptyText(title) then title.value else ""
  }

  /** The array key `$statuses[$v]` reads: null becomes `""`; an array is no valid key. */
  function StatusKey(v: Option<Cell>): Option<string> {
    match v
    case None => Some("")
    case Some(Text(s)) => Some(s)
    case Some(Nested(_)) => None
  }

  /** Detail field `status`: the title of the order's status, or the empty string
      for a status id the status map does not hold. */
  function StatusTitleCell(statuses: Statuses, row: Record): (r: string)
    ensures StatusKey(Lookup(row, "status_id")).None? ==> r == ""
    ensures StatusKey(Lookup(row, "status_id")).Some? && StatusKey(Lookup(row, "status_id")).value !in Keys(statuses) ==> r == ""
    ensures r != "" ==> (StatusKey(Lookup(row, "status_id")).value, r) in statuses
  {
    var key := StatusKey(Lookup(row, "status_id"));
    if key.Some? && Get(statuses, key.value).Some? then Get(statuses, key.value).value else ""
  }

  /** With distinct status ids, a known status id shows exactly its own title. */
  lemma StatusTitleOfKnownStatus(statuses: Statuses, row: Record, i: int)
    requires UniqueKeys(statuses)
    requires 0 <= i < |statuses|
    requires StatusKey(Lookup(row, "status_id")) == Some(statuses[i].0)
    ensures StatusTitleCell(statuses, row) == statuses[i].1
  {
    GetAt(statuses, i);
  }

  /** Cart column `image`: a thumbnail of the configured image attribute, or the
      empty string when that attribute is PHP-empty. */
  function ItemImageCell(svc: Services, row: Record, imageField: string): (r: string)
    ensures r != "" <==> !EmptyCell(Lookup(row, imageField))
    ensures r != "" ==> r == "<img src=\"" + svc.siteUrl + svc.thumbnail(Lookup(row, imageField)) + "\" alt=\"\">"
  {
    var image := Lookup(row, imageField);
    if !EmptyCell(image) then "<img src=\"" + svc.siteUrl + svc.thumbnail(image) + "\" alt=\"\">" else ""
  }

  /** Cart column `options`: the JSON of the item's options in a `<pre>` block, or
      the empty string when the item has none. */
  function ItemOptionsCell(svc: Services, row: Record): (r: string)
    ensures r != "" <==> !EmptyCell(Lookup(row, "options"))
    ensures r != "" ==> r == "<pre>" + svc.encodeJson(Lookup(row, "options")) + "</pre>"
  {
    var options := Lookup(row, "options");
    if !EmptyCell(options) then "<pre>" + svc.encodeJson(options) + "</pre>" else ""
  }

  /** Detail field `id`: the order id after `#`, in bold. */
  function OrderNumberCell(row: Record): (r: string)
    ensures |r| == |StrOf(Lookup(row, "id"))| + 18
    ensures r[..9] == "<strong>#" && r[|r| - 9..] == "</strong>"
    ensures r[9..|r| - 9] == StrOf(Lookup(row, "id"))
  {
    "<strong>#" + StrOf(Lookup(row, "id")) + "</strong>"
  }

  // ---------------------------------------------------------------------------
  // The status <select> of the order list

  /** One `<option>` of the status select. */
  datatype StatusOption = StatusOption(id: string, title: string, selected: bool)

  /** The options of the select for an order whose `status_id` is `current`: one
      per status, in the status map's order, selected exactly when its id equals
      (PHP `==`) the order's status id. */
  function StatusOptions(statuses: Statuses, current: Option<Cell>): (r: seq<StatusOption>)
    ensures |r| == |statuses|
    ensures forall i :: 0 <= i < |r| ==>
              r[i].id == statuses[i].0 && r[i].title == statuses[i].1 &&
              (r[i].selected <==> LooseEqualsText(current, statuses[i].0))
  {
    if statuses == [] then []
    else
      var last := statuses[|statuses| - 1];
      StatusOptions(statuses[..|statuses| - 1], current)
        + [StatusOption(last.0, last.1, LooseEqualsText(current, last.0))]
  }

  /** With distinct status ids, at most one option is selected. */
  lemma AtMostOneSelected(statuses: Statuses, current: Option<Cell>, i: int, j: int)
    requires UniqueKeys(statuses)
    requires 0 <= i < |statuses| && 0 <= j < |statuses|
    requires StatusOptions(statuses, current)[i].selected && StatusOptions(statuses, current)[j].selected
    ensures i == j
  {
  }

  /** An order whose status id is not in the status map gets no selected option. */
  lemma UnknownStatusSelectsNone(statuses: Statuses, row: Record)
    requires forall i :: 0 <= i < |statuses| ==> !LooseEqualsText(Lookup(row, "status_id"), statuses[i].0)
    ensures forall o :: o in StatusOptions(statuses, Lookup(row, "status_id")) ==> !o.selected
  {
  }

  function RenderOption(o: StatusOption): string {
    "<option value=\"" + o.id + "\"" + (if o.selected then " selected" else "") + ">" + o.title + "</option>"
  }

  function RenderOptions(os: seq<StatusOption>): string {
    if os == [] then "" else RenderOptions(os[..|os| - 1]) + RenderOption(os[|os| - 1])
  }

  /** Rendering the options of one more status appends that status's tag. */
  lemma RenderOptionsStep(statuses: Statuses, current: Option<Cell>, i: int)
    requires 0 <= i < |statuses|
    ensures RenderOptions(StatusOptions(statuses[..i + 1], current))
         == RenderOptions(StatusOptions(statuses[..i], current))
            + RenderOption(StatusOption(statuses[i].0, statuses[i].1, LooseEqualsText(current, statuses[i].0)))
  {
    var prefix := statuses[..i + 1];
    assert prefix[..|prefix| - 1] == statuses[..i];
    var os := StatusOptions(prefix, current);
    assert os[..|os| - 1] == StatusOptions(statuses[..i], current);
  }

  /** The `foreach` that accumulates the `<option>` tags of the status select. */
  method StatusOptionsHtml(statuses: Statuses, current: Option<Cell>) returns (out: string)
    ensures out == RenderOptions(StatusOptions(statuses, current))
  {
    out := "";
    var i := 0;
    while i < |statuses|
      invariant 0 <= i <= |statuses|
      invariant out == RenderOptions(StatusOptions(statuses[..i], current))
    {
      var (id, title) := statuses[i];
      out := out + RenderOption(StatusOption(id, title, LooseEqualsText(current, id)));
      RenderOptionsStep(statuses, current, i);
      i := i + 1;
    }
    assert statuses[..i] == statuses;
  }

  /** List column `status`: a `<select>` of all statuses that jumps to the
      change-status action for this order with the chosen status id. */
  function StatusSelectCell(svc: Services, statuses: Statuses, row: Record): (r: string)
    ensures var url := svc.makeUrl("orders/change-status", "order_id=" + StrOf(Lookup(row, "id")) + "&status_id=");
            var head := "<select name=\"status_id\" onchange=\"location = '" + url + "' + jQuery(this).val();\">";
            && head <= r
            && r[|head|..] == RenderOptions(StatusOptions(statuses, Lookup(row, "status_id"))) + "</select>"
  {
    var url := svc.makeUrl("orders/change-status", "order_id=" + StrOf(Lookup(row, "id")) + "&status_id=");
    var head := "<select name=\"status_id\" onchange=\"location = '" + url + "' + jQuery(this).val();\">";
    var tail := RenderOptions(StatusOptions(statuses, Lookup(row, "status_id"))) + "</select>";
    assert (head + tail)[|head|..] == tail;
    head + tail
  }

  // ---------------------------------------------------------------------------
  // Field definitions

  /** The content closures of the definitions, with the values each captures. */
  datatype Rule =
    | OrderDate
    | OrderEmail
    | OrderAmount(defaultCurrency: string)
    | OrderAmountStrong(defaultCurrency: string)
    | MethodTitle(attr: string)
    | StatusSelect(statuses: Statuses)
    | StatusTitle(statuses: Statuses)
    | OrderNumber
    | ItemImage
    | ItemOptions
    | LineAmount(attr: string, orderCurrency: Option<Cell>, defaultCurrency: string)

  /** A field's `content`: the name of a row attribute, or a closure. */
  datatype Content = Literal(attr: string) | Computed(rule: Rule)

  /** One field or column definition; `value` is set once it is bound to a row. */
  datatype Field = Field(title: Option<string>, content: Content, sort: Option<int>, style: Option<string>, value: Option<string>)

  /** One section of the detail view. */
  datatype Group = Group(title: Option<string>, width: string, fields: PhpArray<string, Field>)

  /** Runs a closure on a row; `imageField` is the list renderer's `imageField` setting. */
  function Resolve(rule: Rule, svc: Services, row: Record, imageField: string): string {
    match rule
    case OrderDate => svc.formatDate(Lookup(row, "created_at"))
    case OrderEmail => EmailCell(svc, row)
    case OrderAmount(d) => OrderAmountCell(svc, row, d)
    case OrderAmountStrong(d) => OrderAmountStrongCell(svc, row, d)
    case MethodTitle(attr) => MethodTitleCell(row, attr)
    case StatusSelect(statuses) => StatusSelectCell(svc, statuses, row)
    case StatusTitle(statuses) => StatusTitleCell(statuses, row)
    case OrderNumber => OrderNumberCell(row)
    case ItemImage => ItemImageCell(svc, row, imageField)
    case ItemOptions => ItemOptionsCell(svc, row)
    case LineAmount(attr, cur, d) => LineAmountCell(svc, row, attr, cur, d)
  }

  /** A freshly built definition set: distinct keys, no value bound, and weights
      `base`, `base + 10`, `base + 20`, ... in declaration order. */
  ghost predicate FreshDefinitions(fields: PhpArray<string, Field>, base: int) {
    && UniqueKeys(fields)
    && forall i :: 0 <= i < |fields| ==> fields[i].1.sort == Some(base + 10 * i) && fields[i].1.value.None?
  }

  /** `$lang[$key]`: a missing message reads as null. */
  function Msg(lang: map<string, string>, key: string): Option<string> {
    if key in lang then Some(lang[key]) else None
  }

  function Def(title: Option<string>, content: Content, sort: int, style: Option<string>): Field {
    Field(title, content, Some(sort), style, None)
  }

  /** Columns of the order list. */
  function OrdersListColumns(lang: map<string, string>, statuses: Statuses, defaultCurrency: string): (r: PhpArray<string, Field>)
    ensures FreshDefinitions(r, 0)
    ensures Keys(r) == ["id", "date", "name", "phone", "email", "amount", "delivery", "payment", "status"]
  {
    [ ("id", Def(Some("#"), Literal("id"), 0, Some("width: 1%; text-align: center;"))),
      ("date", Def(Msg(lang, "order.created_at"), Computed(OrderDate), 10, None)),
      ("name", Def(Msg(lang, "order.name_field"), Literal("name"), 20, None)),
      ("phone", Def(Msg(lang, "order.phone_field"), Literal("phone"), 30, Some("white-space: nowrap;"))),
      ("email", Def(Msg(lang, "order.email_field"), Computed(OrderEmail), 40, Some("white-space: nowrap;"))),
      // the later of the two `style` entries is the one PHP keeps
      ("amount", Def(Msg(lang, "order.amount_title"), Computed(OrderAmount(defaultCurrency)), 50, Some("white-space: nowrap; text-align: right;"))),
      ("delivery", Def(Msg(lang, "order.delivery_title"), Computed(MethodTitle("delivery_method_title")), 60, None)),
      ("payment", Def(Msg(lang, "order.payment_title"), Computed(MethodTitle("payment_method_title")), 70, None)),
      ("status", Def(Msg(lang, "order.status_title"), Computed(StatusSelect(statuses)), 80, None)) ]
  }

  /** Groups of the order detail view. */
  function OrderGroups(lang: map<string, string>, statuses: Statuses, defaultCurrency: string): (r: PhpArray<string, Group>)
    ensures UniqueKeys(r) && Keys(r) == ["order_info", "contact", "payment_delivery"]
    ensures forall i :: 0 <= i < |r| ==> FreshDefinitions(r[i].1.fields, 10) && r[i].1.width == "33.333%"
  {
    [ ("order_info", Group(Msg(lang, "order.order_info"), "33.333%", [
        ("id", Def(Msg(lang, "order.order_id"), Computed(OrderNumber), 10, None)),
        ("date", Def(Msg(lang, "order.created_at"), Computed(OrderDate), 20, None)),
        ("status", Def(Msg(lang, "order.status_title"), Computed(StatusTitle(statuses)), 30, None)) ])),
      ("contact", Group(Msg(lang, "order.contact_group_title"), "33.333%", [
        ("name", Def(Msg(lang, "order.name_field"), Literal("name"), 10, None)),
        ("phone", Def(Msg(lang, "order.phone_field"), Literal("phone"), 20, None)),
        ("email", Def(Msg(lang, "order.email_field"), Computed(OrderEmail), 30, None)) ])),
      ("payment_delivery", Group(Msg(lang, "order.payment_delivery_group_title"), "33.333%", [
        ("amount", Def(Msg(lang, "order.to_pay_title"), Computed(OrderAmountStrong(defaultCurrency)), 10, None)),
        ("delivery", Def(Msg(lang, "order.delivery_title"), Computed(MethodTitle("delivery_method_title")), 20, None)),
        ("payment", Def(Msg(lang, "order.payment_title"), Computed(MethodTitle("payment_method_title")), 30, None)) ])) ]
  }

  /** Columns of the order's cart; `orderCurrency` is the current order's `currency`. */
  function OrderCartColumns(cartLang: map<string, string>, orderCurrency: Option<Cell>, defaultCurrency: string): (r: PhpArray<string, Field>)
    ensures FreshDefinitions(r, 10)
    ensures Keys(r) == ["position", "image", "title", "options", "count", "price", "summary"]
  {
    [ ("position", Def(Some("#"), Literal("iteration"), 10, Some("width: 1%;"))),
      ("image", Def(Msg(cartLang, "cart.image"), Computed(ItemImage), 20, None)),
      ("title", Def(Msg(cartLang, "cart.item_title"), Literal("title"), 30, None)),
      ("options", Def(Msg(cartLang, "cart.item_options"), Computed(ItemOptions), 40, None)),
      ("count", Def(Msg(cartLang, "cart.count"), Literal("count"), 50, Some("text-align: center;"))),
      ("price", Def(Msg(cartLang, "cart.item_price"), Computed(LineAmount("price", orderCurrency, defaultCurrency)), 60, Some("text-align: right; white-space: nowrap;"))),
      ("summary", Def(Msg(cartLang, "cart.item_summary"), Computed(LineAmount("total", orderCurrency, defaultCurrency)), 70, Some("text-align: right; white-space: nowrap;"))) ]
  }

  /** Columns of the subtotal rows under the cart. */
  function OrderSubtotalsColumns(cartLang: map<string, string>, orderCurrency: Option<Cell>, defaultCurrency: string): (r: PhpArray<string, Field>)
    ensures FreshDefinitions(r, 10)
    ensures Keys(r) == ["title", "price"]
  {
    [ ("title", Def(Msg(cartLang, "cart.item_title"), Literal("title"), 10, None)),
      ("price", Def(Msg(cartLang, "cart.item_price"), Computed(LineAmount("price", orderCurrency, defaultCurrency)), 20, Some("text-align: right; white-space: nowrap;"))) ]
  }

  /** The list's `amount` column shows the order's amount in the order's own
      currency, and its `status` column is the status select over the captured map. */
  lemma ListColumnsCells(lang: map<string, string>, statuses: Statuses, defaultCurrency: string,
                         svc: Services, row: Record, imageField: string)
    ensures var cols := OrdersListColumns(lang, statuses, defaultCurrency);
            && cols[5].0 == "amount" && cols[5].1.content.Computed?
            && MoneyText(Resolve(cols[5].1.content.rule, svc, row, imageField), svc,
                         Lookup(row, "amount"), Lookup(row, "currency"), defaultCurrency)
            && cols[8].0 == "status" && cols[8].1.content.Computed?
            && Resolve(cols[8].1.content.rule, svc, row, imageField) == StatusSelectCell(svc, statuses, row)
  {
  }

  /** The cart's `price` and `summary` columns show the line's `price` and
      `total` in the currency of the order the cart belongs to. */
  lemma CartColumnsUseOrderCurrency(cartLang: map<string, string>, orderCurrency: Option<Cell>, defaultCurrency: string,
                                    svc: Services, row: Record, imageField: string)
    ensures var cols := OrderCartColumns(cartLang, orderCurrency, defaultCurrency);
            && cols[5].0 == "price" && cols[5].1.content.Computed?
            && MoneyText(Resolve(cols[5].1.content.rule, svc, row, imageField), svc,
                         Lookup(row, "price"), orderCurrency, defaultCurrency)
            && cols[6].0 == "summary" && cols[6].1.content.Computed?
            && MoneyText(Resolve(cols[6].1.content.rule, svc, row, imageField), svc,
                         Lookup(row, "total"), orderCurrency, defaultCurrency)
  {
  }

  /** The subtotal `price` column shows the row's `price` in the order's currency. */
  lemma SubtotalColumnsUseOrderCurrency(cartLang: map<string, string>, orderCurrency: Option<Cell>, defaultCurrency: string,
                                        svc: Services, row: Record, imageField: string)
    ensures var cols := OrderSubtotalsColumns(cartLang, orderCurrency, defaultCurrency);
            && cols[1].0 == "price" && cols[1].1.content.Computed?
            && MoneyText(Resolve(cols[1].1.content.rule, svc, row, imageField), svc,
                         Lookup(row, "price"), orderCurrency, defaultCurrency)
  {
  }

  /** The detail view's `status` field shows the title the captured map holds
      for the order's status id, and its `amount` field the bold money text. */
  lemma GroupFieldsCells(lang: map<string, string>, statuses: Statuses, defaultCurrency: string,
                         svc: Services, row: Record, imageField: string)
    ensures var groups := OrderGroups(lang, statuses, defaultCurrency);
            var info := groups[0].1.fields;
            var pay := groups[2].1.fields;
            && info[2].0 == "status" && info[2].1.content.Computed?
            && Resolve(info[2].1.content.rule, svc, row, imageField) == StatusTitleCell(statuses, row)
            && pay[0].0 == "amount" && pay[0].1.content.Computed?
            && Resolve(pay[0].1.content.rule, svc, row, imageField) == OrderAmountStrongCell(svc, row, defaultCurrency)
  {
  }

  /** Cart and subtotal money cells ignore the line's own `currency`: two lines
      with the same amount show the same text. */
  lemma LineAmountIgnoresLineCurrency(svc: Services, a: Record, b: Record, attr: string, orderCurrency: Option<Cell>, defaultCurrency: string)
    requires Lookup(a, attr) == Lookup(b, attr)
    ensures Resolve(LineAmount(attr, orderCurrency, defaultCurrency), svc, a, "")
         == Resolve(LineAmount(attr, orderCurrency, defaultCurrency), svc, b, "")
  {
  }
}
