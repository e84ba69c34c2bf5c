/**
 * The edit-product form: its initial values, the change handler with the
 * derived USD cost, and the record the save sends.
 */
module EditForm {
  import opened Js
  import opened Products

  /**
   * A form value: text typed into an input, a number copied from the
   * product, or the text `toFixed(2)` writes for a number.
   */
  datatype FormValue = Text(s: string) | Number(n: JsNumber) | Fixed2(x: JsNumber)

  type Form = map<string, FormValue>

  const CostMyr := "cost_price_myr"
  const CostUsd := "cost_price_usd"
  const Rate := "exchange_rate"

  const FieldNames: set<string> := {"title", "price", "sold", "rating", CostMyr, CostUsd, Rate,
                                    "postage_cost", "supplier_link", "supplier_name", "notes"}

  /** `form[k]`: a field that is not there reads as undefined. */
  function Get(f: Form, k: string): FormValue {
    if k in f then f[k] else Number(Undefined)
  }

  /** Whether an `if (v)` takes the value as true. A `toFixed` text is never empty. */
  predicate IsSet(v: FormValue) {
    match v
    case Text(s) => s != ""
    case Number(n) => Truthy(n)
    case Fixed2(_) => true
  }

  /** How `parseFloat` and `parseInt` read typed text; `None` is NaN. */
  datatype Parsers = Parsers(decimal: string -> Option<real>, integer: string -> Option<int>)

  function FromOption(o: Option<real>): JsNumber {
    match o
    case Some(v) => Num(v)
    case None => NaN
  }

  /** Rounding toward zero, as `parseInt` reads a decimal. */
  function Truncate(x: real): (n: int)
    ensures x >= 0.0 ==> 0.0 <= n as real <= x < n as real + 1.0
    ensures x < 0.0 ==> n as real - 1.0 < x <= n as real <= 0.0
  {
    if x >= 0.0 then x.Floor else -((-x).Floor)
  }

  /** `parseFloat(v)`; a number is read back as itself, a `toFixed` text as the rounded number. */
  function ParseFloat(v: FormValue, parse: Parsers): (r: JsNumber)
    ensures r.Num? || r.NaN?
  {
    match v
    case Text(s) => FromOption(parse.decimal(s))
    case Number(n) => if n.Num? then n else NaN
    case Fixed2(x) => if x.Num? then Num(Round2(x.v)) else NaN
  }

  /** `parseInt(v)`: an integer, or NaN. */
  function ParseInt(v: FormValue, parse: Parsers): (r: JsNumber)
    ensures r.Num? ==> r.v.Floor as real == r.v
    ensures r.Num? || r.NaN?
  {
    match v
    case Text(s) => (match parse.integer(s) case Some(n) => Num(n as real) case None => NaN)
    case Number(n) => if n.Num? then Num(Truncate(n.v) as real) else NaN
    case Fixed2(x) => if x.Num? then Num(Truncate(Round2(x.v)) as real) else NaN
  }

  /** `n || ""` for a number. */
  function NumberOrEmpty(n: JsNumber): FormValue {
    if Truthy(n) then Number(n) else Text("")
  }

  /** `t || ""` for a text. */
  function TextOrEmpty(t: Option<string>): FormValue {
    match t
    case Some(s) => Text(s)
    case None => Text("")
  }

  /** The form as the modal opens it on `p`. */
  function InitialForm(p: Product): (f: Form)
    ensures f.Keys == FieldNames
    ensures f["rating"] == Number(Num(OrZero(p.rating)))
    ensures f[Rate] == if Truthy(p.exchangeRate) then Number(p.exchangeRate) else Text("4.70")
    ensures forall k :: k in {CostMyr, CostUsd, "postage_cost", "supplier_link", "supplier_name", "notes"} ==>
              (IsSet(f[k]) || f[k] == Text(""))
    ensures f[CostMyr] == (if Truthy(p.costPriceMyr) then Number(p.costPriceMyr) else Text(""))
    ensures f[CostUsd] == (if Truthy(p.costPriceUsd) then Number(p.costPriceUsd) else Text(""))
    ensures f["postage_cost"] == (if Truthy(p.postageCost) then Number(p.postageCost) else Text(""))
    ensures f["supplier_link"] == Text(if p.supplierLink.Some? then p.supplierLink.value else "")
    ensures f["supplier_name"] == Text(if p.supplierName.Some? then p.supplierName.value else "")
    ensures f["notes"] == Text(if p.notes.Some? then p.notes.value else "")
    ensures f["title"] == Text(p.title) && f["price"] == Number(p.price) && f["sold"] == Number(p.sold)
  {
    map["title" := Text(p.title),
        "price" := Number(p.price),
        "sold" := Number(p.sold),
        "rating" := Number(Num(OrZero(p.rating))),
        CostMyr := NumberOrEmpty(p.costPriceMyr),
        CostUsd := NumberOrEmpty(p.costPriceUsd),
        Rate := if Truthy(p.exchangeRate) then Number(p.exchangeRate) else Text("4.70"),
        "postage_cost" := NumberOrEmpty(p.postageCost),
        "supplier_link" := TextOrEmpty(p.supplierLink),
        "supplier_name" := TextOrEmpty(p.supplierName),
        "notes" := TextOrEmpty(p.notes)]
  }

  /** The USD cost `toFixed(2)` writes for a MYR cost and a rate. */
  function DerivedUsd(myr: FormValue, rate: FormValue, parse: Parsers): FormValue {
    Fixed2(Div(ParseFloat(myr, parse), ParseFloat(rate, parse)))
  }

  /** After a change to `name`, the USD cost is recomputed from the updated form. */
  predicate Derives(name: string, f: Form) {
    (name == CostMyr || name == Rate) && IsSet(Get(f, CostMyr)) && IsSet(Get(f, Rate))
  }

  /**
   * The updater `handleChange` passes to `setForm`: the field typed into
   * takes the text, every other field is copied, and the USD cost is
   * recomputed only after a change to the MYR cost or the rate that leaves
   * both set; otherwise it keeps its earlier, possibly stale, value.
   */
  method HandleChange(prev: Form, name: string, value: string, parse: Parsers) returns (newForm: Form)
    ensures newForm.Keys == prev.Keys + {name} + (if Derives(name, newForm) then {CostUsd} else {})
    ensures name != CostUsd ==> newForm[name] == Text(value)
    ensures forall k :: k in prev && k != name && k != CostUsd ==> newForm[k] == prev[k]
    ensures Get(newForm, CostMyr) == if name == CostMyr then Text(value) else Get(prev, CostMyr)
    ensures Get(newForm, Rate) == if name == Rate then Text(value) else Get(prev, Rate)
    ensures Derives(name, newForm) ==>
              Get(newForm, CostUsd) == DerivedUsd(Get(newForm, CostMyr), Get(newForm, Rate), parse)
    ensures !Derives(name, newForm) ==>
              Get(newForm, CostUsd) == if name == CostUsd then Text(value) else Get(prev, CostUsd)
  {
    newForm := prev[name := Text(value)];
    if name == CostMyr || name == Rate {
      if IsSet(Get(newForm, CostMyr)) && IsSet(Get(newForm, Rate)) {
        newForm := newForm[CostUsd := DerivedUsd(newForm[CostMyr], newForm[Rate], parse)];
      }
    }
  }

  /** The record the save sends. */
  datatype Payload = Payload(
    title: FormValue,
    price: JsNumber,
    sold: JsNumber,
    rating: JsNumber,
    costPriceMyr: JsNumber,
    costPriceUsd: JsNumber,
    exchangeRate: JsNumber,
    postageCost: JsNumber,
    supplierLink: Option<FormValue>,
    supplierName: Option<FormValue>,
    notes: Option<FormValue>)

  /** `v ? parseFloat(v) : null` */
  function OptionalNumber(v: FormValue, parse: Parsers): JsNumber {
    if IsSet(v) then ParseFloat(v, parse) else Null
  }

  /** `v || null` */
  function OptionalText(v: FormValue): Option<FormValue> {
    if IsSet(v) then Some(v) else None
  }

  /** The update `handleSubmit` sends for `form`. */
  function SubmitPayload(form: Form, parse: Parsers): (r: Payload)
    ensures r.title == Get(form, "title")
    ensures r.price == ParseFloat(Get(form, "price"), parse) && r.rating == ParseFloat(Get(form, "rating"), parse)
    ensures r.sold == ParseInt(Get(form, "sold"), parse)
    ensures r.costPriceMyr.Null? <==> !IsSet(Get(form, CostMyr))
    ensures r.costPriceUsd.Null? <==> !IsSet(Get(form, CostUsd))
    ensures r.exchangeRate.Null? <==> !IsSet(Get(form, Rate))
    ensures r.postageCost.Null? <==> !IsSet(Get(form, "postage_cost"))
    ensures !r.costPriceMyr.Null? ==> r.costPriceMyr == ParseFloat(Get(form, CostMyr), parse)
    ensures !r.costPriceUsd.Null? ==> r.costPriceUsd == ParseFloat(Get(form, CostUsd), parse)
    ensures !r.exchangeRate.Null? ==> r.exchangeRate == ParseFloat(Get(form, Rate), parse)
    ensures !r.postageCost.Null? ==> r.postageCost == ParseFloat(Get(form, "postage_cost"), parse)
    ensures r.supplierLink.None? <==> !IsSet(Get(form, "supplier_link"))
    ensures r.supplierName.None? <==> !IsSet(Get(form, "supplier_name"))
    ensures r.notes.None? <==> !IsSet(Get(form, "notes"))
    ensures r.supplierLink.Some? ==> r.supplierLink.value == Get(form, "supplier_link")
    ensures r.supplierName.Some? ==> r.supplierName.value == Get(form, "supplier_name")
    ensures r.notes.Some? ==> r.notes.value == Get(form, "notes")
  {
    Payload(
      Get(form, "title"),
      ParseFloat(Get(form, "price"), parse),
      ParseInt(Get(form, "sold"), parse),
      ParseFloat(Get(form, "rating"), parse),
      OptionalNumber(Get(form, CostMyr), parse),
      OptionalNumber(Get(form, CostUsd), parse),
      OptionalNumber(Get(form, Rate), parse),
      OptionalNumber(Get(form, "postage_cost"), parse),
      OptionalText(Get(form, "supplier_link")),
      OptionalText(Get(form, "supplier_name")),
      OptionalText(Get(form, "notes")))
  }

  /** The value a number field reads back as, when saved untouched. */
  function Reloaded(n: JsNumber): JsNumber {
    if Truthy(n) then n else Null
  }

  /**
   * Saving the form untouched writes back what was loaded, except that an
   * empty optional field becomes null, a missing rate becomes 4.70 and a
   * missing rating 0.
   */
  lemma UntouchedSubmit(p: Product, parse: Parsers)
    requires parse.decimal("4.70") == Some(4.7)
    ensures SubmitPayload(InitialForm(p), parse).title == Text(p.title)
    ensures p.price.Num? ==> SubmitPayload(InitialForm(p), parse).price == p.price
    ensures p.sold.Num? && p.sold.v.Floor as real == p.sold.v ==> SubmitPayload(InitialForm(p), parse).sold == p.sold
    ensures p.sold.Num? ==> SubmitPayload(InitialForm(p), parse).sold == Num(Truncate(p.sold.v) as real)
    ensures !p.sold.Num? ==> SubmitPayload(InitialForm(p), parse).sold == NaN
    ensures SubmitPayload(InitialForm(p), parse).rating == Num(OrZero(p.rating))
    ensures SubmitPayload(InitialForm(p), parse).costPriceMyr == Reloaded(p.costPriceMyr)
    ensures SubmitPayload(InitialForm(p), parse).costPriceUsd == Reloaded(p.costPriceUsd)
    ensures SubmitPayload(InitialForm(p), parse).postageCost == Reloaded(p.postageCost)
    ensures SubmitPayload(InitialForm(p), parse).exchangeRate == if Truthy(p.exchangeRate) then p.exchangeRate else Num(4.7)
    ensures SubmitPayload(InitialForm(p), parse).notes == if p.notes.Some? && p.notes.value != "" then Some(Text(p.notes.value)) else None
    ensures SubmitPayload(InitialForm(p), parse).supplierLink ==
              if p.supplierLink.Some? && p.supplierLink.value != "" then Some(Text(p.supplierLink.value)) else None
    ensures SubmitPayload(InitialForm(p), parse).supplierName ==
              if p.supplierName.Some? && p.supplierName.value != "" then Some(Text(p.supplierName.value)) else None
  {
    var f := InitialForm(p);
    var r := SubmitPayload(f, parse);
    assert Get(f, CostMyr) == NumberOrEmpty(p.costPriceMyr);
    assert Get(f, CostUsd) == NumberOrEmpty(p.costPriceUsd);
    assert Get(f, "postage_cost") == NumberOrEmpty(p.postageCost);
    ReloadedNumber(p.costPriceMyr, parse);
    ReloadedNumber(p.costPriceUsd, parse);
    ReloadedNumber(p.postageCost, parse);
    assert Get(f, "notes") == TextOrEmpty(p.notes);
    assert Get(f, "supplier_link") == TextOrEmpty(p.supplierLink);
    assert Get(f, "supplier_name") == TextOrEmpty(p.supplierName);
    ReloadedText(p.notes);
    ReloadedText(p.supplierLink);
    ReloadedText(p.supplierName);
    if p.sold.Num? && p.sold.v.Floor as real == p.sold.v {
      TruncateWhole(p.sold.v);
    }
  }

  /** A whole number is its own truncation. */
  lemma TruncateWhole(x: real)
    requires x.Floor as real == x
    ensures Truncate(x) as real == x
  {
    if x < 0.0 {
      assert (-x).Floor == -(x.Floor);
    }
  }

  /** An optional number the form loaded reads back as itself, or null when it was falsy. */
  lemma ReloadedNumber(n: JsNumber, parse: Parsers)
    ensures OptionalNumber(NumberOrEmpty(n), parse) == Reloaded(n)
  {
  }

  /** An optional text the form loaded reads back as itself, or null when it was missing or empty. */
  lemma ReloadedText(t: Option<string>)
    ensures OptionalText(TextOrEmpty(t)) == if t.Some? && t.value != "" then Some(Text(t.value)) else None
  {
  }

  /**
   * The derived USD cost, once saved, is the MYR cost over the rate rounded
   * to cents when both read as numbers and the rate is not zero; otherwise
   * it is saved as NaN.
   */
  lemma DerivedUsdSaved(form: Form, parse: Parsers)
    requires CostUsd in form && form[CostUsd] == DerivedUsd(Get(form, CostMyr), Get(form, Rate), parse)
    ensures var m, r := ParseFloat(Get(form, CostMyr), parse), ParseFloat(Get(form, Rate), parse);
            SubmitPayload(form, parse).costPriceUsd ==
              if m.Num? && r.Num? && r.v != 0.0 then Num(Round2(m.v / r.v)) else NaN
    ensures SubmitPayload(form, parse).costPriceUsd.Num? ==> IsCents(SubmitPayload(form, parse).costPriceUsd.v)
  {
  }
}
