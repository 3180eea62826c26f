/**
 * The shape check and sanitisation that the data API applies to a POST or
 * PUT body before it is stored (api/data.js, inside `handler`).
 *
 * `Validate` is the specification: it walks the maps in `Object.entries`
 * order and, inside each map, its firms in order, and stops at the first
 * fault. Reading a property of `null` (a map, a firm or a category entry
 * that is `null`) throws a `TypeError`, which the handler answers with 500;
 * the three shape faults are answered with 400. On success the value is the
 * sanitised body the handler hands to the store. `ValidateBody` computes the
 * same with the source's loops.
 */
module Validation {
  import opened Options
  import opened JsonValue
  import JsText

  /** `substring(0, 200)` for firm names and products, `substring(0, 100)` for the rest. */
  const NameCap := 200
  const LabelCap := 100

  /** Why a body was refused: the three 400 reasons, and a `TypeError` caught as a 500. */
  datatype Rejection = BadFormat | BadMap | BadFirm | Crash

  datatype Checked<T> = Ok(value: T) | Fail(why: Rejection)

  /** A string with no white space to cut at either end. */
  predicate Tidy(s: string) {
    s == [] || (!JsText.IsSpace(s[0]) && !JsText.IsSpace(s[|s| - 1]))
  }

  /** `v.toString().trim().substring(0, cap)`. */
  function Clean(v: Json, cap: nat): (r: Json)
    ensures r.JStr? && |r.s| <= cap
    ensures v.JStr? && Tidy(v.s) && |v.s| <= cap ==> r == v
  {
    JStr(JsText.Prefix(JsText.Trim(ToText(v)), cap))
  }

  /** Applies `step` to each element in order and stops at the first failure. */
  function Each(xs: seq<Json>, step: Json -> Checked<Json>): (r: Checked<seq<Json>>)
    ensures r.Ok? <==> forall i :: 0 <= i < |xs| ==> step(xs[i]).Ok?
    ensures r.Ok? ==> |r.value| == |xs| && forall i :: 0 <= i < |xs| ==> r.value[i] == step(xs[i]).value
    ensures r.Fail? ==> exists i :: 0 <= i < |xs| && step(xs[i]) == Fail(r.why)
                              && forall j :: 0 <= j < i ==> step(xs[j]).Ok?
    decreases |xs|
  {
    if xs == [] then Ok([])
    else
      var init := xs[..|xs| - 1];
      assert forall i :: 0 <= i < |init| ==> init[i] == xs[i];
      match Each(init, step)
      case Fail(why) => Fail(why)
      case Ok(done) =>
        match step(xs[|xs| - 1])
        case Fail(why) => Fail(why)
        case Ok(y) => Ok(done + [y])
  }

  /** The walk fails for the reason of its first failing step. */
  lemma EachFirstFault(xs: seq<Json>, i: int, step: Json -> Checked<Json>)
    requires 0 <= i < |xs| && step(xs[i]).Fail? && forall j :: 0 <= j < i ==> step(xs[j]).Ok?
    ensures Each(xs, step) == Fail(step(xs[i]).why)
  {
    var k :| 0 <= k < |xs| && step(xs[k]) == Fail(Each(xs, step).why) && forall j :: 0 <= j < k ==> step(xs[j]).Ok?;
    assert k == i;
  }

  /** Once a prefix fails, the whole walk fails for the same reason. */
  lemma {:induction false} EachPrefixFail(xs: seq<Json>, k: nat, step: Json -> Checked<Json>)
    requires k <= |xs|
    requires Each(xs[..k], step).Fail?
    ensures Each(xs, step) == Each(xs[..k], step)
    decreases |xs| - k
  {
    if k < |xs| {
      var init := xs[..|xs| - 1];
      assert init[..k] == xs[..k];
      EachPrefixFail(init, k, step);
    } else {
      assert xs[..k] == xs;
    }
  }

  /** Line 177: every one of `id`, `name`, `category`, `subcategory` is truthy. */
  predicate FirmShapeOk(f: Json) {
    && TruthyRead(Get(f, "id"))
    && TruthyRead(Get(f, "name"))
    && TruthyRead(Get(f, "category"))
    && TruthyRead(Get(f, "subcategory"))
  }

  /** `r` reads as a string of at most `cap` characters. */
  predicate StrWithin(r: Read, cap: nat) {
    r.Found? && r.value.JStr? && |r.value.s| <= cap
  }

  /** A sanitised firm: capped name, category and subcategory, and a capped product whenever it is truthy. */
  predicate FirmCapped(f: Json) {
    && StrWithin(Get(f, "name"), NameCap)
    && StrWithin(Get(f, "category"), LabelCap)
    && StrWithin(Get(f, "subcategory"), LabelCap)
    && (TruthyRead(Get(f, "product")) ==> StrWithin(Get(f, "product"), NameCap))
  }

  /**
   * `out` is the firm `f` after lines 183-188: name, category and
   * subcategory replaced by their sanitised text, a truthy product by its
   * sanitised text, and every other property (the id among them) as it was.
   */
  ghost predicate SanitisedFirm(f: Json, out: Json)
    requires FirmShapeOk(f)
  {
    && out.JObj?
    && Get(out, "name") == Found(Clean(Get(f, "name").value, NameCap))
    && Get(out, "category") == Found(Clean(Get(f, "category").value, LabelCap))
    && Get(out, "subcategory") == Found(Clean(Get(f, "subcategory").value, LabelCap))
    && Get(out, "product") == (if TruthyRead(Get(f, "product")) then Found(Clean(Get(f, "product").value, NameCap))
                               else Get(f, "product"))
    && forall k {:trigger Get(out, k)} :: k != "name" && k != "category" && k != "subcategory" && k != "product" ==> Get(out, k) == Get(f, k)
  }

  /** The firm's fields after the three assignments of lines 183-185; nothing else is assigned. */
  function AssignLabels(fields: seq<(string, Json)>, name: Json, category: Json, subcategory: Json): (r: seq<(string, Json)>)
    ensures Lookup(r, "name") == Found(name)
    ensures Lookup(r, "category") == Found(category)
    ensures Lookup(r, "subcategory") == Found(subcategory)
    ensures forall k {:trigger Lookup(r, k)} :: k != "name" && k != "category" && k != "subcategory" ==> Lookup(r, k) == Lookup(fields, k)
  {
    var f1 := SetField(fields, "name", name);
    var f2 := SetField(f1, "category", category);
    var f3 := SetField(f2, "subcategory", subcategory);
    SetFieldElsewhere(f1, "category", category, "name");
    SetFieldElsewhere(f2, "subcategory", subcategory, "name");
    SetFieldElsewhere(f2, "subcategory", subcategory, "category");
    forall k | k != "name" && k != "category" && k != "subcategory"
      ensures Lookup(f3, k) == Lookup(fields, k)
    {
      SetFieldElsewhere(fields, "name", name, k);
      SetFieldElsewhere(f1, "category", category, k);
      SetFieldElsewhere(f2, "subcategory", subcategory, k);
    }
    f3
  }

  /** Lines 186-188: a truthy `product` is sanitised, any other is left alone; no other field changes. */
  function CleanProduct(fields: seq<(string, Json)>): (r: seq<(string, Json)>)
    ensures TruthyRead(Lookup(fields, "product")) ==> Lookup(r, "product") == Found(Clean(Lookup(fields, "product").value, NameCap))
    ensures !TruthyRead(Lookup(fields, "product")) ==> r == fields
    ensures forall k {:trigger Lookup(r, k)} :: k != "product" ==> Lookup(r, k) == Lookup(fields, k)
    ensures TruthyRead(Lookup(r, "product")) ==> StrWithin(Lookup(r, "product"), NameCap)
  {
    var product := Lookup(fields, "product");
    if TruthyRead(product) then
      var cleaned := Clean(product.value, NameCap);
      forall k | k != "product"
        ensures Lookup(SetField(fields, "product", cleaned), k) == Lookup(fields, k)
      {
        SetFieldElsewhere(fields, "product", cleaned, k);
      }
      SetField(fields, "product", cleaned)
    else
      fields
  }

  /** Lines 183-188: the firm with its name, category, subcategory and (when truthy) product sanitised. */
  function CleanFirm(f: Json): (r: Json)
    requires FirmShapeOk(f)
    ensures r.JObj?
  {
    var name := Clean(Get(f, "name").value, NameCap);
    var category := Clean(Get(f, "category").value, LabelCap);
    var subcategory := Clean(Get(f, "subcategory").value, LabelCap);
    JObj(CleanProduct(AssignLabels(f.fields, name, category, subcategory)))
  }

  /** `CleanFirm` sanitises exactly the four properties lines 183-188 assign and keeps every other. */
  lemma CleanFirmSanitised(f: Json)
    requires FirmShapeOk(f)
    ensures SanitisedFirm(f, CleanFirm(f))
  {
    var name := Clean(Get(f, "name").value, NameCap);
    var category := Clean(Get(f, "category").value, LabelCap);
    var subcategory := Clean(Get(f, "subcategory").value, LabelCap);
    RelabelLabels(f.fields, name, category, subcategory);
    RelabelProduct(f.fields, name, category, subcategory);
    RelabelElsewhere(f.fields, name, category, subcategory);
    SanitisedFields(f, CleanProduct(AssignLabels(f.fields, name, category, subcategory)));
  }

  /** Properties that read back as lines 183-188 leave them make a sanitised firm. */
  lemma SanitisedFields(f: Json, fields: seq<(string, Json)>)
    requires FirmShapeOk(f)
    requires Lookup(fields, "name") == Found(Clean(Get(f, "name").value, NameCap))
    requires Lookup(fields, "category") == Found(Clean(Get(f, "category").value, LabelCap))
    requires Lookup(fields, "subcategory") == Found(Clean(Get(f, "subcategory").value, LabelCap))
    requires Lookup(fields, "product") == if TruthyRead(Lookup(f.fields, "product")) then Found(Clean(Lookup(f.fields, "product").value, NameCap))
                                         else Lookup(f.fields, "product")
    requires forall k {:trigger Lookup(fields, k)} :: k != "name" && k != "category" && k != "subcategory" && k != "product" ==>
               Lookup(fields, k) == Lookup(f.fields, k)
    ensures SanitisedFirm(f, JObj(fields))
  {
    var out := JObj(fields);
    assert Get(out, "name") == Found(Clean(Get(f, "name").value, NameCap));
    assert Get(out, "category") == Found(Clean(Get(f, "category").value, LabelCap));
    assert Get(out, "subcategory") == Found(Clean(Get(f, "subcategory").value, LabelCap));
    assert Get(out, "product") == (if TruthyRead(Get(f, "product")) then Found(Clean(Get(f, "product").value, NameCap))
                                   else Get(f, "product"));
    assert forall k {:trigger Get(out, k)} :: k != "name" && k != "category" && k != "subcategory" && k != "product" ==>
      Get(out, k) == Get(f, k);
  }

  /** The three assignments leave the property `key` alone. */
  lemma LabelsElsewhere(fields: seq<(string, Json)>, name: Json, category: Json, subcategory: Json, key: string)
    requires key != "name" && key != "category" && key != "subcategory"
    ensures Lookup(AssignLabels(fields, name, category, subcategory), key) == Lookup(fields, key)
  {
  }

  /** Sanitising the product leaves the property `key` alone. */
  lemma ProductElsewhere(fields: seq<(string, Json)>, key: string)
    requires key != "product"
    ensures Lookup(CleanProduct(fields), key) == Lookup(fields, key)
  {
  }

  // Lines 183-188 on the object's fields, for any three new label values.

  /** The three labels read back as assigned. */
  lemma RelabelLabels(fields: seq<(string, Json)>, name: Json, category: Json, subcategory: Json)
    ensures var out := CleanProduct(AssignLabels(fields, name, category, subcategory));
      Lookup(out, "name") == Found(name) && Lookup(out, "category") == Found(category)
      && Lookup(out, "subcategory") == Found(subcategory)
  {
    var named := AssignLabels(fields, name, category, subcategory);
    ProductElsewhere(named, "name");
    ProductElsewhere(named, "category");
    ProductElsewhere(named, "subcategory");
  }

  /** The product is cleaned exactly when it is truthy. */
  lemma RelabelProduct(fields: seq<(string, Json)>, name: Json, category: Json, subcategory: Json)
    ensures Lookup(CleanProduct(AssignLabels(fields, name, category, subcategory)), "product")
         == if TruthyRead(Lookup(fields, "product")) then Found(Clean(Lookup(fields, "product").value, NameCap))
            else Lookup(fields, "product")
  {
    LabelsElsewhere(fields, name, category, subcategory, "product");
  }

  /** No other property changes. */
  lemma RelabelElsewhere(fields: seq<(string, Json)>, name: Json, category: Json, subcategory: Json)
    ensures var out := CleanProduct(AssignLabels(fields, name, category, subcategory));
      forall k {:trigger Lookup(out, k)} :: k != "name" && k != "category" && k != "subcategory" && k != "product" ==>
        Lookup(out, k) == Lookup(fields, k)
  {
  }

  /** A sanitised firm is within its caps. */
  lemma SanitisedFirmCapped(f: Json, out: Json)
    requires FirmShapeOk(f) && SanitisedFirm(f, out)
    ensures FirmCapped(out)
  {
  }

  /** One iteration of the firm loop (lines 176-189). */
  function CheckFirm(f: Json): (r: Checked<Json>)
    ensures r.Ok? <==> FirmShapeOk(f)
    ensures r == Fail(Crash) <==> f == JNull
    ensures r == Fail(BadFirm) <==> f != JNull && !FirmShapeOk(f)
    ensures r.Ok? ==> r.value == CleanFirm(f)
  {
    if f == JNull then Fail(Crash)
    else if !FirmShapeOk(f) then Fail(BadFirm)
    else Ok(CleanFirm(f))
  }

  /** One step of `map.categories.map(cat => cat.toString().trim().substring(0, 100))` (line 193). */
  function CheckCategory(c: Json): (r: Checked<Json>)
    ensures r.Ok? <==> c != JNull
    ensures r.Fail? ==> r == Fail(Crash)
    ensures r.Ok? ==> r.value == Clean(c, LabelCap) && |r.value.s| <= LabelCap
  {
    if c == JNull then Fail(Crash) else Ok(Clean(c, LabelCap))
  }

  /** Line 170: `id` and `name` are truthy, `categories` and `firms` are arrays. */
  predicate MapShapeOk(m: Json) {
    && TruthyRead(Get(m, "id"))
    && TruthyRead(Get(m, "name"))
    && IsArrayRead(Get(m, "categories"))
    && IsArrayRead(Get(m, "firms"))
  }

  function FirmsOf(m: Json): seq<Json>
    requires MapShapeOk(m)
  {
    Get(m, "firms").value.items
  }

  function CategoriesOf(m: Json): seq<Json>
    requires MapShapeOk(m)
  {
    Get(m, "categories").value.items
  }

  function ItemsOf(r: Read): seq<Json>
    requires IsArrayRead(r)
  {
    r.value.items
  }

  /** A sanitised map: capped name, categories all capped strings, firms all sanitised. */
  predicate MapCapped(m: Json) {
    && StrWithin(Get(m, "name"), LabelCap)
    && IsArrayRead(Get(m, "categories"))
    && IsArrayRead(Get(m, "firms"))
    && (forall c :: c in ItemsOf(Get(m, "categories")) ==> c.JStr? && |c.s| <= LabelCap)
    && (forall f :: f in ItemsOf(Get(m, "firms")) ==> FirmCapped(f))
  }

  /**
   * `out` is the map `m` after lines 191-193: the name sanitised, each
   * category entry sanitised in place, each firm sanitised in place, and
   * every other property (the id among them) as it was.
   */
  ghost predicate SanitisedMap(m: Json, out: Json)
    requires MapOk(m)
  {
    && out.JObj?
    && Get(out, "name") == Found(Clean(Get(m, "name").value, LabelCap))
    && IsArrayRead(Get(out, "categories")) && CategoriesCleaned(CategoriesOf(m), ItemsOf(Get(out, "categories")))
    && IsArrayRead(Get(out, "firms")) && FirmsCleaned(FirmsOf(m), ItemsOf(Get(out, "firms")))
    && forall k {:trigger Get(out, k)} :: k != "name" && k != "categories" && k != "firms" ==> Get(out, k) == Get(m, k)
  }

  predicate CategoriesCleaned(cs: seq<Json>, out: seq<Json>) {
    |out| == |cs| && forall i :: 0 <= i < |cs| ==> out[i] == Clean(cs[i], LabelCap)
  }

  ghost predicate FirmsCleaned(fs: seq<Json>, out: seq<Json>)
    requires forall j :: 0 <= j < |fs| ==> FirmShapeOk(fs[j])
  {
    |out| == |fs| && forall j :: 0 <= j < |fs| ==> SanitisedFirm(fs[j], out[j])
  }

  /** The map with its firms, name and categories replaced (lines 191-193). */
  function RebuildMap(m: Json, firms: seq<Json>, categories: seq<Json>): (r: Json)
    requires MapShapeOk(m)
    ensures r.JObj?
  {
    var name := Clean(Get(m, "name").value, LabelCap);
    JObj(SetField(SetField(SetField(m.fields, "firms", JArr(firms)), "name", name), "categories", JArr(categories)))
  }

  /** The three assignments of lines 191-193 read back. */
  lemma RebuildMapAssigns(m: Json, firms: seq<Json>, categories: seq<Json>)
    requires MapShapeOk(m)
    ensures Get(RebuildMap(m, firms, categories), "name") == Found(Clean(Get(m, "name").value, LabelCap))
    ensures Get(RebuildMap(m, firms, categories), "firms") == Found(JArr(firms))
    ensures Get(RebuildMap(m, firms, categories), "categories") == Found(JArr(categories))
  {
    var name := Clean(Get(m, "name").value, LabelCap);
    var f1 := SetField(m.fields, "firms", JArr(firms));
    var f2 := SetField(f1, "name", name);
    SetFieldElsewhere(f1, "name", name, "firms");
    SetFieldElsewhere(f2, "categories", JArr(categories), "firms");
    SetFieldElsewhere(f2, "categories", JArr(categories), "name");
  }

  /** Lines 191-193 leave every other property of the map, its id among them, alone. */
  lemma RebuildMapElsewhere(m: Json, firms: seq<Json>, categories: seq<Json>)
    requires MapShapeOk(m)
    ensures var r := RebuildMap(m, firms, categories);
      forall k {:trigger Get(r, k)} :: k != "name" && k != "categories" && k != "firms" ==> Get(r, k) == Get(m, k)
  {
    var name := Clean(Get(m, "name").value, LabelCap);
    var f1 := SetField(m.fields, "firms", JArr(firms));
    var f2 := SetField(f1, "name", name);
    forall k | k != "name" && k != "categories" && k != "firms"
      ensures Lookup(SetField(f2, "categories", JArr(categories)), k) == Lookup(m.fields, k)
    {
      SetFieldElsewhere(m.fields, "firms", JArr(firms), k);
      SetFieldElsewhere(f1, "name", name, k);
      SetFieldElsewhere(f2, "categories", JArr(categories), k);
    }
  }

  /** A map the loop accepts: lines 170 and 177 hold and no property read meets `null`. */
  predicate MapOk(m: Json) {
    && m != JNull
    && MapShapeOk(m)
    && (forall j :: 0 <= j < |FirmsOf(m)| ==> FirmShapeOk(FirmsOf(m)[j]))
    && (forall j :: 0 <= j < |CategoriesOf(m)| ==> CategoriesOf(m)[j] != JNull)
  }

  /** One iteration of the map loop (lines 169-194). */
  function CheckMap(m: Json): (r: Checked<Json>)
    ensures r != Fail(BadFormat)
    ensures r.Ok? ==> r.value.JObj?
  {
    if m == JNull then Fail(Crash)
    else if !MapShapeOk(m) then Fail(BadMap)
    else
      match Each(FirmsOf(m), CheckFirm)
      case Fail(why) => Fail(why)
      case Ok(firms) =>
        match Each(CategoriesOf(m), CheckCategory)
        case Fail(why) => Fail(why)
        case Ok(categories) => Ok(RebuildMap(m, firms, categories))
  }

  /** A sanitised map is within its caps. */
  lemma SanitisedMapCapped(m: Json, out: Json)
    ensures MapOk(m) && SanitisedMap(m, out) ==> MapCapped(out)
  {
    if MapOk(m) && SanitisedMap(m, out) {
      var categories, firms := ItemsOf(Get(out, "categories")), ItemsOf(Get(out, "firms"));
      forall c | c in categories
        ensures c.JStr? && |c.s| <= LabelCap
      {
        var i :| 0 <= i < |categories| && categories[i] == c;
      }
      forall f | f in firms
        ensures FirmCapped(f)
      {
        var j :| 0 <= j < |firms| && firms[j] == f;
        SanitisedFirmCapped(FirmsOf(m)[j], f);
      }
    }
  }

  /** A map passes exactly when it is well shaped, and then comes out sanitised, every other property kept. */
  lemma CheckMapAccepts(m: Json)
    ensures CheckMap(m).Ok? <==> MapOk(m)
    ensures CheckMap(m).Ok? ==> MapCapped(CheckMap(m).value) && SanitisedMap(m, CheckMap(m).value)
  {
    if MapOk(m) {
      var firms := Each(FirmsOf(m), CheckFirm).value;
      var categories := Each(CategoriesOf(m), CheckCategory).value;
      forall j | 0 <= j < |firms|
        ensures SanitisedFirm(FirmsOf(m)[j], firms[j])
      {
        CleanFirmSanitised(FirmsOf(m)[j]);
      }
      RebuildMapAssigns(m, firms, categories);
      RebuildMapElsewhere(m, firms, categories);
      SanitisedMapCapped(m, CheckMap(m).value);
    }
  }

  /** `i` is the first firm of `m` that fails the shape check of lines 176-180. */
  predicate FirstBadFirm(m: Json, i: int)
    requires MapShapeOk(m)
  {
    0 <= i < |FirmsOf(m)| && !FirmShapeOk(FirmsOf(m)[i]) && forall j :: 0 <= j < i ==> FirmShapeOk(FirmsOf(m)[j])
  }

  /** A map of good shape is refused for the reason of its first bad firm (lines 170-180 run before line 193). */
  lemma CheckMapFirstFirm(m: Json, i: int)
    requires m != JNull && MapShapeOk(m) && FirstBadFirm(m, i)
    ensures CheckMap(m) == CheckFirm(FirmsOf(m)[i])
  {
    EachFirstFault(FirmsOf(m), i, CheckFirm);
  }

  /** When every firm passes, the map fails exactly on a `null` category entry, and then with a crash. */
  lemma CheckMapCategories(m: Json)
    requires m != JNull && MapShapeOk(m) && forall i :: 0 <= i < |FirmsOf(m)| ==> FirmShapeOk(FirmsOf(m)[i])
    ensures CheckMap(m).Ok? <==> JNull !in CategoriesOf(m)
    ensures CheckMap(m).Fail? ==> CheckMap(m) == Fail(Crash)
  {
    var categories := CategoriesOf(m);
    if JNull in categories {
      var i :| 0 <= i < |categories| && categories[i] == JNull;
    }
    if Each(categories, CheckCategory).Fail? {
      var i :| 0 <= i < |categories| && CheckCategory(categories[i]) == Fail(Each(categories, CheckCategory).why);
    }
  }

  /** Which reason a refused map gives, and exactly when. */
  lemma CheckMapReasons(m: Json)
    ensures CheckMap(m) == Fail(BadMap) <==> m != JNull && !MapShapeOk(m)
    ensures CheckMap(m) == Fail(BadFirm) <==>
      m != JNull && MapShapeOk(m) && exists i :: FirstBadFirm(m, i) && FirmsOf(m)[i] != JNull
    ensures CheckMap(m) == Fail(Crash) <==>
      || m == JNull
      || (MapShapeOk(m) && exists i :: FirstBadFirm(m, i) && FirmsOf(m)[i] == JNull)
      || (MapShapeOk(m) && (forall i :: 0 <= i < |FirmsOf(m)| ==> FirmShapeOk(FirmsOf(m)[i])) && JNull in CategoriesOf(m))
    ensures CheckMap(m) != Fail(BadFormat)
  {
    if m != JNull && MapShapeOk(m) {
      var firms := FirmsOf(m);
      if i :| 0 <= i < |firms| && !FirmShapeOk(firms[i]) {
        assert Each(firms, CheckFirm).Fail?;
        var k :| 0 <= k < |firms| && CheckFirm(firms[k]) == Fail(Each(firms, CheckFirm).why)
                 && forall j :: 0 <= j < k ==> CheckFirm(firms[j]).Ok?;
        assert FirstBadFirm(m, k);
        CheckMapFirstFirm(m, k);
        assert forall i' :: FirstBadFirm(m, i') ==> i' == k;
      } else {
        CheckMapCategories(m);
      }
    }
  }

  /** Line 163: the body is truthy and `typeof` says `'object'` (an object or an array). */
  predicate IsObject(body: Option<Json>) {
    body.Some? && Truthy(body.value) && (body.value.JObj? || body.value.JArr?)
  }

  /** The whole check of lines 163-194. */
  function Validate(body: Option<Json>): (r: Checked<Json>)
    ensures !IsObject(body) ==> r == Fail(BadFormat)
    ensures r.Ok? ==> IsObject(body) && r.value.JArr? == body.value.JArr? && |Entries(r.value)| == |Entries(body.value)|
  {
    if !IsObject(body) then Fail(BadFormat)
    else
      match Each(Entries(body.value), CheckMap)
      case Fail(why) => Fail(why)
      case Ok(maps) => Ok(WithEntries(body.value, maps))
  }

  /** A body every entry of which is an acceptable map. */
  predicate WellShaped(body: Option<Json>) {
    IsObject(body) && forall i :: 0 <= i < |Entries(body.value)| ==> MapOk(Entries(body.value)[i])
  }

  /** The body is refused as malformed exactly when it is not a truthy object or array. */
  lemma RefusedAsFormat(body: Option<Json>)
    ensures Validate(body) == Fail(BadFormat) <==> !IsObject(body)
  {
    if IsObject(body) {
      var maps := Entries(body.value);
      if Each(maps, CheckMap).Fail? {
        var i :| 0 <= i < |maps| && CheckMap(maps[i]) == Fail(Each(maps, CheckMap).why);
        CheckMapReasons(maps[i]);
      }
    }
  }

  /** A body is accepted exactly when it is well shaped: any bad map or firm means no store write. */
  lemma {:induction false} AcceptedIffWellShaped(body: Option<Json>)
    ensures Validate(body).Ok? <==> WellShaped(body)
  {
    if IsObject(body) {
      var maps := Entries(body.value);
      forall i | 0 <= i < |maps|
        ensures CheckMap(maps[i]).Ok? <==> MapOk(maps[i])
      {
        CheckMapAccepts(maps[i]);
      }
    }
  }

  /**
   * An accepted body comes out as the same kind of value with the same keys,
   * every map sanitised: capped, its strings cleaned and every other property
   * kept, the firms in order.
   */
  lemma {:induction false} AcceptedIsSanitised(body: Option<Json>)
    ensures Validate(body).Ok? ==>
      var out := Validate(body).value;
      && IsObject(body)
      && out.JObj? == body.value.JObj? && out.JArr? == body.value.JArr?
      && (out.JObj? ==> |out.fields| == |body.value.fields|
                        && forall i :: 0 <= i < |out.fields| ==> out.fields[i].0 == body.value.fields[i].0)
      && |Entries(out)| == |Entries(body.value)|
      && forall i :: 0 <= i < |Entries(out)| ==>
           MapOk(Entries(body.value)[i]) && MapCapped(Entries(out)[i])
           && SanitisedMap(Entries(body.value)[i], Entries(out)[i])
  {
    if Validate(body).Ok? {
      var maps := Entries(body.value);
      var done := Each(maps, CheckMap).value;
      forall i | 0 <= i < |maps|
        ensures MapOk(maps[i]) && MapCapped(done[i]) && SanitisedMap(maps[i], done[i])
      {
        CheckMapAccepts(maps[i]);
      }
    }
  }

  /** A refused object is refused for the fault of its first unacceptable map. */
  lemma {:induction false} RefusalNamesFirstFault(body: Option<Json>)
    ensures IsObject(body) && Validate(body).Fail? ==>
      var maps := Entries(body.value);
      exists i :: 0 <= i < |maps| && !MapOk(maps[i]) && Validate(body) == CheckMap(maps[i])
        && forall j :: 0 <= j < i ==> MapOk(maps[j])
  {
    if IsObject(body) && Validate(body).Fail? {
      var maps := Entries(body.value);
      var i :| 0 <= i < |maps| && CheckMap(maps[i]) == Fail(Each(maps, CheckMap).why)
        && forall j :: 0 <= j < i ==> CheckMap(maps[j]).Ok?;
      CheckMapAccepts(maps[i]);
      forall j | 0 <= j < i
        ensures MapOk(maps[j])
      {
        CheckMapAccepts(maps[j]);
      }
    }
  }

  // What sanitising leaves alone, and what it does to a blank name.

  /** A read of a string within `cap` with no white space at either end. */
  predicate TidyWithin(r: Read, cap: nat) {
    r.Found? && r.value.JStr? && Tidy(r.value.s) && |r.value.s| <= cap
  }

  /** A well-shaped firm whose sanitised properties are already tidy and within their caps. */
  predicate TidyFirm(f: Json) {
    && FirmShapeOk(f)
    && TidyWithin(Get(f, "name"), NameCap)
    && TidyWithin(Get(f, "category"), LabelCap)
    && TidyWithin(Get(f, "subcategory"), LabelCap)
    && (TruthyRead(Get(f, "product")) ==> TidyWithin(Get(f, "product"), NameCap))
  }

  /** A well-shaped map with a tidy name, tidy category entries and tidy firms. */
  predicate TidyMap(m: Json) {
    && m != JNull
    && MapShapeOk(m)
    && TidyWithin(Get(m, "name"), LabelCap)
    && (forall c :: c in CategoriesOf(m) ==> c.JStr? && Tidy(c.s) && |c.s| <= LabelCap)
    && (forall f :: f in FirmsOf(m) ==> TidyFirm(f))
  }

  predicate TidyBody(body: Option<Json>) {
    IsObject(body) && forall m :: m in Entries(body.value) ==> TidyMap(m)
  }

  /** Assigning a property the value it already has changes nothing. */
  lemma {:induction false} SetFieldSame(fields: seq<(string, Json)>, key: string, value: Json)
    requires Lookup(fields, key) == Found(value)
    ensures SetField(fields, key, value) == fields
  {
    if fields[0].0 != key {
      SetFieldSame(fields[1..], key, value);
      assert fields == [fields[0]] + fields[1..];
    } else {
      assert fields == [(key, value)] + fields[1..];
    }
  }

  /** A walk whose every step hands its element back unchanged hands the whole list back. */
  lemma {:induction false} EachFixed(xs: seq<Json>, step: Json -> Checked<Json>)
    requires forall i :: 0 <= i < |xs| ==> step(xs[i]) == Ok(xs[i])
    ensures Each(xs, step) == Ok(xs)
    decreases |xs|
  {
    if xs != [] {
      var init := xs[..|xs| - 1];
      assert forall i :: 0 <= i < |init| ==> init[i] == xs[i];
      EachFixed(init, step);
      assert init + [xs[|xs| - 1]] == xs;
    }
  }

  /** Lines 183-188 leave a tidy firm exactly as it was. */
  lemma CleanFirmTidy(f: Json)
    requires TidyFirm(f)
    ensures CleanFirm(f) == f
  {
    var name, category, subcategory := Get(f, "name").value, Get(f, "category").value, Get(f, "subcategory").value;
    assert Clean(name, NameCap) == name && Clean(category, LabelCap) == category && Clean(subcategory, LabelCap) == subcategory;
    var f1 := SetField(f.fields, "name", name);
    SetFieldSame(f.fields, "name", name);
    SetFieldSame(f1, "category", category);
    var f2 := SetField(f1, "category", category);
    SetFieldSame(f2, "subcategory", subcategory);
    assert AssignLabels(f.fields, name, category, subcategory) == f.fields;
    if TruthyRead(Get(f, "product")) {
      var product := Get(f, "product").value;
      assert Clean(product, NameCap) == product;
      SetFieldSame(f.fields, "product", product);
    }
  }

  /** One iteration of the map loop leaves a tidy map exactly as it was. */
  lemma CheckMapTidy(m: Json)
    requires TidyMap(m)
    ensures CheckMap(m) == Ok(m)
  {
    var firms, categories := FirmsOf(m), CategoriesOf(m);
    forall j | 0 <= j < |firms|
      ensures CheckFirm(firms[j]) == Ok(firms[j])
    {
      assert firms[j] in firms;
      CleanFirmTidy(firms[j]);
    }
    EachFixed(firms, CheckFirm);
    forall j | 0 <= j < |categories|
      ensures CheckCategory(categories[j]) == Ok(categories[j])
    {
      assert categories[j] in categories;
    }
    EachFixed(categories, CheckCategory);
    var name := Get(m, "name").value;
    assert Clean(name, LabelCap) == name;
    var f1 := SetField(m.fields, "firms", JArr(firms));
    SetFieldSame(m.fields, "firms", JArr(firms));
    SetFieldSame(f1, "name", name);
    var f2 := SetField(f1, "name", name);
    SetFieldSame(f2, "categories", JArr(categories));
  }

  /** Replacing every entry of an object or array by itself gives it back. */
  lemma WithEntriesSame(v: Json)
    requires v.JArr? || v.JObj?
    ensures WithEntries(v, Entries(v)) == v
  {
    if v.JObj? {
      assert WithEntries(v, Entries(v)).fields == v.fields;
    }
  }

  /** A body that is well shaped and already tidy is accepted and stored exactly as sent. */
  lemma {:induction false} TidyBodyUnchanged(body: Option<Json>)
    ensures TidyBody(body) ==> Validate(body) == Ok(body.value)
  {
    if TidyBody(body) {
      var maps := Entries(body.value);
      forall i | 0 <= i < |maps|
        ensures CheckMap(maps[i]) == Ok(maps[i])
      {
        assert maps[i] in maps;
        CheckMapTidy(maps[i]);
      }
      EachFixed(maps, CheckMap);
      WithEntriesSame(body.value);
    }
  }

  /**
   * A firm whose name is only white space passes the shape check (the name
   * is truthy) and is stored with the name `""`; the stored firm, sent back,
   * fails the same check (an empty name is falsy).
   */
  lemma BlankNameStoredThenRefused(f: Json, blank: string)
    requires FirmShapeOk(f) && Get(f, "name") == Found(JStr(blank))
    requires forall i :: 0 <= i < |blank| ==> JsText.IsSpace(blank[i])
    ensures CheckFirm(f).Ok? && Get(CheckFirm(f).value, "name") == Found(JStr(""))
    ensures CheckFirm(CheckFirm(f).value) == Fail(BadFirm)
  {
    CleanFirmSanitised(f);
    var out := CleanFirm(f);
    assert CheckFirm(f) == Ok(out);
    assert ToText(JStr(blank)) == blank;
    assert JsText.Trim(blank) == [];
    assert Clean(JStr(blank), NameCap) == JStr("");
    assert Get(out, "name") == Found(JStr(""));
    assert out != JNull && !FirmShapeOk(out);
  }

  // The loops of the handler, proved to compute `Validate`.

  method SanitizeFirms(firms: seq<Json>) returns (result: Checked<seq<Json>>)
    ensures result == Each(firms, CheckFirm)
  {
    var done: seq<Json> := [];
    var j := 0;
    while j < |firms|
      invariant 0 <= j <= |firms|
      invariant Each(firms[..j], CheckFirm) == Ok(done)
    {
      var firm := firms[j];
      assert firms[..j + 1][..j] == firms[..j];
      if firm == JNull {
        assert Each(firms[..j + 1], CheckFirm) == Fail(Crash);
        EachPrefixFail(firms, j + 1, CheckFirm);
        return Fail(Crash);
      }
      if !FirmShapeOk(firm) {
        assert Each(firms[..j + 1], CheckFirm) == Fail(BadFirm);
        EachPrefixFail(firms, j + 1, CheckFirm);
        return Fail(BadFirm);
      }
      assert CheckFirm(firm) == Ok(CleanFirm(firm));
      done := done + [CleanFirm(firm)];
      j := j + 1;
    }
    assert firms[..j] == firms;
    return Ok(done);
  }

  method SanitizeCategories(categories: seq<Json>) returns (result: Checked<seq<Json>>)
    ensures result == Each(categories, CheckCategory)
  {
    var done: seq<Json> := [];
    var j := 0;
    while j < |categories|
      invariant 0 <= j <= |categories|
      invariant Each(categories[..j], CheckCategory) == Ok(done)
    {
      var category := categories[j];
      assert categories[..j + 1][..j] == categories[..j];
      if category == JNull {
        EachPrefixFail(categories, j + 1, CheckCategory);
        return Fail(Crash);
      }
      done := done + [Clean(category, LabelCap)];
      j := j + 1;
    }
    assert categories[..j] == categories;
    return Ok(done);
  }

  method SanitizeMap(m: Json) returns (result: Checked<Json>)
    ensures result == CheckMap(m)
  {
    if m == JNull {
      return Fail(Crash);
    }
    if !MapShapeOk(m) {
      return Fail(BadMap);
    }
    var firms := SanitizeFirms(FirmsOf(m));
    if firms.Fail? {
      return Fail(firms.why);
    }
    var categories := SanitizeCategories(CategoriesOf(m));
    if categories.Fail? {
      return Fail(categories.why);
    }
    return Ok(RebuildMap(m, firms.value, categories.value));
  }

  /** Lines 163-194 as the source runs them: stop at the first fault, else the sanitised body. */
  method ValidateBody(body: Option<Json>) returns (result: Checked<Json>)
    ensures result == Validate(body)
  {
    if !IsObject(body) {
      return Fail(BadFormat);
    }
    var maps := Entries(body.value);
    var done: seq<Json> := [];
    var i := 0;
    while i < |maps|
      invariant 0 <= i <= |maps|
      invariant Each(maps[..i], CheckMap) == Ok(done)
    {
      var checked := SanitizeMap(maps[i]);
      assert maps[..i + 1][..i] == maps[..i];
      if checked.Fail? {
        EachPrefixFail(maps, i + 1, CheckMap);
        return Fail(checked.why);
      }
      done := done + [checked.value];
      i := i + 1;
    }
    assert maps[..i] == maps;
    return Ok(WithEntries(body.value, done));
  }
}
