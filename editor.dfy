/**
 * The document the browser client edits (index.tsx): firms grouped into
 * market maps, each map with an ordered list of buckets (`categories`).
 * The state updates behind the `App` handlers are functions from the old
 * collection of maps to the new one; the answers to `window.confirm` and
 * `window.prompt`, and the clock reading used as a new firm's id, are
 * parameters.
 */
module Editor {
  import opened Options
  import opened Seqs
  import JsText

  /** index.tsx:10-16. */
  datatype Firm = Firm(id: string, name: string, category: string, subcategory: string, product: Option<string>)

  /** index.tsx:18-23. */
  datatype MarketMap = MarketMap(id: string, name: string, categories: seq<string>, firms: seq<Firm>)

  /** index.tsx:25-27, keyed by map id. */
  type MarketMaps = map<string, MarketMap>

  /** What the add-firm form hands over: a firm without its id (`Omit<Firm, 'id'>`). */
  datatype FirmDraft = FirmDraft(name: string, subcategory: string, product: string, category: string)

  /** The buckets are duplicate-free and every firm sits in one of them. */
  predicate Consistent(m: MarketMap) {
    && Distinct(m.categories)
    && forall f :: f in m.firms ==> f.category in m.categories
  }

  /** Every map is stored under its own id and is consistent. */
  predicate Valid(maps: MarketMaps) {
    forall k :: k in maps ==> maps[k].id == k && Consistent(maps[k])
  }

  /** The maps with `active` replaced by `m`. */
  predicate OnlyActiveChanged(maps: MarketMaps, active: string, r: MarketMaps) {
    && r.Keys == maps.Keys
    && forall k :: k in maps && k != active ==> r[k] == maps[k]
  }

  // ----- firms (index.tsx:521-550) -----

  /** `handleAddFirm`: the new firm, with id `newId` (`String(Date.now())`), goes after the existing ones. */
  function AddFirm(maps: MarketMaps, active: string, draft: FirmDraft, newId: string): (r: MarketMaps)
    requires active in maps
    ensures OnlyActiveChanged(maps, active, r)
    ensures var m, m' := maps[active], r[active];
      && m'.id == m.id && m'.name == m.name && m'.categories == m.categories
      && |m'.firms| == |m.firms| + 1
      && m'.firms[..|m.firms|] == m.firms
      && m'.firms[|m.firms|] == Firm(newId, draft.name, draft.category, draft.subcategory, Some(draft.product))
  {
    var m := maps[active];
    maps[active := m.(firms := m.firms + [Firm(newId, draft.name, draft.category, draft.subcategory, Some(draft.product))])]
  }

  /** Adding a firm to a listed bucket keeps the maps valid. */
  lemma AddFirmValid(maps: MarketMaps, active: string, draft: FirmDraft, newId: string)
    requires active in maps && Valid(maps)
    requires draft.category in maps[active].categories
    ensures Valid(AddFirm(maps, active, draft, newId))
  {
    var r := AddFirm(maps, active, draft, newId);
    forall f | f in r[active].firms
      ensures f.category in r[active].categories
    {
      var n := |maps[active].firms|;
      var i :| 0 <= i < |r[active].firms| && r[active].firms[i] == f;
      if i < n {
        assert f == r[active].firms[..n][i];
      }
    }
  }

  function HasOtherId(firmId: string): Firm -> bool {
    (f: Firm) => f.id != firmId
  }

  /** `handleDeleteFirm`: after a confirmation, exactly the firms with id `firmId` go, the rest keep their order. */
  function DeleteFirm(maps: MarketMaps, active: string, firmId: string, confirmed: bool): (r: MarketMaps)
    requires active in maps
    ensures !confirmed ==> r == maps
    ensures OnlyActiveChanged(maps, active, r)
    ensures var m, m' := maps[active], r[active];
      && m'.id == m.id && m'.name == m.name && m'.categories == m.categories
      && (forall f :: f in m'.firms <==> f in m.firms && (confirmed ==> f.id != firmId))
      && (confirmed ==> Embeds(m'.firms, m.firms))
  {
    if !confirmed then maps
    else
      var m := maps[active];
      maps[active := m.(firms := Keep(m.firms, HasOtherId(firmId)))]
  }

  /** Every firm with another id stays, as many times as it was there; none with `firmId` does. */
  lemma DeleteFirmCounts(maps: MarketMaps, active: string, firmId: string)
    requires active in maps
    ensures forall f :: multiset(DeleteFirm(maps, active, firmId, true)[active].firms)[f]
                     == if f.id == firmId then 0 else multiset(maps[active].firms)[f]
  {
    KeepCount(maps[active].firms, HasOtherId(firmId));
  }

  lemma DeleteFirmValid(maps: MarketMaps, active: string, firmId: string, confirmed: bool)
    requires active in maps && Valid(maps)
    ensures Valid(DeleteFirm(maps, active, firmId, confirmed))
  {
  }

  function Replaced(f: Firm, saved: Firm): Firm {
    if f.id == saved.id then saved else f
  }

  /** `handleSaveFirm`: same length and order; each firm with the saved firm's id becomes the saved firm. */
  function SaveFirm(maps: MarketMaps, active: string, saved: Firm): (r: MarketMaps)
    requires active in maps
    ensures OnlyActiveChanged(maps, active, r)
    ensures var m, m' := maps[active], r[active];
      && m'.id == m.id && m'.name == m.name && m'.categories == m.categories
      && |m'.firms| == |m.firms|
      && (forall i :: 0 <= i < |m.firms| ==> m'.firms[i].id == m.firms[i].id)
      && (forall i :: 0 <= i < |m.firms| && m.firms[i].id != saved.id ==> m'.firms[i] == m.firms[i])
      && (forall i :: 0 <= i < |m.firms| && m.firms[i].id == saved.id ==> m'.firms[i] == saved)
  {
    var m := maps[active];
    maps[active := m.(firms := seq(|m.firms|, i requires 0 <= i < |m.firms| => Replaced(m.firms[i], saved)))]
  }

  /** Saving a firm whose bucket is listed keeps the maps valid. */
  lemma SaveFirmValid(maps: MarketMaps, active: string, saved: Firm)
    requires active in maps && Valid(maps)
    requires saved.category in maps[active].categories
    ensures Valid(SaveFirm(maps, active, saved))
  {
    var m, m' := maps[active], SaveFirm(maps, active, saved)[active];
    forall f | f in m'.firms
      ensures f.category in m'.categories
    {
      var i :| 0 <= i < |m'.firms| && m'.firms[i] == f;
      assert f == saved || f == m.firms[i];
    }
  }

  // ----- maps (index.tsx:556-568) -----

  /**
   * The lower-case names every object inherits from `Object.prototype`:
   * `marketMaps[slug]` is truthy for them although no map has that id.
   */
  const InheritedNames: set<string> := {"constructor", "__proto__"}

  /** The new collection of maps, the active map id, and whether a map was created (the view returns to the map). */
  datatype Created = Created(maps: MarketMaps, active: string, created: bool)

  /**
   * `handleCreateMap(newMapName)`: the id is the name with white-space runs
   * turned into `-` and lower-cased; an id already taken changes nothing.
   */
  function CreateMap(maps: MarketMaps, active: string, newMapName: string): (r: Created)
    ensures r.created <==> JsText.Slug(newMapName) !in maps && JsText.Slug(newMapName) !in InheritedNames
    ensures !r.created ==> r.maps == maps && r.active == active
    ensures r.created ==>
      && r.active == JsText.Slug(newMapName)
      && r.maps.Keys == maps.Keys + {r.active}
      && r.maps[r.active] == MarketMap(r.active, newMapName, ["New Bucket"], [])
      && forall k :: k in maps ==> r.maps[k] == maps[k]
  {
    var newMapId := JsText.Slug(newMapName);
    if newMapId in maps || newMapId in InheritedNames then Created(maps, active, false)
    else Created(maps[newMapId := MarketMap(newMapId, newMapName, ["New Bucket"], [])], newMapId, true)
  }

  /** Creating a map keeps the maps valid, and a created map is the one shown. */
  lemma CreateMapValid(maps: MarketMaps, active: string, newMapName: string)
    requires Valid(maps)
    ensures Valid(CreateMap(maps, active, newMapName).maps)
    ensures CreateMap(maps, active, newMapName).created ==>
      CreateMap(maps, active, newMapName).active in CreateMap(maps, active, newMapName).maps
  {
    var r := CreateMap(maps, active, newMapName);
    if r.created {
      assert Distinct(r.maps[r.active].categories);
    }
  }

  // ----- buckets (index.tsx:571-610) -----

  /**
   * `handleAddColumn`, given the prompt's answer (`None` when cancelled):
   * a non-empty name not yet listed goes at the end; anything else changes nothing.
   */
  function AddColumn(maps: MarketMaps, active: string, answer: Option<string>): (r: MarketMaps)
    requires active in maps
    ensures OnlyActiveChanged(maps, active, r)
    ensures var m, m' := maps[active], r[active];
      if answer.Some? && answer.value != "" && answer.value !in m.categories then
        m' == m.(categories := m.categories + [answer.value])
      else r == maps
  {
    var m := maps[active];
    if answer.Some? && answer.value != "" && answer.value !in m.categories then
      maps[active := m.(categories := m.categories + [answer.value])]
    else maps
  }

  /** Adding a bucket keeps the buckets duplicate-free and every firm in a listed bucket. */
  lemma AddColumnValid(maps: MarketMaps, active: string, answer: Option<string>)
    requires active in maps && Valid(maps)
    ensures Valid(AddColumn(maps, active, answer))
  {
    var m := maps[active];
    if answer.Some? && answer.value != "" && answer.value !in m.categories {
      var cs := m.categories + [answer.value];
      forall i, j | 0 <= i < j < |cs|
        ensures cs[i] != cs[j]
      {
        if j == |cs| - 1 {
          assert cs[i] == m.categories[i];
        } else {
          assert cs[i] == m.categories[i] && cs[j] == m.categories[j];
        }
      }
    }
  }

  function Renamed(c: string, oldName: string, newName: string): string {
    if c == oldName then newName else c
  }

  function Moved(f: Firm, oldName: string, newName: string): Firm {
    if f.category == oldName then f.(category := newName) else f
  }

  /** The condition of line 585: a non-empty answer, different from the old name and not yet listed. */
  predicate RenameApplies(m: MarketMap, oldName: string, answer: Option<string>) {
    answer.Some? && answer.value != "" && answer.value != oldName && answer.value !in m.categories
  }

  /**
   * `handleEditColumn(oldName)`, given the prompt's answer: the bucket is
   * renamed where it stands and its firms move with it; their other fields
   * and the order of everything stay.
   */
  function EditColumn(maps: MarketMaps, active: string, oldName: string, answer: Option<string>): (r: MarketMaps)
    requires active in maps
    ensures OnlyActiveChanged(maps, active, r)
    ensures !RenameApplies(maps[active], oldName, answer) ==> r == maps
    ensures RenameApplies(maps[active], oldName, answer) ==>
      var m, m', newName := maps[active], r[active], answer.value;
      && m'.id == m.id && m'.name == m.name
      && |m'.categories| == |m.categories| && |m'.firms| == |m.firms|
      && (forall i :: 0 <= i < |m.categories| ==>
            m'.categories[i] == if m.categories[i] == oldName then newName else m.categories[i])
      && (forall i :: 0 <= i < |m.firms| ==>
            && m'.firms[i].category == (if m.firms[i].category == oldName then newName else m.firms[i].category)
            && m'.firms[i].(category := "") == m.firms[i].(category := ""))
  {
    var m := maps[active];
    if RenameApplies(m, oldName, answer) then
      var newName := answer.value;
      maps[active := m.(categories := seq(|m.categories|, i requires 0 <= i < |m.categories| => Renamed(m.categories[i], oldName, newName)),
                        firms := seq(|m.firms|, i requires 0 <= i < |m.firms| => Moved(m.firms[i], oldName, newName)))]
    else maps
  }

  /** Renaming a bucket keeps the buckets duplicate-free and every firm in a listed bucket. */
  lemma EditColumnValid(maps: MarketMaps, active: string, oldName: string, answer: Option<string>)
    requires active in maps && Valid(maps)
    ensures Valid(EditColumn(maps, active, oldName, answer))
  {
    var m := maps[active];
    if RenameApplies(m, oldName, answer) {
      var m', newName := EditColumn(maps, active, oldName, answer)[active], answer.value;
      forall i, j | 0 <= i < j < |m'.categories|
        ensures m'.categories[i] != m'.categories[j]
      {
        assert m.categories[i] != m.categories[j];
        assert m'.categories[i] == Renamed(m.categories[i], oldName, newName);
        assert m'.categories[j] == Renamed(m.categories[j], oldName, newName);
      }
      forall f | f in m'.firms
        ensures f.category in m'.categories
      {
        var i :| 0 <= i < |m'.firms| && m'.firms[i] == f;
        var g := m.firms[i];
        var k :| 0 <= k < |m.categories| && m.categories[k] == g.category;
        assert m'.categories[k] == Renamed(g.category, oldName, newName) == f.category;
      }
    }
  }

  function OtherBucket(name: string): string -> bool {
    (c: string) => c != name
  }

  function OutsideBucket(name: string): Firm -> bool {
    (f: Firm) => f.category != name
  }

  /** `handleDeleteColumn(name)`: after a confirmation, the bucket and exactly its firms go; the rest keep their order. */
  function DeleteColumn(maps: MarketMaps, active: string, name: string, confirmed: bool): (r: MarketMaps)
    requires active in maps
    ensures !confirmed ==> r == maps
    ensures OnlyActiveChanged(maps, active, r)
    ensures var m, m' := maps[active], r[active];
      && m'.id == m.id && m'.name == m.name
      && (forall c :: c in m'.categories <==> c in m.categories && (confirmed ==> c != name))
      && (forall f :: f in m'.firms <==> f in m.firms && (confirmed ==> f.category != name))
      && (confirmed ==> Embeds(m'.categories, m.categories) && Embeds(m'.firms, m.firms))
  {
    if !confirmed then maps
    else
      var m := maps[active];
      maps[active := m.(categories := Keep(m.categories, OtherBucket(name)), firms := Keep(m.firms, OutsideBucket(name)))]
  }

  /** Every bucket but `name` and every firm outside it stays, as many times as it was there; none of the rest does. */
  lemma DeleteColumnCounts(maps: MarketMaps, active: string, name: string)
    requires active in maps
    ensures forall c :: multiset(DeleteColumn(maps, active, name, true)[active].categories)[c]
                     == if c == name then 0 else multiset(maps[active].categories)[c]
    ensures forall f :: multiset(DeleteColumn(maps, active, name, true)[active].firms)[f]
                     == if f.category == name then 0 else multiset(maps[active].firms)[f]
  {
    KeepCount(maps[active].categories, OtherBucket(name));
    KeepCount(maps[active].firms, OutsideBucket(name));
  }

  /** Deleting a bucket keeps the buckets duplicate-free and every remaining firm in a listed bucket. */
  lemma DeleteColumnValid(maps: MarketMaps, active: string, name: string, confirmed: bool)
    requires active in maps && Valid(maps)
    ensures Valid(DeleteColumn(maps, active, name, confirmed))
  {
    if confirmed {
      KeepDistinct(maps[active].categories, OtherBucket(name));
    }
  }

  // ----- form guards (index.tsx:163-170, 266-278, 369-376) -----

  /** A required text field: not empty once trimmed. */
  predicate Filled(s: string) {
    JsText.Trim(s) != ""
  }

  /**
   * `FirmForm`'s submit: with a name and subcategory that are not blank and
   * a bucket chosen, the edited firm keeps its id and takes the fields as
   * typed (untrimmed); otherwise nothing is saved.
   */
  function SubmitEdit(firm: Firm, name: string, subcategory: string, product: string, category: string): (r: Option<Firm>)
    ensures r.Some? <==> Filled(name) && Filled(subcategory) && category != ""
    ensures r.Some? ==> r.value == Firm(firm.id, name, category, subcategory, Some(product))
  {
    if !Filled(name) || !Filled(subcategory) || category == "" then None
    else Some(firm.(name := name, subcategory := subcategory, product := Some(product), category := category))
  }

  /** `AddFirmForm`'s submit: the same guard, handing over a firm without an id. */
  function SubmitNew(name: string, subcategory: string, product: string, category: string): (r: Option<FirmDraft>)
    ensures r.Some? <==> Filled(name) && Filled(subcategory) && category != ""
    ensures r.Some? ==> r.value == FirmDraft(name, subcategory, product, category)
  {
    if !Filled(name) || !Filled(subcategory) || category == "" then None
    else Some(FirmDraft(name, subcategory, product, category))
  }

  /** `AddMapPage`'s submit: a name that is not blank, trimmed. */
  function SubmitMapName(mapName: string): (r: Option<string>)
    ensures r.Some? <==> Filled(mapName)
    ensures r.Some? ==> r.value != "" && !JsText.IsSpace(r.value[0]) && !JsText.IsSpace(r.value[|r.value| - 1])
    ensures r.Some? ==> exists a :: JsText.SpaceAround(mapName, r.value, a)
  {
    var name := JsText.Trim(mapName);
    if name != "" then Some(name) else None
  }
}
