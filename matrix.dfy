/**
 * The grouping behind the matrix view (index.tsx:416-436): the rows are the
 * distinct subcategories of all firms in sorted order, the columns are the
 * map's buckets, and each cell lists the firms of that bucket and
 * subcategory in their original order.
 */
module Matrix {
  import opened Seqs
  import opened Editor
  import JsText

  /** Each element strictly precedes the next in the default string order of `Array.prototype.sort`. */
  predicate StrictlySorted(s: seq<string>) {
    forall i, j :: 0 <= i < j < |s| ==> JsText.Before(s[i], s[j])
  }

  /** `x` added to a strictly sorted list, unless already present. */
  function InsertSorted(s: seq<string>, x: string): (r: seq<string>)
    requires StrictlySorted(s)
    ensures StrictlySorted(r)
    ensures forall y :: y in r <==> y in s || y == x
  {
    if s == [] then [x]
    else if s[0] == x then s
    else if JsText.Before(x, s[0]) then
      var r := [x] + s;
      forall i, j | 0 <= i < j < |r|
        ensures JsText.Before(r[i], r[j])
      {
        if i == 0 && j > 1 {
          JsText.BeforeTransitive(x, s[0], s[j - 1]);
        }
      }
      r
    else
      JsText.BeforeTotal(x, s[0]);
      var rest := InsertSorted(s[1..], x);
      var r := [s[0]] + rest;
      forall i, j | 0 <= i < j < |r|
        ensures JsText.Before(r[i], r[j])
      {
        if i == 0 {
          assert r[j] in rest;
          if r[j] != x {
            var k :| 0 <= k < |s[1..]| && s[1..][k] == r[j];
            assert s[k + 1] == r[j];
          }
        } else {
          assert r[i] == rest[i - 1] && r[j] == rest[j - 1];
        }
      }
      r
  }

  /** `Array.from(new Set(firms.map(f => f.subcategory))).sort()`. */
  function Subcategories(firms: seq<Firm>): (r: seq<string>)
    ensures StrictlySorted(r)
    ensures forall s :: s in r <==> exists i :: 0 <= i < |firms| && firms[i].subcategory == s
    decreases |firms|
  {
    if firms == [] then []
    else
      var init := firms[..|firms| - 1];
      assert forall i :: 0 <= i < |init| ==> init[i] == firms[i];
      InsertSorted(Subcategories(init), firms[|firms| - 1].subcategory)
  }

  /** Two strictly sorted lists with the same elements are equal: the rows are determined by the set of subcategories. */
  lemma {:induction false} SortedUnique(a: seq<string>, b: seq<string>)
    requires StrictlySorted(a) && StrictlySorted(b)
    requires forall x :: x in a <==> x in b
    ensures a == b
    decreases |a|
  {
    if a == [] {
      assert forall i :: 0 <= i < |b| ==> b[i] in b;
    } else {
      assert a[0] in b;
      assert b != [];
      assert b[0] in a;
      var m :| 0 <= m < |a| && a[m] == b[0];
      var k :| 0 <= k < |b| && b[k] == a[0];
      if k != 0 {
        assert JsText.Before(b[0], a[0]);
        if m == 0 {
          JsText.BeforeIrreflexive(a[0]);
        } else {
          assert JsText.Before(a[0], b[0]);
          JsText.BeforeAsymmetric(a[0], b[0]);
        }
        assert false;
      }
      assert a[0] == b[0];
      forall x
        ensures x in a[1..] <==> x in b[1..]
      {
        if x in a[1..] {
          var i :| 0 <= i < |a[1..]| && a[1..][i] == x;
          assert JsText.Before(a[0], a[i + 1]);
          JsText.BeforeIrreflexive(a[0]);
          assert x in b;
        }
        if x in b[1..] {
          var i :| 0 <= i < |b[1..]| && b[1..][i] == x;
          assert JsText.Before(b[0], b[i + 1]);
          JsText.BeforeIrreflexive(b[0]);
          assert x in a;
        }
      }
      assert StrictlySorted(a[1..]) by {
        forall i, j | 0 <= i < j < |a[1..]|
          ensures JsText.Before(a[1..][i], a[1..][j])
        {
          assert a[1..][i] == a[i + 1] && a[1..][j] == a[j + 1];
        }
      }
      assert StrictlySorted(b[1..]) by {
        forall i, j | 0 <= i < j < |b[1..]|
          ensures JsText.Before(b[1..][i], b[1..][j])
        {
          assert b[1..][i] == b[i + 1] && b[1..][j] == b[j + 1];
        }
      }
      SortedUnique(a[1..], b[1..]);
      assert a == [a[0]] + a[1..] && b == [b[0]] + b[1..];
    }
  }

  function InCell(category: string, subcategory: string): Firm -> bool {
    (f: Firm) => f.category == category && f.subcategory == subcategory
  }

  /** The firms of one cell, in their original order. */
  function Cell(firms: seq<Firm>, category: string, subcategory: string): (r: seq<Firm>)
    ensures forall f :: f in r <==> f in firms && f.category == category && f.subcategory == subcategory
    ensures Embeds(r, firms)
  {
    Keep(firms, InCell(category, subcategory))
  }

  /** A cell filled by pushing the firms of `placed` that belong to it, one after the other. */
  function Pushed(placed: seq<Firm>, category: string, subcategory: string): seq<Firm>
    decreases |placed|
  {
    if placed == [] then []
    else
      var last := placed[|placed| - 1];
      Pushed(placed[..|placed| - 1], category, subcategory)
        + if last.category == category && last.subcategory == subcategory then [last] else []
  }

  /** Pushing firm by firm yields the cell's firms in their original order. */
  lemma {:induction false} PushedIsCell(placed: seq<Firm>, category: string, subcategory: string)
    ensures Pushed(placed, category, subcategory) == Cell(placed, category, subcategory)
    decreases |placed|
  {
    if placed != [] {
      var init, last := placed[..|placed| - 1], placed[|placed| - 1];
      PushedIsCell(init, category, subcategory);
      assert placed == init + [last];
      KeepSnoc(init, last, InCell(category, subcategory));
    }
  }

  /** A firm of a listed bucket has a row, and it sits in its own cell and in none other. */
  lemma ListedFirmInOneCell(categories: seq<string>, firms: seq<Firm>, f: Firm)
    requires f in firms && f.category in categories
    ensures f.subcategory in Subcategories(firms)
    ensures f in Cell(firms, f.category, f.subcategory)
    ensures forall c, s :: f in Cell(firms, c, s) ==> c == f.category && s == f.subcategory
  {
    var i :| 0 <= i < |firms| && firms[i] == f;
  }

  /** A firm of an unlisted bucket is in no cell of the table. */
  lemma UnlistedFirmInNoCell(categories: seq<string>, firms: seq<Firm>, f: Firm)
    requires f.category !in categories
    ensures forall c, s :: c in categories ==> f !in Cell(firms, c, s)
  {
  }

  /** A row of the table before any firm is placed: one empty cell per subcategory. */
  function EmptyRow(subcategories: seq<string>): map<string, seq<Firm>> {
    map s | s in subcategories :: []
  }

  /** The inner `forEach` of lines 425-427: an empty cell for each subcategory. */
  method NewRow(subcategories: seq<string>) returns (row: map<string, seq<Firm>>)
    ensures row == EmptyRow(subcategories)
  {
    row := map[];
    var j := 0;
    while j < |subcategories|
      invariant 0 <= j <= |subcategories|
      invariant row == EmptyRow(subcategories[..j])
    {
      assert subcategories[..j + 1] == subcategories[..j] + [subcategories[j]];
      row := row[subcategories[j] := []];
      j := j + 1;
    }
    assert subcategories[..j] == subcategories;
  }

  /** The outer `forEach` of lines 424-428: a row of empty cells for each bucket. */
  method NewTable(categories: seq<string>, subcategories: seq<string>) returns (data: map<string, map<string, seq<Firm>>>)
    ensures forall c :: c in data <==> c in categories
    ensures forall c :: c in data ==> data[c] == EmptyRow(subcategories)
  {
    data := map[];
    var i := 0;
    while i < |categories|
      invariant 0 <= i <= |categories|
      invariant forall c :: c in data <==> c in categories[..i]
      invariant forall c :: c in data ==> data[c] == EmptyRow(subcategories)
    {
      var row := NewRow(subcategories);
      assert categories[..i + 1] == categories[..i] + [categories[i]];
      data := data[categories[i] := row];
      i := i + 1;
    }
    assert categories[..i] == categories;
  }

  /** The table has a row for each bucket and, in every row, a cell for each subcategory. */
  ghost predicate Shaped(data: map<string, map<string, seq<Firm>>>, categories: seq<string>, subcategories: seq<string>) {
    && (forall c :: c in data <==> c in categories)
    && forall c, s :: c in data ==> (s in data[c] <==> s in subcategories)
  }

  /** Every cell of the table holds exactly the firms of `placed` that belong to it. */
  predicate CellsFilled(data: map<string, map<string, seq<Firm>>>, placed: seq<Firm>) {
    forall c, s :: c in data && s in data[c] ==> data[c][s] == Pushed(placed, c, s)
  }

  /** The push of line 432, when the cell exists. */
  function Place(data: map<string, map<string, seq<Firm>>>, firm: Firm): map<string, map<string, seq<Firm>>> {
    if firm.category in data && firm.subcategory in data[firm.category] then
      data[firm.category := data[firm.category][firm.subcategory := data[firm.category][firm.subcategory] + [firm]]]
    else data
  }

  /** Placing a firm adds no row and no cell. */
  lemma PlaceShaped(data: map<string, map<string, seq<Firm>>>, categories: seq<string>, subcategories: seq<string>, firm: Firm)
    requires Shaped(data, categories, subcategories)
    ensures Shaped(Place(data, firm), categories, subcategories)
  {
    var data' := Place(data, firm);
    assert data'.Keys == data.Keys;
    forall c | c in data'
      ensures data'[c].Keys == data[c].Keys
    {
    }
  }

  /** Placing the next firm of `firms` extends exactly that firm's cell. */
  lemma PlaceFilled(data: map<string, map<string, seq<Firm>>>, firms: seq<Firm>, k: nat)
    requires k < |firms| && CellsFilled(data, firms[..k])
    ensures CellsFilled(Place(data, firms[k]), firms[..k + 1])
  {
    var firm, data' := firms[k], Place(data, firms[k]);
    assert firms[..k + 1][..k] == firms[..k];
  }

  /** One iteration of lines 431-433: `data[firm.category][firm.subcategory].push(firm)` when that cell exists. */
  method Push(table: map<string, map<string, seq<Firm>>>, firm: Firm) returns (data: map<string, map<string, seq<Firm>>>)
    ensures data == Place(table, firm)
  {
    data := table;
    if firm.category in data && firm.subcategory in data[firm.category] {
      var row := data[firm.category];
      data := data[firm.category := row[firm.subcategory := row[firm.subcategory] + [firm]]];
    }
  }

  /** The `firms.forEach` of lines 430-434: each firm pushed onto its cell, when the table has it. */
  method PlaceAll(table: map<string, map<string, seq<Firm>>>, categories: seq<string>, subcategories: seq<string>,
                  firms: seq<Firm>)
    returns (data: map<string, map<string, seq<Firm>>>)
    requires Shaped(table, categories, subcategories) && CellsFilled(table, [])
    ensures Shaped(data, categories, subcategories) && CellsFilled(data, firms)
  {
    data := table;
    var k := 0;
    while k < |firms|
      invariant 0 <= k <= |firms|
      invariant Shaped(data, categories, subcategories)
      invariant CellsFilled(data, firms[..k])
    {
      var firm := firms[k];
      ghost var before := data;
      PlaceShaped(before, categories, subcategories, firm);
      PlaceFilled(before, firms, k);
      data := Push(data, firm);
      k := k + 1;
    }
    assert firms[..k] == firms;
  }

  /**
   * `matrixData` (index.tsx:423-435): a row of empty cells for each bucket,
   * then each firm pushed onto the cell of its bucket and subcategory when
   * that bucket is listed.
   */
  method MatrixData(categories: seq<string>, firms: seq<Firm>) returns (data: map<string, map<string, seq<Firm>>>)
    ensures forall c :: c in data <==> c in categories
    ensures forall c, s :: c in data ==> (s in data[c] <==> s in Subcategories(firms))
    ensures forall c, s :: c in data && s in data[c] ==> data[c][s] == Cell(firms, c, s)
  {
    var subcategories := Subcategories(firms);
    var table := NewTable(categories, subcategories);
    data := PlaceAll(table, categories, subcategories, firms);
    forall c, s
      ensures Pushed(firms, c, s) == Cell(firms, c, s)
    {
      PushedIsCell(firms, c, s);
    }
  }
}
