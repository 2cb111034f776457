/** The project filter of `script.js`: a click on a filter button makes it
    the only active button and hides every card its filter does not
    select. Attributes come from `getAttribute`, which yields `null` for a
    missing attribute, hence `Option`. CSS transitions and `display`
    styles are not modelled. */
module ProjectFilter {
  import opened Wrappers

  const AllFilter: string := "all"

  /** A `.project-card`: its `data-category` and whether it has the `hide`
      class. */
  datatype Card = Card(category: Option<string>, hidden: bool)

  /** A `.filter-btn`: its `data-filter` and whether it has the `active`
      class. */
  datatype Button = Button(filter: Option<string>, active: bool)

  datatype Page = Page(buttons: seq<Button>, cards: seq<Card>, hasGrid: bool)

  /** `filterValue === 'all' || filterValue === cardCategory`; two missing
      attributes are both `null` and compare equal. */
  predicate ShouldShow(filter: Option<string>, category: Option<string>) {
    filter == Some(AllFilter) || filter == category
  }

  /** The click handlers exist only when the page has buttons, cards and
      the grid. */
  predicate HandlersAttached(p: Page) {
    |p.buttons| > 0 && |p.cards| > 0 && p.hasGrid
  }

  function ApplyFilter(filter: Option<string>, cards: seq<Card>): (r: seq<Card>)
    ensures |r| == |cards|
    ensures forall j :: 0 <= j < |cards| ==>
      r[j].category == cards[j].category && (r[j].hidden <==> !ShouldShow(filter, cards[j].category))
  {
    seq(|cards|, j requires 0 <= j < |cards| => cards[j].(hidden := !ShouldShow(filter, cards[j].category)))
  }

  function Activate(buttons: seq<Button>, b: nat): (r: seq<Button>)
    ensures |r| == |buttons|
    ensures forall j :: 0 <= j < |buttons| ==> r[j].filter == buttons[j].filter && (r[j].active <==> j == b)
  {
    seq(|buttons|, j requires 0 <= j < |buttons| => buttons[j].(active := j == b))
  }

  /** A click on button `b`. Without the handlers the click does nothing;
      with them, exactly button `b` is active and a card is hidden exactly
      when `b`'s filter does not select its category. Attributes are never
      changed. */
  function Click(p: Page, b: nat): (r: Page)
    requires b < |p.buttons|
    ensures !HandlersAttached(p) ==> r == p
    ensures |r.buttons| == |p.buttons| && |r.cards| == |p.cards| && r.hasGrid == p.hasGrid
    ensures forall j :: 0 <= j < |p.buttons| ==> r.buttons[j].filter == p.buttons[j].filter
    ensures forall j :: 0 <= j < |p.cards| ==> r.cards[j].category == p.cards[j].category
    ensures HandlersAttached(p) ==>
      && (forall j :: 0 <= j < |p.buttons| ==> (r.buttons[j].active <==> j == b))
      && (forall j :: 0 <= j < |p.cards| ==>
            (!r.cards[j].hidden <==> ShouldShow(p.buttons[b].filter, p.cards[j].category)))
  {
    if !HandlersAttached(p) then p
    else p.(buttons := Activate(p.buttons, b), cards := ApplyFilter(p.buttons[b].filter, p.cards))
  }

  /** Only the last click matters: clicking `b` and then `c` leaves the page
      as clicking `c` alone would; in particular clicking twice is
      clicking once. */
  lemma LastClickWins(p: Page, b: nat, c: nat)
    requires b < |p.buttons| && c < |p.buttons|
    ensures Click(Click(p, b), c) == Click(p, c)
  {
    if HandlersAttached(p) {
      var q := Click(p, b);
      assert q.buttons[c].filter == p.buttons[c].filter;
      assert Click(q, c).buttons == Click(p, c).buttons;
      assert Click(q, c).cards == Click(p, c).cards;
    }
  }

  /** The "all" button shows every card. */
  lemma AllShowsEveryCard(p: Page, b: nat)
    requires b < |p.buttons| && HandlersAttached(p)
    requires p.buttons[b].filter == Some(AllFilter)
    ensures forall j :: 0 <= j < |p.cards| ==> !Click(p, b).cards[j].hidden
  {
  }
}
