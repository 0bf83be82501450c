/** The canteen page: a per-item quantity selector kept in a map, the line
    it hands to the cart, the split of the menu into snacks and beverages,
    and the image path and fallback emoji derived from an item's name. */
module Canteen {
  import opened Common
  import opened Text
  import opened Cart
  import Checkout

  datatype MenuItem = MenuItem(
    itemId: string,
    name: string,
    description: Option<string>,
    price: real,
    category: Option<string>,
    isAvailable: bool)

  /** The restaurant name every canteen cart line carries. */
  const CanteenName := "NSUT Canteen"

  /** `Math.max(1, Math.min(10, n))`: the selector never leaves 1..10. */
  function Clamp(n: int): (r: int)
    ensures 1 <= r <= 10
    ensures 1 <= n <= 10 ==> r == n
    ensures n < 1 ==> r == 1
    ensures n > 10 ==> r == 10
  {
    var capped := if n < 10 then n else 10;
    if capped > 1 then capped else 1
  }

  /** Every stored selector value lies in 1..10. */
  ghost predicate InRange(quantities: map<string, int>) {
    forall id :: id in quantities ==> 1 <= quantities[id] <= 10
  }

  /** `quantities[id] || 1`: an item without an entry (or with a falsy 0)
      shows quantity 1. */
  function Selected(quantities: map<string, int>, id: string): (q: int)
    ensures id !in quantities ==> q == 1
    ensures id in quantities && quantities[id] != 0 ==> q == quantities[id]
    ensures id in quantities && quantities[id] == 0 ==> q == 1
    ensures InRange(quantities) ==> 1 <= q <= 10
    ensures InRange(quantities) && id in quantities ==> q == quantities[id]
  {
    if id in quantities && quantities[id] != 0 then quantities[id] else 1
  }

  /** The page's state once the menu has loaded: the canteen's id, its menu
      and the quantity selectors. */
  class CanteenPage {
    var canteenId: string
    var menuItems: seq<MenuItem>
    var quantities: map<string, int>

    ghost predicate Valid()
      reads this
    {
      InRange(quantities)
    }

    constructor (canteenId: string, menuItems: seq<MenuItem>)
      ensures Valid()
      ensures this.canteenId == canteenId && this.menuItems == menuItems && quantities == map[]
    {
      this.canteenId := canteenId;
      this.menuItems := menuItems;
      quantities := map[];
    }

    /** `updateQuantity`: the item's selector moves by `delta` from its
        shown value and is clamped to 1..10; no other entry changes. */
    method UpdateQuantity(itemId: string, delta: int)
      requires Valid()
      modifies this`quantities
      ensures Valid()
      ensures quantities == old(quantities)[itemId := Clamp(Selected(old(quantities), itemId) + delta)]
      ensures 1 <= quantities[itemId] <= 10
      ensures forall id :: id != itemId ==> Selected(quantities, id) == Selected(old(quantities), id)
    {
      var current := Selected(quantities, itemId);
      quantities := quantities[itemId := Clamp(current + delta)];
    }

    /** `handleAddToCart`: the line handed to the cart's `addItem` carries
        the shown quantity, the canteen's id and name; afterwards only this
        item's selector is back at 1. */
    method AddToCart(item: MenuItem) returns (line: CartLine)
      requires Valid()
      modifies this`quantities
      ensures Valid()
      ensures line.quantity == Selected(old(quantities), item.itemId) && 1 <= line.quantity <= 10
      ensures line.id == item.itemId && line.name == item.name && line.price == item.price
      ensures line.category == item.category
      ensures line.restaurantId == canteenId && line.restaurantName == CanteenName
      ensures quantities == old(quantities)[item.itemId := 1]
      ensures forall id :: id != item.itemId ==> Selected(quantities, id) == Selected(old(quantities), id)
    {
      var quantity := Selected(quantities, item.itemId);
      line := CartLine(item.itemId, item.name, item.price, quantity, canteenId, CanteenName, item.category);
      quantities := quantities[item.itemId := 1];
    }
  }

  /** `menuItems.filter(item => item.category === category)`. */
  function InCategory(menu: seq<MenuItem>, category: string): (r: seq<MenuItem>)
    ensures |r| <= |menu|
    ensures forall i :: 0 <= i < |r| ==> r[i].category == Some(category)
    ensures forall x :: x in r <==> x in menu && x.category == Some(category)
  {
    if menu == [] then []
    else if menu[0].category == Some(category) then [menu[0]] + InCategory(menu[1..], category)
    else InCategory(menu[1..], category)
  }

  /** Filtering keeps order: the items of a concatenation are those of the
      first part followed by those of the second. */
  lemma {:induction false} InCategoryAppend(a: seq<MenuItem>, b: seq<MenuItem>, category: string)
    ensures InCategory(a + b, category) == InCategory(a, category) + InCategory(b, category)
    decreases |a|
  {
    if a != [] {
      assert (a + b)[1..] == a[1..] + b;
      InCategoryAppend(a[1..], b, category);
    } else {
      assert a + b == b;
    }
  }

  /** The items listed under "Snacks", in menu order. */
  function Snacks(menu: seq<MenuItem>): (r: seq<MenuItem>)
    ensures forall x :: x in r <==> x in menu && x.category == Some("Snacks")
  {
    InCategory(menu, "Snacks")
  }

  /** The items listed under "Beverages", in menu order. */
  function Beverages(menu: seq<MenuItem>): (r: seq<MenuItem>)
    ensures forall x :: x in r <==> x in menu && x.category == Some("Beverages")
  {
    InCategory(menu, "Beverages")
  }

  /** The two groups share no item, an item of any other category (or of
      none) is in neither, and together they are no longer than the menu. */
  lemma {:induction false} GroupsPartition(menu: seq<MenuItem>)
    ensures forall x :: x in Snacks(menu) ==> x !in Beverages(menu)
    ensures forall x :: x in menu && x.category != Some("Snacks") && x.category != Some("Beverages") ==>
      x !in Snacks(menu) && x !in Beverages(menu)
    ensures |Snacks(menu)| + |Beverages(menu)| <= |menu|
  {
    if menu != [] {
      GroupsPartition(menu[1..]);
    }
  }

  /** `replace(/\s+/g, '-')` on ASCII whitespace, scanning left to right:
      `inRun` says whether the previous character was whitespace. The first
      whitespace character of a run emits '-', the rest of the run emits
      nothing. The result holds no whitespace, and no upper-case letter
      unless `s` does. */
  function CollapseFrom(s: string, inRun: bool): (r: string)
    ensures |r| <= |s|
    ensures forall i :: 0 <= i < |r| ==> !IsSpace(r[i])
    ensures (forall i :: 0 <= i < |s| ==> !IsUpper(s[i])) ==> forall i :: 0 <= i < |r| ==> !IsUpper(r[i])
  {
    if s == [] then []
    else if IsSpace(s[0]) then (if inRun then "" else "-") + CollapseFrom(s[1..], true)
    else [s[0]] + CollapseFrom(s[1..], false)
  }

  function CollapseSpaces(s: string): string {
    CollapseFrom(s, false)
  }

  /** A string without whitespace is left as it is. */
  lemma {:induction false} CollapseNoSpace(s: string, inRun: bool)
    requires forall i :: 0 <= i < |s| ==> !IsSpace(s[i])
    ensures CollapseFrom(s, inRun) == s
  {
    if s != [] {
      CollapseNoSpace(s[1..], false);
    }
  }

  /** Inside a run, further whitespace emits nothing. */
  lemma {:induction false} CollapseSkipsRun(w: string, b: string)
    requires forall i :: 0 <= i < |w| ==> IsSpace(w[i])
    ensures CollapseFrom(w + b, true) == CollapseFrom(b, true)
  {
    if w != [] {
      assert (w + b)[1..] == w[1..] + b;
      CollapseSkipsRun(w[1..], b);
    } else {
      assert w + b == b;
    }
  }

  /** Once a non-space has been read, what follows is collapsed as if from
      the start. */
  lemma {:induction false} CollapseSplit(a: string, t: string, inRun: bool)
    requires a != [] && !IsSpace(a[|a| - 1])
    ensures CollapseFrom(a + t, inRun) == CollapseFrom(a, inRun) + CollapseFrom(t, false)
  {
    assert (a + t)[0] == a[0];
    if |a| == 1 {
      assert (a + t)[1..] == t;
      assert a[1..] == [];
    } else {
      assert (a + t)[1..] == a[1..] + t;
      CollapseSplit(a[1..], t, IsSpace(a[0]));
    }
  }

  /** One maximal whitespace run `w` between `a` and `b` becomes exactly one
      '-', and the two sides are collapsed independently. */
  lemma {:induction false} CollapseSpacesRun(a: string, w: string, b: string)
    requires |w| > 0 && forall i :: 0 <= i < |w| ==> IsSpace(w[i])
    requires a == [] || !IsSpace(a[|a| - 1])
    requires b == [] || !IsSpace(b[0])
    ensures CollapseSpaces(a + w + b) == CollapseSpaces(a) + "-" + CollapseSpaces(b)
  {
    CollapseRun(w, b);
    Associate(a, w, b);
    Associate(CollapseSpaces(a), "-", CollapseSpaces(b));
    if a != [] {
      CollapseSplit(a, w + b, false);
    } else {
      assert a + (w + b) == w + b;
    }
  }

  /** A run followed by a non-space (or by nothing) emits one '-'. */
  lemma CollapseRun(w: string, b: string)
    requires |w| > 0 && forall i :: 0 <= i < |w| ==> IsSpace(w[i])
    requires b == [] || !IsSpace(b[0])
    ensures CollapseFrom(w + b, false) == "-" + CollapseFrom(b, false)
  {
    var t := w + b;
    assert t[0] == w[0] && t[1..] == w[1..] + b;
    CollapseSkipsRun(w[1..], b);
    calc {
      CollapseFrom(t, false);
      "-" + CollapseFrom(t[1..], true);
      "-" + CollapseFrom(b, true);
      { CollapseAfterRun(b); }
      "-" + CollapseFrom(b, false);
    }
  }

  /** Before a non-space, having been in a run makes no difference. */
  lemma CollapseAfterRun(b: string)
    requires b == [] || !IsSpace(b[0])
    ensures CollapseFrom(b, true) == CollapseFrom(b, false)
  {
  }

  lemma Associate(a: string, w: string, b: string)
    ensures a + w + b == a + (w + b)
  {
  }

  /** The image slug: the lower-cased name with each whitespace run turned
      into one '-'. It holds no whitespace and no upper-case letter. */
  function Slug(name: string): (r: string)
    ensures |r| <= |name|
    ensures forall i :: 0 <= i < |r| ==> !IsSpace(r[i]) && !IsUpper(r[i])
  {
    CollapseSpaces(Lower(name))
  }

  /** Slugging a slug changes nothing. */
  lemma SlugIdempotent(name: string)
    ensures Slug(Slug(name)) == Slug(name)
  {
    var s := Slug(name);
    assert Lower(s) == s;
    CollapseNoSpace(s, false);
  }

  /** Where the page looks for an item's picture: the slug between the
      canteen image folder and a `.jpg` suffix. The path holds no
      whitespace. */
  function ImagePath(name: string): (r: string)
    ensures StartsWith(r, "/images/canteen/")
    ensures |r| == 16 + |Slug(name)| + 4 && r[16..|r| - 4] == Slug(name) && r[|r| - 4..] == ".jpg"
    ensures forall i :: 0 <= i < |r| ==> !IsSpace(r[i])
  {
    "/images/canteen/" + Slug(name) + ".jpg"
  }

  /** The emoji shown when a beverage's picture fails to load: tea is
      checked before coffee, and anything else is a soft drink. */
  function FallbackEmoji(name: string): (e: string)
    ensures Contains(name, "Tea") ==> e == "☕"
    ensures !Contains(name, "Tea") && Contains(name, "Coffee") ==> e == "🧋"
    ensures !Contains(name, "Tea") && !Contains(name, "Coffee") ==> e == "🥤"
  {
    if Contains(name, "Tea") then "☕"
    else if Contains(name, "Coffee") then "🧋"
    else "🥤"
  }

  /** Every line the canteen page adds names a restaurant that the checkout
      page recognises as a canteen, so such a cart is takeaway only. Only
      the line's restaurant name matters: the lemma amounts to the constant
      fact that "NSUT Canteen" includes "Canteen". */
  lemma CanteenLinesAreCanteen(line: CartLine)
    requires line.restaurantName == CanteenName
    ensures Checkout.IsCanteen(Some(line.restaurantName))
  {
    assert OccursAt(CanteenName, "Canteen", 5);
  }
}
