/**
 * Menus, restaurants and the location index of FoodDelivery/food_delivery.py.
 *
 * The ordering system keeps, for every (city or pincode, food type) key, the
 * restaurants that serve an active item of that type there, in registration
 * order. Optional arguments that the source tests for truthiness are `Option`
 * values here: `None`, an empty string and a zero price are all falsy.
 */
module FoodDelivery {
  import opened Wrappers

  datatype FoodType = Veg | NonVeg

  datatype UserType = Admin | RestaurantOwner | Customer | Operator | Support

  const Active := "active"

  class Food {
    const id: int
    const name: string
    var price: real
    const foodType: FoodType
    var status: string

    constructor (id: int, name: string, price: real, foodType: FoodType, status: string)
      ensures this.id == id && this.name == name && this.price == price
      ensures this.foodType == foodType && this.status == status
    {
      this.id := id;
      this.name := name;
      this.price := price;
      this.foodType := foodType;
      this.status := status;
    }

    /** Overwrites the price and the status, each only when its argument is truthy. */
    method UpdateFood(newPrice: Option<real>, newStatus: Option<string>)
      modifies this
      ensures price == if newPrice.Some? && newPrice.value != 0.0 then newPrice.value else old(price)
      ensures status == if newStatus.Some? && newStatus.value != "" then newStatus.value else old(status)
    {
      if newPrice.Some? && newPrice.value != 0.0 {
        price := newPrice.value;
      }
      if newStatus.Some? && newStatus.value != "" {
        status := newStatus.value;
      }
    }
  }

  /** The items whose id differs from `id`, in their original order. */
  function WithoutId(items: seq<Food>, id: int): (r: seq<Food>)
    ensures |r| <= |items|
    ensures forall i :: 0 <= i < |r| ==> r[i].id != id && r[i] in items
    ensures forall i :: 0 <= i < |items| && items[i].id != id ==> items[i] in r
  {
    if items == [] then []
    else if items[0].id == id then WithoutId(items[1..], id)
    else [items[0]] + WithoutId(items[1..], id)
  }

  lemma {:induction false} WithoutIdAppend(a: seq<Food>, b: seq<Food>, id: int)
    ensures WithoutId(a + b, id) == WithoutId(a, id) + WithoutId(b, id)
  {
    if a != [] {
      assert (a + b)[1..] == a[1..] + b;
      WithoutIdAppend(a[1..], b, id);
    } else {
      assert a + b == b;
    }
  }

  /** Deleting twice removes nothing more. */
  lemma {:induction false} WithoutIdIdempotent(items: seq<Food>, id: int)
    ensures WithoutId(WithoutId(items, id), id) == WithoutId(items, id)
  {
    if items != [] {
      WithoutIdIdempotent(items[1..], id);
    }
  }

  /** Deleting an id right after adding an item with that id undoes the addition. */
  lemma DeleteUndoesAdd(items: seq<Food>, f: Food)
    ensures WithoutId(items + [f], f.id) == WithoutId(items, f.id)
  {
    WithoutIdAppend(items, [f], f.id);
    assert WithoutId([f], f.id) == [];
  }

  class Menu {
    const id: int
    const name: string
    var foodItems: seq<Food>

    constructor (id: int, name: string)
      ensures this.id == id && this.name == name && foodItems == []
    {
      this.id := id;
      this.name := name;
      foodItems := [];
    }

    method AddFood(f: Food)
      modifies this
      ensures foodItems == old(foodItems) + [f]
    {
      foodItems := foodItems + [f];
    }

    method DeleteFood(foodId: int)
      modifies this
      ensures foodItems == WithoutId(old(foodItems), foodId)
    {
      foodItems := WithoutId(foodItems, foodId);
    }
  }

  /** A restaurant's address; latitude and longitude are not part of this model. */
  class Location {
    const id: int
    var city: string
    const country: string
    const pincode: string
    var state: string

    constructor (id: int, city: string, country: string, pincode: string, state: string)
      ensures this.id == id && this.city == city && this.country == country
      ensures this.pincode == pincode && this.state == state
    {
      this.id := id;
      this.city := city;
      this.country := country;
      this.pincode := pincode;
      this.state := state;
    }

    /** Overwrites the city and the state, each only when its argument is non-empty. */
    method UpdateLocation(newCity: Option<string>, newState: Option<string>)
      modifies this
      ensures city == if newCity.Some? && newCity.value != "" then newCity.value else old(city)
      ensures state == if newState.Some? && newState.value != "" then newState.value else old(state)
    {
      if newCity.Some? && newCity.value != "" {
        city := newCity.value;
      }
      if newState.Some? && newState.value != "" {
        state := newState.value;
      }
    }
  }

  class Restaurant {
    const id: int
    const name: string
    const location: Location
    const menu: Menu

    constructor (id: int, name: string, location: Location, menu: Menu)
      ensures this.id == id && this.name == name && this.location == location && this.menu == menu
    {
      this.id := id;
      this.name := name;
      this.location := location;
      this.menu := menu;
    }
  }

  class User {
    const id: int
    const name: string
    const userType: UserType
    var location: Location?

    constructor (id: int, name: string, userType: UserType, location: Location?)
      ensures this.id == id && this.name == name && this.userType == userType
      ensures this.location == location
    {
      this.id := id;
      this.name := name;
      this.userType := userType;
      this.location := location;
    }

    method SetLocation(location: Location)
      modifies this
      ensures this.location == location
    {
      this.location := location;
    }

    function GetLocation(): Location?
      reads this
    {
      location
    }
  }

  type Key = (string, FoodType)
  type Index = map<Key, seq<Restaurant>>

  /** The list stored under `k`, empty for a key never written (a `defaultdict(list)`). */
  function Get(m: Index, k: Key): seq<Restaurant>
  {
    if k in m then m[k] else []
  }

  function Append(m: Index, k: Key, r: Restaurant): Index
  {
    m[k := Get(m, k) + [r]]
  }

  /**
   * The index after registering `r` under `city` and `pincode` for each of
   * `items` in turn; inactive items add nothing.
   */
  function IndexItems(m: Index, r: Restaurant, city: string, pincode: string, items: seq<Food>): Index
    reads items
    decreases |items|
  {
    if items == [] then m
    else
      var t := items[0].foodType;
      var m' := if items[0].status == Active then Append(Append(m, (city, t), r), (pincode, t), r) else m;
      IndexItems(m', r, city, pincode, items[1..])
  }

  /** Keys of other places are untouched by a registration. */
  lemma {:induction false} IndexKeepsOtherPlaces(m: Index, r: Restaurant, city: string, pincode: string, items: seq<Food>, k: Key)
    requires k.0 != city && k.0 != pincode
    ensures Get(IndexItems(m, r, city, pincode, items), k) == Get(m, k)
    decreases items
  {
    if items != [] {
      var t := items[0].foodType;
      var m' := if items[0].status == Active then Append(Append(m, (city, t), r), (pincode, t), r) else m;
      IndexKeepsOtherPlaces(m', r, city, pincode, items[1..], k);
    }
  }

  /** Earlier registrations are kept: every list only grows at its end. */
  lemma {:induction false} IndexOnlyAppends(m: Index, r: Restaurant, city: string, pincode: string, items: seq<Food>, k: Key)
    ensures Get(m, k) <= Get(IndexItems(m, r, city, pincode, items), k)
    decreases items
  {
    if items != [] {
      var t := items[0].foodType;
      var m' := if items[0].status == Active then Append(Append(m, (city, t), r), (pincode, t), r) else m;
      assert Get(m, k) <= Get(m', k);
      IndexOnlyAppends(m', r, city, pincode, items[1..], k);
    }
  }

  /** Everything a registration appends under a key is the registered restaurant itself. */
  lemma {:induction false} IndexAppendsOnlyR(m: Index, r: Restaurant, city: string, pincode: string, items: seq<Food>, k: Key)
    ensures var after := Get(IndexItems(m, r, city, pincode, items), k);
      forall i :: |Get(m, k)| <= i < |after| ==> after[i] == r
    decreases items
  {
    if items != [] {
      var t := items[0].foodType;
      var m' := if items[0].status == Active then Append(Append(m, (city, t), r), (pincode, t), r) else m;
      var after := Get(IndexItems(m, r, city, pincode, items), k);
      assert Get(m, k) <= Get(m', k);
      assert forall i :: |Get(m, k)| <= i < |Get(m', k)| ==> Get(m', k)[i] == r;
      IndexOnlyAppends(m', r, city, pincode, items[1..], k);
      IndexAppendsOnlyR(m', r, city, pincode, items[1..], k);
      assert forall i :: |Get(m, k)| <= i < |Get(m', k)| ==> after[i] == Get(m', k)[i];
    }
  }

  /** A restaurant with an active item of type t is listed under (city, t) and (pincode, t). */
  lemma {:induction false} IndexListsActiveTypes(m: Index, r: Restaurant, city: string, pincode: string, items: seq<Food>, j: nat)
    requires j < |items| && items[j].status == Active
    ensures r in Get(IndexItems(m, r, city, pincode, items), (city, items[j].foodType))
    ensures r in Get(IndexItems(m, r, city, pincode, items), (pincode, items[j].foodType))
    decreases items
  {
    var t := items[0].foodType;
    var m' := if items[0].status == Active then Append(Append(m, (city, t), r), (pincode, t), r) else m;
    if j == 0 {
      assert r in Get(m', (city, t)) && r in Get(m', (pincode, t));
      IndexOnlyAppends(m', r, city, pincode, items[1..], (city, t));
      IndexOnlyAppends(m', r, city, pincode, items[1..], (pincode, t));
    } else {
      IndexListsActiveTypes(m', r, city, pincode, items[1..], j - 1);
    }
  }

  /** A registration lists the restaurant nowhere it serves no active item. */
  lemma {:induction false} IndexNeedsActiveItem(m: Index, r: Restaurant, city: string, pincode: string, items: seq<Food>, t: FoodType)
    requires forall j :: 0 <= j < |items| && items[j].foodType == t ==> items[j].status != Active
    ensures Get(IndexItems(m, r, city, pincode, items), (city, t)) == Get(m, (city, t))
    ensures Get(IndexItems(m, r, city, pincode, items), (pincode, t)) == Get(m, (pincode, t))
    decreases items
  {
    if items != [] {
      var u := items[0].foodType;
      var m' := if items[0].status == Active then Append(Append(m, (city, u), r), (pincode, u), r) else m;
      IndexNeedsActiveItem(m', r, city, pincode, items[1..], t);
    }
  }

  /** The active items, keeping only those of type `t` when one is given. */
  function ActiveItems(items: seq<Food>, t: Option<FoodType>): (r: seq<Food>)
    reads items
    ensures |r| <= |items|
    ensures forall i :: 0 <= i < |r| ==>
      r[i] in items && r[i].status == Active && (t.Some? ==> r[i].foodType == t.value)
    ensures forall i :: 0 <= i < |items| && items[i].status == Active && (t.Some? ==> items[i].foodType == t.value) ==>
      items[i] in r
  {
    if items == [] then []
    else if items[0].status == Active && (t.Some? ==> items[0].foodType == t.value) then
      [items[0]] + ActiveItems(items[1..], t)
    else ActiveItems(items[1..], t)
  }

  /** The item filter works element by element, so it keeps the menu order. */
  lemma {:induction false} ActiveItemsAppend(a: seq<Food>, b: seq<Food>, t: Option<FoodType>)
    ensures ActiveItems(a + b, t) == ActiveItems(a, t) + ActiveItems(b, t)
  {
    if a != [] {
      assert (a + b)[1..] == a[1..] + b;
      ActiveItemsAppend(a[1..], b, t);
    } else {
      assert a + b == b;
    }
  }

  /** The restaurants `get_all_restaurants` returns for the given place names, as a set. */
  function Lookup(m: Index, city: string, pincode: string, t: Option<FoodType>): set<Restaurant>
  {
    if t.Some? then
      set r | r in Get(m, (city, t.value)) + Get(m, (pincode, t.value))
    else
      set k, r | k in m.Keys && (k.0 == city || k.0 == pincode) && r in m[k] :: r
  }

  /** Narrowing the search to one food type never finds more restaurants. */
  lemma TypedLookupWithinUntyped(m: Index, city: string, pincode: string, t: FoodType)
    ensures Lookup(m, city, pincode, Some(t)) <= Lookup(m, city, pincode, None)
  {
    forall r | r in Lookup(m, city, pincode, Some(t))
      ensures r in Lookup(m, city, pincode, None)
    {
      if r in Get(m, (city, t)) {
        assert (city, t) in m.Keys;
      } else {
        assert r in Get(m, (pincode, t));
        assert (pincode, t) in m.Keys;
      }
    }
  }

  /** The untyped search is the union of the typed ones. */
  lemma UntypedLookupIsUnion(m: Index, city: string, pincode: string)
    ensures Lookup(m, city, pincode, None) == Lookup(m, city, pincode, Some(Veg)) + Lookup(m, city, pincode, Some(NonVeg))
  {
    forall r | r in Lookup(m, city, pincode, None)
      ensures r in Lookup(m, city, pincode, Some(Veg)) + Lookup(m, city, pincode, Some(NonVeg))
    {
      var k :| k in m.Keys && (k.0 == city || k.0 == pincode) && r in m[k];
      var t := k.1;
      assert k == (k.0, t);
      assert r in Get(m, (city, t)) + Get(m, (pincode, t));
      assert r in Lookup(m, city, pincode, Some(t));
      if t == Veg {
        assert r in Lookup(m, city, pincode, Some(Veg));
      } else {
        assert r in Lookup(m, city, pincode, Some(NonVeg));
      }
    }
    TypedLookupWithinUntyped(m, city, pincode, Veg);
    TypedLookupWithinUntyped(m, city, pincode, NonVeg);
  }

  class FoodOrderingSystem {
    var restaurants: seq<Restaurant>
    var users: seq<User>
    var locationFoodMap: Index

    constructor ()
      ensures restaurants == [] && users == [] && locationFoodMap == map[]
    {
      restaurants := [];
      users := [];
      locationFoodMap := map[];
    }

    method AddUsers(u: User)
      modifies this
      ensures users == old(users) + [u]
      ensures restaurants == old(restaurants) && locationFoodMap == old(locationFoodMap)
    {
      users := users + [u];
    }

    /**
     * Registers `r` and indexes it under its city and its pincode for the type
     * of each active menu item, one item at a time.
     */
    method AddRestaurant(r: Restaurant)
      modifies this
      ensures restaurants == old(restaurants) + [r] && users == old(users)
      ensures locationFoodMap ==
        IndexItems(old(locationFoodMap), r, r.location.city, r.location.pincode, r.menu.foodItems)
    {
      restaurants := restaurants + [r];
      var items := r.menu.foodItems;
      var city, pincode := r.location.city, r.location.pincode;
      for i := 0 to |items|
        invariant restaurants == old(restaurants) + [r] && users == old(users)
        invariant IndexItems(locationFoodMap, r, city, pincode, items[i..]) ==
          IndexItems(old(locationFoodMap), r, city, pincode, items)
      {
        assert items[i..][1..] == items[i + 1..];
        var f := items[i];
        if f.status == Active {
          locationFoodMap := Append(locationFoodMap, (city, f.foodType), r);
          locationFoodMap := Append(locationFoodMap, (pincode, f.foodType), r);
        }
      }
    }

    /** The restaurant's active items, of type `t` when one is given, in menu order. */
    function GetFoodItems(r: Restaurant, t: Option<FoodType>): seq<Food>
      reads r.menu, r.menu.foodItems
    {
      ActiveItems(r.menu.foodItems, t)
    }

    /** The restaurants listed under the location's city or pincode, without duplicates. */
    function GetAllRestaurants(loc: Location, t: Option<FoodType>): set<Restaurant>
      reads this, loc
    {
      Lookup(locationFoodMap, loc.city, loc.pincode, t)
    }
  }

  /**
   * Once a restaurant with an active item of type t is registered, a search
   * at its location for t finds it.
   */
  lemma RegisteredRestaurantIsFound(m: Index, r: Restaurant, city: string, pincode: string, items: seq<Food>, j: nat)
    requires j < |items| && items[j].status == Active
    ensures r in Lookup(IndexItems(m, r, city, pincode, items), city, pincode, Some(items[j].foodType))
  {
    IndexListsActiveTypes(m, r, city, pincode, items, j);
  }
}
