/** The home page: which restaurants it keeps from the list request, and
    which picture it shows for each. */
module Home {
  import opened Common

  datatype Restaurant = Restaurant(
    restaurantId: string,
    name: string,
    address: Option<string>,
    cuisineType: Option<string>,
    operatingHours: Option<string>,
    rating: real,
    imageUrl: Option<string>)

  /** The parsed body of the restaurant-list request: a JSON array of
      restaurants, or any other JSON value (an error object, say). */
  datatype RestaurantsBody = RestaurantArray(restaurants: seq<Restaurant>) | NotAnArray

  /** At most this many restaurants are shown. */
  const TopCount := 6

  /** The list after the request settles: the first six of an array body
      (`data.slice(0, 6)`), otherwise the list as it was (empty at first). */
  function KeptRestaurants(current: seq<Restaurant>, body: RestaurantsBody): (r: seq<Restaurant>)
    ensures body.NotAnArray? ==> r == current
    ensures body.RestaurantArray? ==>
      && |r| <= 6
      && |r| == (if |body.restaurants| < 6 then |body.restaurants| else 6)
      && r == body.restaurants[..|r|]
  {
    match body
    case RestaurantArray(restaurants) =>
      if |restaurants| <= TopCount then restaurants else restaurants[..TopCount]
    case NotAnArray => current
  }

  /** A short array is shown whole. */
  lemma ShortListKept(current: seq<Restaurant>, restaurants: seq<Restaurant>)
    requires |restaurants| <= 6
    ensures KeptRestaurants(current, RestaurantArray(restaurants)) == restaurants
  {
  }

  const DefaultImage :=
    "https://images.unsplash.com/photo-1613564834361-9436948817d1?ixlib=rb-4.1.0&ixid=M3wxMjA3fDB8MHxzZWFyY2h8OHx8cGl6emF8ZW58MHx8MHx8fDA%3D&auto=format&fit=crop&q=60&w=900"

  /** The picture shown for a restaurant: its own `image_url` when that is
      present and non-empty, whatever the name; otherwise the bundled
      picture of one of three named restaurants; otherwise the shared
      default. */
  function ImageFor(restaurant: Restaurant): (url: string)
    ensures url != ""
    ensures OrEmpty(restaurant.imageUrl) != "" ==> url == restaurant.imageUrl.value
    ensures OrEmpty(restaurant.imageUrl) == "" ==>
      && (restaurant.name == "Biryani Palace" ==> url == "/images/restaurants/biryani-palace.jpg")
      && (restaurant.name == "Swaad Of India" ==> url == "/images/restaurants/swaad.jpg")
      && (restaurant.name == "Curry House" ==> url == "/images/restaurants/curry-house.jpg")
      && (restaurant.name !in {"Biryani Palace", "Swaad Of India", "Curry House"} ==> url == DefaultImage)
  {
    if OrEmpty(restaurant.imageUrl) != "" then restaurant.imageUrl.value
    else if restaurant.name == "Biryani Palace" then "/images/restaurants/biryani-palace.jpg"
    else if restaurant.name == "Swaad Of India" then "/images/restaurants/swaad.jpg"
    else if restaurant.name == "Curry House" then "/images/restaurants/curry-house.jpg"
    else DefaultImage
  }
}
