/** The hard-coded tables every view reads: the English/Tamil translation
    table, the four stores and the four products, with the facts about them
    that the views rely on. */
module Constants {
  import opened Types

  const TRANSLATIONS: seq<(string, Translation)> := [
    ("welcome", Translation("Welcome to Local Delivery", "லோக்கல் டெலிவரிக்கு உங்களை வரவேற்கிறோம்")),
    ("selectRole", Translation("Select Your Role", "உங்கள் பங்கைத் தேர்ந்தெடுக்கவும்")),
    ("customer", Translation("Customer", "வாடிக்கையாளர்")),
    ("shopOwner", Translation("Shop Owner", "கடைக்காரர்")),
    ("deliveryPartner", Translation("Delivery Partner", "டெலிவரி பார்ட்னர்")),
    ("admin", Translation("Admin", "நிர்வாகி")),
    ("storesNearby", Translation("Stores Nearby", "அருகிலுள்ள கடைகள்")),
    ("grocery", Translation("Grocery", "மளிகை")),
    ("medical", Translation("Medical", "மருந்து")),
    ("hotel", Translation("Hotel", "ஹோட்டல்")),
    ("searchProducts", Translation("Search products...", "தயாரிப்புகளைத் தேடுங்கள்...")),
    ("addToCart", Translation("Add to Cart", "கூடையில் சேர்க்கவும்")),
    ("placeOrder", Translation("Place Order", "ஆர்டர் செய்யுங்கள்")),
    ("orderHistory", Translation("Order History", "ஆர்டர் வரலாறு")),
    ("earnings", Translation("Earnings", "வருமானம்")),
    ("readyForPickup", Translation("Ready for Pickup", "டெலிவரிக்குத் தயார்")),
    ("acceptOrder", Translation("Accept Order", "ஆர்டரை ஏற்கவும்")),
    ("online", Translation("Online", "ஆன்லைன்")),
    ("offline", Translation("Offline", "ஆஃப்லைன்")),
    ("backToRoles", Translation("Switch Role", "பங்கை மாற்றவும்")),
    ("login", Translation("Login", "உள்நுழைக")),
    ("mobileNumber", Translation("Mobile Number", "மொபைல் எண்")),
    ("password", Translation("Password", "கடவுச்சொல்")),
    ("getOTP", Translation("Get OTP", "OTP பெறுங்கள்")),
    ("enterOTP", Translation("Enter OTP", "OTP-ஐ உள்ளிடவும்")),
    ("brandTagline", Translation("Your nearby shop – at your doorstep", "உங்கள் அருகிலுள்ள கடை – உங்கள் வீட்டுக்கு")),
    ("logout", Translation("Logout", "வெளியேறு")),
    ("myCart", Translation("My Cart", "எனது கூடை")),
    ("activeOrders", Translation("Active Orders", "செயலில் உள்ள ஆர்டர்கள்")),
    ("inventory", Translation("Inventory", "சரக்கு")),
    ("stats", Translation("Stats", "புள்ளிவிவரம்")),
    ("adminDashboard", Translation("Admin Dashboard", "நிர்வாகப் பலகம்")),
    ("manageShops", Translation("Manage Shops", "கடைகளை நிர்வகி")),
    ("approve", Translation("Approve", "அங்கீகரி")),
    ("pendingApproval", Translation("Pending Approval", "அங்கீகாரத்திற்காக காத்திருக்கிறது")),
    ("pickup", Translation("Pickup", "பிக்கப்")),
    ("drop", Translation("Drop", "டிராப்")),
    ("confirmPickup", Translation("Confirm Pickup", "பிக்கப்பை உறுதிப்படுத்து")),
    ("verifyDelivery", Translation("Verify Delivery", "டெலிவரியை சரிபார்")),
    ("orderReady", Translation("Order Ready", "ஆர்டர் தயார்")),
    ("searchingPartner", Translation("Searching for partner", "பார்ட்னரைத் தேடுகிறது")),
    ("all", Translation("All", "அனைத்தும்"))
  ]

  const MOCK_STORES: seq<Store> := [
    Store("1", "Sri Krishna Sweets", "ஸ்ரீ கிருஷ்ணா ஸ்வீட்ஸ்", Hotel, 4.5, true, "s1"),
    Store("2", "City Grocery Mart", "சிட்டி மளிகை மார்ட்", Grocery, 4.2, true, "s2"),
    Store("3", "Apollo Pharmacy", "அப்போலோ பார்மசி", Medical, 4.8, true, "s3"),
    Store("4", "New Village Shop", "புதிய கிராமத்துக் கடை", Grocery, 0.0, false, "s4")
  ]

  const MOCK_PRODUCTS: seq<Product> := [
    Product("p1", "2", "Fresh Milk", "புதிய பால்", 30, 50),
    Product("p2", "2", "Rice 5kg", "அரிசி 5 கிலோ", 250, 20),
    Product("p3", "1", "Laddu Box", "லட்டு பெட்டி", 150, 15),
    Product("p4", "1", "Mysore Pak", "மைசூர் பாக்", 200, 10)
  ]

  /** No two entries of `ps` share an id. */
  predicate IdsDistinct(ps: seq<Product>) {
    forall i, j :: 0 <= i < j < |ps| ==> ps[i].id != ps[j].id
  }

  predicate HasStore(stores: seq<Store>, id: string) {
    exists s :: s in stores && s.id == id
  }

  lemma ProductIdsDistinct()
    ensures IdsDistinct(MOCK_PRODUCTS)
  {
  }

  lemma ProductStoresExist()
    ensures forall p :: p in MOCK_PRODUCTS ==> HasStore(MOCK_STORES, p.storeId)
  {
    assert MOCK_STORES[0].id == "1" && MOCK_STORES[1].id == "2";
  }

  /** Store '4' is the one store awaiting approval. */
  lemma OnlyStoreFourUnapproved()
    ensures forall s :: s in MOCK_STORES ==> (!s.isApproved <==> s.id == "4")
  {
  }

  lemma PricesPositive()
    ensures forall p :: p in MOCK_PRODUCTS ==> p.price > 0
  {
  }

  /** `TRANSLATIONS[key]`: the entry for `key`, if the table has one. As in
      an object literal, a key written twice keeps its last entry. */
  function Lookup(table: seq<(string, Translation)>, key: string): (r: Option<Translation>)
    ensures r.Some? <==> exists i :: 0 <= i < |table| && table[i].0 == key
    ensures r.Some? ==> exists i :: 0 <= i < |table| && table[i] == (key, r.value)
  {
    if table == [] then None
    else if table[|table| - 1].0 == key then Some(table[|table| - 1].1)
    else Lookup(table[..|table| - 1], key)
  }


  /** Every row of the table has a non-empty text in both languages. */
  lemma TranslationsComplete()
    ensures forall i :: 0 <= i < |TRANSLATIONS| ==> TRANSLATIONS[i].1.en != "" && TRANSLATIONS[i].1.ta != ""
  {
  }
}
