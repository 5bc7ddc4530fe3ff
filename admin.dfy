/** The admin dashboard: the list of partner stores with an approve/suspend
    toggle per store, and the partner-store count. */
module AdminScreen {
  import opened Types
  import opened Constants
  import opened I18n

  /** `prev.map(s => s.id === id ? { ...s, isApproved: !s.isApproved } : s)`. */
  function Toggled(stores: seq<Store>, id: string): (r: seq<Store>)
    ensures |r| == |stores|
    ensures forall i :: 0 <= i < |stores| ==> r[i] == stores[i].(isApproved := r[i].isApproved)
    ensures forall i :: 0 <= i < |stores| ==>
      (r[i].isApproved == stores[i].isApproved <==> stores[i].id != id)
  {
    if stores == [] then []
    else
      var head := if stores[0].id == id then stores[0].(isApproved := !stores[0].isApproved) else stores[0];
      [head] + Toggled(stores[1..], id)
  }

  /** Toggling the same store twice gives back the list it started from. */
  lemma {:induction false} ToggleTwice(stores: seq<Store>, id: string)
    ensures Toggled(Toggled(stores, id), id) == stores
  {
    if stores != [] {
      var once := Toggled(stores, id);
      assert once[1..] == Toggled(stores[1..], id);
      ToggleTwice(stores[1..], id);
    }
  }

  /** Toggles of different stores do not interfere: their order does not
      matter. */
  lemma {:induction false} TogglesCommute(stores: seq<Store>, a: string, b: string)
    ensures Toggled(Toggled(stores, a), b) == Toggled(Toggled(stores, b), a)
  {
    if stores != [] {
      assert Toggled(stores, a)[1..] == Toggled(stores[1..], a);
      assert Toggled(stores, b)[1..] == Toggled(stores[1..], b);
      TogglesCommute(stores[1..], a, b);
    }
  }

  /** The approve label in each language. */
  lemma ApproveLabel(lang: Language)
    ensures T(lang, "approve") == if lang == English then "Approve" else "அங்கீகரி"
  {
    LookupLast(TRANSLATIONS, 33, "approve");
  }

  /** The label on a store's button: 'Suspend Access' exactly for an
      approved store, which is never translated; an unapproved one shows the
      approve label of the current language. */
  function ButtonLabel(store: Store, lang: Language): (r: string)
    ensures r == "Suspend Access" <==> store.isApproved
    ensures !store.isApproved ==> r == if lang == English then "Approve" else "அங்கீகரி"
  {
    ApproveLabel(lang);
    if store.isApproved then "Suspend Access" else T(lang, "approve")
  }

  class AdminView {
    var stores: seq<Store>

    constructor ()
      ensures stores == MOCK_STORES
    {
      stores := MOCK_STORES;
    }

    /** The Partner Stores figure. */
    function StoreCount(): nat
      reads this
    {
      |stores|
    }

    /** `toggleApproval(id)`; the store count is unchanged. */
    method ToggleApproval(id: string)
      modifies this
      ensures stores == Toggled(old(stores), id)
      ensures StoreCount() == old(StoreCount())
    {
      stores := Toggled(stores, id);
    }
  }
}
