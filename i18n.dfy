/** The lookup `t(key)` that the application shell and every view define
    identically: the translation table's text for the current language, or the
    key itself when the table has no entry or the text is empty. */
module I18n {
  import opened Types
  import opened Constants
  import opened Text

  function InLanguage(tr: Translation, lang: Language): string {
    match lang
    case English => tr.en
    case Tamil => tr.ta
  }

  function T(lang: Language, key: string): string {
    match Lookup(TRANSLATIONS, key)
    case None => key
    case Some(tr) => if InLanguage(tr, lang) != "" then InLanguage(tr, lang) else key
  }

  /** A key the table lists is always translated: the lookup never falls back
      to the key itself. */
  lemma ListedKeyTranslated(lang: Language, key: string)
    requires Lookup(TRANSLATIONS, key).Some?
    ensures T(lang, key) == InLanguage(Lookup(TRANSLATIONS, key).value, lang)
    ensures T(lang, key) != ""
  {
    TranslationsComplete();
    var tr := Lookup(TRANSLATIONS, key).value;
    var i :| 0 <= i < |TRANSLATIONS| && TRANSLATIONS[i] == (key, tr);
  }

  /** No entry of the table has `key` as its key. */
  predicate Unlisted(key: string) {
    forall i :: 0 <= i < |TRANSLATIONS| ==> TRANSLATIONS[i].0 != key
  }

  lemma UnlistedFallsBack(lang: Language, key: string)
    requires Unlisted(key)
    ensures T(lang, key) == key
  {
  }

  lemma ShopOwnerKeyUnlisted()
    ensures Unlisted("shop_owner")
  {
  }

  lemma DeliveryPartnerKeyUnlisted()
    ensures Unlisted("delivery_partner")
  {
  }

  /** The role badge and the login heading translate `role.toLowerCase()`;
      the table has no such key for the two underscored roles, so those
      labels show the raw key. */
  lemma UnderscoredRoleKeysFallBack(lang: Language)
    ensures T(lang, "shop_owner") == "shop_owner"
    ensures T(lang, "delivery_partner") == "delivery_partner"
  {
    ShopOwnerKeyUnlisted();
    UnlistedFallsBack(lang, "shop_owner");
    DeliveryPartnerKeyUnlisted();
    UnlistedFallsBack(lang, "delivery_partner");
  }

  /** The string value of a role as the application stores it. */
  function RoleName(role: UserRole): string {
    match role
    case Customer => "CUSTOMER"
    case ShopOwner => "SHOP_OWNER"
    case DeliveryPartner => "DELIVERY_PARTNER"
    case Admin => "ADMIN"
  }

  /** The key the role badge and the login heading look up:
      `role.toLowerCase()`. */
  function RoleKey(role: UserRole): (r: string)
    ensures r == ToLower(RoleName(role))
  {
    match role
    case Customer => "customer"
    case ShopOwner => "shop_owner"
    case DeliveryPartner => "delivery_partner"
    case Admin => "admin"
  }

  /** The lookup finds the last row carrying the key. */
  lemma {:induction false} LookupLast(table: seq<(string, Translation)>, i: nat, key: string)
    requires i < |table| && table[i].0 == key
    requires forall j :: i < j < |table| ==> table[j].0 != key
    ensures Lookup(table, key) == Some(table[i].1)
    decreases |table|
  {
    if i < |table| - 1 {
      var front := table[..|table| - 1];
      assert front[i] == table[i];
      LookupLast(front, i, key);
    }
  }

  /** The customer and admin badges come out translated and never empty. */
  lemma CustomerBadgeTranslated(lang: Language)
    ensures Lookup(TRANSLATIONS, "customer").Some?
    ensures T(lang, "customer") == InLanguage(Lookup(TRANSLATIONS, "customer").value, lang) != ""
  {
    LookupLast(TRANSLATIONS, 2, "customer");
    ListedKeyTranslated(lang, "customer");
  }

  lemma AdminBadgeTranslated(lang: Language)
    ensures Lookup(TRANSLATIONS, "admin").Some?
    ensures T(lang, "admin") == InLanguage(Lookup(TRANSLATIONS, "admin").value, lang) != ""
  {
    LookupLast(TRANSLATIONS, 5, "admin");
    ListedKeyTranslated(lang, "admin");
  }
}
