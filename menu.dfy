/** The static navigation configuration: the menu items and the site settings they refer to. */
module Menu {
  import opened Wrappers
  import opened Types

  /** A menu entry (`text` is its `label`); `roles` restricts it to some roles, `featureFlag` to an enabled feature. */
  datatype MenuItem = MenuItem(path: string, text: string, roles: Option<seq<Role>>, featureFlag: Option<string>)

  /** `MENU_ITEMS`, in display order. */
  const MenuItems: seq<MenuItem> := [
    MenuItem("/", "Dashboard", None, None),
    MenuItem("/products", "Ürünler", None, None),
    MenuItem("/categories", "Kategoriler", None, None),
    MenuItem("/orders", "Siparişler", None, None),
    MenuItem("/customers", "Müşteriler", None, None),
    MenuItem("/banners", "Banner & İçerik", None, Some("BANNERS")),
    MenuItem("/reviews", "Yorumlar", None, Some("REVIEWS")),
    MenuItem("/legal-texts", "Yasal Metinler", None, Some("LEGAL_TEXTS")),
    MenuItem("/admin-users", "Admin Kullanıcılar", Some([SuperAdmin]), None)
  ]

  const SiteName := "Smell Admin"
  const SiteLogoText := "S"
  const DefaultPageTitle := "Admin Panel"

  /** `SETTINGS.MODULAR_FEATURES` */
  const Features: map<string, bool> := map["REVIEWS" := true, "BANNERS" := true, "LEGAL_TEXTS" := true]
}
