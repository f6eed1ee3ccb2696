/** The runtime classification of the `usePlatform` composable: every flag
    is derived from the five booleans the UI framework reports. */
module Platform {

  /** The framework's `Platform.is` flags that the composable reads. */
  datatype Flags = Flags(capacitor: bool, cordova: bool, mobile: bool, electron: bool, desktop: bool)

  function IsMobile(f: Flags): bool {
    f.capacitor || f.cordova || f.mobile
  }

  function IsDesktop(f: Flags): bool {
    f.electron || f.desktop
  }

  function IsWeb(f: Flags): bool {
    !IsMobile(f) && !IsDesktop(f)
  }

  function IsCapacitor(f: Flags): bool {
    f.capacitor
  }

  function IsElectron(f: Flags): bool {
    f.electron
  }

  /** The names `platformName` can take. */
  predicate KnownName(s: string) {
    s == "capacitor" || s == "electron" || s == "cordova" ||
    s == "mobile-web" || s == "desktop-web" || s == "web"
  }

  /** First match in the order capacitor, electron, cordova, mobile, desktop. */
  function PlatformName(f: Flags): (name: string)
    ensures KnownName(name)
  {
    if f.capacitor then "capacitor"
    else if f.electron then "electron"
    else if f.cordova then "cordova"
    else if f.mobile then "mobile-web"
    else if f.desktop then "desktop-web"
    else "web"
  }

  function ShouldShowMobileUI(f: Flags): bool {
    IsMobile(f) || f.capacitor
  }

  function ShouldShowDesktopUI(f: Flags): bool {
    IsDesktop(f) || f.electron
  }

  /** Each name is chosen exactly when its flag is the first raised one in
      the priority order. */
  lemma PlatformNameFirstMatch(f: Flags)
    ensures PlatformName(f) == "capacitor" <==> f.capacitor
    ensures PlatformName(f) == "electron" <==> !f.capacitor && f.electron
    ensures PlatformName(f) == "cordova" <==> !f.capacitor && !f.electron && f.cordova
    ensures PlatformName(f) == "mobile-web" <==> !f.capacitor && !f.electron && !f.cordova && f.mobile
    ensures PlatformName(f) == "desktop-web" <==>
              !f.capacitor && !f.electron && !f.cordova && !f.mobile && f.desktop
  {
  }

  /** The fallback name is reported exactly on a web runtime. */
  lemma PlatformNameWebIffIsWeb(f: Flags)
    ensures PlatformName(f) == "web" <==> IsWeb(f)
  {
  }

  /** The name agrees with the classification: the mobile names are
      reported only on mobile runtimes, the desktop names only on desktop
      runtimes. */
  lemma PlatformNameAgreesWithClass(f: Flags)
    ensures PlatformName(f) in {"capacitor", "cordova", "mobile-web"} ==> IsMobile(f)
    ensures PlatformName(f) in {"electron", "desktop-web"} ==> IsDesktop(f)
    ensures PlatformName(f) == "desktop-web" ==> !IsMobile(f)
  {
  }

  /** The extra disjuncts of the UI switches are already part of the
      classes, so the switches coincide with them. */
  lemma UISwitchesEqualClasses(f: Flags)
    ensures ShouldShowMobileUI(f) == IsMobile(f)
    ensures ShouldShowDesktopUI(f) == IsDesktop(f)
  {
  }
}
