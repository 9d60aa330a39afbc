/**
 * The header's navigation highlight: a link is active when its target is
 * the current path, or the current path followed by the current hash.
 */
module Header {

  /** `isActive`: the target equals `pathname + hash` or `pathname`. */
  function IsActive(pathname: string, hash: string, target: string): (active: bool)
    ensures pathname == target ==> active
    ensures pathname + hash == target ==> active
    ensures active ==> target == pathname || target == pathname + hash
    ensures hash == "" ==> (active <==> pathname == target)
  {
    pathname + hash == target || pathname == target
  }

  /** The three targets the header's links ask about. */
  const AboutTarget: string := "/#about"
  const FeaturesTarget: string := "/#features"
  const DashboardTarget: string := "/dashboard"

  /** At most two distinct targets are active at once: the path and the path with its hash. */
  lemma AtMostTwoActive(pathname: string, hash: string, t1: string, t2: string, t3: string)
    requires t1 != t2 && t2 != t3 && t1 != t3
    ensures !(IsActive(pathname, hash, t1) && IsActive(pathname, hash, t2) && IsActive(pathname, hash, t3))
  {
  }

  /** On the home page scrolled to the features section only the Features link is highlighted. */
  lemma FeaturesSectionActive()
    ensures IsActive("/", "#features", FeaturesTarget)
    ensures !IsActive("/", "#features", AboutTarget)
    ensures !IsActive("/", "#features", DashboardTarget)
  {
  }

  /** On the dashboard page without a hash only the Dashboard link is highlighted. */
  lemma DashboardPageActive()
    ensures IsActive("/dashboard", "", DashboardTarget)
    ensures !IsActive("/dashboard", "", AboutTarget)
    ensures !IsActive("/dashboard", "", FeaturesTarget)
  {
  }

  /** With a hash present, the bare path target is active as well as the path-with-hash one. */
  lemma HashKeepsPathActive(pathname: string, hash: string)
    ensures IsActive(pathname, hash, pathname) && IsActive(pathname, hash, pathname + hash)
  {
  }
}
