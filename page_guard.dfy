/**
 * The guard every signed-in page of the Next.js build repeats: with no
 * signed-in user the page renders nothing and an effect sends the browser
 * to the sign-in page.
 */
module PageGuard {
  import Routes

  /** What a guarded page shows: nothing (and a navigation), or its content. */
  datatype PageView<T> = Nothing(navigateTo: string) | Shows(content: T)

  function Guard<T>(isAuthenticated: bool, content: T): (v: PageView<T>)
    ensures v.Shows? <==> isAuthenticated
    ensures v.Shows? ==> v.content == content
    ensures v.Nothing? ==> v.navigateTo == Routes.SigninPath
  {
    if isAuthenticated then Shows(content) else Nothing(Routes.SigninPath)
  }

  /** The page guard sends a visitor where the single-page build's `ProtectedRoute` does. */
  lemma GuardAgreesWithProtectedRoute<T>(isAuthenticated: bool, content: T)
    ensures Guard(isAuthenticated, content).Shows? <==> Routes.ProtectedRoute(isAuthenticated, Routes.DashboardView).Render?
    ensures Guard(isAuthenticated, content).Nothing? ==>
      Routes.ProtectedRoute(isAuthenticated, Routes.DashboardView) == Routes.Redirect(Guard(isAuthenticated, content).navigateTo)
  {
  }
}
