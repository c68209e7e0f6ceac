/**
 * The dashboard layout (frontend/src/app/dashboard/layout.tsx): from the
 * session's `user` and `loading` it decides what its effect does and what it
 * renders. It keeps no state of its own.
 */
module Dashboard {
  import opened Wrappers
  import opened Session

  const VerifyFirst := "Please verify your email first"

  datatype Render = Placeholder | Children

  /** The effect's alerts and route changes, in order, and what is rendered. */
  datatype Decision = Decision(effects: seq<Effect>, render: Render)

  /**
   * While loading: the placeholder and no effect. Afterwards the children are
   * rendered in every case, and the effect sends a missing user to /login
   * and an unconfirmed user to /login after an alert.
   */
  function Guard(user: Option<User>, loading: bool): (d: Decision)
    ensures d.render == Placeholder <==> loading
    ensures loading ==> d.effects == []
    ensures d.effects != [] <==> !loading && !(user.Some? && Confirmed(user.value))
    ensures d.effects != [] ==> d.effects[|d.effects| - 1] == Navigate(LoginRoute) && d.render == Children
    ensures Alert(VerifyFirst) in d.effects <==> !loading && user.Some? && !Confirmed(user.value)
    ensures forall i :: 0 <= i < |d.effects| ==> d.effects[i] in {Alert(VerifyFirst), Navigate(LoginRoute)}
    ensures |d.effects| <= 2
    ensures !loading && user.None? ==> d.effects == [Navigate(LoginRoute)]
    ensures !loading && user.Some? && !Confirmed(user.value) ==> d.effects == [Alert(VerifyFirst), Navigate(LoginRoute)]
  {
    var effects :=
      (if !loading && user.None? then [Navigate(LoginRoute)] else []) +
      (if !loading && user.Some? && !Confirmed(user.value) then [Alert(VerifyFirst), Navigate(LoginRoute)] else []);
    Decision(effects, if loading then Placeholder else Children)
  }
}
