/** The `ProtectedRoute` component: on mount it asks `/api/auth/me` who is
    signed in and either shows its children or navigates away. */
module ProtectedRoute {
  import opened Wrappers
  import opened Browser

  /** `!(allowedRoles && !allowedRoles.includes(role))`: an absent list lets
      everyone in; a present one, even an empty one, must name the role. */
  predicate Allows(allowedRoles: Option<seq<string>>, role: string) {
    allowedRoles.None? || role in allowedRoles.value
  }

  /** What the component renders. */
  datatype View = Checking | Children | Nothing

  class Gate {
    const allowedRoles: Option<seq<string>>
    var loading: bool
    var isAuthorized: bool
    /** Every `router.push` so far, oldest first. */
    var pushed: seq<string>

    constructor(allowedRoles: Option<seq<string>>)
      ensures this.allowedRoles == allowedRoles
      ensures loading && !isAuthorized && pushed == []
    {
      this.allowedRoles := allowedRoles;
      loading := true;
      isAuthorized := false;
      pushed := [];
    }

    /** `checkAuth`. The no-token return sits before the `try`, so only that
        path leaves `loading` set; every other path passes the `finally`. */
    method CheckAuth(token: Option<string>, reply: MeReply)
      modifies this`loading, this`isAuthorized, this`pushed
      ensures !HasToken(token) ==> loading == old(loading) && isAuthorized == old(isAuthorized)
                                   && pushed == old(pushed) + [LoginPath]
      ensures HasToken(token) ==> !loading
      ensures HasToken(token) && (reply.NotOk? || reply.Threw?) ==>
                isAuthorized == old(isAuthorized) && pushed == old(pushed) + [LoginPath]
      ensures HasToken(token) && reply.Answered? && !Allows(allowedRoles, reply.role) ==>
                isAuthorized == old(isAuthorized) && pushed == old(pushed) + [UnauthorizedPath]
      ensures HasToken(token) && reply.Answered? && Allows(allowedRoles, reply.role) ==>
                isAuthorized && pushed == old(pushed)
    {
      if !HasToken(token) {
        pushed := pushed + [LoginPath];
        return;
      }
      match reply {
        case NotOk =>
          pushed := pushed + [LoginPath];
        case Threw =>
          pushed := pushed + [LoginPath];
        case Answered(role) =>
          if allowedRoles.Some? && role !in allowedRoles.value {
            pushed := pushed + [UnauthorizedPath];
          } else {
            isAuthorized := true;
          }
      }
      loading := false;
    }

    function Render(): (v: View)
      reads this
      ensures v == Children <==> !loading && isAuthorized
      ensures v == Checking <==> loading
    {
      if loading then Checking else if isAuthorized then Children else Nothing
    }
  }

  /** A freshly mounted component after its check has run: the view it
      settles on and where it navigated, if anywhere. */
  method Mount(allowedRoles: Option<seq<string>>, token: Option<string>, reply: MeReply)
    returns (view: View, target: Option<string>)
    ensures view == Children <==> HasToken(token) && reply.Answered? && Allows(allowedRoles, reply.role)
    ensures view == Checking <==> !HasToken(token)
    ensures target.None? <==> view == Children
    ensures target == Some(UnauthorizedPath) <==>
              HasToken(token) && reply.Answered? && !Allows(allowedRoles, reply.role)
  {
    var gate := new Gate(allowedRoles);
    gate.CheckAuth(token, reply);
    view := gate.Render();
    target := if gate.pushed == [] then None else Some(gate.pushed[|gate.pushed| - 1]);
  }
}
