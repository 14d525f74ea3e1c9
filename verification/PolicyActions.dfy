/** What a policy can answer, from weakest to strongest. */
module PolicyActions {
  datatype PolicyAction = Allow | Ask | Deny

  function Rank(a: PolicyAction): nat {
    match a
    case Allow => 0
    case Ask => 1
    case Deny => 2
  }

  function Stronger(a: PolicyAction, b: PolicyAction): PolicyAction {
    if Rank(a) < Rank(b) then b else a
  }
}
