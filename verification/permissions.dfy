/** The permission classes the viewsets combine (inventory/permissions.py and
    the framework's `IsAuthenticated`), and the framework's rule for running a
    list of them: in order, the first refusal ends the request. */
module Permissions {
  import opened Base
  import opened Models

  /** The caller as the permission classes see it. An authenticated user
      carries the value of `user.company`, a non-null foreign key, so it is
      always some company; the anonymous user object has no `company`
      attribute at all. */
  datatype Principal = Anonymous | Member(company: Id)

  /** How a stored user appears to the permission classes. */
  function PrincipalOf(u: CustomUser): Principal {
    Member(u.company)
  }

  /** The viewset actions the router exposes. */
  datatype Action = List | Retrieve | Create | Update | PartialUpdate | Destroy

  datatype Permission = IsAuthenticated | IsCompanyMember | IsCompanyMemberOrCreate

  /** What one check returns: allow, refuse, or raise because it read
      `company` from the anonymous user. */
  datatype Verdict = Allow | Deny | Crash

  /** `has_permission`, asked before the handler runs. Classes that do not
      override it inherit the framework's default, which allows. */
  function HasPermission(p: Permission, who: Principal, action: Action): Verdict {
    match p
    case IsAuthenticated => if who.Member? then Allow else Deny
    case IsCompanyMember => Allow
    case IsCompanyMemberOrCreate =>
      if action != Create then Allow
      else if who.Anonymous? then Crash
      else Allow
  }

  /** `has_object_permission`, asked once the record has been looked up;
      `owner` is the record's `company`. */
  function HasObjectPermission(p: Permission, who: Principal, owner: Id): Verdict {
    match p
    case IsAuthenticated => Allow
    case IsCompanyMember =>
      if who.Anonymous? then Crash
      else if who.company == owner then Allow
      else Deny
    case IsCompanyMemberOrCreate => Allow
  }

  /** The error a verdict other than Allow ends the request with: a refused
      anonymous caller is told to authenticate, a refused user is forbidden,
      and a crash propagates as the attribute error. */
  function Refusal(who: Principal, v: Verdict): Error
    requires v != Allow
  {
    if v == Crash then AttributeError
    else if who.Anonymous? then NotAuthenticated
    else PermissionDenied
  }

  /** The first refusal among `verdicts`, taken in order; None when all
      allow. */
  function FirstRefusal(who: Principal, verdicts: seq<Verdict>): (r: Option<Error>)
    ensures r.None? <==> forall i :: 0 <= i < |verdicts| ==> verdicts[i] == Allow
    ensures r.Some? ==> exists i :: (0 <= i < |verdicts| && verdicts[i] != Allow &&
      (forall j :: 0 <= j < i ==> verdicts[j] == Allow) && r.value == Refusal(who, verdicts[i]))
  {
    if |verdicts| == 0 then None
    else if verdicts[0] != Allow then Some(Refusal(who, verdicts[0]))
    else
      var rest := FirstRefusal(who, verdicts[1..]);
      assert forall i :: 1 <= i < |verdicts| ==> verdicts[i] == verdicts[1..][i - 1];
      rest
  }

  /** `check_permissions`: every class's `has_permission`, in order. */
  function CheckPermissions(perms: seq<Permission>, who: Principal, action: Action): (r: Option<Error>)
    ensures r.None? <==> forall i :: 0 <= i < |perms| ==> HasPermission(perms[i], who, action) == Allow
    ensures r.Some? ==> exists i :: (0 <= i < |perms| && HasPermission(perms[i], who, action) != Allow &&
      (forall j :: 0 <= j < i ==> HasPermission(perms[j], who, action) == Allow) &&
      r.value == Refusal(who, HasPermission(perms[i], who, action)))
  {
    var verdicts := seq(|perms|, i requires 0 <= i < |perms| => HasPermission(perms[i], who, action));
    assert forall i :: 0 <= i < |perms| ==> verdicts[i] == HasPermission(perms[i], who, action);
    FirstRefusal(who, verdicts)
  }

  /** `check_object_permissions`: every class's `has_object_permission`, in
      order. */
  function CheckObjectPermissions(perms: seq<Permission>, who: Principal, owner: Id): (r: Option<Error>)
    ensures r.None? <==> forall i :: 0 <= i < |perms| ==> HasObjectPermission(perms[i], who, owner) == Allow
    ensures r.Some? ==> exists i :: (0 <= i < |perms| && HasObjectPermission(perms[i], who, owner) != Allow &&
      (forall j :: 0 <= j < i ==> HasObjectPermission(perms[j], who, owner) == Allow) &&
      r.value == Refusal(who, HasObjectPermission(perms[i], who, owner)))
  {
    var verdicts := seq(|perms|, i requires 0 <= i < |perms| => HasObjectPermission(perms[i], who, owner));
    assert forall i :: 0 <= i < |perms| ==> verdicts[i] == HasObjectPermission(perms[i], who, owner);
    FirstRefusal(who, verdicts)
  }

  /** Object access under `IsCompanyMember` is allowed exactly when the
      record's company is the caller's company. */
  lemma ObjectAccessIffSameCompany(u: CustomUser, owner: Id)
    ensures HasObjectPermission(IsCompanyMember, PrincipalOf(u), owner) == Allow <==> u.company == owner
  {
  }

  /** A create action passes `IsCompanyMemberOrCreate` exactly for an
      authenticated caller, whose company is never None; for the anonymous
      user the check raises. */
  lemma CreateAllowedIffMember(who: Principal)
    ensures HasPermission(IsCompanyMemberOrCreate, who, Create) == Allow <==> who.Member?
    ensures who.Anonymous? ==> HasPermission(IsCompanyMemberOrCreate, who, Create) == Crash
  {
  }

  /** Every action other than create passes `IsCompanyMemberOrCreate`,
      whoever asks. */
  lemma NonCreatePasses(who: Principal, action: Action)
    requires action != Create
    ensures HasPermission(IsCompanyMemberOrCreate, who, action) == Allow
  {
  }

  /** Each class restricts at one level only: `IsCompanyMember` never refuses
      a request, and `IsCompanyMemberOrCreate` never refuses an object. */
  lemma OneLevelEach(who: Principal, action: Action, owner: Id)
    ensures HasPermission(IsCompanyMember, who, action) == Allow
    ensures HasObjectPermission(IsCompanyMemberOrCreate, who, owner) == Allow
  {
  }

  /** `CustomUser.company` is a non-null foreign key, so every stored user may
      create. */
  lemma EveryUserMayCreate(u: CustomUser)
    ensures HasPermission(IsCompanyMemberOrCreate, PrincipalOf(u), Create) == Allow
  {
  }

  /** The request ends with the refusal of the first check that does not
      allow, whatever the checks after it would say. */
  lemma {:induction false} EarliestRefusalWins(who: Principal, verdicts: seq<Verdict>, i: nat)
    requires i < |verdicts| && verdicts[i] != Allow
    requires forall j :: 0 <= j < i ==> verdicts[j] == Allow
    ensures FirstRefusal(who, verdicts) == Some(Refusal(who, verdicts[i]))
  {
    if i > 0 {
      assert verdicts[1..][i - 1] == verdicts[i];
      EarliestRefusalWins(who, verdicts[1..], i - 1);
    }
  }
}
