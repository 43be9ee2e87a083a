/** What a tool descriptor and a call have to satisfy, and who may discover or execute a tool. */
module ToolPolicy {
  import opened Text
  import opened Wrappers

  datatype Level = Read | Draft | Command | Unknown(name: string)

  datatype Permission = Permission(resource: string, action: string)

  // schemas says that both schemas are blank or JSON objects.
  datatype Descriptor = Descriptor(
    name: string, version: string, description: string, level: Level, readOnly: bool,
    permissions: seq<Permission>, schemas: bool,
    reviewRequired: bool, reasons: seq<string>, confirmAction: string,
    supportsDryRun: bool, supportsIdempotency: bool, maxRows: int, timeoutSeconds: int)

  // isObject says that the arguments are blank or a JSON object.
  datatype Call = Call(callId: string, runId: string, name: string, version: string, isObject: bool, key: string, dryRun: bool)

  datatype Principal = Principal(userId: string, capabilityActive: bool, grants: seq<string>, permissions: seq<string>)

  datatype Policy = Policy(allowedLevels: set<Level>, allowCommand: bool, requireDraftReview: bool)

  datatype Error = InvalidDescriptor | InvalidCall | ContextRequired | CapabilityRequired | NotPermitted

  datatype Decision = Decision(requiresReview: bool, reasons: seq<string>)

  // ----- validation -----

  predicate NameChar(c: char) {
    'a' <= c <= 'z' || '0' <= c <= '9' || c == '.' || c == '-' || c == '_'
  }

  predicate ValidToolName(name: string) {
    Trim(name) != "" && forall c | c in Trim(name) :: NameChar(c)
  }

  predicate ValidDescriptor(d: Descriptor) {
    && ValidToolName(d.name) && Trim(d.version) != "" && Trim(d.description) != ""
    && !d.level.Unknown?
    && (d.level.Read? ==> d.readOnly)
    && (!d.level.Read? ==> !d.readOnly && d.supportsIdempotency)
    && d.permissions != []
    && (forall p | p in d.permissions :: Trim(p.resource) != "" && Trim(p.action) != "")
    && (!d.level.Read? ==> d.reviewRequired)
    && d.maxRows >= 0 && d.timeoutSeconds >= 0
    && d.schemas
  }

  predicate ValidCall(c: Call) {
    && Trim(c.callId) != "" && Trim(c.runId) != ""
    && ValidToolName(c.name) && Trim(c.version) != ""
    && c.isObject
  }

  // ----- the principal -----

  function Fold(s: string): string {
    Lower(Trim(s))
  }

  predicate Grants(granted: string, resource: string, action: string) {
    granted == "*:*" || granted == resource + ":*" || granted == resource + ":" + action
  }

  predicate HasPermission(p: Principal, required: Permission) {
    && Fold(required.resource) != "" && Fold(required.action) != ""
    && exists granted | granted in p.permissions :: Grants(Fold(granted), Fold(required.resource), Fold(required.action))
  }

  predicate HasCapability(p: Principal, name: string) {
    exists grant | grant in p.grants ::
      Fold(grant) == "*" || Fold(grant) == Fold(name) || Fold(grant) == "tool:" + Fold(name)
  }

  predicate Authenticated(context: Option<Principal>) {
    context.Some? && Trim(context.value.userId) != ""
  }

  // ----- the two decisions -----

  predicate RequiresReview(d: Descriptor, policy: Policy) {
    d.reviewRequired || (d.level.Draft? && policy.requireDraftReview)
  }

  function ReviewReasons(d: Descriptor): seq<string> {
    if d.reasons == [] then ["tool policy requires human review"] else d.reasons
  }

  function ReviewDecision(d: Descriptor, policy: Policy): Decision {
    if RequiresReview(d, policy) then Decision(true, ReviewReasons(d)) else Decision(false, [])
  }

  // The checks run in this order; the first that fails is reported.
  function Evaluate(context: Option<Principal>, d: Descriptor, c: Call, policy: Policy): Result<Decision, Error> {
    if !ValidDescriptor(d) then Err(InvalidDescriptor)
    else if !ValidCall(c) then Err(InvalidCall)
    else if !Authenticated(context) then Err(ContextRequired)
    else if d.name != c.name || d.version != c.version then Err(InvalidCall)
    else
      var p := context.value;
      if d.level !in policy.allowedLevels then Err(CapabilityRequired)
      else if p.capabilityActive && !HasCapability(p, d.name) then Err(CapabilityRequired)
      else if d.level.Command? && (!policy.allowCommand || !HasCapability(p, d.name)) then Err(CapabilityRequired)
      else if exists required | required in d.permissions :: !HasPermission(p, required) then Err(NotPermitted)
      else if c.dryRun && !d.supportsDryRun then Err(InvalidCall)
      else if !d.level.Read? && Trim(c.key) == "" then Err(InvalidCall)
      else Ok(ReviewDecision(d, policy))
  }

  predicate Discoverable(p: Principal, d: Descriptor, policy: Policy) {
    && d.level in policy.allowedLevels
    && (p.capabilityActive ==> HasCapability(p, d.name))
    && (d.level.Command? ==> policy.allowCommand && HasCapability(p, d.name))
    && forall required | required in d.permissions :: HasPermission(p, required)
  }

  // A valid call of this very tool, with the idempotency key and the dry-run support it needs.
  predicate WellFormedFor(d: Descriptor, c: Call) {
    && ValidCall(c) && c.name == d.name && c.version == d.version
    && (c.dryRun ==> d.supportsDryRun)
    && (!d.level.Read? ==> Trim(c.key) != "")
  }

  /** Discovery and execution agree: a call passes evaluation exactly when it is well formed for the tool and
      the tool is discoverable, for every valid descriptor and authenticated principal. */
  lemma EvaluationIsDiscovery(p: Principal, d: Descriptor, c: Call, policy: Policy)
    requires ValidDescriptor(d) && Authenticated(Some(p))
    ensures Evaluate(Some(p), d, c, policy).Ok? <==> WellFormedFor(d, c) && Discoverable(p, d, policy)
  {
    hide ValidDescriptor, ValidCall, HasCapability, HasPermission, Trim;
  }

  // ----- the decision, by the texts it is made of -----

  /** A grant opens a resource for an action when it is "*:*", or when it is the resource, a colon, and the action or a
      star, all trimmed and in small letters. */
  lemma PermittedIff(p: Principal, required: Permission)
    ensures HasPermission(p, required) <==>
              && Lower(Trim(required.resource)) != "" && Lower(Trim(required.action)) != ""
              && exists g :: g in p.permissions &&
                   var t := Lower(Trim(g));
                   || t == "*:*"
                   || exists i :: 0 <= i < |t| && t[i] == ':' && t[..i] == Lower(Trim(required.resource))
                                  && (t[i + 1..] == "*" || t[i + 1..] == Lower(Trim(required.action)))
  {
    forall g ensures Grants(Fold(g), Fold(required.resource), Fold(required.action)) <==>
        (var t := Lower(Trim(g));
         || t == "*:*"
         || exists i :: 0 <= i < |t| && t[i] == ':' && t[..i] == Lower(Trim(required.resource))
                        && (t[i + 1..] == "*" || t[i + 1..] == Lower(Trim(required.action))))
    {
      GrantSplits(Fold(g), Fold(required.resource), Fold(required.action));
    }
    hide Grants, Trim;
  }

  lemma GrantSplits(t: string, resource: string, action: string)
    ensures Grants(t, resource, action) <==>
              || t == "*:*"
              || exists i :: 0 <= i < |t| && t[i] == ':' && t[..i] == resource && (t[i + 1..] == "*" || t[i + 1..] == action)
  {
    if i :| 0 <= i < |t| && t[i] == ':' && t[..i] == resource {
      assert t == resource + ":" + t[i + 1..];
    }
    if t == resource + ":*" || t == resource + ":" + action {
      var i := |resource|;
      assert t[i] == ':' && t[..i] == resource && (t[i + 1..] == "*" || t[i + 1..] == action);
    }
  }

  // Where the first colon is; the length, if there is none.
  function FirstColon(t: string): (i: nat)
    ensures i <= |t| && (forall k :: 0 <= k < i ==> t[k] != ':') && (i < |t| ==> t[i] == ':')
  {
    if t == "" || t[0] == ':' then 0 else FirstColon(t[1..]) + 1
  }

  // All grants name other resources before their first colon, or other actions behind it.
  ghost predicate GrantsElsewhere(p: Principal, required: Permission) {
    forall g :: g in p.permissions ==>
      var t := Lower(Trim(g));
      var i := FirstColon(t);
      && t != "*:*"
      && (i == |t| || t[..i] != Lower(Trim(required.resource)) || (t[i + 1..] != "*" && t[i + 1..] != Lower(Trim(required.action))))
  }

  lemma ElsewhereIsNotPermitted(p: Principal, required: Permission)
    requires ':' !in Lower(Trim(required.resource)) && GrantsElsewhere(p, required)
    ensures !HasPermission(p, required)
  {
    var resource, action := Fold(required.resource), Fold(required.action);
    forall g | g in p.permissions ensures !Grants(Fold(g), resource, action) {
      NotGrantedElsewhere(Fold(g), resource, action);
    }
    hide Grants, Trim, Lower;
  }

  lemma NotGrantedElsewhere(t: string, resource: string, action: string)
    requires ':' !in resource && t != "*:*"
    requires var i := FirstColon(t); i == |t| || t[..i] != resource || (t[i + 1..] != "*" && t[i + 1..] != action)
    ensures !Grants(t, resource, action)
  {
    GrantSplits(t, resource, action);
    hide Grants;
    forall i | 0 <= i < |t| && t[i] == ':' && t[..i] == resource ensures i == FirstColon(t) {
      assert forall k :: 0 <= k < i ==> t[k] == resource[k] != ':';
    }
  }

  /** For a resource without a colon, a principal whose grants are all for other resources or other actions is refused. */
  lemma OtherGrantsAreRefused(p: Principal, d: Descriptor, c: Call, policy: Policy, required: Permission)
    requires required in d.permissions && ':' !in Lower(Trim(required.resource)) && GrantsElsewhere(p, required)
    ensures Evaluate(Some(p), d, c, policy).Err? && !Discoverable(p, d, policy)
  {
    ElsewhereIsNotPermitted(p, required);
    hide *;
    UnpermittedIsRefused(p, d, c, policy, required);
  }

  lemma UnpermittedIsRefused(p: Principal, d: Descriptor, c: Call, policy: Policy, required: Permission)
    requires required in d.permissions && !HasPermission(p, required)
    ensures Evaluate(Some(p), d, c, policy).Err? && !Discoverable(p, d, policy)
  {
    hide HasPermission, Trim, ValidDescriptor, ValidCall, HasCapability;
  }

  /** A tool is in a principal's grants as "*", by its name, or by its name behind "tool:". */
  lemma CapableIff(p: Principal, name: string)
    ensures HasCapability(p, name) <==>
              exists g :: g in p.grants &&
                var t := Lower(Trim(g));
                || t == "*" || t == Lower(Trim(name))
                || (|t| >= 5 && t[..5] == "tool:" && t[5..] == Lower(Trim(name)))
  {
    forall g ensures Fold(g) == "tool:" + Fold(name) <==> |Fold(g)| >= 5 && Fold(g)[..5] == "tool:" && Fold(g)[5..] == Fold(name) {
      if |Fold(g)| >= 5 && Fold(g)[..5] == "tool:" && Fold(g)[5..] == Fold(name) {
        assert Fold(g) == Fold(g)[..5] + Fold(g)[5..];
      }
    }
    hide Trim;
  }

  /** Small letters, digits, dots, dashes and underscores, and at least one of them. */
  lemma NamedIff(name: string)
    ensures ValidToolName(name) <==>
              && Trim(name) != ""
              && forall i :: 0 <= i < |Trim(name)| ==>
                   var c := Trim(name)[i];
                   c in {'.', '-', '_'} || 'a' as int <= c as int <= 'z' as int || '0' as int <= c as int <= '9' as int
  {
    var t := Trim(name);
    hide Trim;
    assert forall c :: c in t <==> exists i :: 0 <= i < |t| && t[i] == c;
    assert forall i :: 0 <= i < |t| ==> t[i] in t;
  }

  /** The whole decision: what makes a call pass, level by level. */
  lemma PassesIff(p: Principal, d: Descriptor, c: Call, policy: Policy)
    ensures Evaluate(Some(p), d, c, policy).Ok? <==>
              // the tool
              && ValidToolName(d.name) && Trim(d.version) != "" && Trim(d.description) != "" && d.schemas
              && d.permissions != [] && (forall r :: r in d.permissions ==> Trim(r.resource) != "" && Trim(r.action) != "")
              && d.maxRows >= 0 && d.timeoutSeconds >= 0
              && (d.level == Read || d.level == Draft || d.level == Command)
              && (d.level == Read ==> d.readOnly)
              && (d.level != Read ==> !d.readOnly && d.supportsIdempotency && d.reviewRequired && Trim(c.key) != "")
              // the call
              && Trim(c.callId) != "" && Trim(c.runId) != "" && c.isObject && c.name == d.name && c.version == d.version
              && (c.dryRun ==> d.supportsDryRun)
              // the principal
              && Trim(p.userId) != "" && d.level in policy.allowedLevels
              && (p.capabilityActive || d.level == Command ==> HasCapability(p, d.name))
              && (d.level == Command ==> policy.allowCommand)
              && (forall r :: r in d.permissions ==> HasPermission(p, r))
  {
    hide ValidToolName, HasCapability, HasPermission, Trim;
  }

  /** A call that passes is reviewed when its tool asks for it, or drafts under a policy that reviews drafts; then
      there is a reason, the tool's own ones if it has any. */
  lemma ReviewIff(p: Principal, d: Descriptor, c: Call, policy: Policy)
    requires Evaluate(Some(p), d, c, policy).Ok?
    ensures var decision := Evaluate(Some(p), d, c, policy).value;
            && (decision.requiresReview <==> d.reviewRequired || (d.level == Draft && policy.requireDraftReview))
            && (decision.requiresReview <==> decision.reasons != [])
            && (decision.requiresReview && d.reasons != [] ==> decision.reasons == d.reasons)
            && (decision.requiresReview && d.reasons == [] ==> decision.reasons == ["tool policy requires human review"])
  {
    hide ValidDescriptor, ValidCall, HasCapability, HasPermission, Trim;
  }

  /** Which error a refused call gets: that of the first check it fails. */
  lemma RefusedWith(context: Option<Principal>, d: Descriptor, c: Call, policy: Policy)
    ensures var e := Evaluate(context, d, c, policy);
            && (!ValidDescriptor(d) ==> e == Err(InvalidDescriptor))
            && (ValidDescriptor(d) && !ValidCall(c) ==> e == Err(InvalidCall))
            && (ValidDescriptor(d) && ValidCall(c) && (context.None? || Trim(context.value.userId) == "") ==> e == Err(ContextRequired))
            && (e == Err(ContextRequired) ==> context.None? || Trim(context.value.userId) == "")
            && (e == Err(NotPermitted) ==> exists r :: r in d.permissions && !HasPermission(context.value, r))
            && (e == Err(CapabilityRequired) ==>
                  || d.level !in policy.allowedLevels || !HasCapability(context.value, d.name)
                  || (d.level == Command && !policy.allowCommand))
  {
    hide ValidDescriptor, ValidCall, HasCapability, HasPermission, Trim;
  }

  /** Every tool that may write needs review under every policy. */
  lemma WritesNeedReview(d: Descriptor, policy: Policy)
    requires ValidDescriptor(d) && !d.level.Read?
    ensures ReviewDecision(d, policy).requiresReview && ReviewDecision(d, policy).reasons != []
  {
  }
}
